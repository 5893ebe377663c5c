// The fixed board-game catalog and the search filter of the game-selection screen.

module Catalog {
  import opened Text
  import opened Sequences

  /** One catalog entry: identifier, display name, icon (emoji or file name), accent colour. */
  datatype Game = Game(id: int, name: string, image: string, color: string)

  /** The twelve catalog entries, in display order. */
  function BoardGames(): (r: seq<Game>)
    ensures |r| == 12
    ensures forall k :: 0 <= k < |r| ==> r[k].id == k + 1
  {
    [ Game(1, "Settlers of Catan", "catan-image.jpg", "#FF6B6B"),
      Game(2, "Ticket to Ride", "\U{1F682}", "#4ECDC4"),
      Game(3, "Azul", "\U{1F537}", "#45B7D1"),
      Game(4, "Splendor", "\U{1F48E}", "#96CEB4"),
      Game(5, "King of Tokyo", "\U{1F996}", "#FECA57"),
      Game(6, "Wingspan", "\U{1F985}", "#FF9FF3"),
      Game(7, "Pandemic", "\U{1F30D}", "#54A0FF"),
      Game(8, "Monopoly", "\U{1F3E0}", "#5F27CD"),
      Game(9, "Scrabble", "\U{1F4DD}", "#00D2D3"),
      Game(10, "Chess", "\U{265F}\U{FE0F}", "#FF6348"),
      Game(11, "Risk", "\U{2694}\U{FE0F}", "#C44569"),
      Game(12, "Clue", "\U{1F50D}", "#F8B500") ]
  }

  /** The identifiers a game card can carry. */
  predicate IsGameId(id: int)
  {
    exists g :: g in BoardGames() && g.id == id
  }

  /** The catalog's identifiers are exactly 1..12. */
  lemma GameIdRange(id: int)
    ensures IsGameId(id) <==> 1 <= id <= 12
  {
    if 1 <= id <= 12 {
      assert BoardGames()[id - 1] in BoardGames();
    }
  }

  /** The search predicate: the lower-cased name includes the lower-cased query. */
  predicate Matches(g: Game, query: string)
    ensures Matches(g, query) <==> Occurs(Lower(g.name), Lower(query))
  {
    Includes(Lower(g.name), Lower(query))
  }

  /** `games.filter(game => Matches(game, query))`. */
  function FilterGames(games: seq<Game>, query: string): (r: seq<Game>)
    ensures IsSubsequence(r, games)
    ensures forall g :: g in r <==> g in games && Matches(g, query)
  {
    if games == [] then []
    else if Matches(games[0], query) then [games[0]] + FilterGames(games[1..], query)
    else FilterGames(games[1..], query)
  }

  /** The filter keeps every matching entry as often as it occurs and drops every other. */
  lemma {:induction false} FilterCounts(games: seq<Game>, query: string, g: Game)
    ensures multiset(FilterGames(games, query))[g] == if Matches(g, query) then multiset(games)[g] else 0
  {
    if games != [] {
      FilterCounts(games[1..], query, g);
      assert games == [games[0]] + games[1..];
    }
  }

  /** What the game-selection screen lists for the current search text. */
  function FilteredGames(query: string): (r: seq<Game>)
    ensures IsSubsequence(r, BoardGames())
    ensures forall g :: g in r <==> g in BoardGames() && Matches(g, query)
  {
    FilterGames(BoardGames(), query)
  }

  /** When every entry matches, the filter keeps the whole list in its order. */
  lemma {:induction false} FilterKeepsAll(games: seq<Game>, query: string)
    requires forall g :: g in games ==> Matches(g, query)
    ensures FilterGames(games, query) == games
  {
    if games != [] {
      FilterKeepsAll(games[1..], query);
    }
  }

  /** An empty search lists all twelve games in catalog order. */
  lemma EmptyQueryListsAll()
    ensures FilteredGames("") == BoardGames()
  {
    forall g | g in BoardGames() ensures Matches(g, "") {
      IncludesEmpty(Lower(g.name));
    }
    FilterKeepsAll(BoardGames(), "");
  }

  /** Two searches that agree after lower-casing list the same games. */
  lemma {:induction false} FilterCaseInsensitive(games: seq<Game>, q1: string, q2: string)
    requires Lower(q1) == Lower(q2)
    ensures FilterGames(games, q1) == FilterGames(games, q2)
  {
    if games != [] {
      FilterCaseInsensitive(games[1..], q1, q2);
    }
  }

  /** When no entry matches, the filter lists nothing. */
  lemma {:induction false} FilterKeepsNone(games: seq<Game>, query: string)
    requires forall g :: g in games ==> !Matches(g, query)
    ensures FilterGames(games, query) == []
  {
    if games != [] {
      FilterKeepsNone(games[1..], query);
    }
  }

  /** When exactly the entry at index k matches, the filter lists that entry alone. */
  lemma {:induction false} FilterKeepsOne(games: seq<Game>, query: string, k: nat)
    requires k < |games| && Matches(games[k], query)
    requires forall j :: 0 <= j < |games| && j != k ==> !Matches(games[j], query)
    ensures FilterGames(games, query) == [games[k]]
  {
    if k == 0 {
      forall g | g in games[1..] ensures !Matches(g, query) {
        var j :| 0 <= j < |games[1..]| && games[1..][j] == g;
        assert games[j + 1] == g;
      }
      FilterKeepsNone(games[1..], query);
    } else {
      FilterKeepsOne(games[1..], query, k - 1);
    }
  }

  /** A name with neither a 'z' nor a 'Z' in it. */
  predicate HasNoZ(s: string)
  {
    forall i :: 0 <= i < |s| ==> s[i] != 'z' && s[i] != 'Z'
  }

  /** A string lacking a character of the needle cannot include the needle. */
  lemma MissingCharExcludes(hay: string, needle: string, c: char)
    requires c in needle && c !in hay
    ensures !Includes(hay, needle)
  {
    var k :| 0 <= k < |needle| && needle[k] == c;
    forall i: nat | i + |needle| <= |hay| ensures !OccursAt(hay, needle, i) {
      assert hay[i..i + |needle|][k] == hay[i + k];
    }
  }

  /** Lower-casing cannot introduce a 'z' into a name with neither 'z' nor 'Z'. */
  lemma LowerHasNoZ(s: string)
    requires HasNoZ(s)
    ensures 'z' !in Lower(s)
  {
  }

  /** Azul's name includes "az" once lower-cased. */
  lemma AzulMatchesAz()
    ensures Matches(BoardGames()[2], "az")
  {
  }

  /** A game whose name has neither 'z' nor 'Z' does not match "az". */
  lemma MissesAz(g: Game)
    requires HasNoZ(g.name)
    ensures !Matches(g, "az")
  {
    LowerHasNoZ(g.name);
    assert Lower("az") == "az";
    MissingCharExcludes(Lower(g.name), "az", 'z');
  }

  /** The catalog's display names, in order. */
  lemma CatalogNames()
    ensures BoardGames()[0].name == "Settlers of Catan"
    ensures BoardGames()[1].name == "Ticket to Ride"
    ensures BoardGames()[2].name == "Azul"
    ensures BoardGames()[3].name == "Splendor"
    ensures BoardGames()[4].name == "King of Tokyo"
    ensures BoardGames()[5].name == "Wingspan"
    ensures BoardGames()[6].name == "Pandemic"
    ensures BoardGames()[7].name == "Monopoly"
    ensures BoardGames()[8].name == "Scrabble"
    ensures BoardGames()[9].name == "Chess"
    ensures BoardGames()[10].name == "Risk"
    ensures BoardGames()[11].name == "Clue"
  {
  }

  /** Of the display names, only "Azul" has a 'z' or a 'Z' in it. */
  lemma NamesWithoutZ()
    ensures HasNoZ("Settlers of Catan")
    ensures HasNoZ("Ticket to Ride")
    ensures HasNoZ("Splendor")
    ensures HasNoZ("King of Tokyo")
    ensures HasNoZ("Wingspan")
    ensures HasNoZ("Pandemic")
    ensures HasNoZ("Monopoly")
    ensures HasNoZ("Scrabble")
    ensures HasNoZ("Chess")
    ensures HasNoZ("Risk")
    ensures HasNoZ("Clue")
  {
  }

  /** The entries listed before and just after Azul miss "az". */
  lemma EarlyOthersMissAz()
    ensures forall j :: 0 <= j < 6 && j != 2 ==> !Matches(BoardGames()[j], "az")
  {
    var games := BoardGames();
    CatalogNames();
    NamesWithoutZ();
    MissesAz(games[0]);
    MissesAz(games[1]);
    MissesAz(games[3]);
    MissesAz(games[4]);
    MissesAz(games[5]);
    forall j | 0 <= j < 6 && j != 2 ensures !Matches(games[j], "az") {
      assert j in {0, 1, 3, 4, 5};
    }
  }

  /** The last six entries miss "az". */
  lemma LateOthersMissAz()
    ensures forall j :: 6 <= j < 12 ==> !Matches(BoardGames()[j], "az")
  {
    var games := BoardGames();
    CatalogNames();
    NamesWithoutZ();
    MissesAz(games[6]);
    MissesAz(games[7]);
    MissesAz(games[8]);
    MissesAz(games[9]);
    MissesAz(games[10]);
    MissesAz(games[11]);
    forall j | 6 <= j < 12 ensures !Matches(games[j], "az") {
      assert j in {6, 7, 8, 9, 10, 11};
    }
  }

  /** Searching "az" lists exactly Azul. */
  lemma AzQueryListsAzul()
    ensures FilteredGames("az") == [BoardGames()[2]]
  {
    AzulMatchesAz();
    EarlyOthersMissAz();
    LateOthersMissAz();
    FilterKeepsOne(BoardGames(), "az", 2);
  }
}
