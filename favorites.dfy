// The favourite-game list of the user draft and the card-tap toggle that edits it.

module Favorites {
  import opened Sequences

  /** No identifier appears twice in the list. */
  predicate NoDuplicates(favs: seq<int>)
  {
    forall i, j :: 0 <= i < j < |favs| ==> favs[i] != favs[j]
  }

  /** `favs.filter(id => id !== gameId)`: every other identifier, in its order. */
  function Without(favs: seq<int>, gameId: int): (r: seq<int>)
    ensures IsSubsequence(r, favs)
    ensures forall id :: id in r <==> id in favs && id != gameId
    ensures multiset(r) == multiset(favs)[gameId := 0]
  {
    if favs == [] then []
    else
      assert favs == [favs[0]] + favs[1..];
      var rest := Without(favs[1..], gameId);
      if favs[0] == gameId then
        SubsequenceOfTail(rest, favs);
        rest
      else
        assert ([favs[0]] + rest)[1..] == rest;
        [favs[0]] + rest
  }

  /** Removing an id that is not listed leaves the list as it is. */
  lemma {:induction false} WithoutAbsent(favs: seq<int>, gameId: int)
    requires gameId !in favs
    ensures Without(favs, gameId) == favs
  {
    if favs != [] {
      WithoutAbsent(favs[1..], gameId);
      assert favs == [favs[0]] + favs[1..];
    }
  }

  /** Removing an id keeps a duplicate-free list duplicate-free. */
  lemma {:induction false} WithoutKeepsNoDuplicates(favs: seq<int>, gameId: int)
    requires NoDuplicates(favs)
    ensures NoDuplicates(Without(favs, gameId))
  {
    if favs != [] {
      WithoutKeepsNoDuplicates(favs[1..], gameId);
      if favs[0] != gameId {
        var rest := Without(favs[1..], gameId);
        assert favs[0] !in rest;
        assert Without(favs, gameId) == [favs[0]] + rest;
      }
    }
  }

  /** The new list built by `toggleGameSelection`: drop the id if present, else append it. */
  function Toggled(favs: seq<int>, gameId: int): (r: seq<int>)
    ensures gameId in favs ==> IsSubsequence(r, favs) && multiset(r) == multiset(favs)[gameId := 0]
    ensures gameId !in favs ==> |r| == |favs| + 1 && r[..|favs|] == favs && r[|favs|] == gameId
  {
    if gameId in favs then Without(favs, gameId) else favs + [gameId]
  }

  /** Toggling flips the membership of the tapped id and of no other id. */
  lemma ToggleFlipsMembership(favs: seq<int>, gameId: int)
    ensures gameId in Toggled(favs, gameId) <==> gameId !in favs
    ensures forall id :: id != gameId ==> (id in Toggled(favs, gameId) <==> id in favs)
  {
  }

  /** Toggling keeps the list free of duplicates. */
  lemma ToggleKeepsNoDuplicates(favs: seq<int>, gameId: int)
    requires NoDuplicates(favs)
    ensures NoDuplicates(Toggled(favs, gameId))
  {
    if gameId in favs {
      WithoutKeepsNoDuplicates(favs, gameId);
    }
  }

  /** Toggling an absent id appends it at the end. */
  lemma ToggleAbsentAppends(favs: seq<int>, gameId: int)
    requires gameId !in favs
    ensures Toggled(favs, gameId) == favs + [gameId]
  {
  }

  /** Toggling an absent id twice gives back the very same list. */
  lemma ToggleTwiceAbsent(favs: seq<int>, gameId: int)
    requires gameId !in favs
    ensures Toggled(Toggled(favs, gameId), gameId) == favs
  {
    assert gameId in favs + [gameId];
    WithoutAppend(favs, [gameId], gameId);
    WithoutAbsent(favs, gameId);
    assert Without([gameId], gameId) == [];
  }

  /** Toggling a present id twice moves it to the end: same members, same multiplicities
      when the list had no duplicates, but not the same order in general. */
  lemma ToggleTwicePresent(favs: seq<int>, gameId: int)
    requires gameId in favs
    ensures Toggled(Toggled(favs, gameId), gameId) == Without(favs, gameId) + [gameId]
    ensures forall id :: id in Toggled(Toggled(favs, gameId), gameId) <==> id in favs
    ensures NoDuplicates(favs) ==> multiset(Toggled(Toggled(favs, gameId), gameId)) == multiset(favs)
  {
    if NoDuplicates(favs) {
      OnceInNoDuplicates(favs, gameId);
      assert multiset(Without(favs, gameId) + [gameId]) == multiset(favs)[gameId := 0] + multiset{gameId};
    }
  }

  /** Removing an id from a concatenation removes it from each part. */
  lemma {:induction false} WithoutAppend(a: seq<int>, b: seq<int>, gameId: int)
    ensures Without(a + b, gameId) == Without(a, gameId) + Without(b, gameId)
  {
    if a == [] {
      assert a + b == b;
    } else {
      assert (a + b)[1..] == a[1..] + b;
      WithoutAppend(a[1..], b, gameId);
    }
  }

  /** In a list without duplicates, a member occurs exactly once. */
  lemma {:induction false} OnceInNoDuplicates(favs: seq<int>, gameId: int)
    requires NoDuplicates(favs) && gameId in favs
    ensures multiset(favs)[gameId] == 1
  {
    assert favs == [favs[0]] + favs[1..];
    if favs[0] == gameId {
      assert gameId !in favs[1..];
    } else {
      OnceInNoDuplicates(favs[1..], gameId);
    }
  }

  /** Toggling with ids drawn from a set keeps every listed id in that set. */
  lemma ToggleStaysWithin(favs: seq<int>, gameId: int, ids: set<int>)
    requires forall id :: id in favs ==> id in ids
    requires gameId in ids
    ensures forall id :: id in Toggled(favs, gameId) ==> id in ids
  {
  }
}
