/** The list `playerGuessedRightWord` (backend/server.js, line 49) of ids
    that guessed the current word, and the `filter` at line 148 that asks
    whether an id is already in it. */
module GuessList {
  import opened Roster

  predicate NoDup(s: seq<Id>) {
    forall i, j :: 0 <= i < j < |s| ==> s[i] != s[j]
  }

  /** `s.filter(x => x === id).length`, counted from the back so that a scan
      from the front extends it one element at a time. */
  function Count(s: seq<Id>, id: Id): (n: nat)
    ensures n <= |s|
    ensures n == 0 <==> id !in s
  {
    if s == [] then 0
    else Count(s[..|s| - 1], id) + (if s[|s| - 1] == id then 1 else 0)
  }

  /** The linear scan of `filter`, returning how many entries equal `id`. */
  method CountMatches(s: seq<Id>, id: Id) returns (n: nat)
    ensures n == Count(s, id)
  {
    n := 0;
    var i := 0;
    while i < |s|
      invariant 0 <= i <= |s|
      invariant n == Count(s[..i], id)
    {
      assert s[..i + 1][..i] == s[..i];
      if s[i] == id {
        n := n + 1;
      }
      i := i + 1;
    }
    assert s[..i] == s;
  }

  /** Appending an id that is not yet there keeps the list duplicate-free. */
  lemma PushKeepsNoDup(s: seq<Id>, id: Id)
    requires NoDup(s) && id !in s
    ensures NoDup(s + [id])
  {
  }

  /** In a duplicate-free list every id occurs at most once. */
  lemma {:induction false} NoDupCountAtMostOne(s: seq<Id>, id: Id)
    requires NoDup(s)
    ensures Count(s, id) <= 1
  {
    if s != [] {
      var init := s[..|s| - 1];
      assert NoDup(init);
      NoDupCountAtMostOne(init, id);
      if s[|s| - 1] == id {
        assert id !in init;
      }
    }
  }
}
