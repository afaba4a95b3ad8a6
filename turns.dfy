/** Drawer index arithmetic of `startTurn` and `endTurn`
    (backend/server.js, lines 67-72 and 85). */
module Turns {

  /** `startTurn`: an index past the end of the roster falls back to 0. */
  function TurnStartIndex(i: nat, n: nat): (r: nat)
    ensures n > 0 ==> r < n
    ensures i < n ==> r == i
    ensures i >= n ==> r == 0
  {
    if i >= n then 0 else i
  }

  /** `endTurn`: `(drawerIndex + 1) % players.length` on a non-empty roster. */
  function NextDrawer(i: nat, n: nat): (r: nat)
    requires n > 0
    ensures r < n
    ensures i + 1 < n ==> r == i + 1
    ensures i + 1 == n ==> r == 0
  {
    (i + 1) % n
  }

  /** The drawer after `k` turn ends on a roster of a fixed size `n`. */
  function Rotate(i: nat, k: nat, n: nat): nat
    requires n > 0
  {
    if k == 0 then i else NextDrawer(Rotate(i, k - 1, n), n)
  }

  /** Before the end of the roster is reached, each turn end moves the
      drawer one place on. */
  lemma {:induction false} RotateNoWrap(i: nat, k: nat, n: nat)
    requires i + k < n
    ensures Rotate(i, k, n) == i + k
  {
    if k > 0 {
      RotateNoWrap(i, k - 1, n);
    }
  }

  /** `a` turn ends followed by `b` more are `a + b` turn ends. */
  lemma {:induction false} RotateCompose(i: nat, a: nat, b: nat, n: nat)
    requires n > 0
    ensures Rotate(i, a + b, n) == Rotate(Rotate(i, a, n), b, n)
  {
    if b > 0 {
      RotateCompose(i, a, b - 1, n);
    }
  }

  /** After `n` turn ends on a roster of `n` players the drawer is back where
      it started. */
  lemma RotateFullCycle(i: nat, n: nat)
    requires i < n
    ensures Rotate(i, n, n) == i
  {
    RotateNoWrap(i, n - i - 1, n);
    assert Rotate(i, n - i, n) == 0;
    RotateCompose(i, n - i, i, n);
    RotateNoWrap(0, i, n);
  }

  /** On a stable roster every player becomes the drawer within `n` turns:
      from drawer `i`, player `j` draws after `(j - i) mod n` turn ends. */
  lemma EveryPlayerDraws(i: nat, j: nat, n: nat)
    requires i < n && j < n
    ensures Rotate(i, if i <= j then j - i else j + n - i, n) == j
  {
    if i <= j {
      RotateNoWrap(i, j - i, n);
    } else {
      RotateNoWrap(i, n - i - 1, n);
      assert Rotate(i, n - i, n) == 0;
      RotateCompose(i, n - i, j, n);
      RotateNoWrap(0, j, n);
    }
  }
}
