/** Induction along a sequence of worlds. */
module Runs {
  import opened Protocol

  ghost predicate Kept(ws: seq<World>, ok: World -> bool, k: int)
    requires 0 <= k < |ws| - 1
  {
    ok(ws[k]) ==> ok(ws[k + 1])
  }

  /** What every step keeps holds throughout. */
  lemma {:induction false} Throughout(ws: seq<World>, ok: World -> bool, n: nat)
    requires n < |ws| && ok(ws[0]) && forall k :: 0 <= k < |ws| - 1 ==> Kept(ws, ok, k)
    ensures ok(ws[n])
  {
    if n > 0 {
      Throughout(ws, ok, n - 1);
      assert Kept(ws, ok, n - 1);
    }
  }

  ghost predicate Drops(ws: seq<World>, ok: World -> bool, left: World -> int, k: int)
    requires 0 <= k < |ws| - 1
  {
    ok(ws[k]) ==> ok(ws[k + 1]) && left(ws[k + 1]) < left(ws[k])
  }

  /** What falls with every step has fallen by the number of steps. */
  lemma {:induction false} FallsThroughout(ws: seq<World>, ok: World -> bool, left: World -> int, n: nat)
    requires n < |ws| && ok(ws[0]) && forall k :: 0 <= k < |ws| - 1 ==> Drops(ws, ok, left, k)
    ensures ok(ws[n]) && left(ws[n]) + n <= left(ws[0])
  {
    if n > 0 {
      FallsThroughout(ws, ok, left, n - 1);
      assert Drops(ws, ok, left, n - 1);
    }
  }

  /** What follows from what holds throughout holds at the end. */
  lemma FallsToEnd(ws: seq<World>, ok: World -> bool, left: World -> int, done: World -> bool)
    requires |ws| > 0 && ok(ws[0]) && forall k :: 0 <= k < |ws| - 1 ==> Drops(ws, ok, left, k)
    requires forall v :: ok(v) ==> done(v)
    ensures done(ws[|ws| - 1]) && left(ws[|ws| - 1]) + |ws| <= left(ws[0]) + 1
  {
    FallsThroughout(ws, ok, left, |ws| - 1);
  }
}
