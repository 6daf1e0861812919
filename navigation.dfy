/**
  The navigation state (`currentScreenId` and the `history` stack) and its two
  moves, `navigateTo` and `goBack`, as values; the viewer's methods are proved
  against these.
 */
module Navigation {

  /** The screen on show ("" before the first load, where the viewer holds null) and the back-stack, most recent last. */
  datatype Nav = Nav(currentScreenId: string, history: seq<string>)

  /** Only screen ids that were set are ever pushed. */
  predicate WellFormed(n: Nav) {
    forall i :: 0 <= i < |n.history| ==> n.history[i] != ""
  }

  /** `navigateTo`: push the current id if one is set, then move to the target, which is not looked up. */
  function Navigate(n: Nav, target: string): (r: Nav)
    ensures r.currentScreenId == target
    ensures |r.history| == |n.history| + (if n.currentScreenId != "" then 1 else 0)
    ensures r.history[..|n.history|] == n.history
    ensures WellFormed(n) ==> WellFormed(r)
  {
    Nav(target, if n.currentScreenId != "" then n.history + [n.currentScreenId] else n.history)
  }

  /** `goBack`: pop the stack; move to the popped id unless it is falsy (the stack was empty). */
  function Back(n: Nav): (r: Nav)
    ensures n.history == [] ==> r == n
    ensures n.history != [] ==> |r.history| == |n.history| - 1
    ensures r.history == n.history[..|r.history|]
    ensures WellFormed(n) && n.history != [] ==> r.currentScreenId == n.history[|n.history| - 1]
  {
    if n.history == [] then n
    else
      var previous := n.history[|n.history| - 1];
      var rest := n.history[..|n.history| - 1];
      if previous == "" then Nav(n.currentScreenId, rest) else Nav(previous, rest)
  }

  /** Navigate through the targets in turn. */
  function Follow(n: Nav, targets: seq<string>): Nav
    decreases |targets|
  {
    if targets == [] then n else Follow(Navigate(n, targets[0]), targets[1..])
  }

  /** Go back k times. */
  function BackTimes(n: Nav, k: nat): Nav
    decreases k
  {
    if k == 0 then n else BackTimes(Back(n), k - 1)
  }

  predicate AllSet(targets: seq<string>) {
    forall i :: 0 <= i < |targets| ==> targets[i] != ""
  }

  /** Both moves keep every id on the stack set. */
  lemma MovesKeepWellFormed(n: Nav, target: string)
    requires WellFormed(n)
    ensures WellFormed(Navigate(n, target))
    ensures WellFormed(Back(n))
  {
  }

  /** On a well-formed state, going back with a non-empty stack always moves to the top id. */
  lemma BackPops(n: Nav)
    requires WellFormed(n) && n.history != []
    ensures Back(n) == Nav(n.history[|n.history| - 1], n.history[..|n.history| - 1])
  {
  }

  /** Going back with an empty stack changes nothing. */
  lemma BackOnEmptyHistory(n: Nav)
    requires n.history == []
    ensures Back(n) == n
  {
  }

  /** Once a screen is on show, going back undoes a navigation exactly. */
  lemma BackUndoesNavigate(n: Nav, target: string)
    requires n.currentScreenId != ""
    ensures Back(Navigate(n, target)) == n
  {
    assert (n.history + [n.currentScreenId])[..|n.history|] == n.history;
  }

  lemma {:induction false} BackTimesLast(n: Nav, k: nat)
    ensures BackTimes(n, k + 1) == Back(BackTimes(n, k))
    decreases k
  {
    if k > 0 {
      BackTimesLast(Back(n), k - 1);
    }
  }

  /** After a walk through set ids, the stack holds the start and every target but the last, in order. */
  lemma {:induction false} FollowHistory(n: Nav, targets: seq<string>)
    requires n.currentScreenId != "" && AllSet(targets) && targets != []
    ensures Follow(n, targets) ==
      Nav(targets[|targets| - 1], n.history + [n.currentScreenId] + targets[..|targets| - 1])
    decreases |targets|
  {
    var next := Navigate(n, targets[0]);
    if |targets| > 1 {
      FollowHistory(next, targets[1..]);
      assert targets[1..][..|targets| - 2] == targets[1..|targets| - 1];
      assert [targets[0]] + targets[1..|targets| - 1] == targets[..|targets| - 1];
    }
  }

  /** As many backs as forward moves through set ids return to the starting state. */
  lemma {:induction false} BackTimesUndoesFollow(n: Nav, targets: seq<string>)
    requires n.currentScreenId != "" && AllSet(targets)
    ensures BackTimes(Follow(n, targets), |targets|) == n
    decreases |targets|
  {
    if targets != [] {
      var next := Navigate(n, targets[0]);
      var rest := targets[1..];
      BackTimesUndoesFollow(next, rest);
      BackTimesLast(Follow(next, rest), |rest|);
      BackUndoesNavigate(n, targets[0]);
    }
  }
}
