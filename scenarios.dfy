/** A walk through one small flow map: load, follow a transition, go back, and a map with a dangling target. */
module Scenarios {
  import opened Wrappers
  import opened Schema
  import opened Indexing
  import opened Navigation
  import opened PrototypeViewer

  function HomeDetail(target: string): FlowMap {
    FlowMap(None, None, "home",
            [Screen("home", "a.png"), Screen("detail", "b.png")],
            [Transition("home", target, "tap_card")])
  }

  /** A transition to an undeclared screen is rejected, and the error names that screen. */
  lemma DanglingTargetIsNamed(base: string, resolve: Resolver)
    ensures BuildIndexes(HomeDetail("missing"), base, resolve).result == Failure(UnknownToScreen("missing"))
  {
    var fm := HomeDetail("missing");
    var screens := ScreenIndex(fm.screens, base, resolve);
    ScreenIndexKeys(fm.screens, base, resolve);
    assert ScreenIds(fm.screens) == {"home", "detail"};
    assert "missing" !in screens;
    BuildIndexesAtBadTransition(fm, base, resolve, 0);
  }

  /** The two-screen map indexes cleanly, and "home" offers exactly its one transition. */
  lemma HomeDetailIndexes(base: string, resolve: Resolver)
    ensures BuildIndexes(HomeDetail("detail"), base, resolve).result.Success?
    ensures Outgoing(HomeDetail("detail").transitions, "home") == [Transition("home", "detail", "tap_card")]
    ensures Lookup(BuildIndexes(HomeDetail("detail"), base, resolve).transitionsByFrom, "home") ==
      [Transition("home", "detail", "tap_card")]
  {
    var fm := HomeDetail("detail");
    ScreenIndexKeys(fm.screens, base, resolve);
    assert ScreenIds(fm.screens) == {"home", "detail"};
    IndexSucceedsIff(fm, base, resolve);
    IndexedGraphIsClosed(fm, base, resolve);
  }

  /** Load, follow "tap_card", go back, then go back once more with nothing left on the stack. */
  method Walkthrough(url: string, resolve: Resolver)
  {
    var viewer := new Viewer();
    var fm := HomeDetail("detail");
    ValidateToDocument(fm);
    HomeDetailIndexes(url, resolve);
    var loaded := viewer.LoadFlowMap(ToDocument(fm), url, resolve);
    assert loaded.Success?;
    assert viewer.NavState() == Nav("home", []);
    assert viewer.CurrentView().value.outgoing == [Transition("home", "detail", "tap_card")];

    viewer.NavigateTo("detail", "tap_card");
    assert viewer.NavState() == Nav("detail", ["home"]);

    var moved := viewer.GoBack();
    assert moved && viewer.NavState() == Nav("home", []);

    moved := viewer.GoBack();
    assert !moved && viewer.NavState() == Nav("home", []);
  }
}
