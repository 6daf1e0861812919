/**
  The viewer's shared state and the operations that change it: the indexer
  filling the two lookup maps in place, `navigateTo`, `goBack`, and the
  synchronous part of a load (check, index, reset).
 */
module PrototypeViewer {
  import opened Wrappers
  import opened Schema
  import opened Indexing
  import opened Navigation

  datatype LoadError = SchemaFailure(schemaError: SchemaError) | GraphFailure(graphError: GraphError)

  /** What the screen on show offers: the indexed screen and the transitions leaving it. */
  datatype View = View(screen: IndexedScreen, outgoing: seq<Transition>)

  class Viewer {
    var flowMap: Option<FlowMap>
    var flowMapUrl: Option<string>
    var screensById: map<string, IndexedScreen>
    var transitionsByFrom: map<string, seq<Transition>>
    var currentScreenId: string  // "" while the viewer holds null
    var history: seq<string>

    /** The maps are consistent and the stack holds only set ids. */
    ghost predicate Valid()
      reads this
    {
      Consistent(screensById, transitionsByFrom) && WellFormed(NavState())
    }

    function NavState(): Nav
      reads this
    {
      Nav(currentScreenId, history)
    }

    constructor ()
      ensures Valid()
      ensures flowMap == None && flowMapUrl == None
      ensures screensById == map[] && transitionsByFrom == map[]
      ensures NavState() == Nav("", [])
    {
      flowMap := None;
      flowMapUrl := None;
      screensById := map[];
      transitionsByFrom := map[];
      currentScreenId := "";
      history := [];
    }

    /**
      The lookups behind drawing the current screen: nothing when the current id
      is not indexed, otherwise its screen and the transitions leaving it.
     */
    function CurrentView(): (v: Option<View>)
      reads this
      requires Valid()
      ensures v.Some? <==> currentScreenId in screensById
      ensures v.Some? ==> v.value.screen == screensById[currentScreenId]
      ensures v.Some? ==> v.value.outgoing == Lookup(transitionsByFrom, currentScreenId)
      ensures v.Some? ==> v.value.screen.screen.id == currentScreenId && ScreenOk(v.value.screen.screen)
      ensures v.Some? ==> forall t :: t in v.value.outgoing ==>
        t.fromScreen == currentScreenId && t.toScreen in screensById && t.trigger != ""
    {
      if currentScreenId !in screensById then None
      else Some(View(screensById[currentScreenId], Lookup(transitionsByFrom, currentScreenId)))
    }

    /**
      Clears both maps, then fills them from the flow map, stopping at the first
      failure with whatever has been inserted so far.
     */
    method IndexFlowMap(fm: FlowMap, base: string, resolve: Resolver) returns (r: Result<(), GraphError>)
      requires Valid()
      modifies this`screensById, this`transitionsByFrom
      ensures Valid()
      ensures r == BuildIndexes(fm, base, resolve).result
      ensures screensById == BuildIndexes(fm, base, resolve).screensById
      ensures transitionsByFrom == BuildIndexes(fm, base, resolve).transitionsByFrom
    {
      screensById := map[];
      transitionsByFrom := map[];

      var bad := InsertScreens(fm.screens, base, resolve);
      if bad < |fm.screens| {
        BuildIndexesAtBadScreen(fm, base, resolve, bad);
        return Failure(ScreenWithoutIdOrImage);
      }
      assert fm.screens[..bad] == fm.screens;

      if fm.startScreen !in screensById {
        BuildIndexesAtStart(fm, base, resolve);
        return Failure(UnknownStartScreen);
      }

      var rejected := AppendTransitions(fm.transitions);
      if rejected.Some? {
        BuildIndexesAtBadTransition(fm, base, resolve, FirstBadTransition(fm.transitions, screensById.Keys));
        return Failure(rejected.value);
      }
      assert fm.transitions[..|fm.transitions|] == fm.transitions;
      BuildIndexesComplete(fm, base, resolve);
      r := Success(());
    }

    /**
      The screen loop of `IndexFlowMap`: inserts each screen under its id, last
      write winning, and stops at the first screen without id or image, whose
      position it returns (the length when there is none).
     */
    method InsertScreens(screens: seq<Screen>, base: string, resolve: Resolver) returns (bad: nat)
      requires screensById == map[]
      modifies this`screensById
      ensures bad == FirstBadScreen(screens)
      ensures screensById == ScreenIndex(screens[..bad], base, resolve)
    {
      var i := 0;
      while i < |screens|
        invariant 0 <= i <= |screens|
        invariant forall k :: 0 <= k < i ==> ScreenOk(screens[k])
        invariant screensById == ScreenIndex(screens[..i], base, resolve)
      {
        var screen := screens[i];
        if screen.id == "" || screen.image == "" {
          FirstBadScreenAt(screens, i);
          return i;
        }
        var imageUrl := resolve(screen.image, base);
        ScreenIndexStep(screens, i, base, resolve);
        screensById := screensById[screen.id := IndexedScreen(screen, imageUrl)];
        i := i + 1;
      }
      bad := i;
    }

    /**
      The transition loop of `IndexFlowMap`: checks each transition against the
      indexed screens and appends it to the list of its source, stopping at the
      first rejected one, whose error it returns.
     */
    method AppendTransitions(ts: seq<Transition>) returns (rejected: Option<GraphError>)
      requires transitionsByFrom == map[]
      modifies this`transitionsByFrom
      ensures var j := FirstBadTransition(ts, screensById.Keys);
        && transitionsByFrom == TransitionIndex(ts[..j])
        && rejected == (if j < |ts| then TransitionError(ts[j], screensById.Keys) else None)
    {
      var j := 0;
      while j < |ts|
        invariant 0 <= j <= |ts|
        invariant forall k :: 0 <= k < j ==> TransitionOk(ts[k], screensById.Keys)
        invariant transitionsByFrom == TransitionIndex(ts[..j])
      {
        var t := ts[j];
        if t.fromScreen == "" || t.toScreen == "" || t.trigger == "" {
          FirstBadTransitionAt(ts, screensById.Keys, j);
          return Some(IncompleteTransition);
        }
        if t.fromScreen !in screensById {
          FirstBadTransitionAt(ts, screensById.Keys, j);
          return Some(UnknownFromScreen(t.fromScreen));
        }
        if t.toScreen !in screensById {
          FirstBadTransitionAt(ts, screensById.Keys, j);
          return Some(UnknownToScreen(t.toScreen));
        }
        var list := if t.fromScreen in transitionsByFrom then transitionsByFrom[t.fromScreen] else [];
        list := list + [t];
        TransitionIndexStep(ts, j);
        transitionsByFrom := transitionsByFrom[t.fromScreen := list];
        j := j + 1;
      }
      rejected := None;
    }

    /**
      `navigateTo`: the target is not looked up; the trigger name only feeds the
      status line, which is not part of this model.
     */
    method NavigateTo(target: string, trigger: string)
      requires Valid()
      modifies this`currentScreenId, this`history
      ensures Valid()
      ensures NavState() == Navigate(old(NavState()), target)
    {
      if currentScreenId != "" {
        history := history + [currentScreenId];
      }
      currentScreenId := target;
    }

    /**
      `goBack`: pops the stack and moves there; with an empty stack it reports
      that there is no previous screen and changes nothing.
     */
    method GoBack() returns (moved: bool)
      requires Valid()
      modifies this`currentScreenId, this`history
      ensures Valid()
      ensures NavState() == Back(old(NavState()))
      ensures moved <==> old(history) != []
    {
      if history == [] {
        moved := false;
      } else {
        // every pushed id is set, so the popped one is never falsy here
        currentScreenId := history[|history| - 1];
        history := history[..|history| - 1];
        moved := true;
      }
    }

    /**
      The synchronous part of `loadFlowMap`, given the parsed document and its
      resolved address: check the shape, index, and only then reset navigation
      to the start screen. A shape failure changes nothing; an index failure
      leaves the maps as the indexer left them and everything else as it was.
     */
    method LoadFlowMap(doc: Document, url: string, resolve: Resolver) returns (r: Result<(), LoadError>)
      requires Valid()
      modifies this
      ensures Valid()
      ensures Validate(doc).Failure? ==>
        r == Failure(SchemaFailure(Validate(doc).error)) && unchanged(this)
      ensures Validate(doc).Success? ==>
        && screensById == BuildIndexes(Validate(doc).value, url, resolve).screensById
        && transitionsByFrom == BuildIndexes(Validate(doc).value, url, resolve).transitionsByFrom
      ensures Validate(doc).Success? && BuildIndexes(Validate(doc).value, url, resolve).result.Failure? ==>
        && r == Failure(GraphFailure(BuildIndexes(Validate(doc).value, url, resolve).result.error))
        && flowMap == old(flowMap) && flowMapUrl == old(flowMapUrl) && NavState() == old(NavState())
      ensures r.Success? <==> Validate(doc).Success? && BuildIndexes(Validate(doc).value, url, resolve).result.Success?
      ensures r.Success? ==>
        && flowMap == Some(Validate(doc).value) && flowMapUrl == Some(url)
        && NavState() == Nav(Validate(doc).value.startScreen, [])
      ensures r.Success? ==>
        && CurrentView().Some?
        && CurrentView().value.screen.screen.id == Validate(doc).value.startScreen
        && CurrentView().value.outgoing == Outgoing(Validate(doc).value.transitions, Validate(doc).value.startScreen)
    {
      var checked := Validate(doc);
      if checked.Failure? {
        return Failure(SchemaFailure(checked.error));
      }
      var fm := checked.value;
      var indexed := IndexFlowMap(fm, url, resolve);
      if indexed.Failure? {
        return Failure(GraphFailure(indexed.error));
      }
      IndexedGraphIsClosed(fm, url, resolve);
      flowMap := Some(fm);
      flowMapUrl := Some(url);
      history := [];
      currentScreenId := fm.startScreen;
      r := Success(());
    }
  }
}
