/**
  The graph indexer (`indexFlowMap`) as a specification: the two lookup
  structures it builds from a validated flow map, how far it gets before it
  rejects one, and which error it reports.
 */
module Indexing {
  import opened Wrappers
  import opened Schema

  /** A screen as the index stores it: the declared screen plus its resolved image address. */
  datatype IndexedScreen = IndexedScreen(screen: Screen, imageUrl: string)

  datatype GraphError =
    | ScreenWithoutIdOrImage
    | UnknownStartScreen
    | IncompleteTransition
    | UnknownFromScreen(id: string)
    | UnknownToScreen(id: string)
  {
    function Message(): string {
      match this
      case ScreenWithoutIdOrImage => "Every screen requires 'id' and 'image'."
      case UnknownStartScreen => "start_screen is not present in screens."
      case IncompleteTransition => "Each transition requires from_screen, to_screen, and trigger."
      case UnknownFromScreen(id) => "Unknown from_screen: " + id
      case UnknownToScreen(id) => "Unknown to_screen: " + id
    }
  }

  /** Resolution of an image reference against the document's address; left uninterpreted. */
  type Resolver = (string, string) -> string

  /** What the indexer leaves behind: its verdict and the two maps as they stand at that point. */
  datatype Indexes = Indexes(result: Result<(), GraphError>,
                             screensById: map<string, IndexedScreen>,
                             transitionsByFrom: map<string, seq<Transition>>)

  predicate ScreenOk(s: Screen) {
    s.id != "" && s.image != ""
  }

  predicate TransitionOk(t: Transition, known: set<string>) {
    && t.fromScreen != "" && t.toScreen != "" && t.trigger != ""
    && t.fromScreen in known && t.toScreen in known
  }

  function ScreenIds(screens: seq<Screen>): set<string> {
    set s | s in screens :: s.id
  }

  function FromIds(ts: seq<Transition>): set<string> {
    set t | t in ts :: t.fromScreen
  }

  /** Screen i declares its id for the last time in the list. */
  ghost predicate LastWithId(screens: seq<Screen>, i: int) {
    0 <= i < |screens| && forall j :: i < j < |screens| ==> screens[j].id != screens[i].id
  }

  function Entry(s: Screen, base: string, resolve: Resolver): IndexedScreen {
    IndexedScreen(s, resolve(s.image, base))
  }

  /** `screensById` after inserting the screens in order, each keyed by its id. */
  function ScreenIndex(screens: seq<Screen>, base: string, resolve: Resolver): (m: map<string, IndexedScreen>)
    ensures forall id :: id in m ==> m[id].screen.id == id && m[id].imageUrl == resolve(m[id].screen.image, base)
  {
    if screens == [] then map[]
    else
      var last := screens[|screens| - 1];
      ScreenIndex(screens[..|screens| - 1], base, resolve)[last.id := Entry(last, base, resolve)]
  }

  /** The list a key maps to, or the empty list for an absent key. */
  function Lookup(m: map<string, seq<Transition>>, k: string): seq<Transition> {
    if k in m then m[k] else []
  }

  /** `transitionsByFrom` after appending the transitions in order, each to the list of its source. */
  function TransitionIndex(ts: seq<Transition>): (m: map<string, seq<Transition>>)
    ensures forall id :: id in m ==> m[id] != []
  {
    if ts == [] then map[]
    else
      var t := ts[|ts| - 1];
      var m := TransitionIndex(ts[..|ts| - 1]);
      m[t.fromScreen := Lookup(m, t.fromScreen) + [t]]
  }

  /** Reference definition: the transitions leaving screen s, in declaration order. */
  function Outgoing(ts: seq<Transition>, s: string): seq<Transition> {
    if ts == [] then []
    else (if ts[0].fromScreen == s then [ts[0]] else []) + Outgoing(ts[1..], s)
  }

  /** The verdict on one transition: its three fields are checked first, then its source, then its target. */
  function TransitionError(t: Transition, known: set<string>): (r: Option<GraphError>)
    ensures r.None? <==> TransitionOk(t, known)
    ensures r == Some(IncompleteTransition) <==> t.fromScreen == "" || t.toScreen == "" || t.trigger == ""
    ensures r == Some(UnknownFromScreen(t.fromScreen)) <==>
      t.fromScreen != "" && t.toScreen != "" && t.trigger != "" && t.fromScreen !in known
    ensures r == Some(UnknownToScreen(t.toScreen)) <==>
      t.fromScreen != "" && t.toScreen != "" && t.trigger != "" && t.fromScreen in known && t.toScreen !in known
    ensures r.Some? ==> r.value.IncompleteTransition? || r.value.UnknownFromScreen? || r.value.UnknownToScreen?
  {
    if t.fromScreen == "" || t.toScreen == "" || t.trigger == "" then Some(IncompleteTransition)
    else if t.fromScreen !in known then Some(UnknownFromScreen(t.fromScreen))
    else if t.toScreen !in known then Some(UnknownToScreen(t.toScreen))
    else None
  }

  /** The position of the first screen without id or image, or the length when there is none. */
  function FirstBadScreen(screens: seq<Screen>): (k: nat)
    ensures k <= |screens|
    ensures forall i :: 0 <= i < k ==> ScreenOk(screens[i])
    ensures k < |screens| ==> !ScreenOk(screens[k])
  {
    if screens == [] || !ScreenOk(screens[0]) then 0
    else 1 + FirstBadScreen(screens[1..])
  }

  /** The position of the first rejected transition, or the length when there is none. */
  function FirstBadTransition(ts: seq<Transition>, known: set<string>): (k: nat)
    ensures k <= |ts|
    ensures forall i :: 0 <= i < k ==> TransitionOk(ts[i], known)
    ensures k < |ts| ==> !TransitionOk(ts[k], known)
  {
    if ts == [] || !TransitionOk(ts[0], known) then 0
    else 1 + FirstBadTransition(ts[1..], known)
  }

  /** One more step of the screen loop. */
  lemma ScreenIndexStep(screens: seq<Screen>, i: int, base: string, resolve: Resolver)
    requires 0 <= i < |screens|
    ensures ScreenIndex(screens[..i + 1], base, resolve) ==
      ScreenIndex(screens[..i], base, resolve)[screens[i].id := Entry(screens[i], base, resolve)]
  {
    assert screens[..i + 1][..i] == screens[..i];
  }

  /** One more step of the transition loop. */
  lemma TransitionIndexStep(ts: seq<Transition>, j: int)
    requires 0 <= j < |ts|
    ensures TransitionIndex(ts[..j + 1]) ==
      TransitionIndex(ts[..j])[ts[j].fromScreen := Lookup(TransitionIndex(ts[..j]), ts[j].fromScreen) + [ts[j]]]
  {
    assert ts[..j + 1][..j] == ts[..j];
  }

  lemma FirstBadScreenAt(screens: seq<Screen>, i: int)
    requires 0 <= i < |screens| && !ScreenOk(screens[i])
    requires forall k :: 0 <= k < i ==> ScreenOk(screens[k])
    ensures FirstBadScreen(screens) == i
  {
  }

  lemma FirstBadTransitionAt(ts: seq<Transition>, known: set<string>, j: int)
    requires 0 <= j < |ts| && !TransitionOk(ts[j], known)
    requires forall k :: 0 <= k < j ==> TransitionOk(ts[k], known)
    ensures FirstBadTransition(ts, known) == j
  {
  }

  /**
    The indexer, phase by phase: both maps start empty; screens are inserted up
    to the first bad one; the start screen is looked up; transitions are
    appended up to the first bad one.
   */
  function BuildIndexes(fm: FlowMap, base: string, resolve: Resolver): (r: Indexes)
    ensures r.result.Success? ==> fm.startScreen in r.screensById
    ensures r.result == Failure(ScreenWithoutIdOrImage) || r.result == Failure(UnknownStartScreen) ==>
      r.transitionsByFrom == map[]
    ensures r.result == Failure(ScreenWithoutIdOrImage) <==> FirstBadScreen(fm.screens) < |fm.screens|
  {
    var k := FirstBadScreen(fm.screens);
    if k < |fm.screens| then
      Indexes(Failure(ScreenWithoutIdOrImage), ScreenIndex(fm.screens[..k], base, resolve), map[])
    else
      var screens := ScreenIndex(fm.screens, base, resolve);
      if fm.startScreen !in screens then
        Indexes(Failure(UnknownStartScreen), screens, map[])
      else
        var j := FirstBadTransition(fm.transitions, screens.Keys);
        if j < |fm.transitions| then
          Indexes(Failure(TransitionError(fm.transitions[j], screens.Keys).value), screens,
                  TransitionIndex(fm.transitions[..j]))
        else
          Indexes(Success(()), screens, TransitionIndex(fm.transitions))
  }

  /**
    The invariant both maps keep, even when indexing stopped half way: every
    screen sits under its own id and has an image, every listed transition sits
    under its source and leads between indexed screens.
   */
  ghost predicate Consistent(screens: map<string, IndexedScreen>, byFrom: map<string, seq<Transition>>) {
    ScreensKeyed(screens) && EdgesClosed(byFrom, screens.Keys)
  }

  /** Every screen sits under its own id and has an image. */
  ghost predicate ScreensKeyed(screens: map<string, IndexedScreen>) {
    forall id :: id in screens ==> screens[id].screen.id == id && ScreenOk(screens[id].screen)
  }

  /** Every listed transition sits under its source and is accepted against the known ids. */
  ghost predicate EdgesClosed(byFrom: map<string, seq<Transition>>, known: set<string>) {
    forall id, t :: id in byFrom && t in byFrom[id] ==> t.fromScreen == id && TransitionOk(t, known)
  }

  // ---------------------------------------------------------------------------
  // The screen index

  lemma {:induction false} ScreenIndexKeys(screens: seq<Screen>, base: string, resolve: Resolver)
    ensures ScreenIndex(screens, base, resolve).Keys == ScreenIds(screens)
  {
    if screens != [] {
      var init := screens[..|screens| - 1];
      var last := screens[|screens| - 1];
      ScreenIndexKeys(init, base, resolve);
      assert screens == init + [last];
      assert ScreenIds(screens) == ScreenIds(init) + {last.id};
    }
  }

  /** Last write wins: an id maps to the last screen that declares it. */
  lemma {:induction false} ScreenIndexLastWins(screens: seq<Screen>, base: string, resolve: Resolver, i: int)
    requires LastWithId(screens, i)
    ensures screens[i].id in ScreenIndex(screens, base, resolve)
    ensures ScreenIndex(screens, base, resolve)[screens[i].id] == Entry(screens[i], base, resolve)
  {
    var n := |screens|;
    if i < n - 1 {
      var init := screens[..n - 1];
      assert screens[n - 1].id != screens[i].id;
      ScreenIndexLastWins(init, base, resolve, i);
    }
  }

  /** Every entry of the index is one of the declared screens, stored under its own id with its resolved image. */
  lemma {:induction false} ScreenIndexEntries(screens: seq<Screen>, base: string, resolve: Resolver)
    ensures forall id :: id in ScreenIndex(screens, base, resolve) ==>
      var e := ScreenIndex(screens, base, resolve)[id];
      e.screen in screens && e.screen.id == id && e == Entry(e.screen, base, resolve)
  {
    if screens != [] {
      var init := screens[..|screens| - 1];
      ScreenIndexEntries(init, base, resolve);
      assert screens == init + [screens[|screens| - 1]];
    }
  }

  // ---------------------------------------------------------------------------
  // The transition index

  lemma {:induction false} OutgoingSnoc(ts: seq<Transition>, t: Transition, s: string)
    ensures Outgoing(ts + [t], s) == Outgoing(ts, s) + (if t.fromScreen == s then [t] else [])
  {
    var tail := if t.fromScreen == s then [t] else [];
    if ts == [] {
      assert (ts + [t])[1..] == [];
    } else {
      var head := if ts[0].fromScreen == s then [ts[0]] else [];
      assert (ts + [t])[0] == ts[0];
      assert (ts + [t])[1..] == ts[1..] + [t];
      OutgoingSnoc(ts[1..], t, s);
      calc {
        Outgoing(ts + [t], s);
        head + Outgoing(ts[1..] + [t], s);
        head + (Outgoing(ts[1..], s) + tail);
        (head + Outgoing(ts[1..], s)) + tail;
        Outgoing(ts, s) + tail;
      }
    }
  }

  /**
    Each screen's list is exactly the subsequence of the transitions leaving
    it, in declaration order, and only screens with such transitions are keys.
   */
  lemma {:induction false} TransitionIndexIsFilter(ts: seq<Transition>)
    ensures TransitionIndex(ts).Keys == FromIds(ts)
    ensures forall s :: Lookup(TransitionIndex(ts), s) == Outgoing(ts, s)
  {
    if ts != [] {
      var init := ts[..|ts| - 1];
      var t := ts[|ts| - 1];
      TransitionIndexIsFilter(init);
      assert ts == init + [t];
      assert FromIds(ts) == FromIds(init) + {t.fromScreen};
      forall s
        ensures Lookup(TransitionIndex(ts), s) == Outgoing(ts, s)
      {
        OutgoingSnoc(init, t, s);
      }
    }
  }

  /** A transition index built from accepted transitions lists only accepted transitions, each under its source. */
  lemma {:induction false} TransitionIndexAccepted(ts: seq<Transition>, known: set<string>)
    requires forall i :: 0 <= i < |ts| ==> TransitionOk(ts[i], known)
    ensures EdgesClosed(TransitionIndex(ts), known)
  {
    if ts != [] {
      var init := ts[..|ts| - 1];
      var last := ts[|ts| - 1];
      TransitionIndexAccepted(init, known);
      var m := TransitionIndex(init);
      assert TransitionOk(last, known);
      forall id, t | id in TransitionIndex(ts) && t in TransitionIndex(ts)[id]
        ensures t.fromScreen == id && TransitionOk(t, known)
      {
        if id == last.fromScreen && t !in Lookup(m, id) {
          assert t == last;
        }
      }
    }
  }

  // ---------------------------------------------------------------------------
  // The indexer as a whole

  /** An index built from screens that all have id and image keeps each under its own id. */
  lemma ScreenIndexKeyed(screens: seq<Screen>, base: string, resolve: Resolver)
    requires forall i :: 0 <= i < |screens| ==> ScreenOk(screens[i])
    ensures ScreensKeyed(ScreenIndex(screens, base, resolve))
  {
    ScreenIndexEntries(screens, base, resolve);
  }

  /** Whatever the outcome, including a rejection half way, the two maps are consistent. */
  lemma BuildIndexesConsistent(fm: FlowMap, base: string, resolve: Resolver)
    ensures Consistent(BuildIndexes(fm, base, resolve).screensById, BuildIndexes(fm, base, resolve).transitionsByFrom)
  {
    var k := FirstBadScreen(fm.screens);
    if k < |fm.screens| {
      ScreenIndexKeyed(fm.screens[..k], base, resolve);
    } else {
      var screens := ScreenIndex(fm.screens, base, resolve);
      ScreenIndexKeyed(fm.screens, base, resolve);
      if fm.startScreen in screens {
        var j := FirstBadTransition(fm.transitions, screens.Keys);
        TransitionIndexAccepted(fm.transitions[..j], screens.Keys);
        assert j == |fm.transitions| ==> fm.transitions[..j] == fm.transitions;
      }
    }
  }

  // How far the indexer got, phase by phase; each also keeps the maps consistent.

  lemma BuildIndexesAtBadScreen(fm: FlowMap, base: string, resolve: Resolver, i: int)
    requires 0 <= i < |fm.screens| && !ScreenOk(fm.screens[i])
    requires forall k :: 0 <= k < i ==> ScreenOk(fm.screens[k])
    ensures BuildIndexes(fm, base, resolve) ==
      Indexes(Failure(ScreenWithoutIdOrImage), ScreenIndex(fm.screens[..i], base, resolve), map[])
    ensures Consistent(BuildIndexes(fm, base, resolve).screensById, BuildIndexes(fm, base, resolve).transitionsByFrom)
  {
    FirstBadScreenAt(fm.screens, i);
    BuildIndexesConsistent(fm, base, resolve);
  }

  lemma BuildIndexesAtStart(fm: FlowMap, base: string, resolve: Resolver)
    requires forall k :: 0 <= k < |fm.screens| ==> ScreenOk(fm.screens[k])
    requires fm.startScreen !in ScreenIndex(fm.screens, base, resolve)
    ensures BuildIndexes(fm, base, resolve) ==
      Indexes(Failure(UnknownStartScreen), ScreenIndex(fm.screens, base, resolve), map[])
    ensures Consistent(BuildIndexes(fm, base, resolve).screensById, BuildIndexes(fm, base, resolve).transitionsByFrom)
  {
    BuildIndexesConsistent(fm, base, resolve);
  }

  lemma BuildIndexesAtBadTransition(fm: FlowMap, base: string, resolve: Resolver, j: int)
    requires forall k :: 0 <= k < |fm.screens| ==> ScreenOk(fm.screens[k])
    requires fm.startScreen in ScreenIndex(fm.screens, base, resolve)
    requires 0 <= j < |fm.transitions|
    requires !TransitionOk(fm.transitions[j], ScreenIndex(fm.screens, base, resolve).Keys)
    requires forall k :: 0 <= k < j ==> TransitionOk(fm.transitions[k], ScreenIndex(fm.screens, base, resolve).Keys)
    ensures BuildIndexes(fm, base, resolve) ==
      Indexes(Failure(TransitionError(fm.transitions[j], ScreenIndex(fm.screens, base, resolve).Keys).value),
              ScreenIndex(fm.screens, base, resolve), TransitionIndex(fm.transitions[..j]))
    ensures Consistent(BuildIndexes(fm, base, resolve).screensById, BuildIndexes(fm, base, resolve).transitionsByFrom)
  {
    FirstBadTransitionAt(fm.transitions, ScreenIndex(fm.screens, base, resolve).Keys, j);
    BuildIndexesConsistent(fm, base, resolve);
  }

  lemma BuildIndexesComplete(fm: FlowMap, base: string, resolve: Resolver)
    requires forall k :: 0 <= k < |fm.screens| ==> ScreenOk(fm.screens[k])
    requires fm.startScreen in ScreenIndex(fm.screens, base, resolve)
    requires forall k :: 0 <= k < |fm.transitions| ==> TransitionOk(fm.transitions[k], ScreenIndex(fm.screens, base, resolve).Keys)
    ensures BuildIndexes(fm, base, resolve) ==
      Indexes(Success(()), ScreenIndex(fm.screens, base, resolve), TransitionIndex(fm.transitions))
    ensures Consistent(BuildIndexes(fm, base, resolve).screensById, BuildIndexes(fm, base, resolve).transitionsByFrom)
  {
    BuildIndexesConsistent(fm, base, resolve);
  }

  /** Indexing succeeds exactly when every screen has id and image, the start screen is declared and every transition is accepted. */
  lemma IndexSucceedsIff(fm: FlowMap, base: string, resolve: Resolver)
    ensures BuildIndexes(fm, base, resolve).result.Success? <==>
      && (forall s :: s in fm.screens ==> ScreenOk(s))
      && fm.startScreen in ScreenIds(fm.screens)
      && (forall t :: t in fm.transitions ==> TransitionOk(t, ScreenIds(fm.screens)))
  {
    ScreenIndexKeys(fm.screens, base, resolve);
    var k := FirstBadScreen(fm.screens);
    if k < |fm.screens| {
      assert fm.screens[k] in fm.screens;
    } else {
      var ids := ScreenIds(fm.screens);
      var j := FirstBadTransition(fm.transitions, ids);
      if j < |fm.transitions| {
        assert fm.transitions[j] in fm.transitions;
      }
    }
  }

  /**
    A successful index is a closed graph: the screen keys are the declared ids,
    the start screen is one of them, every list holds exactly the transitions
    leaving its key in declaration order, and no edge dangles.
   */
  lemma IndexedGraphIsClosed(fm: FlowMap, base: string, resolve: Resolver)
    requires BuildIndexes(fm, base, resolve).result.Success?
    ensures BuildIndexes(fm, base, resolve).screensById.Keys == ScreenIds(fm.screens)
    ensures fm.startScreen in BuildIndexes(fm, base, resolve).screensById
    ensures BuildIndexes(fm, base, resolve).transitionsByFrom.Keys == FromIds(fm.transitions)
    ensures forall s :: Lookup(BuildIndexes(fm, base, resolve).transitionsByFrom, s) == Outgoing(fm.transitions, s)
    ensures Consistent(BuildIndexes(fm, base, resolve).screensById, BuildIndexes(fm, base, resolve).transitionsByFrom)
  {
    ScreenIndexKeys(fm.screens, base, resolve);
    TransitionIndexIsFilter(fm.transitions);
    BuildIndexesConsistent(fm, base, resolve);
  }

  /**
    The error reported is the first failure in checking order: a bad screen
    anywhere beats everything, an undeclared start screen comes next, and a
    transition error comes from the first rejected transition.
   */
  lemma IndexReportsFirstFailure(fm: FlowMap, base: string, resolve: Resolver)
    ensures BuildIndexes(fm, base, resolve).result == Failure(ScreenWithoutIdOrImage) <==>
      exists i :: 0 <= i < |fm.screens| && !ScreenOk(fm.screens[i])
    ensures BuildIndexes(fm, base, resolve).result == Failure(UnknownStartScreen) <==>
      (forall s :: s in fm.screens ==> ScreenOk(s)) && fm.startScreen !in ScreenIds(fm.screens)
    ensures BuildIndexes(fm, base, resolve).result.Failure? &&
            !BuildIndexes(fm, base, resolve).result.error.ScreenWithoutIdOrImage? &&
            !BuildIndexes(fm, base, resolve).result.error.UnknownStartScreen? ==>
      exists j :: 0 <= j < |fm.transitions|
        && (forall i :: 0 <= i < j ==> TransitionOk(fm.transitions[i], ScreenIds(fm.screens)))
        && TransitionError(fm.transitions[j], ScreenIds(fm.screens)) == Some(BuildIndexes(fm, base, resolve).result.error)
  {
    ScreenIndexKeys(fm.screens, base, resolve);
    var k := FirstBadScreen(fm.screens);
    if k == |fm.screens| {
      assert forall s :: s in fm.screens ==> ScreenOk(s);
      var ids := ScreenIds(fm.screens);
      var j := FirstBadTransition(fm.transitions, ids);
    }
  }
}
