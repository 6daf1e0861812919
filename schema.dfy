/**
  The flow-map document and the shape check (`validateFlowMap`) that runs on it
  before anything else touches it.

  Presence of a string field follows the viewer's truthiness tests: the empty
  string stands for a field that is missing, null or otherwise falsy.
 */
module Schema {
  import opened Wrappers

  /** A screen as declared in the document. */
  datatype Screen = Screen(id: string, image: string)

  /** A transition as declared in the document (its hotspot rectangle is only drawn, never checked). */
  datatype Transition = Transition(fromScreen: string, toScreen: string, trigger: string)

  /** A top-level field as the parsed JSON holds it. */
  datatype Field<T> = Absent | WrongType | Given(value: T)

  /** The parsed document, before any check. */
  datatype Document =
    | Null    // null, or any other falsy value
    | Scalar  // a non-empty string, a non-zero number, true
    | List    // an array: `typeof` calls it an object, but it has none of the named fields
    | Record(flowName: Option<string>, platform: Option<string>, startScreen: Field<string>,
             screens: Field<seq<Screen>>, transitions: Field<seq<Transition>>)

  /** A document that passed the shape check. */
  datatype FlowMap = FlowMap(flowName: Option<string>, platform: Option<string>, startScreen: string,
                             screens: seq<Screen>, transitions: seq<Transition>)

  /** One error per check, in the order the checks run. */
  datatype SchemaError = NotAnObject | MissingScreens | MissingTransitions | MissingStartScreen
  {
    function Message(): string {
      match this
      case NotAnObject => "Flow map must be a JSON object."
      case MissingScreens => "Flow map must include non-empty 'screens'."
      case MissingTransitions => "Flow map must include 'transitions' array."
      case MissingStartScreen => "Flow map must include 'start_screen'."
    }
  }

  // The four checks, each on its own.

  predicate IsObject(doc: Document) {
    doc.List? || doc.Record?
  }

  predicate HasScreens(doc: Document) {
    doc.Record? && doc.screens.Given? && |doc.screens.value| > 0
  }

  predicate HasTransitions(doc: Document) {
    doc.Record? && doc.transitions.Given?
  }

  predicate HasStartScreen(doc: Document) {
    doc.Record? && doc.startScreen.Given? && doc.startScreen.value != ""
  }

  /** All four checks together, with no order among them. */
  predicate WellShaped(doc: Document) {
    IsObject(doc) && HasScreens(doc) && HasTransitions(doc) && HasStartScreen(doc)
  }

  /** What a flow map that passed the check always satisfies. */
  predicate Conforms(fm: FlowMap) {
    fm.screens != [] && fm.startScreen != ""
  }

  /**
    Runs the four checks in order and reports the first that fails; on success
    the document's fields are handed on unchanged.
   */
  function Validate(doc: Document): (r: Result<FlowMap, SchemaError>)
    ensures r.Success? <==> WellShaped(doc)
    ensures r == Failure(NotAnObject) <==> !IsObject(doc)
    ensures r == Failure(MissingScreens) <==> IsObject(doc) && !HasScreens(doc)
    ensures r == Failure(MissingTransitions) <==> HasScreens(doc) && !HasTransitions(doc)
    ensures r == Failure(MissingStartScreen) <==> HasScreens(doc) && HasTransitions(doc) && !HasStartScreen(doc)
    ensures r.Success? ==> Conforms(r.value)
  {
    if !IsObject(doc) then Failure(NotAnObject)
    else if !HasScreens(doc) then Failure(MissingScreens)
    else if !HasTransitions(doc) then Failure(MissingTransitions)
    else if !HasStartScreen(doc) then Failure(MissingStartScreen)
    else Success(FlowMap(doc.flowName, doc.platform, doc.startScreen.value, doc.screens.value, doc.transitions.value))
  }

  /** The document that declares exactly the given flow map. */
  function ToDocument(fm: FlowMap): Document {
    Record(fm.flowName, fm.platform, Given(fm.startScreen), Given(fm.screens), Given(fm.transitions))
  }

  /** Every conforming flow map, written out as a document, passes the check unchanged. */
  lemma ValidateToDocument(fm: FlowMap)
    requires Conforms(fm)
    ensures Validate(ToDocument(fm)) == Success(fm)
  {
  }

  /** A document that passes the check is exactly the document of the flow map it yields. */
  lemma ValidatedIsDocument(doc: Document)
    requires Validate(doc).Success?
    ensures ToDocument(Validate(doc).value) == doc
  {
  }
}
