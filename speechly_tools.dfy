/**
 * The intent router: turns one recognised segment into at most one call on the canvas
 * editor. Only final segments act; the entity of the expected type is chosen first-match
 * and lower-cased, then resolved through a fixed vocabulary of aliases.
 */
module SpeechlyTools {
  import opened Wrappers
  import opened JsBuiltins
  import opened SpeechClient
  import Canvas

  /** Recognised entity text, lower-cased, to the editor's canonical operation name. */
  const Entity2Canonical: map<string, string> := map[
    "sepia" := "sepia",
    "vintage" := "vintage",
    "classic" := "vintage",
    "faded" := "sepia",
    "grayscale" := "grayscale",
    "black and white" := "grayscale",
    "kodachrome" := "kodachrome",
    "technicolor" := "technicolor",
    "polaroid" := "polaroid",
    "luminosity" := "brightness",
    "brightness" := "brightness",
    "light" := "brightness",
    "contrast" := "contrast",
    "saturation" := "saturation",
    "color" := "saturation"]

  /** The aliases: classic, faded, black and white, light, luminosity and color. */
  lemma AliasesResolve()
    ensures Entity2Canonical["classic"] == "vintage"
    ensures Entity2Canonical["faded"] == "sepia"
    ensures Entity2Canonical["black and white"] == "grayscale"
    ensures Entity2Canonical["light"] == "brightness" && Entity2Canonical["luminosity"] == "brightness"
    ensures Entity2Canonical["color"] == "saturation"
  {
  }

  /** Every canonical name maps to itself, so resolving twice is resolving once. */
  lemma CanonicalIsFixpoint(text: string)
    requires text in Entity2Canonical
    ensures Entity2Canonical[text] in Entity2Canonical
    ensures Entity2Canonical[Entity2Canonical[text]] == Entity2Canonical[text]
  {
  }

  /** Every canonical name is one of the nine keys of the editor state. */
  lemma CanonicalIsEditorKey(text: string)
    requires text in Entity2Canonical
    ensures Canvas.KeyNamed(Entity2Canonical[text]).Some?
  {
  }

  /**
   * The lower-cased value of the first entity of type `entityType`, or the empty string
   * when the list has none.
   */
  function CollectEntity(entityList: seq<Entity>, entityType: string): (r: string)
    ensures (forall i :: 0 <= i < |entityList| ==> entityList[i].entityType != entityType) ==> r == ""
    ensures forall i :: 0 <= i < |entityList| && entityList[i].entityType == entityType
              && (forall j :: 0 <= j < i ==> entityList[j].entityType != entityType)
              ==> r == ToLower(entityList[i].value)
  {
    var keep := (item: Entity) => item.entityType == entityType;
    FilterHead(entityList, keep);
    var entities := Filter(entityList, keep);
    if |entities| > 0 then ToLower(entities[0].value) else ""
  }

  /** The editor call a segment leads to. */
  datatype EditorCall =
    | Undo
    | EnableFilter(name: string)
    | DisableFilter(name: string)
    | IncrementProperty(name: string)
    | DecrementProperty(name: string)

  /** The intents the router acts on. */
  const SupportedIntents: set<string> := {"undo", "add_filter", "remove_filter", "increase", "decrease"}

  /**
   * The call one segment leads to, if any. A non-final segment leads to none. `undo` always
   * leads to Undo. `add_filter` and `remove_filter` take the first `filter` entity,
   * `increase` and `decrease` the first `property` entity, and lead to a call exactly when
   * its lower-cased text is in the vocabulary, naming its canonical form.
   */
  function EditorCallFor(segment: Segment): (r: Option<EditorCall>)
    ensures !segment.isFinal ==> r.None?
    ensures segment.intent.intent !in SupportedIntents ==> r.None?
    ensures r == Some(Undo) <==> segment.isFinal && segment.intent.intent == "undo"
    ensures r.Some? && r.value.EnableFilter? <==>
              segment.isFinal && segment.intent.intent == "add_filter"
              && CollectEntity(segment.entities, "filter") in Entity2Canonical
    ensures r.Some? && r.value.DisableFilter? <==>
              segment.isFinal && segment.intent.intent == "remove_filter"
              && CollectEntity(segment.entities, "filter") in Entity2Canonical
    ensures r.Some? && r.value.IncrementProperty? <==>
              segment.isFinal && segment.intent.intent == "increase"
              && CollectEntity(segment.entities, "property") in Entity2Canonical
    ensures r.Some? && r.value.DecrementProperty? <==>
              segment.isFinal && segment.intent.intent == "decrease"
              && CollectEntity(segment.entities, "property") in Entity2Canonical
    ensures r.Some? && (r.value.EnableFilter? || r.value.DisableFilter?) ==>
              r.value.name == Entity2Canonical[CollectEntity(segment.entities, "filter")]
    ensures r.Some? && (r.value.IncrementProperty? || r.value.DecrementProperty?) ==>
              r.value.name == Entity2Canonical[CollectEntity(segment.entities, "property")]
  {
    if !segment.isFinal then None
    else if |segment.intent.intent| > 0 then
      var intent := segment.intent.intent;
      if intent == "undo" then Some(Undo)
      else if intent == "add_filter" then
        var filterName := CollectEntity(segment.entities, "filter");
        if filterName in Entity2Canonical then Some(EnableFilter(Entity2Canonical[filterName])) else None
      else if intent == "remove_filter" then
        var filterName := CollectEntity(segment.entities, "filter");
        if filterName in Entity2Canonical then Some(DisableFilter(Entity2Canonical[filterName])) else None
      else if intent == "increase" then
        var propertyName := CollectEntity(segment.entities, "property");
        if propertyName in Entity2Canonical then Some(IncrementProperty(Entity2Canonical[propertyName])) else None
      else if intent == "decrease" then
        var propertyName := CollectEntity(segment.entities, "property");
        if propertyName in Entity2Canonical then Some(DecrementProperty(Entity2Canonical[propertyName])) else None
      else None
    else None
  }

  /** Every call other than Undo names one of the nine keys of the editor state. */
  lemma RoutedNameIsEditorKey(segment: Segment)
    requires EditorCallFor(segment).Some? && !EditorCallFor(segment).value.Undo?
    ensures Canvas.KeyNamed(EditorCallFor(segment).value.name).Some?
  {
    var call := EditorCallFor(segment).value;
    if call.EnableFilter? || call.DisableFilter? {
      CanonicalIsEditorKey(CollectEntity(segment.entities, "filter"));
    } else {
      CanonicalIsEditorKey(CollectEntity(segment.entities, "property"));
    }
  }

  /** A final add_filter segment whose filter entity is in the vocabulary enables its canonical filter. */
  lemma AddFilterCall(segment: Segment)
    requires segment.isFinal && segment.intent.intent == "add_filter"
    requires CollectEntity(segment.entities, "filter") in Entity2Canonical
    ensures EditorCallFor(segment) == Some(EnableFilter(Entity2Canonical[CollectEntity(segment.entities, "filter")]))
  {
  }

  /**
   * When the first entity is a filter, it alone decides an add_filter segment: whatever
   * follows it, the call enables the canonical form of its lower-cased text.
   */
  lemma FirstMatchWins(segment: Segment)
    requires segment.isFinal && segment.intent.intent == "add_filter"
    requires |segment.entities| > 0 && segment.entities[0].entityType == "filter"
    requires ToLower(segment.entities[0].value) in Entity2Canonical
    ensures EditorCallFor(segment) == Some(EnableFilter(Entity2Canonical[ToLower(segment.entities[0].value)]))
  {
    assert CollectEntity(segment.entities, "filter") == ToLower(segment.entities[0].value);
    AddFilterCall(segment);
  }

  /** The only filter entity is the one collected. */
  lemma CollectOnlyFilter(only: Entity)
    requires only.entityType == "filter"
    ensures CollectEntity([only], "filter") == ToLower(only.value)
  {
    assert [only][0] == only;
  }

  /** An alias reaches the editor under its canonical name. */
  lemma AliasReachesEditor()
    ensures var segment := Segment(true, Intent("add_filter", true), [Entity("filter", "classic", true)]);
            EditorCallFor(segment) == Some(EnableFilter("vintage"))
  {
    CollectOnlyFilter(Entity("filter", "classic", true));
    ToLowerFixesLower("classic");
    AddFilterCall(Segment(true, Intent("add_filter", true), [Entity("filter", "classic", true)]));
  }

  // ---------------------------------------------------------------- driving the editor

  /** The editor's stack after the call, as the editor's methods define it. */
  function Perform(ops: seq<Canvas.Operator>, stepSize: map<string, real>, call: Option<EditorCall>): (r: seq<Canvas.Operator>)
    ensures r == ops || r == Canvas.Pop(ops) || (|r| == |ops| + 1 && r[..|ops|] == ops)
  {
    match call
    case None => ops
    case Some(Undo) => Canvas.Pop(ops)
    case Some(EnableFilter(n)) => ops + [Canvas.Operator(Canvas.Filter, n, 1.0)]
    case Some(DisableFilter(n)) => ops + [Canvas.Operator(Canvas.Filter, n, 0.0)]
    case Some(IncrementProperty(n)) => ops + [Canvas.Operator(Canvas.Property, n, Canvas.StepOf(stepSize, n))]
    case Some(DecrementProperty(n)) => ops + [Canvas.Operator(Canvas.Property, n, -Canvas.StepOf(stepSize, n))]
  }

  /** A segment that leads to no call leaves the editor's stack as it is. */
  lemma DroppedSegmentChangesNothing(segment: Segment, ops: seq<Canvas.Operator>, stepSize: map<string, real>)
    requires !segment.isFinal || segment.intent.intent !in SupportedIntents
    ensures Perform(ops, stepSize, EditorCallFor(segment)) == ops
  {
  }

  /** Makes the editor call a segment leads to, if any: at most one per segment. */
  method UpdateImageEditorBySegmentChange(segment: Segment, imageEditor: Canvas.CanvasEditor)
    requires imageEditor.Valid()
    modifies imageEditor
    ensures imageEditor.Valid()
    ensures imageEditor.operatorStack == Perform(old(imageEditor.operatorStack), imageEditor.stepSize, EditorCallFor(segment))
  {
    var call := EditorCallFor(segment);
    Dispatch(call, imageEditor);
  }

  /** Invokes the editor method a call stands for; no call, no invocation. */
  method Dispatch(call: Option<EditorCall>, imageEditor: Canvas.CanvasEditor)
    requires imageEditor.Valid()
    modifies imageEditor
    ensures imageEditor.Valid()
    ensures imageEditor.operatorStack == Perform(old(imageEditor.operatorStack), imageEditor.stepSize, call)
  {
    if call.None? {
      return;
    }
    var ops := imageEditor.operatorStack;
    match call.value
    case Undo =>
      assert Perform(ops, imageEditor.stepSize, call) == Canvas.Pop(ops);
      imageEditor.Undo();
    case EnableFilter(name) =>
      assert Perform(ops, imageEditor.stepSize, call) == ops + [Canvas.Operator(Canvas.Filter, name, 1.0)];
      imageEditor.EnableFilter(name);
    case DisableFilter(name) =>
      assert Perform(ops, imageEditor.stepSize, call) == ops + [Canvas.Operator(Canvas.Filter, name, 0.0)];
      imageEditor.DisableFilter(name);
    case IncrementProperty(name) =>
      assert Perform(ops, imageEditor.stepSize, call)
          == ops + [Canvas.Operator(Canvas.Property, name, Canvas.StepOf(imageEditor.stepSize, name))];
      imageEditor.IncrementProperty(name);
    case DecrementProperty(name) =>
      assert Perform(ops, imageEditor.stepSize, call)
          == ops + [Canvas.Operator(Canvas.Property, name, -Canvas.StepOf(imageEditor.stepSize, name))];
      imageEditor.DecrementProperty(name);
  }
}
