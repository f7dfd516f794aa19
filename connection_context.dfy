/**
 * The older dispatcher: a provider that collects the speech client's intents and final
 * entities, acts on the first intent when a segment is final (undo, two fixed filters,
 * brightness steps, crop), then clears what it collected. Calls into the image editor
 * and the speech client are recorded, in order, as effects.
 */
module ConnectionContext {
  import opened Wrappers
  import opened JsBuiltins
  import opened SpeechClient

  /** An entity or intent as the provider keeps it, stamped with its context and a 1-based segment number. */
  datatype Stamped<T> = Stamped(item: T, contextId: string, segmentId: int)

  /** A JavaScript number as brightness needs it: a finite value, or the NaN a failed parse leaves. */
  datatype Number = Finite(value: real) | NaN

  /** JavaScript `+` on numbers: NaN absorbs. */
  function Plus(a: Number, b: Number): Number {
    if a.Finite? && b.Finite? then Finite(a.value + b.value) else NaN
  }

  /** A crop rectangle in canvas pixels. */
  datatype CropRegion = CropRegion(left: int, top: int, width: int, height: int)

  /** A call into the image editor or the speech client. */
  datatype Effect =
    | EditorUndo
    | EditorApplyFilter(filter: string, brightness: Option<Number>)
    | EditorCrop(region: CropRegion)
    | ClientInitialize
    | ClientStartContext
    | ClientStopContext
    | ClientClose

  /** The collected entities of type `entityType`, in arrival order. */
  function EntitiesOfType(entities: seq<Stamped<Entity>>, entityType: string): seq<Stamped<Entity>> {
    Filter(entities, (e: Stamped<Entity>) => e.item.entityType == entityType)
  }

  lemma NoneOfType(entities: seq<Stamped<Entity>>, entityType: string)
    requires forall i :: 0 <= i < |entities| ==> entities[i].item.entityType != entityType
    ensures EntitiesOfType(entities, entityType) == []
  {
    FilterHead(entities, (e: Stamped<Entity>) => e.item.entityType == entityType);
  }

  // ---------------------------------------------------------------- crop geometry

  /** The middle 80% of the canvas. */
  function DefaultCrop(width: nat, height: nat): CropRegion {
    CropRegion(Round(width as real * 0.1), Round(height as real * 0.1),
               Round(width as real * 0.8), Round(height as real * 0.8))
  }

  /** The crop rectangle for a canvas and the direction entities, of which only the first counts. */
  function CropRegionFor(width: nat, height: nat, directions: seq<Stamped<Entity>>): CropRegion {
    if |directions| == 0 then DefaultCrop(width, height)
    else
      var direction := ToLower(directions[0].item.value);
      if direction == "top left" then
        CropRegion(0, 0, Round(width as real * 0.5), Round(height as real * 0.5))
      else if direction == "top right" then
        CropRegion(width - Round(width as real * 0.5), 0, Round(width as real * 0.5), Round(height as real * 0.5))
      else if direction == "bottom left" then
        CropRegion(0, height - Round(width as real * 0.5), Round(width as real * 0.5), Round(height as real * 0.5))
      else DefaultCrop(width, height)
  }

  /** Rounding a number of tenths: `Math.round(k / 10)` is `(k + 5) / 10` in integer division. */
  lemma RoundTenths(k: int)
    ensures Round(k as real / 10.0) == (k + 5) / 10
  {
    var n := (k + 5) / 10;
    assert 10 * n <= k + 5 < 10 * n + 10;
    assert (10 * n) as real <= (k + 5) as real < (10 * n + 10) as real;
    RoundUnique(k as real / 10.0, n);
  }

  /**
   * Without a usable direction the crop keeps the middle of the canvas: it starts at a
   * tenth of each side, spans eight tenths, and stays inside the canvas.
   */
  lemma DefaultCropInside(width: nat, height: nat)
    ensures var r := DefaultCrop(width, height);
            && r.left == (width + 5) / 10 && r.top == (height + 5) / 10
            && r.width == (8 * width + 5) / 10 && r.height == (8 * height + 5) / 10
            && 0 <= r.left && 0 <= r.top
            && r.left + r.width <= width && r.top + r.height <= height
  {
    assert width as real * 0.1 == width as real / 10.0;
    assert width as real * 0.8 == (8 * width) as real / 10.0;
    assert height as real * 0.1 == height as real / 10.0;
    assert height as real * 0.8 == (8 * height) as real / 10.0;
    RoundTenths(width);
    RoundTenths(8 * width);
    RoundTenths(height);
    RoundTenths(8 * height);
  }

  /** Half a side, rounded: `Math.round(n * 0.5)` is `(n + 1) / 2`. */
  lemma RoundHalf(n: nat)
    ensures Round(n as real * 0.5) == (n + 1) / 2
  {
    assert n as real * 0.5 == (5 * n) as real / 10.0;
    RoundTenths(5 * n);
  }

  /** The crop for a segment without direction entities. */
  lemma NoDirectionCropsMiddle(width: nat, height: nat, directions: seq<Stamped<Entity>>)
    requires |directions| == 0
    ensures CropRegionFor(width, height, directions) == DefaultCrop(width, height)
  {
  }

  /** An unrecognised first direction also crops to the middle. */
  lemma UnknownDirectionCropsMiddle(width: nat, height: nat, directions: seq<Stamped<Entity>>)
    requires |directions| > 0
    requires ToLower(directions[0].item.value) != "top left"
    requires ToLower(directions[0].item.value) != "top right"
    requires ToLower(directions[0].item.value) != "bottom left"
    ensures CropRegionFor(width, height, directions) == DefaultCrop(width, height)
  {
  }

  /** `top left` is the quarter at the origin. */
  lemma TopLeftCrop(width: nat, height: nat, directions: seq<Stamped<Entity>>)
    requires |directions| > 0 && ToLower(directions[0].item.value) == "top left"
    ensures CropRegionFor(width, height, directions) == CropRegion(0, 0, (width + 1) / 2, (height + 1) / 2)
  {
    RoundHalf(width);
    RoundHalf(height);
  }

  /** `top right` starts at the top edge and reaches exactly the right edge. */
  lemma TopRightCrop(width: nat, height: nat, directions: seq<Stamped<Entity>>)
    requires |directions| > 0 && ToLower(directions[0].item.value) == "top right"
    ensures var r := CropRegionFor(width, height, directions);
            r.top == 0 && r.left >= 0 && r.left + r.width == width && r.height == (height + 1) / 2
  {
    RoundHalf(width);
    RoundHalf(height);
    assert "top right" != "top left";
  }

  /**
   * `bottom left` computes its top edge from the canvas WIDTH: top is height minus half
   * the width. On a 200 by 100 canvas it starts at the top edge, so the rectangle does not
   * reach the bottom; on a 300 by 100 canvas its top is negative.
   */
  lemma BottomLeftTopUsesWidth(width: nat, height: nat, directions: seq<Stamped<Entity>>)
    requires |directions| > 0 && ToLower(directions[0].item.value) == "bottom left"
    ensures var r := CropRegionFor(width, height, directions);
            r.left == 0 && r.top == height - (width + 1) / 2 && r.height == (height + 1) / 2
    ensures width == 200 && height == 100 ==> CropRegionFor(width, height, directions).top == 0
    ensures width == 300 && height == 100 ==> CropRegionFor(width, height, directions).top < 0
  {
    RoundHalf(width);
    RoundHalf(height);
    assert "bottom left" != "top left" && "bottom left" != "top right";
  }

  // ---------------------------------------------------------------- brightness

  /**
   * The brightness change of a luminosity intent: the given step, unless there is a scale
   * entity, in which case `parseInt` of the first one's text, NaN when it has no digits.
   */
  function LuminosityChange(scales: seq<Stamped<Entity>>, change: real): Number {
    if |scales| > 0 then
      match ParseInt(ToLower(scales[0].item.value))
      case Some(n) => Finite(n as real)
      case None => NaN
    else Finite(change)
  }

  /** Without a scale entity the step is used. */
  lemma StepWithoutScale(scales: seq<Stamped<Entity>>, change: real)
    requires |scales| == 0
    ensures LuminosityChange(scales, change) == Finite(change)
  {
  }

  /** A spoken numeral replaces the step: the change is the number it names. */
  lemma ScaleReplacesStep(scales: seq<Stamped<Entity>>, change: real, n: int)
    requires |scales| > 0 && scales[0].item.value == IntToString(n)
    ensures LuminosityChange(scales, change) == Finite(n as real)
  {
    IntToStringIsLower(n);
    ParseIntRoundTrip(n);
  }

  // ---------------------------------------------------------------- dispatch on the first intent

  /** What acting on the collected intents calls and where brightness ends. */
  datatype Outcome = Outcome(effects: seq<Effect>, brightness: Number)

  /**
   * The outcome of a final segment: only the first collected intent is looked at, at most
   * one call is made, and brightness moves only for the two luminosity intents.
   */
  function IntentOutcome(intents: seq<Stamped<Intent>>, entities: seq<Stamped<Entity>>, brightness: Number,
                         canvasWidth: nat, canvasHeight: nat, undoStackEmpty: bool): (r: Outcome)
    ensures |r.effects| <= 1
    ensures |intents| == 0 ==> r == Outcome([], brightness)
    ensures r.brightness != brightness ==>
              intents[0].item.intent == "increase_luminosity" || intents[0].item.intent == "decrease_luminosity"
  {
    if |intents| == 0 then Outcome([], brightness)
    else
      var intent := intents[0].item.intent;
      if intent == "undo" then
        Outcome(if undoStackEmpty then [] else [EditorUndo], brightness)
      else if intent == "add_grayscale_filter" then
        Outcome([EditorApplyFilter("grayscale", None)], brightness)
      else if intent == "add_sepia_filter" then
        Outcome([EditorApplyFilter("sepia", None)], brightness)
      else if intent == "increase_luminosity" then
        var b := Plus(brightness, LuminosityChange(EntitiesOfType(entities, "scale"), 0.2));
        Outcome([EditorApplyFilter("brightness", Some(b))], b)
      else if intent == "decrease_luminosity" then
        var b := Plus(brightness, LuminosityChange(EntitiesOfType(entities, "scale"), -0.2));
        Outcome([EditorApplyFilter("brightness", Some(b))], b)
      else if intent == "crop" then
        Outcome([EditorCrop(CropRegionFor(canvasWidth, canvasHeight, EntitiesOfType(entities, "direction")))], brightness)
      else Outcome([], brightness)
  }

  /** Intents after the first never matter. */
  lemma OnlyFirstIntentMatters(intents: seq<Stamped<Intent>>, entities: seq<Stamped<Entity>>, brightness: Number,
                               canvasWidth: nat, canvasHeight: nat, undoStackEmpty: bool)
    requires |intents| > 0
    ensures IntentOutcome(intents, entities, brightness, canvasWidth, canvasHeight, undoStackEmpty)
         == IntentOutcome(intents[..1], entities, brightness, canvasWidth, canvasHeight, undoStackEmpty)
  {
    assert intents[..1][0] == intents[0];
  }

  /** Without a scale entity, increasing luminosity adds 0.2 and hands the new value to the brightness filter. */
  lemma IncreaseWithoutScale(intents: seq<Stamped<Intent>>, entities: seq<Stamped<Entity>>, brightness: Number,
                             canvasWidth: nat, canvasHeight: nat, undoStackEmpty: bool)
    requires |intents| > 0 && intents[0].item.intent == "increase_luminosity"
    requires forall i :: 0 <= i < |entities| ==> entities[i].item.entityType != "scale"
    ensures var r := IntentOutcome(intents, entities, brightness, canvasWidth, canvasHeight, undoStackEmpty);
            r.brightness == Plus(brightness, Finite(0.2)) && r.effects == [EditorApplyFilter("brightness", Some(r.brightness))]
  {
    NoneOfType(entities, "scale");
  }

  /**
   * A spoken scale replaces the signed step, so its sign is lost: decrease_luminosity with
   * a positive numeral as its first scale raises brightness by that number.
   */
  lemma DecreaseWithScaleRaises(intents: seq<Stamped<Intent>>, entities: seq<Stamped<Entity>>, b: real,
                                n: int, canvasWidth: nat, canvasHeight: nat, undoStackEmpty: bool)
    requires |intents| > 0 && intents[0].item.intent == "decrease_luminosity"
    requires |entities| > 0 && entities[0].item.entityType == "scale" && entities[0].item.value == IntToString(n)
    requires n > 0
    ensures var r := IntentOutcome(intents, entities, Finite(b), canvasWidth, canvasHeight, undoStackEmpty);
            r.brightness == Finite(b + n as real) && r.brightness.value > b
  {
    var keep := (e: Stamped<Entity>) => e.item.entityType == "scale";
    FilterHead(entities, keep);
    var scales := EntitiesOfType(entities, "scale");
    assert scales[0] == entities[0];
    ScaleReplacesStep(scales, -0.2, n);
  }

  /** Without a direction entity, crop cuts to the middle of the canvas. */
  lemma CropWithoutDirection(intents: seq<Stamped<Intent>>, entities: seq<Stamped<Entity>>, brightness: Number,
                             canvasWidth: nat, canvasHeight: nat, undoStackEmpty: bool)
    requires |intents| > 0 && intents[0].item.intent == "crop"
    requires forall i :: 0 <= i < |entities| ==> entities[i].item.entityType != "direction"
    ensures IntentOutcome(intents, entities, brightness, canvasWidth, canvasHeight, undoStackEmpty)
         == Outcome([EditorCrop(DefaultCrop(canvasWidth, canvasHeight))], brightness)
  {
    NoneOfType(entities, "direction");
  }

  // ---------------------------------------------------------------- client-state guards

  /** What `startContext` asks of the client: initialise when disconnected, start recording when connected. */
  function StartContextCall(s: ClientState): (r: Option<Effect>)
    ensures r == Some(ClientInitialize) <==> s == Disconnected
    ensures r == Some(ClientStartContext) <==> s == Connected
    ensures r.None? <==> s != Disconnected && s != Connected
  {
    if s == Disconnected then Some(ClientInitialize)
    else if s == Connected then Some(ClientStartContext)
    else None
  }

  /** What `stopRecording` asks of the client: stop only while recording. */
  function StopRecordingCall(s: ClientState): (r: Option<Effect>)
    ensures r.Some? <==> s == Recording
    ensures r.Some? ==> r.value == ClientStopContext
  {
    if s != Recording then None else Some(ClientStopContext)
  }

  /** What `closeClient` asks of the client: close unless the state is below Connected. */
  function CloseClientCall(s: ClientState): (r: Option<Effect>)
    ensures r.Some? <==> !Below(s, Connected)
    ensures r.Some? ==> r.value == ClientClose
  {
    if Below(s, Connected) then None else Some(ClientClose)
  }

  /** The client is closed exactly in the states Connected, Recording and Stopping. */
  lemma CloseOnlyOnceConnected(s: ClientState)
    ensures CloseClientCall(s).Some? <==> s == Connected || s == Recording || s == Stopping
  {
  }

  function AsSeq<T>(o: Option<T>): seq<T> {
    if o.Some? then [o.value] else []
  }

  // ---------------------------------------------------------------- the provider

  class ConnectionContextProvider {
    var intents: seq<Stamped<Intent>>
    var entities: seq<Stamped<Entity>>
    var brightness: Number
    var clientState: ClientState
    /** The calls made on the image editor and the speech client, oldest first. */
    var effects: seq<Effect>

    constructor ()
      ensures intents == [] && entities == [] && brightness == Finite(0.0)
      ensures clientState == Disconnected && effects == []
    {
      intents := [];
      entities := [];
      brightness := Finite(0.0);
      clientState := Disconnected;
      effects := [];
    }

    /** Keeps a final entity, stamped; drops one still in flux. */
    method OnEntity(contextId: string, segmentId: int, entity: Entity)
      modifies this`entities
      ensures entity.isFinal ==> entities == old(entities) + [Stamped(entity, contextId, segmentId + 1)]
      ensures !entity.isFinal ==> entities == old(entities)
    {
      if entity.isFinal {
        entities := entities + [Stamped(entity, contextId, segmentId + 1)];
      }
    }

    /** Keeps every intent, stamped, after the ones already kept. */
    method OnIntent(contextId: string, segmentId: int, intent: Intent)
      modifies this`intents
      ensures intents == old(intents) + [Stamped(intent, contextId, segmentId + 1)]
    {
      intents := intents + [Stamped(intent, contextId, segmentId + 1)];
    }

    method BrowserClientStateChanged(newState: ClientState)
      modifies this`clientState
      ensures clientState == newState
    {
      clientState := newState;
    }

    /**
     * On a final segment, acts on the first collected intent, then clears the collected
     * intents and entities while keeping the client state and brightness. A segment still
     * in flux changes nothing.
     */
    method UpdateStateBySegmentChange(segment: Segment, canvasWidth: nat, canvasHeight: nat, undoStackEmpty: bool)
      modifies this
      ensures !segment.isFinal ==>
                intents == old(intents) && entities == old(entities) && brightness == old(brightness)
                && clientState == old(clientState) && effects == old(effects)
      ensures segment.isFinal ==>
                var r := IntentOutcome(old(intents), old(entities), old(brightness), canvasWidth, canvasHeight, undoStackEmpty);
                && intents == [] && entities == [] && clientState == old(clientState)
                && effects == old(effects) + r.effects && brightness == r.brightness
    {
      if !segment.isFinal {
        return;
      }
      if |intents| > 0 {
        var intent := intents[0].item;
        if intent.intent == "undo" {
          UndoIntent(undoStackEmpty);
        } else if intent.intent == "add_grayscale_filter" {
          ApplyFilter("grayscale", None);
        } else if intent.intent == "add_sepia_filter" {
          ApplyFilter("sepia", None);
        } else if intent.intent == "increase_luminosity" {
          var scales := EntitiesOfType(entities, "scale");
          ChangeLuminosity(scales, 0.2);
        } else if intent.intent == "decrease_luminosity" {
          var scales := EntitiesOfType(entities, "scale");
          ChangeLuminosity(scales, -0.2);
        } else if intent.intent == "crop" {
          var directions := EntitiesOfType(entities, "direction");
          CropTo(CropRegionFor(canvasWidth, canvasHeight, directions));
        }
      }
      intents := [];
      entities := [];
    }

    /** Moves brightness by the step or the spoken scale, clears what was collected, and applies the new value. */
    method ChangeLuminosity(scales: seq<Stamped<Entity>>, change: real)
      modifies this
      ensures brightness == Plus(old(brightness), LuminosityChange(scales, change))
      ensures intents == [] && entities == [] && clientState == old(clientState)
      ensures effects == old(effects) + [EditorApplyFilter("brightness", Some(brightness))]
    {
      var delta := Finite(change);
      if |scales| > 0 {
        var parsed := ParseInt(ToLower(scales[0].item.value));
        delta := if parsed.Some? then Finite(parsed.value as real) else NaN;
      }
      var newBrightness := Plus(brightness, delta);
      intents := [];
      entities := [];
      brightness := newBrightness;
      ApplyFilter("brightness", Some(newBrightness));
    }

    /** Asks the editor to undo, unless its own undo stack is empty. */
    method UndoIntent(undoStackEmpty: bool)
      modifies this`effects
      ensures effects == old(effects) + (if undoStackEmpty then [] else [EditorUndo])
    {
      if !undoStackEmpty {
        effects := effects + [EditorUndo];
      }
    }

    method CropTo(region: CropRegion)
      modifies this`effects
      ensures effects == old(effects) + [EditorCrop(region)]
    {
      effects := effects + [EditorCrop(region)];
    }

    method ApplyFilter(filter: string, options: Option<Number>)
      modifies this`effects
      ensures effects == old(effects) + [EditorApplyFilter(filter, options)]
    {
      effects := effects + [EditorApplyFilter(filter, options)];
    }

    /** Initialises a disconnected client, or starts recording on a connected one. */
    method StartContext()
      modifies this`effects
      ensures effects == old(effects) + AsSeq(StartContextCall(clientState))
    {
      if clientState == Disconnected {
        effects := effects + [ClientInitialize];
        return;
      }
      if clientState == Connected {
        effects := effects + [ClientStartContext];
      }
    }

    /** Stops recording, only while recording. */
    method StopRecording()
      modifies this`effects
      ensures effects == old(effects) + AsSeq(StopRecordingCall(clientState))
    {
      if clientState != Recording {
        return;
      }
      effects := effects + [ClientStopContext];
    }

    /** Closes the client, unless it is below Connected. */
    method CloseClient()
      modifies this`effects
      ensures effects == old(effects) + AsSeq(CloseClientCall(clientState))
    {
      if Below(clientState, Connected) {
        return;
      }
      effects := effects + [ClientClose];
    }
  }
}
