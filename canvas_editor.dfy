/**
 * The canvas editor's operation log. Every edit pushes one record on `operatorStack`;
 * the editor state is recomputed from scratch by folding the whole stack over a clean
 * state (property records add to their key, filter records overwrite theirs), and the
 * list of image filters is rebuilt from that state in a fixed order. Undo pops one
 * record and replays.
 */
module Canvas {
  import opened Wrappers

  /** The two kinds of record the editor pushes. */
  datatype OperatorType = Property | Filter

  /** One record of the operation log. */
  datatype Operator = Operator(opType: OperatorType, name: string, value: real)

  /** The nine keys of the editor state. */
  datatype Key = Brightness | Contrast | Saturation | Grayscale | Kodachrome | Vintage | Sepia | Technicolor | Polaroid

  /** The name under which the source's state object holds each key. */
  function KeyName(k: Key): string {
    match k
    case Brightness => "brightness"
    case Contrast => "contrast"
    case Saturation => "saturation"
    case Grayscale => "grayscale"
    case Kodachrome => "kodachrome"
    case Vintage => "vintage"
    case Sepia => "sepia"
    case Technicolor => "technicolor"
    case Polaroid => "polaroid"
  }

  /** The key a record's name addresses, if it is one of the nine. */
  function KeyNamed(name: string): (r: Option<Key>)
    ensures r.Some? ==> KeyName(r.value) == name
  {
    if name == "brightness" then Some(Brightness)
    else if name == "contrast" then Some(Contrast)
    else if name == "saturation" then Some(Saturation)
    else if name == "grayscale" then Some(Grayscale)
    else if name == "kodachrome" then Some(Kodachrome)
    else if name == "vintage" then Some(Vintage)
    else if name == "sepia" then Some(Sepia)
    else if name == "technicolor" then Some(Technicolor)
    else if name == "polaroid" then Some(Polaroid)
    else None
  }

  /** Naming a key and resolving the name give back the key: the nine names are distinct. */
  lemma KeyNameRoundTrip(k: Key)
    ensures KeyNamed(KeyName(k)) == Some(k)
  {
  }

  /** Per-key values derived from the log. */
  type EditorState = map<Key, real>

  /** The unedited state: the nine keys, all zero. */
  const CleanEditorState: EditorState := map[
    Brightness := 0.0, Contrast := 0.0, Saturation := 0.0,
    Grayscale := 0.0, Kodachrome := 0.0, Vintage := 0.0,
    Sepia := 0.0, Technicolor := 0.0, Polaroid := 0.0]

  /** The step of each adjustable property; other names have no step. */
  const DefaultStepSize: map<string, real> := map["brightness" := 0.1, "contrast" := 0.1, "saturation" := 0.2]

  /** The step recorded for `name`, 0 when the name has none. */
  function StepOf(stepSize: map<string, real>, name: string): real {
    if name in stepSize then stepSize[name] else 0.0
  }

  // ---------------------------------------------------------------- the fold

  /**
   * One step of the fold: a property record adds to its key, a filter record overwrites it.
   * A record whose name is none of the nine keys leaves the nine keys as they are.
   */
  function ApplyOperator(state: EditorState, op: Operator): (r: EditorState)
    ensures r.Keys == state.Keys
  {
    match KeyNamed(op.name)
    case None => state
    case Some(k) =>
      if k !in state then state
      else if op.opType == Property then state[k := state[k] + op.value]
      else state[k := op.value]
  }

  /** The state reached from `init` by applying the records of `ops` in stack order. */
  function Replay(init: EditorState, ops: seq<Operator>): (r: EditorState)
    ensures init.Keys <= r.Keys
    ensures Complete(init) ==> Complete(r)
  {
    if ops == [] then init else ApplyOperator(Replay(init, ops[..|ops| - 1]), ops[|ops| - 1])
  }

  /** The editor state a stack stands for: its replay from the clean state. */
  function StateOf(ops: seq<Operator>): (r: EditorState)
    ensures Complete(r)
  {
    Replay(CleanEditorState, ops)
  }

  /** The stack after `pop()`: the last record removed, an empty stack left alone. */
  function Pop(ops: seq<Operator>): (r: seq<Operator>)
    ensures ops == [] ==> r == []
    ensures ops != [] ==> r + [ops[|ops| - 1]] == ops
  {
    if ops == [] then [] else ops[..|ops| - 1]
  }

  // ---------------------------------------------------------------- reference definitions

  /** Whether a record of kind `t` addresses key `k`. */
  predicate Addresses(op: Operator, t: OperatorType, k: Key) {
    op.opType == t && KeyNamed(op.name) == Some(k)
  }

  /** The sum of the values of the property records for `k`, in stack order. */
  function PropertySum(ops: seq<Operator>, k: Key): real {
    if ops == [] then 0.0
    else
      var last := ops[|ops| - 1];
      PropertySum(ops[..|ops| - 1], k) + (if Addresses(last, Property, k) then last.value else 0.0)
  }

  /** The value of the last filter record for `k`, if there is one. */
  function LastFilterValue(ops: seq<Operator>, k: Key): Option<real> {
    if ops == [] then None
    else
      var last := ops[|ops| - 1];
      if Addresses(last, Filter, k) then Some(last.value) else LastFilterValue(ops[..|ops| - 1], k)
  }

  predicate NoFilterOn(ops: seq<Operator>, k: Key) {
    forall i :: 0 <= i < |ops| ==> !Addresses(ops[i], Filter, k)
  }

  predicate ZeroPropertiesOn(ops: seq<Operator>, k: Key) {
    forall i :: 0 <= i < |ops| ==> (Addresses(ops[i], Property, k) ==> ops[i].value == 0.0)
  }

  /** A record one of the four editing methods can push: a signed step, or a 1/0 toggle. */
  predicate IssuedBy(op: Operator, stepSize: map<string, real>) {
    match op.opType
    case Property => op.value == StepOf(stepSize, op.name) || op.value == -StepOf(stepSize, op.name)
    case Filter => op.value == 0.0 || op.value == 1.0
  }

  predicate Issued(ops: seq<Operator>, stepSize: map<string, real>) {
    forall i :: 0 <= i < |ops| ==> IssuedBy(ops[i], stepSize)
  }

  lemma IssuedPush(ops: seq<Operator>, op: Operator, stepSize: map<string, real>)
    requires Issued(ops, stepSize) && IssuedBy(op, stepSize)
    ensures Issued(ops + [op], stepSize)
  {
    assert forall i :: 0 <= i < |ops| ==> (ops + [op])[i] == ops[i];
  }

  // ---------------------------------------------------------------- the fold's algebra

  /** A key no filter record addresses ends at its start value plus the sum of its property records. */
  lemma {:induction false} PropertyKeyIsSum(init: EditorState, ops: seq<Operator>, k: Key)
    requires k in init && NoFilterOn(ops, k)
    ensures Replay(init, ops)[k] == init[k] + PropertySum(ops, k)
  {
    if ops != [] {
      var prefix := ops[..|ops| - 1];
      assert NoFilterOn(prefix, k) by {
        forall i | 0 <= i < |prefix| ensures !Addresses(prefix[i], Filter, k) {
          assert prefix[i] == ops[i];
        }
      }
      PropertyKeyIsSum(init, prefix, k);
      assert !Addresses(ops[|ops| - 1], Filter, k);
    }
  }

  /**
   * A key whose property records are all zero ends at the value of its last filter
   * record (last write wins), or at its start value when there is none.
   */
  lemma {:induction false} ToggleKeyIsLastWrite(init: EditorState, ops: seq<Operator>, k: Key)
    requires k in init && ZeroPropertiesOn(ops, k)
    ensures Replay(init, ops)[k] == LastFilterValue(ops, k).GetOr(init[k])
  {
    if ops != [] {
      var prefix := ops[..|ops| - 1];
      assert ZeroPropertiesOn(prefix, k) by {
        forall i | 0 <= i < |prefix| ensures Addresses(prefix[i], Property, k) ==> prefix[i].value == 0.0 {
          assert prefix[i] == ops[i];
        }
      }
      ToggleKeyIsLastWrite(init, prefix, k);
    }
  }

  /** The records after the last filter record on `k`, in stack order; all of them when there is none. */
  function AfterLastFilter(ops: seq<Operator>, k: Key): (r: seq<Operator>)
    ensures |r| <= |ops|
    ensures forall i :: 0 <= i < |r| ==> !Addresses(r[i], Filter, k)
  {
    if ops == [] then []
    else
      var last := ops[|ops| - 1];
      if Addresses(last, Filter, k) then [] else AfterLastFilter(ops[..|ops| - 1], k) + [last]
  }

  /** One record's effect on one key: a filter record overwrites it, a property record adds to it, any other leaves it. */
  lemma ApplyOperatorAt(state: EditorState, op: Operator, k: Key)
    requires k in state
    ensures k in ApplyOperator(state, op)
    ensures ApplyOperator(state, op)[k] ==
              if Addresses(op, Filter, k) then op.value
              else if Addresses(op, Property, k) then state[k] + op.value
              else state[k]
  {
  }

  /** Appending a record adds its value to the sum exactly when it is a property record for `k`. */
  lemma PropertySumAppend(ops: seq<Operator>, op: Operator, k: Key)
    ensures PropertySum(ops + [op], k) == PropertySum(ops, k) + (if Addresses(op, Property, k) then op.value else 0.0)
  {
    assert (ops + [op])[..|ops|] == ops;
  }

  /**
   * The general law for any key, whatever mix of records addresses it: the value of its
   * last filter record (the start value when there is none) plus the property records
   * pushed after that filter record.
   */
  lemma {:induction false} KeyIsLastFilterPlusLaterSteps(init: EditorState, ops: seq<Operator>, k: Key)
    requires k in init
    ensures Replay(init, ops)[k] == LastFilterValue(ops, k).GetOr(init[k]) + PropertySum(AfterLastFilter(ops, k), k)
  {
    if ops != [] {
      var prefix := ops[..|ops| - 1];
      var last := ops[|ops| - 1];
      KeyIsLastFilterPlusLaterSteps(init, prefix, k);
      ApplyOperatorAt(Replay(init, prefix), last, k);
      if !Addresses(last, Filter, k) {
        PropertySumAppend(AfterLastFilter(prefix, k), last, k);
      }
    }
  }

  /** The last filter record of an editor-issued stack holds 1 or 0. */
  lemma {:induction false} IssuedToggleIsBinary(ops: seq<Operator>, stepSize: map<string, real>, k: Key)
    requires Issued(ops, stepSize)
    ensures LastFilterValue(ops, k).GetOr(0.0) in {0.0, 1.0}
  {
    if ops != [] {
      var prefix := ops[..|ops| - 1];
      assert Issued(prefix, stepSize) by {
        forall i | 0 <= i < |prefix| ensures IssuedBy(prefix[i], stepSize) { assert prefix[i] == ops[i]; }
      }
      assert IssuedBy(ops[|ops| - 1], stepSize);
      IssuedToggleIsBinary(prefix, stepSize, k);
    }
  }

  /**
   * On a stack built by the editor, a key without a step (the six preset filters) holds the
   * value of its last filter record, 0 when it was never toggled, and so is always 0 or 1.
   */
  lemma EditorToggleKey(ops: seq<Operator>, k: Key)
    requires Issued(ops, DefaultStepSize)
    requires KeyName(k) !in DefaultStepSize
    ensures StateOf(ops)[k] == LastFilterValue(ops, k).GetOr(0.0)
    ensures StateOf(ops)[k] in {0.0, 1.0}
  {
    assert ZeroPropertiesOn(ops, k) by {
      forall i | 0 <= i < |ops| ensures Addresses(ops[i], Property, k) ==> ops[i].value == 0.0 {
        assert IssuedBy(ops[i], DefaultStepSize);
      }
    }
    ToggleKeyIsLastWrite(CleanEditorState, ops, k);
    IssuedToggleIsBinary(ops, DefaultStepSize, k);
  }

  /** A property key no filter record addresses is the sum of its deltas. */
  lemma EditorPropertyKey(ops: seq<Operator>, k: Key)
    requires NoFilterOn(ops, k)
    ensures StateOf(ops)[k] == PropertySum(ops, k)
  {
    PropertyKeyIsSum(CleanEditorState, ops, k);
  }

  /** Any key of the built state: its last filter write (0 if none) plus the steps pushed after it. */
  lemma EditorKeyValue(ops: seq<Operator>, k: Key)
    ensures StateOf(ops)[k] == LastFilterValue(ops, k).GetOr(0.0) + PropertySum(AfterLastFilter(ops, k), k)
  {
    KeyIsLastFilterPlusLaterSteps(CleanEditorState, ops, k);
  }

  /** A filter record on a property key resets it, and a later step adds to the reset value. */
  lemma FilterThenStep()
    ensures var ops := [Operator(Filter, "brightness", 1.0), Operator(Property, "brightness", 0.1)];
            StateOf(ops)[Brightness] == 1.1
  {
    var ops := [Operator(Filter, "brightness", 1.0), Operator(Property, "brightness", 0.1)];
    assert KeyNamed("brightness") == Some(Brightness);
    assert ops[..1] == [ops[0]];
    assert LastFilterValue(ops, Brightness) == Some(1.0);
    assert AfterLastFilter(ops, Brightness) == [ops[1]];
    assert PropertySum([ops[1]], Brightness) == 0.1 by {
      assert [ops[1]][..0] == [];
    }
    EditorKeyValue(ops, Brightness);
  }

  /** Any push followed by undo gives back the stack, and so the state, from before the push. */
  lemma PushThenUndo(ops: seq<Operator>, op: Operator)
    ensures Pop(ops + [op]) == ops
    ensures StateOf(Pop(ops + [op])) == StateOf(ops)
  {
    assert (ops + [op])[..|ops|] == ops;
  }

  /** Undo on an empty stack leaves the stack, and the clean state, as they are. */
  lemma EmptyUndoIsNoOp()
    ensures Pop([]) == [] && StateOf(Pop([])) == CleanEditorState
  {
  }

  /** Three brightness increments and one decrement leave brightness at two steps. */
  lemma DeltasAccumulate()
    ensures var up := Operator(Property, "brightness", 0.1);
            var down := Operator(Property, "brightness", -0.1);
            StateOf([up, up, up, down])[Brightness] == 0.2
  {
    var up := Operator(Property, "brightness", 0.1);
    var down := Operator(Property, "brightness", -0.1);
    assert KeyNamed("brightness") == Some(Brightness);
    assert StateOf([up])[Brightness] == 0.1 by {
      assert [up][..0] == [];
      assert Replay(CleanEditorState, [up]) == ApplyOperator(CleanEditorState, up);
      assert CleanEditorState[Brightness] == 0.0;
    }
    assert StateOf([up, up])[Brightness] == 0.2 by { assert [up, up][..1] == [up]; }
    assert StateOf([up, up, up])[Brightness] == 0.3 by { assert [up, up, up][..2] == [up, up]; }
    assert [up, up, up, down][..3] == [up, up, up];
  }

  /** Enabling then disabling sepia leaves it off, with both records kept on the stack. */
  lemma ToggleLastWriteWins()
    ensures var ops := [Operator(Filter, "sepia", 1.0), Operator(Filter, "sepia", 0.0)];
            |ops| == 2 && StateOf(ops)[Sepia] == 0.0
  {
    var on := Operator(Filter, "sepia", 1.0);
    assert [on, Operator(Filter, "sepia", 0.0)][..1] == [on] && [on][..0] == [];
  }

  // ---------------------------------------------------------------- filter selection

  /** The filters `updateImage` can hand to the image object. */
  datatype ImageFilter =
    | BrightnessFilter(brightness: real)
    | ContrastFilter(contrast: real)
    | SaturationFilter(saturation: real)
    | KodachromeFilter
    | VintageFilter
    | TechnicolorFilter
    | PolaroidFilter
    | SepiaFilter
    | GrayscaleFilter

  /** The position of each filter in the order `updateImage` considers them. */
  function Slot(f: ImageFilter): (n: nat)
    ensures n < 9
  {
    match f
    case BrightnessFilter(_) => 0
    case ContrastFilter(_) => 1
    case SaturationFilter(_) => 2
    case KodachromeFilter => 3
    case VintageFilter => 4
    case TechnicolorFilter => 5
    case PolaroidFilter => 6
    case SepiaFilter => 7
    case GrayscaleFilter => 8
  }

  /** A state that holds all nine keys. */
  predicate Complete(state: EditorState) {
    && Brightness in state && Contrast in state && Saturation in state
    && Grayscale in state && Kodachrome in state && Vintage in state
    && Sepia in state && Technicolor in state && Polaroid in state
  }

  /** The filter `updateImage` builds for slot `i`. */
  function SlotFilter(state: EditorState, i: nat): (f: ImageFilter)
    requires i < 9 && Complete(state)
    ensures Slot(f) == i
  {
    match i
    case 0 => BrightnessFilter(state[Brightness])
    case 1 => ContrastFilter(state[Contrast])
    case 2 => SaturationFilter(state[Saturation])
    case 3 => KodachromeFilter
    case 4 => VintageFilter
    case 5 => TechnicolorFilter
    case 6 => PolaroidFilter
    case 7 => SepiaFilter
    case _ => GrayscaleFilter
  }

  /** Whether the key of slot `i` calls for its filter. */
  predicate SlotActive(state: EditorState, i: nat)
    requires i < 9 && Complete(state)
  {
    match i
    case 0 => state[Brightness] != 0.0
    case 1 => state[Contrast] != 0.0
    case 2 => state[Saturation] != 0.0
    case 3 => state[Kodachrome] > 0.0
    case 4 => state[Vintage] > 0.0
    case 5 => state[Technicolor] > 0.0
    case 6 => state[Polaroid] > 0.0
    case 7 => state[Sepia] > 0.0
    case _ => state[Grayscale] > 0.0
  }

  /**
   * Whether the state calls for `f` with its parameter: a property filter when its key is
   * nonzero and carries that value, a preset filter when its toggle is positive.
   */
  predicate Wanted(state: EditorState, f: ImageFilter)
    requires Complete(state)
  {
    match f
    case BrightnessFilter(v) => v == state[Brightness] && v != 0.0
    case ContrastFilter(v) => v == state[Contrast] && v != 0.0
    case SaturationFilter(v) => v == state[Saturation] && v != 0.0
    case KodachromeFilter => state[Kodachrome] > 0.0
    case VintageFilter => state[Vintage] > 0.0
    case TechnicolorFilter => state[Technicolor] > 0.0
    case PolaroidFilter => state[Polaroid] > 0.0
    case SepiaFilter => state[Sepia] > 0.0
    case GrayscaleFilter => state[Grayscale] > 0.0
  }

  lemma WantedIsActiveSlot(state: EditorState, f: ImageFilter)
    requires Complete(state)
    ensures Wanted(state, f) <==> SlotActive(state, Slot(f)) && f == SlotFilter(state, Slot(f))
  {
  }

  /** The filters the slots below `n` call for, in slot order. */
  function SelectUpTo(state: EditorState, n: nat): seq<ImageFilter>
    requires n <= 9 && Complete(state)
  {
    if n == 0 then []
    else SelectUpTo(state, n - 1) + (if SlotActive(state, n - 1) then [SlotFilter(state, n - 1)] else [])
  }

  /** The filter list `updateImage` builds from a state. */
  function SelectFilters(state: EditorState): seq<ImageFilter>
    requires Complete(state)
  {
    SelectUpTo(state, 9)
  }

  /** Every filter selected below slot `n` is wanted and comes from a slot below `n`. */
  lemma {:induction false} SelectUpToWanted(state: EditorState, n: nat)
    requires n <= 9 && Complete(state)
    ensures forall j :: 0 <= j < |SelectUpTo(state, n)| ==>
              Slot(SelectUpTo(state, n)[j]) < n && Wanted(state, SelectUpTo(state, n)[j])
  {
    if n > 0 {
      SelectUpToWanted(state, n - 1);
      WantedIsActiveSlot(state, SlotFilter(state, n - 1));
      var prev := SelectUpTo(state, n - 1);
      var r := SelectUpTo(state, n);
      forall j | 0 <= j < |r| ensures Slot(r[j]) < n && Wanted(state, r[j]) {
        if j < |prev| { assert r[j] == prev[j]; }
      }
    }
  }

  /** The filters selected below slot `n` appear in strictly increasing slot order. */
  lemma {:induction false} SelectUpToSorted(state: EditorState, n: nat)
    requires n <= 9 && Complete(state)
    ensures forall j, l :: 0 <= j < l < |SelectUpTo(state, n)| ==>
              Slot(SelectUpTo(state, n)[j]) < Slot(SelectUpTo(state, n)[l])
  {
    if n > 0 {
      SelectUpToSorted(state, n - 1);
      SelectUpToWanted(state, n - 1);
      var prev := SelectUpTo(state, n - 1);
      var r := SelectUpTo(state, n);
      forall j, l | 0 <= j < l < |r| ensures Slot(r[j]) < Slot(r[l]) {
        assert r[j] == prev[j];
        if l < |prev| { assert r[l] == prev[l]; }
      }
    }
  }

  /** Every wanted filter of a slot below `n` is selected. */
  lemma {:induction false} SelectUpToCovers(state: EditorState, n: nat)
    requires n <= 9 && Complete(state)
    ensures forall f :: Wanted(state, f) && Slot(f) < n ==> f in SelectUpTo(state, n)
  {
    if n > 0 {
      SelectUpToCovers(state, n - 1);
      forall g | Wanted(state, g) && Slot(g) < n ensures g in SelectUpTo(state, n) {
        WantedIsActiveSlot(state, g);
      }
    }
  }

  /**
   * `updateImage` hands over one filter per nonzero property and per positive toggle, and
   * nothing else, always in the order brightness, contrast, saturation, kodachrome,
   * vintage, technicolor, polaroid, sepia, grayscale.
   */
  lemma SelectFiltersExactly(state: EditorState)
    requires Complete(state)
    ensures forall f :: f in SelectFilters(state) <==> Wanted(state, f)
    ensures forall j, l :: 0 <= j < l < |SelectFilters(state)| ==> Slot(SelectFilters(state)[j]) < Slot(SelectFilters(state)[l])
  {
    SelectUpToWanted(state, 9);
    SelectUpToSorted(state, 9);
    SelectUpToCovers(state, 9);
  }

  /** The clean state calls for no filter. */
  lemma CleanSelectsNothing()
    ensures SelectFilters(CleanEditorState) == []
  {
    SelectUpToWanted(CleanEditorState, 9);
  }

  // ---------------------------------------------------------------- the editor object

  class CanvasEditor {
    /** The operation log, oldest record first. */
    var operatorStack: seq<Operator>
    /** The filters last handed to the image object. */
    var filters: seq<ImageFilter>
    /** The step of each adjustable property. */
    const stepSize: map<string, real>

    /** The log holds only records the editing methods push, and the image shows the log's state. */
    ghost predicate Valid()
      reads this
    {
      && Issued(operatorStack, stepSize)
      && filters == SelectFilters(StateOf(operatorStack))
    }

    constructor ()
      ensures Valid()
      ensures stepSize == DefaultStepSize && operatorStack == [] && filters == []
    {
      stepSize := DefaultStepSize;
      operatorStack := [];
      filters := [];
      new;
      CleanSelectsNothing();
    }

    /** Pushes one property record carrying the name's step, then redraws. */
    method IncrementProperty(propertyName: string)
      requires Valid()
      modifies this
      ensures Valid()
      ensures operatorStack == old(operatorStack) + [Operator(Property, propertyName, StepOf(stepSize, propertyName))]
    {
      var tmp := if propertyName in stepSize then stepSize[propertyName] else 0.0;
      var op := Operator(Property, propertyName, tmp);
      IssuedPush(operatorStack, op, stepSize);
      operatorStack := operatorStack + [op];
      UpdateImage();
    }

    /** Pushes one property record carrying the negated step, then redraws. */
    method DecrementProperty(propertyName: string)
      requires Valid()
      modifies this
      ensures Valid()
      ensures operatorStack == old(operatorStack) + [Operator(Property, propertyName, -StepOf(stepSize, propertyName))]
    {
      var tmp := if propertyName in stepSize then -1.0 * stepSize[propertyName] else 0.0;
      var op := Operator(Property, propertyName, tmp);
      assert tmp == -StepOf(stepSize, propertyName);
      IssuedPush(operatorStack, op, stepSize);
      operatorStack := operatorStack + [op];
      UpdateImage();
    }

    /** Pushes one filter record with value 1, then redraws. */
    method EnableFilter(filterName: string)
      requires Valid()
      modifies this
      ensures Valid()
      ensures operatorStack == old(operatorStack) + [Operator(Filter, filterName, 1.0)]
    {
      var op := Operator(Filter, filterName, 1.0);
      IssuedPush(operatorStack, op, stepSize);
      operatorStack := operatorStack + [op];
      UpdateImage();
    }

    /** Pushes one filter record with value 0, then redraws. */
    method DisableFilter(filterName: string)
      requires Valid()
      modifies this
      ensures Valid()
      ensures operatorStack == old(operatorStack) + [Operator(Filter, filterName, 0.0)]
    {
      var op := Operator(Filter, filterName, 0.0);
      IssuedPush(operatorStack, op, stepSize);
      operatorStack := operatorStack + [op];
      UpdateImage();
    }

    /** Pops the last record, if any, then redraws from a replay of what is left. */
    method Undo()
      requires Valid()
      modifies this
      ensures Valid()
      ensures operatorStack == Pop(old(operatorStack))
    {
      if operatorStack != [] {
        assert forall i :: 0 <= i < |operatorStack| - 1 ==> operatorStack[..|operatorStack| - 1][i] == operatorStack[i];
        operatorStack := operatorStack[..|operatorStack| - 1];
      }
      UpdateImage();
    }

    /** Rebuilds the filter list from empty, in slot order, from the replayed state. */
    method UpdateImage()
      modifies this`filters
      ensures filters == SelectFilters(StateOf(operatorStack))
    {
      var state := BuildEditorState();
      var fs: seq<ImageFilter> := [];
      if state[Brightness] != 0.0 {
        fs := fs + [BrightnessFilter(state[Brightness])];
      }
      assert fs == SelectUpTo(state, 1);
      if state[Contrast] != 0.0 {
        fs := fs + [ContrastFilter(state[Contrast])];
      }
      assert fs == SelectUpTo(state, 2);
      if state[Saturation] != 0.0 {
        fs := fs + [SaturationFilter(state[Saturation])];
      }
      assert fs == SelectUpTo(state, 3);
      if state[Kodachrome] > 0.0 {
        fs := fs + [KodachromeFilter];
      }
      assert fs == SelectUpTo(state, 4);
      if state[Vintage] > 0.0 {
        fs := fs + [VintageFilter];
      }
      assert fs == SelectUpTo(state, 5);
      if state[Technicolor] > 0.0 {
        fs := fs + [TechnicolorFilter];
      }
      assert fs == SelectUpTo(state, 6);
      if state[Polaroid] > 0.0 {
        fs := fs + [PolaroidFilter];
      }
      assert fs == SelectUpTo(state, 7);
      if state[Sepia] > 0.0 {
        fs := fs + [SepiaFilter];
      }
      assert fs == SelectUpTo(state, 8);
      if state[Grayscale] > 0.0 {
        fs := fs + [GrayscaleFilter];
      }
      assert fs == SelectUpTo(state, 9);
      filters := fs;
    }

    /** Folds the stack, oldest record first, over a clean state. */
    method BuildEditorState() returns (state: EditorState)
      ensures state == StateOf(operatorStack)
    {
      state := CleanEditorState;
      for i := 0 to |operatorStack|
        invariant state == Replay(CleanEditorState, operatorStack[..i])
      {
        var op := operatorStack[i];
        assert operatorStack[..i + 1][..i] == operatorStack[..i];
        var key := KeyNamed(op.name);
        if key.Some? && key.value in state {
          if op.opType == Property {
            state := state[key.value := state[key.value] + op.value];
          } else {
            state := state[key.value := op.value];
          }
        }
      }
      assert operatorStack[..|operatorStack|] == operatorStack;
    }
  }
}
