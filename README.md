# Voice-driven photo editor: command layer

This project models the voice-command layer of a browser photo editor. Speech arrives as
segments carrying an intent and entities, and two dispatchers turn segments into edits.

- **`Canvas`** (`canvas_editor.dfy`) models the operation-stack editor `CanvasEditor`.
  - Each command pushes one operator record onto `operatorStack`. `undo` pops one.
  - The editor state is the stack folded over a clean nine-key state.
  - Property records add to their key. Filter records overwrite it, so the last write wins.
  - `updateImage` turns that state into filters, in a fixed order.
  - The class keeps `operatorStack` and the selected `filters` as fields. Its invariant is that
    every record is one its own methods could have pushed, and that `filters` is the selection
    for the replayed stack.
  - `BuildEditorState` is the source's loop, proved equal to the fold `StateOf`.
  - Lemmas:
    - any key is its last filter write (0 if none) plus the property records pushed after it;
    - so a key no filter record addresses is the sum of its property records;
    - a filter key is its last write, so it is always 0 or 1;
    - undo after a push restores the stack and the state;
    - the selected filters are exactly the wanted ones, in slot order.
- **`SpeechlyTools`** (`speechly_tools.dfy`) models the newer intent router.
  - `EditorCallFor` is the pure decision: it returns at most one editor call for a segment.
  - Its inputs are the first entity of the expected type, lower-cased, and the alias table.
  - `UpdateImageEditorBySegmentChange` drives the `CanvasEditor` model with that call.
- **`ConnectionContext`** (`connection_context.dfy`) models the older dispatcher component.
  - It collects intents and final entities.
  - On a final segment it acts on the first intent: undo, grayscale, sepia, brightness up or down, or crop.
  - It then clears what it collected.
  - The crop rectangle and the client-state guards are pure functions.
  - A spoken scale replaces the signed ±0.2 step, so `decrease_luminosity` with a positive scale raises brightness (`DecreaseWithScaleRaises`).
  - Calls into the image editor and the speech client are recorded as a list of `Effect`s.
- **`JsBuiltins`** (`js_builtins.dfy`) holds the JavaScript built-ins the core relies on:
  - `toLowerCase`, `Array.prototype.filter`, `parseInt(s, 10)` and `Math.round`.
  - Each comes with the facts the model needs, such as `parseInt(String(n)) == n`.
- **`SpeechClient`** (`speech_client.dfy`) holds the speech library's value types: `Segment`, `Intent`, `Entity` and `ClientState`.
- **`Wrappers`** (`wrappers.dfy`) holds the `Option` type.

Numbers are exact `real`s. Canvas sizes are `nat`. `Math.round(x)` is `floor(x + 1/2)`.

## Model

| member | source | states |
|---|---|---|
| Canvas.KeyNamed | src/CanvasEditor.ts:163-175 | a name resolves only to the state key of that exact name |
| Canvas.KeyNameRoundTrip | src/CanvasEditor.ts:163-175 | each of the nine clean-state keys is found by its own name |
| Canvas.CleanEditorState | src/CanvasEditor.ts:163-175 | a constant, no contract: the nine keys at 0; `Canvas.EmptyUndoIsNoOp` and `Canvas.CleanSelectsNothing` describe it |
| Canvas.DefaultStepSize | src/CanvasEditor.ts:47-49 | a constant, no contract: brightness 0.1, contrast 0.1, saturation 0.2; the constructor's ensures installs it |
| Canvas.StepOf | src/CanvasEditor.ts:56-59 | no ensures: the name's step, 0 without one; `Canvas.CanvasEditor.IncrementProperty` and `Canvas.CanvasEditor.DecrementProperty` state the records built from it |
| Canvas.ApplyOperator | src/CanvasEditor.ts:152-158 | one record never adds or removes a key of the state; `Canvas.ApplyOperatorAt` gives its value on each key |
| Canvas.Replay | src/CanvasEditor.ts:149-161 | folding records over a state keeps every key it had, so a complete nine-key state stays complete |
| Canvas.StateOf | src/CanvasEditor.ts:149-161 | the built state holds all nine keys; `Canvas.EditorKeyValue` gives each key's value |
| Canvas.Pop | src/CanvasEditor.ts:88-92 | popping an empty stack gives the empty stack; otherwise the result followed by the removed last record is the old stack |
| Canvas.PropertyKeyIsSum | src/CanvasEditor.ts:149-155 | with no filter record on a key, its replayed value is its start value plus the sum of that key's property records |
| Canvas.ToggleKeyIsLastWrite | src/CanvasEditor.ts:156-158 | with no property record on a key, its replayed value is the last filter record's value, or the start value if there is none |
| Canvas.AfterLastFilter | src/CanvasEditor.ts:152-158 | the records after the last filter record on a key are no longer than the stack and hold no filter record on that key |
| Canvas.ApplyOperatorAt | src/CanvasEditor.ts:153-158 | one record overwrites a key if it is a filter record for it, adds to it if it is a property record for it, and otherwise leaves it |
| Canvas.KeyIsLastFilterPlusLaterSteps | src/CanvasEditor.ts:149-158 | any key, whatever mix of records addresses it, ends at its last filter value (the start value if none) plus the property records pushed after that filter record |
| Canvas.IssuedToggleIsBinary | src/CanvasEditor.ts:72-86 | on any stack the editor's methods can build, the last filter write on a key (default 0) is 0 or 1 |
| Canvas.EditorToggleKey | src/CanvasEditor.ts:149-175 | in the built state every toggle key equals its last filter record's value (0 if none), so it is 0 or 1 |
| Canvas.EditorPropertyKey | src/CanvasEditor.ts:149-175 | in the built state a key with no filter record equals 0 plus the sum of its property records, in stack order |
| Canvas.EditorKeyValue | src/CanvasEditor.ts:149-175 | in the built state every key is its last filter write (0 if none) plus the property records pushed after it |
| Canvas.FilterThenStep | src/CanvasEditor.ts:149-158 | a filter record setting brightness to 1 followed by a 0.1 step builds brightness 1.1 |
| Canvas.PushThenUndo | src/CanvasEditor.ts:57-92 | any push followed by undo gives back the previous stack and hence the same built state |
| Canvas.EmptyUndoIsNoOp | src/CanvasEditor.ts:88-92 | undo on an empty stack leaves it empty and the state clean |
| Canvas.DeltasAccumulate | src/CanvasEditor.ts:149-155 | three brightness increments and one decrement build brightness 0.2 |
| Canvas.ToggleLastWriteWins | src/CanvasEditor.ts:156-158 | enabling then disabling sepia leaves sepia 0 |
| Canvas.Slot | src/CanvasEditor.ts:100-143 | every filter has one of nine positions in the application order |
| Canvas.SlotFilter | src/CanvasEditor.ts:100-143 | the filter built at position i sits at position i |
| Canvas.WantedIsActiveSlot | src/CanvasEditor.ts:100-143 | a filter is wanted iff its position's test passes and it is the filter built there |
| Canvas.SelectUpToWanted | src/CanvasEditor.ts:98-143 | every filter selected from the first n positions is wanted and lies below position n |
| Canvas.SelectUpToSorted | src/CanvasEditor.ts:98-143 | the filters selected from the first n positions are strictly ordered by position |
| Canvas.SelectUpToCovers | src/CanvasEditor.ts:98-143 | every wanted filter below position n is selected |
| Canvas.SelectFiltersExactly | src/CanvasEditor.ts:98-143 | a filter is in the list iff its key is a nonzero property or a positive toggle; the list follows the order brightness, contrast, saturation, kodachrome, vintage, technicolor, polaroid, sepia, grayscale |
| Canvas.SelectFilters | src/CanvasEditor.ts:98-143 | no ensures: the filter list for a state; `Canvas.SelectFiltersExactly` states what it holds and in which order |
| Canvas.CleanSelectsNothing | src/CanvasEditor.ts:163-175 | the clean state selects no filter |
| Canvas.CanvasEditor.constructor | src/CanvasEditor.ts:47-51 | the step sizes are brightness 0.1, contrast 0.1 and saturation 0.2; the stack and filter list start empty |
| Canvas.CanvasEditor.IncrementProperty | src/CanvasEditor.ts:54-61 | earlier records are kept and exactly one property record is appended, with the name's step size (0 without one); the invariant holds |
| Canvas.CanvasEditor.DecrementProperty | src/CanvasEditor.ts:63-70 | earlier records are kept and exactly one property record is appended, with the negated step size (0 without one); the invariant holds |
| Canvas.CanvasEditor.EnableFilter | src/CanvasEditor.ts:72-78 | exactly one filter record with value 1 is appended; the invariant holds |
| Canvas.CanvasEditor.DisableFilter | src/CanvasEditor.ts:80-86 | exactly one filter record with value 0 is appended; the invariant holds |
| Canvas.CanvasEditor.Undo | src/CanvasEditor.ts:88-92 | exactly the last record is removed; an empty stack stays empty without failing |
| Canvas.CanvasEditor.UpdateImage | src/CanvasEditor.ts:94-147 | the filter list is rebuilt from empty as the selection for the built state |
| Canvas.CanvasEditor.BuildEditorState | src/CanvasEditor.ts:149-161 | the loop returns the fold of the whole stack over the clean state |
| SpeechlyTools.Entity2Canonical | src/speechlyTools.ts:4-20 | a constant, no contract: the fifteen entries of the alias table; `SpeechlyTools.AliasesResolve`, `SpeechlyTools.CanonicalIsFixpoint` and `SpeechlyTools.CanonicalIsEditorKey` describe it |
| SpeechlyTools.AliasesResolve | src/speechlyTools.ts:4-20 | classic maps to vintage, faded to sepia, black and white to grayscale, light and luminosity to brightness, color to saturation |
| SpeechlyTools.CanonicalIsFixpoint | src/speechlyTools.ts:4-20 | every output of the table is itself a key that maps to itself, so looking up twice equals looking up once |
| SpeechlyTools.CanonicalIsEditorKey | src/speechlyTools.ts:4-20 | every output of the table names a key of the editor state |
| SpeechlyTools.CollectEntity | src/speechlyTools.ts:54-62 | the result is the lower-cased value of the first entity of the type, and the empty string when none has it |
| SpeechlyTools.FirstMatchWins | src/speechlyTools.ts:30-34 | when the first entity is a filter, it alone decides an add_filter segment, whatever entities follow |
| SpeechlyTools.AddFilterCall | src/speechlyTools.ts:30-34 | a final add_filter segment whose filter text is in the table enables that text's canonical filter |
| SpeechlyTools.EditorCallFor | src/speechlyTools.ts:22-52 | non-final segments and unknown or empty intents give no call; undo gives Undo whatever the entities; each other intent gives its call iff the collected entity is a table key, and passes that key's canonical name |
| SpeechlyTools.RoutedNameIsEditorKey | src/speechlyTools.ts:30-49 | every name the router passes to the editor is a key of the editor state |
| SpeechlyTools.AliasReachesEditor | src/speechlyTools.ts:30-34 | saying "classic" for add_filter enables the vintage filter |
| SpeechlyTools.Perform | src/speechlyTools.ts:22-52 | a segment leaves the stack unchanged, pops it, or appends exactly one record, so it makes at most one editor call |
| SpeechlyTools.DroppedSegmentChangesNothing | src/speechlyTools.ts:23-26 | a non-final segment or an unsupported intent leaves the stack unchanged |
| SpeechlyTools.UpdateImageEditorBySegmentChange | src/speechlyTools.ts:22-52 | the editor's stack changes exactly as the routed call prescribes, and its invariant holds |
| SpeechlyTools.Dispatch | src/speechlyTools.ts:26-51 | the editor's invariant holds afterwards, and its stack becomes `Perform` of the old stack, the step sizes and the call |
| JsBuiltins.LowerChar | src/speechlyTools.ts:59 | the result is never an upper-case letter; upper-case letters move down by 32, everything else is kept |
| JsBuiltins.ToLower | src/speechlyTools.ts:59 | lower-casing keeps the length and lower-cases each character |
| JsBuiltins.ToLowerFixesLower | src/speechlyTools.ts:59 | text without upper-case letters is unchanged |
| JsBuiltins.ToLowerIdempotent | src/speechlyTools.ts:59 | lower-casing twice equals lower-casing once |
| JsBuiltins.Filter | src/speechlyTools.ts:55 | the result is no longer than the input, every element comes from the input and is kept, and every kept input element appears |
| JsBuiltins.FilterAppend | src/speechlyTools.ts:55 | filtering keeps order: with one more element at the end, the result is the filtered rest followed by that element if it is kept |
| JsBuiltins.FilterHead | src/speechlyTools.ts:55-59 | the filtered list is empty iff nothing is kept, and its head is the first kept element |
| JsBuiltins.TrimStartIsSuffix | src/ConnectionContext.tsx:177 | trimming leaves a suffix of the input that does not start with white space |
| JsBuiltins.DigitPrefix | src/ConnectionContext.tsx:177 | the digits read are all decimal digits |
| JsBuiltins.DigitPrefixIsLongest | src/ConnectionContext.tsx:177 | the digits read are a prefix of the input, and the character after them, if any, is not a digit |
| JsBuiltins.ParseInt | src/ConnectionContext.tsx:177 | parsing fails (NaN) iff no digit follows the leading white space and the optional sign |
| JsBuiltins.NatToStringValue | src/ConnectionContext.tsx:177 | a decimal numeral's digits are worth the number it was written from |
| JsBuiltins.DigitPrefixOfDigits | src/ConnectionContext.tsx:177 | a string made only of digits is its own digit prefix |
| JsBuiltins.ParseDigits | src/ConnectionContext.tsx:177 | a run of digits parses to the number it denotes |
| JsBuiltins.ParseMinusDigits | src/ConnectionContext.tsx:177 | a minus sign followed by digits parses to the negated number |
| JsBuiltins.ParseIntRoundTrip | src/ConnectionContext.tsx:177 | parsing the decimal numeral of any integer gives that integer back |
| JsBuiltins.IntToStringIsLower | src/ConnectionContext.tsx:177 | a decimal numeral is unchanged by lower-casing |
| JsBuiltins.Round | src/ConnectionContext.tsx:131 | the rounded integer lies within one half of the input, ties going up |
| JsBuiltins.RoundUnique | src/ConnectionContext.tsx:131 | an integer within one half of the input (ties up) is its rounding |
| SpeechClient.Below | src/ConnectionContext.tsx:276 | no ensures: the `<` on client states; `ConnectionContext.CloseOnlyOnceConnected` lists which states lie below Connected |
| SpeechClient.Ordinal | src/ConnectionContext.tsx:276 | each client state has one of five positions |
| ConnectionContext.Plus | src/ConnectionContext.tsx:179 | no ensures: JavaScript `+` with NaN absorbing; `ConnectionContext.IncreaseWithoutScale` and `ConnectionContext.DecreaseWithScaleRaises` use it |
| ConnectionContext.EntitiesOfType | src/ConnectionContext.tsx:117-123 | no ensures: the `filter` on entity type; `ConnectionContext.NoneOfType` and `JsBuiltins.Filter` describe it |
| ConnectionContext.NoneOfType | src/ConnectionContext.tsx:117 | with no entity of a type, filtering by that type gives the empty list |
| ConnectionContext.RoundTenths | src/ConnectionContext.tsx:131 | rounding k tenths is (k + 5) div 10 |
| ConnectionContext.RoundHalf | src/ConnectionContext.tsx:142 | rounding half a side n is (n + 1) div 2 |
| ConnectionContext.DefaultCrop | src/ConnectionContext.tsx:130-134 | no ensures: the rounded 10% / 80% rectangle; `ConnectionContext.DefaultCropInside` gives its closed form and bounds |
| ConnectionContext.CropRegionFor | src/ConnectionContext.tsx:129-165 | no ensures: the direction switch; `ConnectionContext.NoDirectionCropsMiddle`, `ConnectionContext.UnknownDirectionCropsMiddle`, `ConnectionContext.TopLeftCrop`, `ConnectionContext.TopRightCrop` and `ConnectionContext.BottomLeftTopUsesWidth` describe each case |
| ConnectionContext.DefaultCropInside | src/ConnectionContext.tsx:129-134 | the default crop starts a rounded tenth in from each side, spans eight rounded tenths and stays inside the canvas |
| ConnectionContext.NoDirectionCropsMiddle | src/ConnectionContext.tsx:129-134 | without a direction entity the crop is the default middle region |
| ConnectionContext.UnknownDirectionCropsMiddle | src/ConnectionContext.tsx:159-164 | a first direction other than top left, top right and bottom left crops to the default middle region |
| ConnectionContext.TopLeftCrop | src/ConnectionContext.tsx:138-144 | top left crops at the origin with half of each side, rounded |
| ConnectionContext.TopRightCrop | src/ConnectionContext.tsx:145-151 | top right starts on the top edge and its left plus width is exactly the canvas width |
| ConnectionContext.BottomLeftTopUsesWidth | src/ConnectionContext.tsx:152-158 | bottom left, as written, puts top at height minus half the width: 0 on a 200 by 100 canvas, negative on 300 by 100 |
| ConnectionContext.LuminosityChange | src/ConnectionContext.tsx:176-177 | no ensures: the step, or the parsed first scale; `ConnectionContext.StepWithoutScale` and `ConnectionContext.ScaleReplacesStep` describe it |
| ConnectionContext.StepWithoutScale | src/ConnectionContext.tsx:175-178 | without a scale entity the change is the given step |
| ConnectionContext.ScaleReplacesStep | src/ConnectionContext.tsx:176-177 | a scale entity spelling the integer n replaces the step with n |
| ConnectionContext.IntentOutcome | src/ConnectionContext.tsx:104-168 | at most one call is made; no intent means no call and no change; brightness changes only for the luminosity intents |
| ConnectionContext.OnlyFirstIntentMatters | src/ConnectionContext.tsx:108-109 | the outcome depends only on the first collected intent |
| ConnectionContext.IncreaseWithoutScale | src/ConnectionContext.tsx:116-118 | without a scale entity, increase_luminosity adds 0.2 and applies the brightness filter with the new value |
| ConnectionContext.DecreaseWithScaleRaises | src/ConnectionContext.tsx:119-121 | decrease_luminosity with a positive numeral as first scale raises brightness by that number, because the parsed scale replaces the signed step |
| ConnectionContext.CropWithoutDirection | src/ConnectionContext.tsx:122-134 | without a direction entity, crop cuts to the default middle region |
| ConnectionContext.StartContextCall | src/ConnectionContext.tsx:220-239 | the client is initialised iff Disconnected, recording starts iff Connected, and nothing happens otherwise |
| ConnectionContext.StopRecordingCall | src/ConnectionContext.tsx:262-273 | the client is told to stop iff it is Recording |
| ConnectionContext.CloseClientCall | src/ConnectionContext.tsx:275-288 | the client is closed iff its state is not below Connected |
| ConnectionContext.CloseOnlyOnceConnected | src/ConnectionContext.tsx:276 | close happens exactly in Connected, Recording and Stopping |
| ConnectionContext.ConnectionContextProvider.constructor | src/ConnectionContext.tsx:45-58 | no intents or entities, brightness 0, client Disconnected, no calls made |
| ConnectionContext.ConnectionContextProvider.OnEntity | src/ConnectionContext.tsx:80-89 | a final entity is appended, stamped with segmentId + 1; a non-final entity leaves the list unchanged |
| ConnectionContext.ConnectionContextProvider.OnIntent | src/ConnectionContext.tsx:91-98 | every intent is appended, stamped with segmentId + 1, after the earlier ones |
| ConnectionContext.ConnectionContextProvider.BrowserClientStateChanged | src/ConnectionContext.tsx:100-102 | the client state becomes the reported one |
| ConnectionContext.ConnectionContextProvider.UpdateStateBySegmentChange | src/ConnectionContext.tsx:104-174 | a non-final segment changes nothing; after a final one the calls and brightness are those of the first intent's outcome, the lists are empty, and the client state is kept |
| ConnectionContext.ConnectionContextProvider.ChangeLuminosity | src/ConnectionContext.tsx:175-186 | brightness becomes the old value plus the step or the parsed scale (NaN when it does not parse); the lists are cleared and the brightness filter is applied with the new value |
| ConnectionContext.ConnectionContextProvider.UndoIntent | src/ConnectionContext.tsx:188-200 | the editor is asked to undo iff its undo stack is not empty |
| ConnectionContext.ConnectionContextProvider.CropTo | src/ConnectionContext.tsx:202-206 | one crop call with the given rectangle is made |
| ConnectionContext.ConnectionContextProvider.ApplyFilter | src/ConnectionContext.tsx:208-214 | one filter call with the given name and options is made |
| ConnectionContext.ConnectionContextProvider.StartContext | src/ConnectionContext.tsx:220-239 | the calls made are exactly what the start guard allows for the current state |
| ConnectionContext.ConnectionContextProvider.StopRecording | src/ConnectionContext.tsx:262-273 | a stop call is made only while Recording |
| ConnectionContext.ConnectionContextProvider.CloseClient | src/ConnectionContext.tsx:275-288 | a close call is made only when the state is not below Connected |

## Left out

- Rendering. This covers the fabric filter objects, `applyFilters`, `renderAll`, the colour matrices behind kodachrome, vintage, technicolor and polaroid, `resize`, and `resizeElements`. These are library calls and window geometry. `UpdateImage` computes the list of filters to apply, each with the value it would be built from.
- The image editor and speech client. Their results, promises and error callbacks are not modelled. Each call is recorded as an `Effect`. Whether the editor's undo stack is empty comes in as a parameter. So do the canvas size and the incoming segment.
- ConnectionContext.ConnectionContextProvider.UndoIntent: does not model the brightness correction made when the editor's undo promise resolves, because it depends on what the library returns.
- The `Date`-based `isTapping` logic, `stopContext`, `toggleRecordButtonState`, `stateChanged` and `clearList`. These are UI timing and flags.
- The UI flags that `defaultState` also resets (record button, dialogs, initial load).
- The React shell files (`Mic.tsx`, `Editor.tsx`, `App`, `Onboard.tsx`). Mic's client-state gating repeats the guards modelled here.
- Floating point. Numbers are exact reals, so `0.1 + 0.2` is exactly `0.3`. Brightness in the older dispatcher distinguishes NaN, the only non-finite value a failed `parseInt` can produce there.
- Canvas.CanvasEditor.BuildEditorState: a record whose name is not one of the nine keys leaves the state as it is. In JavaScript it creates an extra key, NaN for a property record, that nothing reads. The router never sends such a name (`SpeechlyTools.RoutedNameIsEditorKey`).
- Operator types are the two the editor pushes, `property` and `filter`. The source's string type allows others that are never produced.
- The alias table is a finite map. JavaScript's `in` also finds names inherited from the object prototype (such as `constructor`). The model treats those as absent.
- `toLowerCase` covers ASCII letters only. Unicode case mapping is not modelled.
- `parseInt` covers radix 10 exactly: leading white space, sign and longest digit prefix. Parsing integers beyond double precision is not modelled.
- Entity start and end positions, and the segment's context and segment ids, are not modelled; the ids come in as parameters where the source stamps them.
- `ClientState` uses five of the speech library's states, in an order of its own: Disconnected, Connecting, Connected, Recording, Stopping. The library's numeric values and its other states are not modelled. The closing guard depends only on which states lie below Connected.
- React's `setState` batching. Each `setState` is treated as an immediate assignment.
