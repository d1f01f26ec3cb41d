# Stepper primitive, modelled in Dafny

A model of `StepperPrimitive`, a headless numeric stepper component. It holds a
number bounded by `min` and `max` and steps it up or down by `step`. The value is
either owned by the component (uncontrolled mode) or by its parent (controlled mode,
when the `value` prop is present). The component also keeps a text input's focus
state, and on blur it commits what the user typed.

The model has five modules:

- `Wrappers`: `Option`, standing for `undefined`, or for NaN as a parse result.
- `Handlers`: `callAll`, the handler composition. A composed handler is described by
  the sequence of handlers it invokes (`CallAll`).
- `StepperLogic`: the component as values. `Props` is the configuration, `State` the
  component's own state (`value`, `focused`). Each operation is a function returning an
  `Effect`: the new state and the values passed to `onChange`, in order.
- `StepperComponent`: class `StepperPrimitive`. Its fields are `props` and `state`, plus
  two ghost logs: `changes` (every `onChange` value) and `invoked` (every handler run
  through a composed handler). Each method updates the fields in place and is proved
  against the function of the same operation in `StepperLogic`.
- `StepperTests`: the test suite's cases plus two handler scenarios (a click and a blur),
  replayed on objects.

Modelling choices:

- Numbers are `int`.
- `min` and `max` are always given.
- `parseFloat(input.value)` is a parameter: `Input.Mounted(parsed)`, where
  `parsed == None` means NaN. `Input.Unmounted` is the case where no input element
  was ever attached. In that case `handleBlur` and `handleFocus` do nothing.
- A caller-supplied handler is an opaque `Caller(id)`. Running it does not touch the
  stepper.
- A prop change is `Update(next)`: the props are replaced, then the update hook runs
  with the previous props and state.

The model keeps one detail of the code that is easy to miss:

- The initial value is not clamped. The code computes it as
  `getValue({value: defaultValue})`, so it is the parent's value in controlled mode
  and `defaultValue` otherwise, never passed through `setValue`.
- So "the value is within `[min, max]`" holds only in uncontrolled mode, with the props
  unchanged, from the first commit on. `RunAllKeepsBounds` states this for any sequence
  of handlers under fixed props.
- The update hook never re-clamps. A props update that narrows the bounds after a commit
  leaves the own value outside them (`HookDoesNotReclamp`, `NarrowedBoundsLeaveValueOutside`).
- The parent's value is never clamped. In controlled mode it is the value, whatever the
  bounds (`ParentValueIsNeverClamped`).

## Model

| member | source | states |
|---|---|---|
| `Handlers.CallAll` | src/index.js:7 | the composed handler invokes at most one handler per argument |
| `Handlers.CallAllInvokesPresent` | src/index.js:7 | every invoked handler was given, and every present handler is invoked |
| `Handlers.CallAllAppend` | src/index.js:7 | composing `a` then `b` runs `a`'s present handlers, then `b`'s, in order |
| `Handlers.CallAllInvokesInOrder` | src/index.js:7 | a present handler runs exactly once, after all handlers before it and before all handlers after it |
| `Handlers.CallAllSkipsAbsent` | src/index.js:7 | an absent handler is skipped without disturbing the others |
| `Handlers.CallerBeforeInternal` | src/index.js:104-122 | `callAll(props.x, internal)` runs the caller's handler, when given, before the internal one |
| `StepperLogic.Clamp` | src/index.js:53 | the result never exceeds `max`; when `min <= max` it is at least `min`; an in-range value is kept; an out-of-range value saturates at the nearest bound; when `max < min` the result is `max` |
| `StepperLogic.GetValueSource` | src/index.js:44-50 | controlled mode: the value is `props.value` whatever the own state holds; uncontrolled mode: it is `state.value` |
| `StepperLogic.InitialState` | src/index.js:30-32 | the start is unfocused, with the value `props.value` when controlled and `defaultValue` otherwise, unclamped |
| `StepperLogic.SetValue` | src/index.js:52-59 | `onChange` is called exactly once, with the clamped value; controlled mode leaves the state as it was; uncontrolled mode makes the clamped value the value; focus is untouched |
| `StepperLogic.Increment` | src/index.js:61-63 | reports and (uncontrolled) stores `clamp(value + step)`; controlled state is untouched; at `max` with a non-negative step it stays at `max` |
| `StepperLogic.Decrement` | src/index.js:65-67 | reports and (uncontrolled) stores `clamp(value - step)`; at `min` with a non-negative step it stays at `min` |
| `StepperLogic.DidUpdate` | src/index.js:34-42 | the state and the `onChange` log are untouched unless reinitialize is enabled, the default changed and the previous own value equals the previous default; then the new default is set clamped and reported once |
| `StepperLogic.HookIgnoresStateChanges` | src/index.js:34-42 | an update that changed only state, not props, never reinitializes |
| `StepperLogic.HookDoesNotReclamp` | src/index.js:34-42 | when the reinitialize rule does not hold, the own value is kept, so an uncontrolled value outside the new bounds stays outside |
| `StepperLogic.NarrowedBoundsLeaveValueOutside` | src/index.js:34-42 | with bounds [0, 10], committing 8 and then narrowing `max` to 3 leaves the value 8, outside the new bounds |
| `StepperLogic.ParentValueIsNeverClamped` | src/index.js:44-50 | in controlled mode the value is `props.value` whatever the bounds, and a blurred input shows it unclamped |
| `StepperLogic.HandleBlur` | src/index.js:79-88 | without an input nothing changes; otherwise focus is lost; nothing is reported iff the text is NaN or equals the current value before clamping; otherwise the clamped text is reported once and, uncontrolled, stored |
| `StepperLogic.BlurAboveMaxAtMaxReportsMax` | src/index.js:84-87 | the unclamped comparison: at `max`, typing above `max` reports `max` again while the value stays |
| `StepperLogic.HandleFocus` | src/index.js:90-96 | with an input, focus is gained; the value never changes |
| `StepperLogic.GetInputProps` | src/index.js:116-130 | `focused` mirrors the state; `value` is present iff not focused and then equals the current value; caller blur and focus handlers run before the component's |
| `StepperLogic.GetIncrementProps` | src/index.js:104-108 | the click handler runs the caller's `onClick`, when given, then `increment` |
| `StepperLogic.GetDecrementProps` | src/index.js:110-114 | the click handler runs the caller's `onClick`, when given, then `decrement` |
| `StepperLogic.Run` | src/index.js:7 | one handler reports at most one value, always within bounds when `min <= max`; controlled mode never changes the own value; uncontrolled, an in-range value stays in range, and a value just reported is in range |
| `StepperLogic.RunAllKeepsBounds` | src/index.js:52-88 | over any sequence of handlers: every value reported is within `[min, max]`; controlled mode never changes the own value; uncontrolled, an in-range value stays in range and the value is in range from the first report on |
| `StepperLogic.RunAllAppend` | src/index.js:7 | running one more handler continues from the state the earlier ones left, and its reports follow theirs |
| `StepperComponent.StepperPrimitive.constructor` | src/index.js:30-32 | the object starts in the initial state with empty logs |
| `StepperComponent.StepperPrimitive.SetValue` | src/index.js:52-59 | the new state and the appended `onChange` value are those of `StepperLogic.SetValue`: the clamped value is reported once, and stored when uncontrolled |
| `StepperComponent.StepperPrimitive.Increment` | src/index.js:61-63 | the new state and log are those of `StepperLogic.Increment` |
| `StepperComponent.StepperPrimitive.Decrement` | src/index.js:65-67 | the new state and log are those of `StepperLogic.Decrement` |
| `StepperComponent.StepperPrimitive.ComponentDidUpdate` | src/index.js:34-42 | the new state and log are those of `StepperLogic.DidUpdate` |
| `StepperComponent.StepperPrimitive.Update` | src/index.js:34-42 | the props become the new ones, then state and log follow `StepperLogic.DidUpdate` with the old props and state |
| `StepperComponent.StepperPrimitive.HandleBlur` | src/index.js:79-88 | the new state and log are those of `StepperLogic.HandleBlur` |
| `StepperComponent.StepperPrimitive.HandleFocus` | src/index.js:90-96 | the new state is that of `StepperLogic.HandleFocus`; the log is untouched |
| `StepperComponent.StepperPrimitive.Run` | src/index.js:7 | records the handler and applies `StepperLogic.Run` |
| `StepperComponent.StepperPrimitive.Fire` | src/index.js:7 | the composed handler's handlers are recorded in `CallAll` order, and state and log are those of running them one after another |
| `StepperTests.ValueDefaultsToZero` | src/__tests__/index.js:15-18 | with the default `defaultValue`, the value is 0 whatever the bounds |
| `StepperTests.ValueFollowsDefaultValue` | src/__tests__/index.js:20-23 | `defaultValue: 33` gives the value 33 |
| `StepperTests.InputPropsValueFollowsFocus` | src/__tests__/index.js:30-37 | `getInputProps().value` is 0 while blurred and absent while focused |
| `StepperTests.SetValueIsBetweenMinAndMax` | src/__tests__/index.js:49-60 | with bounds [0, 1], setting 2, -1, 1, 0 stores 1, 0, 1, 0 |
| `StepperTests.IncrementDecrementAreCapped` | src/__tests__/index.js:62-74 | with bounds [0, 1] from 0, increment, increment, decrement, decrement store 1, 1, 0, 0 |
| `StepperTests.ReinitializesUnmodifiedValue` | src/__tests__/index.js:77-83 | reinitialize on, default 33 changed to 42 with the value untouched: the value becomes 42 |
| `StepperTests.KeepsModifiedValue` | src/__tests__/index.js:85-92 | reinitialize on, value set to 418, default changed to 42: the value stays 418 |
| `StepperTests.IgnoresNewDefaultWhenDisabled` | src/__tests__/index.js:94-100 | reinitialize off, default changed to 42: the value stays 33 |
| `StepperTests.ClickRunsCallerHandlerFirst` | src/index.js:104-108 | an increment click runs the caller's handler and then `increment`; a controlled stepper keeps the parent's value |
| `StepperTests.BlurCommitsParsedText` | src/index.js:79-88 | blurring with text above `max` commits `max`; NaN text and text equal to the value commit nothing; focus is lost |

## Left out

- React plumbing is not modelled: rendering, the `render` callback's bundle, `propTypes`, and the default props. `defaultValue`, `step` and `enableReinitialize` are always passed explicitly, and `onChange` is a log.
- `setState` batching and its asynchronous callback are not modelled. Each state update is committed before `onChange` runs.
- Floating point is not modelled. Values, steps and bounds are integers. `Number.MAX_VALUE` is not modelled, so `min` and `max` are required. Neither are `parseFloat`'s behaviour on text, `isNaN`, or fractional input: the parse result is a parameter.
- `state.focused` starts as `undefined` in the component and as `false` here. Both are falsy, so the only difference is what `getInputProps().focused` returns before the first focus or blur.
- The DOM side effects are not modelled:
  - `handleSubmit` and `getFormProps` (`preventDefault`, then `input.blur()`);
  - `handleInputRef` and the composed `ref` handler;
  - `input.blur()` inside `handleBlur`;
  - writing `input.value` and `setSelectionRange` in the focus callback.
  Whether an input is attached is the `Input` parameter.
- `getInputProps`'s constant entries (`type: 'text'`, `pattern`) are not modelled. `pattern` comes from an external library.
- Caller-supplied handlers are opaque. A caller handler that itself calls back into the stepper is not modelled.
