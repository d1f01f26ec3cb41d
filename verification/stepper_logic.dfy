/**
 * The stepper's state machine as values: its configuration (props), its own state,
 * and what each operation does to them.  An operation yields an `Effect`: the state
 * it leaves and the values it passes to `onChange`, in order.  Every state update is
 * taken as committed before `onChange` runs.
 */
module StepperLogic {
  import opened Wrappers
  import opened Handlers

  /**
   * The configuration.  `value` present means controlled mode: the parent owns the
   * value and this component only asks for changes through `onChange`.  Numbers are
   * integers; `min` and `max` have no defaults here.
   */
  datatype Props = Props(
    defaultValue: int,
    value: Option<int>,
    step: int,
    min: int,
    max: int,
    enableReinitialize: bool)

  /** The component's own state: the self-owned value and whether the input has focus. */
  datatype State = State(value: int, focused: bool)

  /** What one operation does: the state it leaves and the values passed to `onChange`. */
  datatype Effect = Effect(state: State, emitted: seq<int>)

  /** The text input as the blur and focus handlers see it: its parsed text, `None` for NaN. */
  datatype Input = Unmounted | Mounted(parsed: Option<int>)

  /** Event handlers: one a caller supplied (opaque), or one of the component's own. */
  datatype Handler = Caller(id: nat) | OnIncrement | OnDecrement | OnBlur | OnFocus

  /** The handlers a caller may pass to the prop getters; an absent one is `None`. */
  datatype CallerProps = CallerProps(onClick: Option<Handler>, onBlur: Option<Handler>, onFocus: Option<Handler>)

  /** What `getInputProps` returns, less the DOM-only entries. `value` is `None` when omitted. */
  datatype InputProps = InputProps(
    focused: bool,
    value: Option<int>,
    onBlur: seq<Option<Handler>>,
    onFocus: seq<Option<Handler>>)

  function Min(a: int, b: int): (r: int) { if a <= b then a else b }

  function Max(a: int, b: int): (r: int) { if a <= b then b else a }

  /** The bounds can be met: `min <= max`. */
  predicate Bounded(p: Props) { p.min <= p.max }

  predicate InRange(p: Props, v: int) { p.min <= v <= p.max }

  /**
   * `Math.min(max, Math.max(v, min))`: a value inside the bounds is kept, one outside
   * saturates at the nearest bound; when `max < min` the result is always `max`.
   */
  function Clamp(v: int, min: int, max: int): (r: int)
    ensures r <= max
    ensures min <= max ==> min <= r
    ensures min <= v <= max ==> r == v
    ensures v < min && min <= max ==> r == min
    ensures max < v ==> r == max
    ensures max < min ==> r == max
  {
    Min(max, Max(v, min))
  }

  predicate IsControlled(p: Props) { p.value.Some? }

  /** The effective value: the parent's value when controlled, the own state's otherwise. */
  function GetValue(p: Props, s: State): (r: int)
  {
    if IsControlled(p) then p.value.value else s.value
  }

  /**
   * Controlled mode: the own state is never read, the parent's value is the value.
   * Uncontrolled mode: the own value is the value.
   */
  lemma GetValueSource(p: Props, s: State, t: State)
    ensures IsControlled(p) ==> GetValue(p, s) == GetValue(p, t) == p.value.value
    ensures !IsControlled(p) ==> GetValue(p, s) == s.value
  {
  }

  /**
   * The state at construction: the effective value computed with `defaultValue` as the
   * own value, so the parent's value when controlled.  It is not clamped.
   */
  function InitialState(p: Props): (s: State)
    ensures !s.focused
    ensures s.value == (if IsControlled(p) then p.value.value else p.defaultValue)
    ensures GetValue(p, s) == s.value
  {
    State(GetValue(p, State(p.defaultValue, false)), false)
  }

  /**
   * `setValue(v)`: clamp `v`; when controlled only report it, otherwise store it and
   * report the effective value, which is then the clamped one.
   */
  function SetValue(p: Props, s: State, v: int): (r: Effect)
    ensures r.emitted == [Clamp(v, p.min, p.max)]
    ensures r.state.focused == s.focused
    ensures IsControlled(p) ==> r.state == s
    ensures !IsControlled(p) ==> GetValue(p, r.state) == Clamp(v, p.min, p.max)
  {
    var clamped := Clamp(v, p.min, p.max);
    if IsControlled(p) then
      Effect(s, [clamped])
    else
      var next := s.(value := clamped);
      Effect(next, [GetValue(p, next)])
  }

  /** `increment()`: one step up from the effective value, clamped; stays at `max` once there. */
  function Increment(p: Props, s: State): (r: Effect)
    ensures r.emitted == [Clamp(GetValue(p, s) + p.step, p.min, p.max)]
    ensures r.state.focused == s.focused
    ensures IsControlled(p) ==> r.state == s
    ensures !IsControlled(p) ==> r.state.value == Clamp(GetValue(p, s) + p.step, p.min, p.max)
    ensures Bounded(p) && 0 <= p.step && GetValue(p, s) == p.max ==> r.emitted == [p.max]
  {
    SetValue(p, s, GetValue(p, s) + p.step)
  }

  /** `decrement()`: one step down from the effective value, clamped; stays at `min` once there. */
  function Decrement(p: Props, s: State): (r: Effect)
    ensures r.emitted == [Clamp(GetValue(p, s) - p.step, p.min, p.max)]
    ensures r.state.focused == s.focused
    ensures IsControlled(p) ==> r.state == s
    ensures !IsControlled(p) ==> r.state.value == Clamp(GetValue(p, s) - p.step, p.min, p.max)
    ensures Bounded(p) && 0 <= p.step && GetValue(p, s) == p.min ==> r.emitted == [p.min]
  {
    SetValue(p, s, GetValue(p, s) - p.step)
  }

  /**
   * The reinitialize rule: reinitialization is enabled, the default changed, and the
   * previous own value still equals the previous default.
   */
  predicate ShouldReinitialize(prevProps: Props, prevState: State, p: Props)
  {
    p.enableReinitialize &&
    prevProps.defaultValue != p.defaultValue &&
    prevProps.defaultValue == prevState.value
  }

  /**
   * `componentDidUpdate(prevProps, prevState)`: when the reinitialize rule holds, set the
   * new default (clamped, like any set); in every other case nothing happens.
   */
  function DidUpdate(prevProps: Props, prevState: State, p: Props, s: State): (r: Effect)
    ensures !ShouldReinitialize(prevProps, prevState, p) ==> r == Effect(s, [])
    ensures ShouldReinitialize(prevProps, prevState, p) ==> r.emitted == [Clamp(p.defaultValue, p.min, p.max)]
    ensures ShouldReinitialize(prevProps, prevState, p) && !IsControlled(p) ==>
              r.state.value == Clamp(p.defaultValue, p.min, p.max)
    ensures IsControlled(p) ==> r.state == s
    ensures r.state.focused == s.focused
  {
    if ShouldReinitialize(prevProps, prevState, p) then SetValue(p, s, p.defaultValue) else Effect(s, [])
  }

  /**
   * `handleBlur()`: without a mounted input nothing happens.  Otherwise focus is lost;
   * the parsed text is committed through `setValue` unless it is NaN or equals the
   * effective value (compared before clamping).
   */
  function HandleBlur(p: Props, s: State, input: Input): (r: Effect)
    ensures input.Unmounted? ==> r == Effect(s, [])
    ensures input.Mounted? ==> !r.state.focused
    ensures r.emitted == [] <==>
              input.Unmounted? || input.parsed.None? || input.parsed.value == GetValue(p, s)
    ensures input.Mounted? && input.parsed.Some? && input.parsed.value != GetValue(p, s) ==>
              r.emitted == [Clamp(input.parsed.value, p.min, p.max)] &&
              (!IsControlled(p) ==> r.state.value == Clamp(input.parsed.value, p.min, p.max))
    ensures r.emitted == [] || IsControlled(p) ==> r.state.value == s.value
  {
    match input
    case Unmounted => Effect(s, [])
    case Mounted(parsed) =>
      var blurred := s.(focused := false);
      if parsed.None? || parsed.value == GetValue(p, blurred) then Effect(blurred, [])
      else SetValue(p, blurred, parsed.value)
  }

  /**
   * Blur compares the parsed text before clamping: at `max`, text above `max` is not taken
   * as "unchanged", so `onChange` hears `max` again while the value stays where it was.
   */
  lemma BlurAboveMaxAtMaxReportsMax(p: Props, s: State, typed: int)
    requires Bounded(p) && !IsControlled(p) && s.value == p.max && typed > p.max
    ensures HandleBlur(p, s, Mounted(Some(typed))).emitted == [p.max]
    ensures HandleBlur(p, s, Mounted(Some(typed))).state == s.(focused := false)
  {
  }

  /**
   * The update hook after a change of state alone (the props are the same object) never
   * reinitializes, so the hook never fires again after its own `setValue`.
   */
  lemma HookIgnoresStateChanges(p: Props, prevState: State, s: State)
    ensures DidUpdate(p, prevState, p, s) == Effect(s, [])
  {
  }

  /**
   * The update hook never re-clamps: unless it reinitializes, the own value is kept even
   * when the new props' bounds no longer contain it.
   */
  lemma HookDoesNotReclamp(prevProps: Props, prevState: State, p: Props, s: State)
    requires !ShouldReinitialize(prevProps, prevState, p)
    ensures DidUpdate(prevProps, prevState, p, s).state.value == s.value
    ensures !IsControlled(p) && !InRange(p, s.value) ==>
              !InRange(p, GetValue(p, DidUpdate(prevProps, prevState, p, s).state))
  {
  }

  /**
   * Narrowing the bounds after a commit: with [0, 10], committing 8 and then updating
   * to [0, 3] leaves the value at 8, outside the new bounds.
   */
  lemma NarrowedBoundsLeaveValueOutside()
    ensures var p := Props(0, None, 1, 0, 10, false);
            var q := p.(max := 3);
            var committed := SetValue(p, InitialState(p), 8).state;
            var updated := DidUpdate(p, committed, q, committed).state;
            GetValue(q, updated) == 8 && !InRange(q, GetValue(q, updated))
  {
  }

  /**
   * The parent's value is never clamped: in controlled mode it is the value, and what the
   * input shows while blurred, whatever the bounds and the own state.
   */
  lemma ParentValueIsNeverClamped(p: Props, s: State, caller: CallerProps)
    requires IsControlled(p)
    ensures GetValue(p, s) == p.value.value
    ensures !s.focused ==> GetInputProps(p, s, caller).value == Some(p.value.value)
  {
  }

  /** `handleFocus()`: with a mounted input, focus is gained; the value is untouched. */
  function HandleFocus(s: State, input: Input): (r: State)
    ensures r.value == s.value
    ensures r.focused == (input.Mounted? || s.focused)
  {
    if input.Unmounted? then s else s.(focused := true)
  }

  /**
   * `getInputProps(caller)`: `focused` mirrors the state; `value` is the effective value
   * when not focused and is omitted while focused; the caller's blur and focus handlers
   * run before the component's own.
   */
  function GetInputProps(p: Props, s: State, caller: CallerProps): (r: InputProps)
    ensures r.focused == s.focused
    ensures r.value.Some? <==> !s.focused
    ensures r.value.Some? ==> r.value.value == GetValue(p, s)
    ensures CallAll(r.onBlur) == Present(caller.onBlur) + [OnBlur]
    ensures CallAll(r.onFocus) == Present(caller.onFocus) + [OnFocus]
  {
    CallerBeforeInternal(caller.onBlur, OnBlur);
    CallerBeforeInternal(caller.onFocus, OnFocus);
    InputProps(
      s.focused,
      if s.focused then None else Some(GetValue(p, s)),
      [caller.onBlur, Some(OnBlur)],
      [caller.onFocus, Some(OnFocus)])
  }

  /** `getIncrementProps(caller).onClick`: the caller's click handler, then `increment`. */
  function GetIncrementProps(caller: CallerProps): (onClick: seq<Option<Handler>>)
    ensures CallAll(onClick) == Present(caller.onClick) + [OnIncrement]
  {
    CallerBeforeInternal(caller.onClick, OnIncrement);
    [caller.onClick, Some(OnIncrement)]
  }

  /** `getDecrementProps(caller).onClick`: the caller's click handler, then `decrement`. */
  function GetDecrementProps(caller: CallerProps): (onClick: seq<Option<Handler>>)
    ensures CallAll(onClick) == Present(caller.onClick) + [OnDecrement]
  {
    CallerBeforeInternal(caller.onClick, OnDecrement);
    [caller.onClick, Some(OnDecrement)]
  }

  /**
   * Running one handler.  A caller's handler does not touch the stepper.  Every value
   * reported is within the bounds when they can be met, and an own value within the
   * bounds stays there.
   */
  function Run(p: Props, s: State, h: Handler, input: Input): (r: Effect)
    ensures |r.emitted| <= 1
    ensures Bounded(p) ==> forall k | 0 <= k < |r.emitted| :: InRange(p, r.emitted[k])
    ensures IsControlled(p) ==> r.state.value == s.value
    ensures Bounded(p) && !IsControlled(p) && InRange(p, s.value) ==> InRange(p, r.state.value)
    ensures Bounded(p) && !IsControlled(p) && r.emitted != [] ==> InRange(p, r.state.value)
  {
    match h
    case Caller(_) => Effect(s, [])
    case OnIncrement => Increment(p, s)
    case OnDecrement => Decrement(p, s)
    case OnBlur => HandleBlur(p, s, input)
    case OnFocus => Effect(HandleFocus(s, input), [])
  }

  /** Running handlers one after another, as a composed handler does. */
  function RunAll(p: Props, s: State, hs: seq<Handler>, input: Input): (r: Effect)
    decreases |hs|
  {
    if hs == [] then
      Effect(s, [])
    else
      var first := Run(p, s, hs[0], input);
      var rest := RunAll(p, first.state, hs[1..], input);
      Effect(rest.state, first.emitted + rest.emitted)
  }

  /**
   * Whatever handlers run: every value reported is within the bounds when they can be met;
   * the parent's value is never copied into the own value; and in uncontrolled mode the own
   * value is within the bounds from the first report on, and stays there if it already was.
   */
  lemma {:induction false} RunAllKeepsBounds(p: Props, s: State, hs: seq<Handler>, input: Input)
    ensures Bounded(p) ==> forall k | 0 <= k < |RunAll(p, s, hs, input).emitted| ::
              InRange(p, RunAll(p, s, hs, input).emitted[k])
    ensures IsControlled(p) ==> RunAll(p, s, hs, input).state.value == s.value
    ensures Bounded(p) && !IsControlled(p) && InRange(p, s.value) ==>
              InRange(p, RunAll(p, s, hs, input).state.value)
    ensures Bounded(p) && !IsControlled(p) && RunAll(p, s, hs, input).emitted != [] ==>
              InRange(p, RunAll(p, s, hs, input).state.value)
    decreases |hs|
  {
    if hs != [] {
      var first := Run(p, s, hs[0], input);
      RunAllKeepsBounds(p, first.state, hs[1..], input);
    }
  }

  /** Running one more handler after a run continues from the state the run left. */
  lemma {:induction false} RunAllAppend(p: Props, s: State, hs: seq<Handler>, h: Handler, input: Input)
    ensures RunAll(p, s, hs + [h], input) ==
              var before := RunAll(p, s, hs, input);
              var last := Run(p, before.state, h, input);
              Effect(last.state, before.emitted + last.emitted)
    decreases |hs|
  {
    if hs == [] {
      assert hs + [h] == [h];
      assert [h][1..] == [];
    } else {
      assert (hs + [h])[0] == hs[0];
      assert (hs + [h])[1..] == hs[1..] + [h];
      var first := Run(p, s, hs[0], input);
      RunAllAppend(p, first.state, hs[1..], h, input);
    }
  }

  /**
   * What a composed handler has done after one more of its handlers: the same as before
   * when that handler is absent, one more `Run` when it is present.
   */
  lemma RunAllExtend(p: Props, s: State, fns: seq<Option<Handler>>, i: nat, input: Input)
    requires i < |fns|
    ensures RunAll(p, s, CallAll(fns[..i + 1]), input) ==
              var before := RunAll(p, s, CallAll(fns[..i]), input);
              match fns[i]
              case None => before
              case Some(h) =>
                var last := Run(p, before.state, h, input);
                Effect(last.state, before.emitted + last.emitted)
  {
    CallAllExtend(fns, i);
    match fns[i]
    case None =>
      assert CallAll(fns[..i]) + Present(fns[i]) == CallAll(fns[..i]);
    case Some(h) =>
      RunAllAppend(p, s, CallAll(fns[..i]), h, input);
  }
}
