/**
 * The stepper component as an object whose methods update its props and state in place.
 * `changes` records every value passed to `onChange`; `invoked` records every handler run
 * through a composed handler.  Each method is specified by the function of the same
 * operation in `StepperLogic`.
 */
module StepperComponent {
  import opened Wrappers
  import opened Handlers
  import opened StepperLogic

  class StepperPrimitive {
    var props: Props
    var state: State
    ghost var changes: seq<int>
    ghost var invoked: seq<Handler>

    /** Mounting: the own value starts as the effective value for `defaultValue`, unclamped. */
    constructor (props: Props)
      ensures this.props == props && state == InitialState(props)
      ensures changes == [] && invoked == []
    {
      this.props := props;
      state := State(GetValue(props, State(props.defaultValue, false)), false);
      changes := [];
      invoked := [];
    }

    /** `getValue()`. */
    function Value(): (r: int)
      reads this
    {
      GetValue(props, state)
    }

    /** `setValue(v)`: only `onChange` is called when controlled; the value is stored otherwise. */
    method SetValue(v: int)
      modifies this
      ensures props == old(props) && invoked == old(invoked)
      ensures state == StepperLogic.SetValue(props, old(state), v).state
      ensures changes == old(changes) + StepperLogic.SetValue(props, old(state), v).emitted
      ensures !IsControlled(props) ==> state.value == Clamp(v, props.min, props.max)
      ensures changes == old(changes) + [Clamp(v, props.min, props.max)]
    {
      var clamped := Clamp(v, props.min, props.max);
      if IsControlled(props) {
        changes := changes + [clamped];
      } else {
        state := state.(value := clamped);
        changes := changes + [Value()];
      }
    }

    method Increment()
      modifies this
      ensures props == old(props) && invoked == old(invoked)
      ensures state == StepperLogic.Increment(props, old(state)).state
      ensures changes == old(changes) + StepperLogic.Increment(props, old(state)).emitted
    {
      SetValue(Value() + props.step);
    }

    method Decrement()
      modifies this
      ensures props == old(props) && invoked == old(invoked)
      ensures state == StepperLogic.Decrement(props, old(state)).state
      ensures changes == old(changes) + StepperLogic.Decrement(props, old(state)).emitted
    {
      SetValue(Value() - props.step);
    }

    /** The update hook, run after props or state changed; the props are already the new ones. */
    method ComponentDidUpdate(prevProps: Props, prevState: State)
      modifies this
      ensures props == old(props) && invoked == old(invoked)
      ensures state == DidUpdate(prevProps, prevState, props, old(state)).state
      ensures changes == old(changes) + DidUpdate(prevProps, prevState, props, old(state)).emitted
    {
      if props.enableReinitialize &&
         prevProps.defaultValue != props.defaultValue &&
         prevProps.defaultValue == prevState.value
      {
        SetValue(props.defaultValue);
      }
    }

    /** The parent re-renders with `next`: the props are replaced, then the update hook runs. */
    method Update(next: Props)
      modifies this
      ensures props == next && invoked == old(invoked)
      ensures state == DidUpdate(old(props), old(state), next, old(state)).state
      ensures changes == old(changes) + DidUpdate(old(props), old(state), next, old(state)).emitted
    {
      var prevProps, prevState := props, state;
      props := next;
      ComponentDidUpdate(prevProps, prevState);
    }

    method HandleBlur(input: Input)
      modifies this
      ensures props == old(props) && invoked == old(invoked)
      ensures state == StepperLogic.HandleBlur(props, old(state), input).state
      ensures changes == old(changes) + StepperLogic.HandleBlur(props, old(state), input).emitted
    {
      if input.Unmounted? {
        return;
      }
      state := state.(focused := false);
      var parsed := input.parsed;
      if parsed.None? || parsed.value == Value() {
        return;
      }
      SetValue(parsed.value);
    }

    method HandleFocus(input: Input)
      modifies this
      ensures props == old(props) && invoked == old(invoked) && changes == old(changes)
      ensures state == StepperLogic.HandleFocus(old(state), input)
    {
      if input.Unmounted? {
        return;
      }
      state := state.(focused := true);
    }

    /** Invokes one handler; a caller's handler is recorded and leaves the stepper alone. */
    method Run(h: Handler, input: Input)
      modifies this
      ensures props == old(props) && invoked == old(invoked) + [h]
      ensures state == StepperLogic.Run(props, old(state), h, input).state
      ensures changes == old(changes) + StepperLogic.Run(props, old(state), h, input).emitted
    {
      invoked := invoked + [h];
      match h
      case Caller(_) =>
      case OnIncrement => Increment();
      case OnDecrement => Decrement();
      case OnBlur => HandleBlur(input);
      case OnFocus => HandleFocus(input);
    }

    /**
     * Fires the handler `callAll(fns...)` composed: every present handler runs, in order,
     * each on the state the previous one left.
     */
    method Fire(fns: seq<Option<Handler>>, input: Input)
      modifies this
      ensures props == old(props)
      ensures invoked == old(invoked) + CallAll(fns)
      ensures state == RunAll(props, old(state), CallAll(fns), input).state
      ensures changes == old(changes) + RunAll(props, old(state), CallAll(fns), input).emitted
    {
      ghost var start, log := state, changes;
      var i := 0;
      while i < |fns|
        invariant 0 <= i <= |fns|
        invariant props == old(props)
        invariant invoked == old(invoked) + CallAll(fns[..i])
        invariant state == RunAll(props, start, CallAll(fns[..i]), input).state
        invariant changes == log + RunAll(props, start, CallAll(fns[..i]), input).emitted
      {
        CallAllExtend(fns, i);
        RunAllExtend(props, start, fns, i, input);
        if fns[i].Some? {
          Run(fns[i].value, input);
        }
        i := i + 1;
      }
      assert fns[..i] == fns;
    }
  }
}
