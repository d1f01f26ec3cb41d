/**
 * The component test suite's cases, plus two handler scenarios (a click and a blur),
 * replayed on `StepperPrimitive` objects; each method's result is what is expected.
 */
module StepperTests {
  import opened Wrappers
  import opened StepperLogic
  import opened StepperComponent

  /** Uncontrolled props with step 1. */
  function Uncontrolled(defaultValue: int, min: int, max: int, enableReinitialize: bool): Props
  {
    Props(defaultValue, None, 1, min, max, enableReinitialize)
  }

  /** With no configuration the value is 0, whatever the bounds: the start is not clamped. */
  method ValueDefaultsToZero(min: int, max: int) returns (value: int)
    ensures value == 0
  {
    var stepper := new StepperPrimitive(Uncontrolled(0, min, max, false));
    value := stepper.Value();
  }

  /** The value starts at `defaultValue`, whatever the bounds. */
  method ValueFollowsDefaultValue(min: int, max: int) returns (value: int)
    ensures value == 33
  {
    var stepper := new StepperPrimitive(Uncontrolled(33, min, max, false));
    value := stepper.Value();
  }

  /** `getInputProps().value` is the value while blurred and absent while focused. */
  method InputPropsValueFollowsFocus() returns (blurred: Option<int>, focused: Option<int>)
    ensures blurred == Some(0) && focused == None
  {
    var stepper := new StepperPrimitive(Uncontrolled(0, -1000, 1000, false));
    var noHandlers := CallerProps(None, None, None);
    blurred := GetInputProps(stepper.props, stepper.state, noHandlers).value;
    stepper.HandleFocus(Mounted(None));
    focused := GetInputProps(stepper.props, stepper.state, noHandlers).value;
  }

  /** With bounds [0, 1], setting 2, -1, 1, 0 stores 1, 0, 1, 0. */
  method SetValueIsBetweenMinAndMax() returns (stored: seq<int>)
    ensures stored == [1, 0, 1, 0]
  {
    var stepper := new StepperPrimitive(Uncontrolled(0, 0, 1, false));
    stepper.SetValue(2);
    stored := [stepper.state.value];
    stepper.SetValue(-1);
    stored := stored + [stepper.state.value];
    stepper.SetValue(1);
    stored := stored + [stepper.state.value];
    stepper.SetValue(0);
    stored := stored + [stepper.state.value];
    assert stepper.changes == [1, 0, 1, 0];
  }

  /** With bounds [0, 1] from 0: up, up, down, down stores 1, 1, 0, 0. */
  method IncrementDecrementAreCapped() returns (stored: seq<int>)
    ensures stored == [0, 1, 1, 0, 0]
  {
    var stepper := new StepperPrimitive(Uncontrolled(0, 0, 1, false));
    stored := [stepper.state.value];
    stepper.Increment();
    stored := stored + [stepper.state.value];
    stepper.Increment();
    stored := stored + [stepper.state.value];
    stepper.Decrement();
    stored := stored + [stepper.state.value];
    stepper.Decrement();
    stored := stored + [stepper.state.value];
  }

  /** Reinitialization on: a new default replaces a value nobody changed. */
  method ReinitializesUnmodifiedValue() returns (before: int, after: int)
    ensures before == 33 && after == 42
  {
    var stepper := new StepperPrimitive(Uncontrolled(33, -1000, 1000, true));
    before := stepper.state.value;
    stepper.Update(Uncontrolled(42, -1000, 1000, true));
    after := stepper.state.value;
  }

  /** Reinitialization on: a new default leaves a value that was changed. */
  method KeepsModifiedValue() returns (before: int, after: int)
    ensures before == 33 && after == 418
  {
    var stepper := new StepperPrimitive(Uncontrolled(33, -1000, 1000, true));
    before := stepper.state.value;
    var prevState := stepper.state;
    stepper.state := stepper.state.(value := 418);
    stepper.ComponentDidUpdate(stepper.props, prevState);
    stepper.Update(Uncontrolled(42, -1000, 1000, true));
    after := stepper.state.value;
  }

  /** Reinitialization off: a new default changes nothing. */
  method IgnoresNewDefaultWhenDisabled() returns (before: int, after: int)
    ensures before == 33 && after == 33
  {
    var stepper := new StepperPrimitive(Uncontrolled(33, -1000, 1000, false));
    before := stepper.state.value;
    stepper.Update(Uncontrolled(42, -1000, 1000, false));
    after := stepper.state.value;
  }

  /**
   * Clicking the increment button runs the caller's click handler first, then `increment`;
   * in controlled mode the value stays the parent's and only `onChange` hears of the step.
   */
  method ClickRunsCallerHandlerFirst() returns (uncontrolled: int, controlled: int)
    ensures uncontrolled == 6 && controlled == 5
  {
    var caller := CallerProps(Some(Caller(7)), None, None);
    var own := new StepperPrimitive(Uncontrolled(5, 0, 10, false));
    own.Fire(GetIncrementProps(caller), Unmounted);
    assert own.invoked == [Caller(7), OnIncrement];
    uncontrolled := own.Value();
    var parent := new StepperPrimitive(Props(0, Some(5), 1, 0, 10, false));
    parent.Fire(GetIncrementProps(caller), Unmounted);
    assert parent.changes == [6];
    controlled := parent.Value();
  }

  /**
   * Leaving the input commits its parsed text clamped, drops unparsable text, and
   * never commits text equal to the current value.
   */
  method BlurCommitsParsedText() returns (committed: int, afterNaN: int, focused: bool)
    ensures committed == 10 && afterNaN == 10 && !focused
  {
    var stepper := new StepperPrimitive(Uncontrolled(3, 0, 10, false));
    stepper.HandleFocus(Mounted(Some(25)));
    stepper.HandleBlur(Mounted(Some(25)));
    committed := stepper.Value();
    stepper.HandleFocus(Mounted(None));
    stepper.HandleBlur(Mounted(None));
    stepper.HandleBlur(Mounted(Some(10)));
    assert stepper.changes == [10];
    afterNaN := stepper.Value();
    focused := stepper.state.focused;
  }
}
