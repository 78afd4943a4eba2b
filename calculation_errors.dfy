// The two error taxonomies of the calculation engine and the messages they
// display (the `#[error(...)]` strings that `thiserror` turns into `Display`).
module CalculationErrors {

  const InvalidParamsPrefix: string := "Invalid Calculation Parameters: "
  const InvalidConfigurationMessage: string := "Internal Error, Invalid configuration"
  /** The source declares no display string for CalculationFailed; this one is the model's own. */
  const CalculationFailedMessage: string := "Calculation failed"

  /** Errors of the fuel consumption calculation. */
  datatype DieselUsageCalculationError =
    | InvalidParams(message: string)
    | CalculationFailed
    | Unimplemented
  {
    /** The message a caller sees (`to_string()`). */
    function ToString(): (s: string)
      ensures InvalidParams? ==> InvalidParamsPrefix <= s && s[|InvalidParamsPrefix|..] == message
      ensures Unimplemented? ==> s == InvalidConfigurationMessage
      ensures CalculationFailed? ==> s == CalculationFailedMessage
    {
      match this
      case InvalidParams(m) => InvalidParamsPrefix + m
      case CalculationFailed => CalculationFailedMessage
      case Unimplemented => InvalidConfigurationMessage
    }
  }

  /** Errors of the unit-injector failure estimate. */
  datatype UnitInjectorFailCalculationError =
    | InvalidParams(message: string)
    | Unimplemented
  {
    /** The message a caller sees (`to_string()`). */
    function ToString(): (s: string)
      ensures InvalidParams? ==> InvalidParamsPrefix <= s && s[|InvalidParamsPrefix|..] == message
      ensures Unimplemented? ==> s == InvalidConfigurationMessage
    {
      match this
      case InvalidParams(m) => InvalidParamsPrefix + m
      case Unimplemented => InvalidConfigurationMessage
    }
  }

  /**
   * The three shapes a message can take never coincide, and a prefixed
   * message determines its parameter.
   */
  lemma MessageShapesDistinct(m1: string, m2: string)
    ensures InvalidParamsPrefix + m1 == InvalidParamsPrefix + m2 ==> m1 == m2
    ensures InvalidParamsPrefix + m1 != InvalidConfigurationMessage
    ensures InvalidParamsPrefix + m1 != CalculationFailedMessage
    ensures InvalidConfigurationMessage != CalculationFailedMessage
  {
    // The third character tells the three shapes apart ('v', 't', 'l').
    assert (InvalidParamsPrefix + m1)[2] == 'v';
    if InvalidParamsPrefix + m1 == InvalidParamsPrefix + m2 {
      assert m1 == (InvalidParamsPrefix + m1)[|InvalidParamsPrefix|..];
    }
  }

  /** Different diesel errors never display the same message. */
  lemma DieselToStringInjective(a: DieselUsageCalculationError, b: DieselUsageCalculationError)
    ensures a.ToString() == b.ToString() ==> a == b
  {
    MessageShapesDistinct(if a.InvalidParams? then a.message else "", if b.InvalidParams? then b.message else "");
    MessageShapesDistinct(if b.InvalidParams? then b.message else "", if a.InvalidParams? then a.message else "");
  }

  /** Different injector errors never display the same message. */
  lemma InjectorToStringInjective(a: UnitInjectorFailCalculationError, b: UnitInjectorFailCalculationError)
    ensures a.ToString() == b.ToString() ==> a == b
  {
    MessageShapesDistinct(if a.InvalidParams? then a.message else "", if b.InvalidParams? then b.message else "");
    MessageShapesDistinct(if b.InvalidParams? then b.message else "", if a.InvalidParams? then a.message else "");
  }
}
