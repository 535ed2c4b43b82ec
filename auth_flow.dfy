/** The three-step sign-up form (src/components/Auth.jsx): phone, then code, then name, then the
    dashboard. No step looks at what was typed. */
module AuthFlow {
  datatype Step = Phone | Otp | Name

  /** The step after a submit; at `Name` the form navigates away and the step stays. */
  function NextStep(step: Step): (next: Step)
    ensures step == Phone ==> next == Otp
    ensures step == Otp ==> next == Name
    ensures step == Name ==> next == Name
  {
    match step
    case Phone => Otp
    case Otp => Name
    case Name => Name
  }

  /** The submit button's label for each step. */
  function ButtonLabel(step: Step): (text: string)
    ensures text == "Get OTP" <==> step == Phone
    ensures text == "Verify OTP" <==> step == Otp
    ensures text == "Complete Profile" <==> step == Name
  {
    match step
    case Phone => "Get OTP"
    case Otp => "Verify OTP"
    case Name => "Complete Profile"
  }

  class AuthForm {
    var step: Step
    var phone: string
    var otp: string
    var name: string
    var location: string

    constructor (location: string)
      ensures step == Phone && phone == "" && otp == "" && name == "" && this.location == location
    {
      step := Phone;
      phone := "";
      otp := "";
      name := "";
      this.location := location;
    }

    /** `handleSubmit`: the first two submits advance the step, the third navigates to the
        dashboard; the typed values are neither checked nor changed. */
    method HandleSubmit()
      modifies this
      ensures step == NextStep(old(step))
      ensures old(step) != Name ==> location == old(location)
      ensures old(step) == Name ==> location == "/dashboard"
      ensures phone == old(phone) && otp == old(otp) && name == old(name)
    {
      if step == Phone {
        step := Otp;
      } else if step == Otp {
        step := Name;
      } else {
        location := "/dashboard";
      }
    }
  }
}
