/** The stand-alone OTP login component (client/src/components/OTPLogin.tsx): Continue asks for a
    phone number, Login accepts only the code "123456". */
module OtpLogin {
  const AcceptedOtp := "123456"
  const PhoneRequired := "Please enter a phone number"
  const InvalidOtp := "Invalid OTP"

  class OtpLoginForm {
    var phoneNumber: string
    var otp: string
    var showOtpInput: bool
    var error: string
    var location: string

    constructor (location: string)
      ensures phoneNumber == "" && otp == "" && !showOtpInput && error == "" && this.location == location
    {
      phoneNumber := "";
      otp := "";
      showOtpInput := false;
      error := "";
      this.location := location;
    }

    /** `handleContinue`: an empty phone number is an error, anything else shows the code field. */
    method HandleContinue()
      modifies this
      ensures phoneNumber == old(phoneNumber) && otp == old(otp) && location == old(location)
      ensures phoneNumber == "" ==> error == PhoneRequired && showOtpInput == old(showOtpInput)
      ensures phoneNumber != "" ==> showOtpInput && error == old(error)
    {
      if phoneNumber == "" {
        error := PhoneRequired;
        return;
      }
      showOtpInput := true;
    }

    /** `handleLogin`: the fixed code goes to the dashboard, any other is an error. */
    method HandleLogin()
      modifies this
      ensures phoneNumber == old(phoneNumber) && otp == old(otp) && showOtpInput == old(showOtpInput)
      ensures otp == AcceptedOtp ==> location == "/dashboard" && error == old(error)
      ensures otp != AcceptedOtp ==> error == InvalidOtp && location == old(location)
    {
      if otp == AcceptedOtp {
        location := "/dashboard";
      } else {
        error := InvalidOtp;
      }
    }

    /** The single button runs Login once the code field is shown and Continue before. */
    method HandleButton()
      modifies this
      ensures phoneNumber == old(phoneNumber) && otp == old(otp)
      ensures !old(showOtpInput) ==> location == old(location)
      ensures !old(showOtpInput) && phoneNumber == "" ==> error == PhoneRequired && !showOtpInput
      ensures !old(showOtpInput) && phoneNumber != "" ==> showOtpInput && error == old(error)
      ensures old(showOtpInput) ==> showOtpInput
      ensures old(showOtpInput) && otp == AcceptedOtp ==> location == "/dashboard" && error == old(error)
      ensures old(showOtpInput) && otp != AcceptedOtp ==> error == InvalidOtp && location == old(location)
    {
      if showOtpInput {
        HandleLogin();
      } else {
        HandleContinue();
      }
    }
  }
}
