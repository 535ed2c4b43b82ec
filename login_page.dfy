/** The phone-and-code login page (client/src/pages/auth/LoginPage.tsx). The first valid submit
    reveals the code field, the second accepts only the fixed code "123456". */
module LoginPage {
  import opened Options
  import opened AuthContext

  const AcceptedOtp := "123456"

  /** The two toasts the page can show. */
  const InvalidPhone := "Invalid phone number"
  const InvalidOtp := "Invalid OTP"

  class LoginForm {
    const auth: AuthSession
    var phoneNumber: string
    var otp: string
    var showOtp: bool
    var location: string

    constructor (auth: AuthSession, location: string)
      ensures this.auth == auth && phoneNumber == "" && otp == "" && !showOtp && this.location == location
    {
      this.auth := auth;
      phoneNumber := "";
      otp := "";
      showOtp := false;
      this.location := location;
    }

    method SetPhoneNumber(value: string)
      modifies this
      ensures phoneNumber == value && otp == old(otp) && showOtp == old(showOtp) && location == old(location)
    {
      phoneNumber := value;
    }

    method SetOtp(value: string)
      modifies this
      ensures otp == value && phoneNumber == old(phoneNumber) && showOtp == old(showOtp) && location == old(location)
    {
      otp := value;
    }

    /** `handleLogin`, returning the title of the toast it shows. `loginThrows` and
        `verifyThrows` say whether the context's calls fail; the page carries on either way. */
    method HandleLogin(loginThrows: bool, verifyThrows: bool) returns (toast: Option<string>)
      requires auth.Valid()
      modifies this, auth
      ensures auth.Valid()
      ensures phoneNumber == old(phoneNumber) && otp == old(otp)
      ensures |phoneNumber| != 10 ==>
        toast == Some(InvalidPhone) && showOtp == old(showOtp) && location == old(location) && unchanged(auth)
      ensures |phoneNumber| == 10 && !old(showOtp) ==>
        && toast.None? && showOtp && location == old(location)
        && (!loginThrows ==> auth.phoneNumber == phoneNumber)
        && (loginThrows ==> unchanged(auth))
      ensures |phoneNumber| == 10 && old(showOtp) && otp == AcceptedOtp ==>
        toast.None? && showOtp && location == "/dashboard" && auth.phoneNumber == old(auth.phoneNumber)
      ensures |phoneNumber| == 10 && old(showOtp) && otp != AcceptedOtp ==>
        toast == Some(InvalidOtp) && showOtp && location == old(location) && unchanged(auth)
    {
      if |phoneNumber| != 10 {
        return Some(InvalidPhone);
      }
      if !showOtp {
        if !loginThrows {
          auth.Login(phoneNumber);
        }
        showOtp := true;
        return None;
      }
      if otp == AcceptedOtp {
        if !verifyThrows {
          var _ := auth.VerifyOtp(otp);
        }
        location := "/dashboard";
        toast := None;
      } else {
        toast := Some(InvalidOtp);
      }
    }

    /** The button reads "Continue" until the code field is shown, then "Login". */
    function ButtonLabel(): (text: string)
      reads this
      ensures text == "Login" <==> showOtp
      ensures text == "Continue" <==> !showOtp
    {
      if showOtp then "Login" else "Continue"
    }
  }
}
