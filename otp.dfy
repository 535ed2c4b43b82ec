/** The mock OTP service (server/otp.ts): a fixed code, an accept-all check, and `sendOTP`, which
    stores an OTP record for a well-formed phone number. */
module OtpService {
  import opened Schema
  import opened Strings
  import opened Storage

  /** The code every phone receives. */
  const FixedOtp: string := "123456"

  function GenerateOtp(phoneNumber: string): (code: string)
    ensures code == FixedOtp
    ensures |code| == 6 && AllDigits(code)
  {
    "123456"
  }

  /** Any code is accepted for any phone. */
  function ValidateOtp(phoneNumber: string, otp: string): (valid: bool)
    ensures valid
  {
    true
  }

  /** `/^\d{10}$/`: exactly ten ASCII decimal digits and nothing else. */
  predicate IsTenDigitPhone(phoneNumber: string) {
    |phoneNumber| == 10 && AllDigits(phoneNumber)
  }

  /** The record `sendOTP` hands to `createOtp`: the fixed code, unused, expiring `now`. */
  function OtpRecord(phoneNumber: string, now: Timestamp): (o: InsertOtp)
    ensures o.phoneNumber == phoneNumber && o.otp == FixedOtp && !o.used && o.expiresAt == now
  {
    InsertOtp(phoneNumber, GenerateOtp(phoneNumber), now, false)
  }

  /** `sendOTP`. A malformed phone throws before anything is stored, and so does a record that
      `insertOtpSchema` rejects (`schemaAccepts` is that schema's verdict); both end in `false`.
      Otherwise one OTP record is stored and the result is `true`. */
  method SendOtp(store: MemStorage, phoneNumber: string, now: Timestamp, schemaAccepts: bool)
    returns (success: bool)
    requires store.Valid()
    modifies store
    ensures store.Valid()
    ensures success <==> IsTenDigitPhone(phoneNumber) && schemaAccepts
    ensures !success ==> unchanged(store)
    ensures success ==>
      var id := old(store.otpIdCounter);
      && store.otps == old(store.otps)[id := NewOtp(OtpRecord(phoneNumber, now), id, now)]
      && store.otpIdCounter == id + 1
    ensures store.users == old(store.users) && store.investments == old(store.investments)
    ensures store.projects == old(store.projects) && store.investmentModels == old(store.investmentModels)
    ensures store.projectOrder == old(store.projectOrder) && store.modelOrder == old(store.modelOrder)
    ensures store.userIdCounter == old(store.userIdCounter)
    ensures store.investmentIdCounter == old(store.investmentIdCounter)
  {
    if !IsTenDigitPhone(phoneNumber) {
      return false;
    }
    var otpData := OtpRecord(phoneNumber, now);
    if !schemaAccepts {
      return false;
    }
    var _ := store.CreateOtp(otpData, now);
    return true;
  }
}
