/** The three in-memory code stores of src/services/verification.js. Each is a
    JavaScript `Map` shared by every request the process serves; the handlers
    `set`, `get` and `delete` entries in place. Times are integer milliseconds
    since the epoch. */
module Verification {
  import opened Js

  /** A pending e-mail change, keyed by `user_id.toString()`. */
  datatype OtpEntry = OtpEntry(otp: string, newEmail: string, timestamp: int)

  /** A pending password reset, keyed by the e-mail value of the request. */
  datatype ResetEntry = ResetEntry(resetCode: string, codeExpiry: int, userId: Value)

  /** The fields a sign-up request submits, as the request body holds them. */
  datatype Applicant = Applicant(
    username: Value, email: Value, password: Value, firstname: Value, lastname: Value,
    birthdate: Value, gender: Value, mobilenumber: Value, yearsOfExperience: Value,
    region: Value, province: Value, city: Value, barangay: Value)

  /** A pending registration, keyed by the e-mail value of the request. Both
      sign-up routers write into the same map; the shorter form of
      src/routes/signupRoutes.js leaves the experience and address fields
      `undefined`. */
  datatype TempRegData = TempRegData(form: Applicant, verificationCode: string, codeExpiry: int)

  /** How long a reset or registration code stays valid: 15 minutes. */
  const CodeLifetime: int := 15 * 60 * 1000

  /** How long an e-mail change OTP stays valid: 10 minutes. */
  const OtpLifetime: int := 10 * 60 * 1000

  class OtpStorage {
    var entries: map<string, OtpEntry>

    constructor ()
      ensures entries == map[]
    {
      entries := map[];
    }
  }

  class PasswordResetCodes {
    var entries: map<Value, ResetEntry>

    constructor ()
      ensures entries == map[]
    {
      entries := map[];
    }
  }

  class VerificationCodes {
    var entries: map<Value, TempRegData>

    constructor ()
      ensures entries == map[]
    {
      entries := map[];
    }
  }
}
