/** The accounts app's tables: users and their phone-verification records. */
module AccountsModels {
  import opened Wrappers
  import opened Calendar

  /**
   * The fields of a User row that the core reads or writes. A missing zip
   * code is "" (the code only tests it for truth); `timezone` is the raw
   * name the user chose, resolved later against the zone database.
   */
  datatype User = User(
    zipCode: string,
    timezone: string,
    phoneNumber: Option<string>,
    phoneVerified: bool)

  /** A row of PhoneVerification. */
  datatype PhoneVerification = PhoneVerification(
    userId: nat,
    phoneNumber: string,
    verificationCode: string,
    isVerified: bool,
    attempts: int,
    createdAt: Instant,
    expiresAt: Instant)
}
