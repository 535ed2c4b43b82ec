/** The records of shared/schema.ts: what the server stores and returns. Timestamps are the
    milliseconds `Date.getTime()` gives; `null`/missing columns are `Option`s. */
module Schema {
  import opened Options

  type Timestamp = int

  datatype User = User(id: int, phoneNumber: string, name: string, email: Option<string>, createdAt: Timestamp)

  /** What `insertUserSchema` admits: a user without id and creation time. */
  datatype InsertUser = InsertUser(phoneNumber: string, name: string, email: Option<string>)

  datatype Project = Project(
    id: string, name: string, location: string, minimumInvestment: int,
    estimatedReturns: real, lockInPeriod: int, availableSlots: int, image: string)

  datatype InvestmentModel = InvestmentModel(
    id: string, name: string, minInvestment: int, roi: real, lockInPeriod: int,
    availableSlots: int, projectId: string)

  /** What `insertInvestmentSchema` admits; `status` has a column default, so it may be absent. */
  datatype InsertInvestment = InsertInvestment(
    userId: int, projectId: string, projectName: string, modelId: string, modelName: string,
    slots: int, amount: int, expectedReturns: real, lockInPeriod: int, maturityDate: Timestamp,
    status: Option<string>)

  datatype Investment = Investment(
    id: int, userId: int, projectId: string, projectName: string, modelId: string, modelName: string,
    slots: int, amount: int, expectedReturns: real, lockInPeriod: int, maturityDate: Timestamp,
    createdAt: Timestamp, status: Option<string>)

  datatype InsertOtp = InsertOtp(phoneNumber: string, otp: string, expiresAt: Timestamp, used: bool)

  datatype Otp = Otp(id: int, phoneNumber: string, otp: string, expiresAt: Timestamp, used: bool, createdAt: Timestamp)

  /** `{ ...user, id, createdAt }` */
  function NewUser(u: InsertUser, id: int, createdAt: Timestamp): User
  {
    User(id, u.phoneNumber, u.name, u.email, createdAt)
  }

  /** `{ ...investment, id, createdAt }` */
  function NewInvestment(i: InsertInvestment, id: int, createdAt: Timestamp): Investment
  {
    Investment(id, i.userId, i.projectId, i.projectName, i.modelId, i.modelName, i.slots, i.amount,
               i.expectedReturns, i.lockInPeriod, i.maturityDate, createdAt, i.status)
  }

  /** `{ ...otp, id, createdAt }` */
  function NewOtp(o: InsertOtp, id: int, createdAt: Timestamp): Otp
  {
    Otp(id, o.phoneNumber, o.otp, o.expiresAt, o.used, createdAt)
  }
}
