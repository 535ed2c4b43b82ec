/** The request handlers of server/routes.ts for authentication and investments. Each handler is a
    chain of early returns that picks a status code; some also set the session's `userId` or write
    to the store. A `Server` holds the store and the session of the one client being served, and each
    handler runs to completion before the next starts. */
module Routes {
  import opened Options
  import opened Schema
  import opened Storage
  import opened OtpService

  /** What a handler sends back: a status code and a JSON body. */
  datatype Reply =
    | Failure(status: int, message: string)                  // `{ error }` or `{ message }`
    | Done(message: string)                                  // 200 `{ message }`
    | VerifyReply(isNewUser: bool, knownUser: Option<User>)   // 200 `{ isNewUser, user? }`
    | UserReply(status: int, user: User)
    | InvestmentsReply(investments: seq<Investment>)         // 200
    | InvestmentReply(investment: Investment)                // 201
  {
    function Status(): int {
      match this
      case Failure(status, _) => status
      case Done(_) => 200
      case VerifyReply(_, _) => 200
      case UserReply(status, _) => status
      case InvestmentsReply(_) => 200
      case InvestmentReply(_) => 201
    }
  }

  /** JavaScript truthiness of an optional body string: missing and `""` are falsy. */
  predicate Present(s: Option<string>) {
    s.Some? && s.value != ""
  }

  /** JavaScript truthiness of `req.session.userId`: missing and `0` are falsy. */
  predicate SignedIn(session: Option<int>) {
    session.Some? && session.value != 0
  }

  /** The zod message of a rejected investment body is library text; the model keeps only its status. */
  const ValidationFailed := "Validation error"

  /** The outcome of the guard chain of `POST /api/investments`, in the order the handler checks. */
  datatype InvestmentCheck =
    | NotAuthenticated
    | InvalidBody
    | ProjectNotFound
    | ModelNotFound
    | NotEnoughSlots
    | Accepted(data: InsertInvestment)

  /** The guard chain of `POST /api/investments`. `body` is the request body as `insertInvestmentSchema`
      parses it (`None` when it throws a `ZodError`); its `userId` is replaced by the session's. The
      chain neither compares `amount` with the model's price, nor checks that the model belongs to
      the project, nor asks for `slots > 0`. */
  function CheckInvestment(session: Option<int>, body: Option<InsertInvestment>,
                           projects: map<string, Project>, models: map<string, InvestmentModel>)
    : (c: InvestmentCheck)
    ensures c.Accepted? <==>
      && SignedIn(session) && body.Some? && body.value.projectId in projects
      && body.value.modelId in models && models[body.value.modelId].availableSlots >= body.value.slots
    ensures c.Accepted? ==> c.data == body.value.(userId := session.value)
    ensures !SignedIn(session) ==> c == NotAuthenticated
    ensures SignedIn(session) && body.None? ==> c == InvalidBody
    ensures SignedIn(session) && body.Some? && body.value.projectId !in projects ==> c == ProjectNotFound
    ensures SignedIn(session) && body.Some? && body.value.projectId in projects && body.value.modelId !in models ==>
      c == ModelNotFound
    ensures
      && SignedIn(session) && body.Some? && body.value.projectId in projects && body.value.modelId in models
      && models[body.value.modelId].availableSlots < body.value.slots
      ==> c == NotEnoughSlots
  {
    if !SignedIn(session) then NotAuthenticated
    else if body.None? then InvalidBody
    else
      var data := body.value.(userId := session.value);
      if data.projectId !in projects then ProjectNotFound
      else if data.modelId !in models then ModelNotFound
      else if models[data.modelId].availableSlots < data.slots then NotEnoughSlots
      else Accepted(data)
  }

  /** The reply to a rejected investment request. */
  function Rejection(c: InvestmentCheck): (r: Reply)
    requires !c.Accepted?
    ensures r.Failure?
    ensures r.Status() == (if c.NotAuthenticated? then 401 else if c.ProjectNotFound? || c.ModelNotFound? then 404 else 400)
  {
    match c
    case NotAuthenticated => Failure(401, "Not authenticated")
    case InvalidBody => Failure(400, ValidationFailed)
    case ProjectNotFound => Failure(404, "Project not found")
    case ModelNotFound => Failure(404, "Investment model not found")
    case NotEnoughSlots => Failure(400, "Not enough slots available")
  }

  /** The amount stored is the body's, whatever the model's price and the slot count. */
  lemma AmountIsTakenFromBody(session: Option<int>, body: InsertInvestment, amount: int,
                              projects: map<string, Project>, models: map<string, InvestmentModel>)
    requires CheckInvestment(session, Some(body), projects, models).Accepted?
    ensures CheckInvestment(session, Some(body.(amount := amount)), projects, models).Accepted?
    ensures CheckInvestment(session, Some(body.(amount := amount)), projects, models).data.amount == amount
  {
  }

  /** A model of another project is accepted just the same. */
  lemma ModelOfOtherProjectAccepted(session: Option<int>, body: InsertInvestment,
                                    projects: map<string, Project>, models: map<string, InvestmentModel>)
    requires SignedIn(session) && body.projectId in projects && body.modelId in models
    requires models[body.modelId].projectId != body.projectId
    requires models[body.modelId].availableSlots >= body.slots
    ensures CheckInvestment(session, Some(body), projects, models).Accepted?
  {
  }

  /** A request for zero or fewer slots passes the slot check whenever the model has slots left. */
  lemma NonPositiveSlotsAccepted(session: Option<int>, body: InsertInvestment,
                                 projects: map<string, Project>, models: map<string, InvestmentModel>)
    requires SignedIn(session) && body.projectId in projects && body.modelId in models
    requires body.slots <= 0 <= models[body.modelId].availableSlots
    ensures CheckInvestment(session, Some(body), projects, models).Accepted?
  {
  }

  class Server {
    const store: MemStorage
    /** `req.session.userId` of the client being served. */
    var sessionUserId: Option<int>

    ghost predicate Valid()
      reads this, store
    {
      store.Valid()
    }

    /** A fresh server: the seeded store and a client without a session. */
    constructor (store: MemStorage)
      requires store.Valid()
      ensures Valid()
      ensures this.store == store && sessionUserId == None
    {
      this.store := store;
      sessionUserId := None;
    }

    /** `POST /api/auth/send-otp`. */
    method SendOtpRoute(phoneNumber: Option<string>, now: Timestamp, schemaAccepts: bool)
      returns (reply: Reply)
      requires Valid()
      modifies store
      ensures Valid()
      ensures sessionUserId == old(sessionUserId)
      ensures !Present(phoneNumber) ==> reply == Failure(400, "Phone number is required") && unchanged(store)
      ensures Present(phoneNumber) ==>
        if IsTenDigitPhone(phoneNumber.value) && schemaAccepts then
          && reply == Done("OTP sent successfully")
          && store.otps == old(store.otps)[old(store.otpIdCounter) :=
               NewOtp(OtpRecord(phoneNumber.value, now), old(store.otpIdCounter), now)]
          && store.otpIdCounter == old(store.otpIdCounter) + 1
        else
          reply == Failure(500, "Failed to send OTP") && unchanged(store)
      ensures store.users == old(store.users) && store.investments == old(store.investments)
      ensures store.investmentModels == old(store.investmentModels) && store.projects == old(store.projects)
      ensures store.projectOrder == old(store.projectOrder) && store.modelOrder == old(store.modelOrder)
      ensures store.userIdCounter == old(store.userIdCounter)
      ensures store.investmentIdCounter == old(store.investmentIdCounter)
    {
      if !Present(phoneNumber) {
        return Failure(400, "Phone number is required");
      }
      var success := SendOtp(store, phoneNumber.value, now, schemaAccepts);
      if success {
        reply := Done("OTP sent successfully");
      } else {
        reply := Failure(500, "Failed to send OTP");
      }
    }

    /** `POST /api/auth/verify-otp`. Every code is valid, so a known phone signs the client in as the
        first user with that phone, and an unknown phone is reported as a new user without a session. */
    method VerifyOtpRoute(phoneNumber: Option<string>, otp: Option<string>) returns (reply: Reply)
      requires Valid()
      modifies this
      ensures Valid()
      ensures unchanged(store)
      ensures !Present(phoneNumber) || !Present(otp) ==>
        reply == Failure(400, "Phone number and OTP are required") && sessionUserId == old(sessionUserId)
      ensures Present(phoneNumber) && Present(otp) ==> reply.VerifyReply?
      ensures reply.VerifyReply? && !reply.isNewUser ==>
        && reply.knownUser.Some? && reply.knownUser.value.phoneNumber == phoneNumber.value
        && reply.knownUser.value.id in store.users && store.users[reply.knownUser.value.id] == reply.knownUser.value
        && sessionUserId == Some(reply.knownUser.value.id)
      ensures reply.VerifyReply? && reply.isNewUser ==>
        && reply.knownUser.None? && sessionUserId == old(sessionUserId)
        && forall id :: id in store.users ==> store.users[id].phoneNumber != phoneNumber.value
      ensures reply.VerifyReply? && !reply.isNewUser ==>
        exists id :: id in store.users && store.users[id].phoneNumber == phoneNumber.value
    {
      if !Present(phoneNumber) || !Present(otp) {
        return Failure(400, "Phone number and OTP are required");
      }
      var isValid := ValidateOtp(phoneNumber.value, otp.value);
      if isValid {
        var existingUser := store.GetUserByPhoneNumber(phoneNumber.value);
        if existingUser.Some? {
          sessionUserId := Some(existingUser.value.id);
          reply := VerifyReply(false, existingUser);
        } else {
          reply := VerifyReply(true, None);
        }
      } else {
        reply := Failure(401, "Invalid OTP");
      }
    }

    /** `POST /api/auth/create-profile`. The user is created without an email; the client is then
        signed in as that user. */
    method CreateProfileRoute(phoneNumber: Option<string>, name: Option<string>, now: Timestamp)
      returns (reply: Reply)
      requires Valid()
      modifies this, store
      ensures Valid()
      ensures !Present(phoneNumber) || !Present(name) ==>
        && reply == Failure(400, "Phone number and name are required")
        && unchanged(store) && sessionUserId == old(sessionUserId)
      ensures Present(phoneNumber) && Present(name) &&
              (exists id :: id in old(store.users) && old(store.users)[id].phoneNumber == phoneNumber.value) ==>
        && reply == Failure(409, "User with this phone number already exists")
        && unchanged(store) && sessionUserId == old(sessionUserId)
      ensures Present(phoneNumber) && Present(name) &&
              (forall id :: id in old(store.users) ==> old(store.users)[id].phoneNumber != phoneNumber.value) ==>
        var user := NewUser(InsertUser(phoneNumber.value, name.value, None), old(store.userIdCounter), now);
        && reply == UserReply(201, user)
        && store.users == old(store.users)[user.id := user]
        && store.userIdCounter == old(store.userIdCounter) + 1
        && sessionUserId == Some(user.id)
      ensures store.investments == old(store.investments) && store.otps == old(store.otps)
      ensures store.investmentModels == old(store.investmentModels) && store.projects == old(store.projects)
      ensures store.projectOrder == old(store.projectOrder) && store.modelOrder == old(store.modelOrder)
      ensures store.investmentIdCounter == old(store.investmentIdCounter) && store.otpIdCounter == old(store.otpIdCounter)
    {
      if !Present(phoneNumber) || !Present(name) {
        return Failure(400, "Phone number and name are required");
      }
      var existingUser := store.GetUserByPhoneNumber(phoneNumber.value);
      if existingUser.Some? {
        return Failure(409, "User with this phone number already exists");
      }
      var userData := InsertUser(phoneNumber.value, name.value, None);
      var user := store.CreateUser(userData, now);
      sessionUserId := Some(user.id);
      reply := UserReply(201, user);
    }

    /** `GET /api/auth/me`. */
    method MeRoute() returns (reply: Reply)
      requires Valid()
      ensures !SignedIn(sessionUserId) ==> reply == Failure(401, "Not authenticated")
      ensures SignedIn(sessionUserId) && sessionUserId.value !in store.users ==>
        reply == Failure(404, "User not found")
      ensures SignedIn(sessionUserId) && sessionUserId.value in store.users ==>
        reply == UserReply(200, store.users[sessionUserId.value])
    {
      if !SignedIn(sessionUserId) {
        return Failure(401, "Not authenticated");
      }
      var user := store.GetUser(sessionUserId.value);
      if user.None? {
        return Failure(404, "User not found");
      }
      reply := UserReply(200, user.value);
    }

    /** `GET /api/investments`: the signed-in user's investments, in id order. */
    method GetInvestmentsRoute() returns (reply: Reply)
      requires Valid()
      ensures !SignedIn(sessionUserId) ==> reply == Failure(401, "Not authenticated")
      ensures SignedIn(sessionUserId) ==>
        reply == InvestmentsReply(InvestmentsOfUser(InvestmentsUpTo(store.investments, store.investmentIdCounter),
                                                    sessionUserId.value))
      ensures SignedIn(sessionUserId) ==>
        && (forall x :: x in reply.investments ==> x.userId == sessionUserId.value && x.id in store.investments)
        && (forall id :: id in store.investments && store.investments[id].userId == sessionUserId.value ==>
              store.investments[id] in reply.investments)
    {
      if !SignedIn(sessionUserId) {
        return Failure(401, "Not authenticated");
      }
      var investments := store.GetInvestmentsByUser(sessionUserId.value);
      reply := InvestmentsReply(investments);
    }

    /** `POST /api/investments`. A rejected request changes nothing; an accepted one stores the
        investment under the session's user id and takes its slots off the model. */
    method PostInvestmentRoute(body: Option<InsertInvestment>, now: Timestamp) returns (reply: Reply)
      requires Valid()
      modifies store
      ensures Valid()
      ensures sessionUserId == old(sessionUserId)
      ensures
        var c := CheckInvestment(old(sessionUserId), body, old(store.projects), old(store.investmentModels));
        if !c.Accepted? then
          reply == Rejection(c) && unchanged(store)
        else
          var id := old(store.investmentIdCounter);
          var m := old(store.investmentModels)[c.data.modelId];
          && reply == InvestmentReply(NewInvestment(c.data, id, now))
          && reply.investment.userId == old(sessionUserId).value
          && store.investments == old(store.investments)[id := reply.investment]
          && store.investmentIdCounter == id + 1
          && store.investmentModels == old(store.investmentModels)[c.data.modelId := m.(availableSlots := m.availableSlots - c.data.slots)]
      ensures store.users == old(store.users) && store.otps == old(store.otps)
      ensures store.projects == old(store.projects) && store.modelOrder == old(store.modelOrder)
      ensures store.projectOrder == old(store.projectOrder)
      ensures store.userIdCounter == old(store.userIdCounter) && store.otpIdCounter == old(store.otpIdCounter)
    {
      if !SignedIn(sessionUserId) {
        return Failure(401, "Not authenticated");
      }
      if body.None? {
        return Failure(400, ValidationFailed);
      }
      var investmentData := body.value.(userId := sessionUserId.value);
      var project := store.GetProject(investmentData.projectId);
      if project.None? {
        return Failure(404, "Project not found");
      }
      var model := store.GetInvestmentModel(investmentData.modelId);
      if model.None? {
        return Failure(404, "Investment model not found");
      }
      if model.value.availableSlots < investmentData.slots {
        return Failure(400, "Not enough slots available");
      }
      var investment := store.CreateInvestment(investmentData, now);
      reply := InvestmentReply(investment);
    }
  }
}
