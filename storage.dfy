/** The server's in-memory store (server/storage.ts, class MemStorage).

    JavaScript `Map`s iterate in insertion order. Users, investments and OTPs are keyed by the
    ids their counters hand out (1, 2, 3, ...), so their insertion order is id order and the loops
    below walk the ids upwards. Projects and models are seeded once; `projectOrder` and `modelOrder`
    record their insertion order. */
module Storage {
  import opened Options
  import opened Schema

  /** `keys` are exactly the ids a counter that started at 1 has handed out so far. */
  ghost predicate IdsBelow(keys: set<int>, counter: int) {
    counter >= 1 && forall id :: id in keys <==> 1 <= id < counter
  }

  /** `order` lists every key of `keys` once. */
  ghost predicate IsOrderOf(order: seq<string>, keys: set<string>) {
    && (forall i, j :: 0 <= i < j < |order| ==> order[i] != order[j])
    && (forall k :: k in keys <==> k in order)
  }

  /** The values of `m` in the order `order` gives their keys (what `Map.values()` yields). */
  function ValuesInOrder<K, V>(order: seq<K>, m: map<K, V>): (r: seq<V>)
    requires forall k :: k in order ==> k in m
    ensures |r| == |order| && forall i :: 0 <= i < |order| ==> r[i] == m[order[i]]
  {
    if order == [] then [] else ValuesInOrder(order[..|order| - 1], m) + [m[order[|order| - 1]]]
  }

  /** When `order` lists every key of `m`, the ordered values are exactly the map's values. */
  lemma ValuesInOrderAreValues<K, V>(order: seq<K>, m: map<K, V>)
    requires forall k :: k in m <==> k in order
    ensures forall v :: v in ValuesInOrder(order, m) <==> v in m.Values
  {
    var vs := ValuesInOrder(order, m);
    forall v | v in m.Values ensures v in vs {
      var k :| k in m && m[k] == v;
      var j :| 0 <= j < |order| && order[j] == k;
      assert vs[j] == v;
    }
  }

  /** The models of `ms` that belong to project `pid`, in order. */
  function ModelsOfProject(ms: seq<InvestmentModel>, pid: string): seq<InvestmentModel> {
    if ms == [] then []
    else
      var last := ms[|ms| - 1];
      ModelsOfProject(ms[..|ms| - 1], pid) + (if last.projectId == pid then [last] else [])
  }

  lemma {:induction false} ModelsOfProjectMembers(ms: seq<InvestmentModel>, pid: string)
    ensures forall m :: m in ModelsOfProject(ms, pid) <==> m in ms && m.projectId == pid
  {
    if ms != [] {
      ModelsOfProjectMembers(ms[..|ms| - 1], pid);
      assert ms == ms[..|ms| - 1] + [ms[|ms| - 1]];
    }
  }

  /** The investments stored under ids 1 .. n - 1, in id order. */
  function InvestmentsUpTo(invs: map<int, Investment>, n: int): seq<Investment>
    requires forall id :: 1 <= id < n ==> id in invs
    decreases n
  {
    if n <= 1 then [] else InvestmentsUpTo(invs, n - 1) + [invs[n - 1]]
  }

  /** The investments of `s` made by user `userId`, in order. */
  function InvestmentsOfUser(s: seq<Investment>, userId: int): seq<Investment> {
    if s == [] then []
    else
      var last := s[|s| - 1];
      InvestmentsOfUser(s[..|s| - 1], userId) + (if last.userId == userId then [last] else [])
  }

  lemma {:induction false} InvestmentsOfUserMembers(s: seq<Investment>, userId: int)
    ensures forall x :: x in InvestmentsOfUser(s, userId) <==> x in s && x.userId == userId
  {
    if s != [] {
      InvestmentsOfUserMembers(s[..|s| - 1], userId);
      assert s == s[..|s| - 1] + [s[|s| - 1]];
    }
  }

  lemma InvestmentsOfUserSnoc(s: seq<Investment>, x: Investment, userId: int)
    ensures InvestmentsOfUser(s + [x], userId)
         == InvestmentsOfUser(s, userId) + (if x.userId == userId then [x] else [])
  {
    assert (s + [x])[..|s|] == s;
  }

  lemma {:induction false} InvestmentsUpToMembers(invs: map<int, Investment>, n: int)
    requires forall id :: 1 <= id < n ==> id in invs
    ensures forall x :: x in InvestmentsUpTo(invs, n) <==> exists id :: 1 <= id < n && invs[id] == x
  {
    if n > 1 {
      InvestmentsUpToMembers(invs, n - 1);
    }
  }

  /** With dense ids that match the records, the investments up to the counter are exactly the
      stored ones. */
  lemma {:induction false} InvestmentsUpToAll(invs: map<int, Investment>, n: int)
    requires IdsBelow(invs.Keys, n)
    requires forall id :: id in invs ==> invs[id].id == id
    ensures forall x :: x in InvestmentsUpTo(invs, n) ==> x.id in invs && invs[x.id] == x
    ensures forall id :: id in invs ==> invs[id] in InvestmentsUpTo(invs, n)
  {
    InvestmentsUpToMembers(invs, n);
  }

  /** A user's investments in id order are exactly the stored investments made by that user. */
  lemma UserInvestmentsExact(invs: map<int, Investment>, n: int, userId: int)
    requires CountedInvestments(invs, n)
    ensures forall id :: 1 <= id < n ==> id in invs
    ensures var mine := InvestmentsOfUser(InvestmentsUpTo(invs, n), userId);
      && (forall x :: x in mine ==> x.userId == userId && x.id in invs && invs[x.id] == x)
      && (forall id :: id in invs && invs[id].userId == userId ==> invs[id] in mine)
  {
    InvestmentsOfUserMembers(InvestmentsUpTo(invs, n), userId);
    InvestmentsUpToAll(invs, n);
  }

  /** An OTP `getLatestOtp(phone)` considers: for that phone and not yet used. */
  predicate Candidate(o: Otp, phone: string) {
    o.phoneNumber == phone && !o.used
  }

  /** Image addresses are kept as the Unsplash photo they name. */
  const AuraImage := "unsplash:photo-1560518883-ce09059eeffa"
  const SubhaImage := "unsplash:photo-1500382017468-9049fed747ef"

  /** The seeded projects, in insertion order. */
  function SeedProjects(): seq<Project> {
    [ Project("aura", "Aura", "Bangalore", 100000, 14.0, 3, 18, AuraImage),
      Project("subha", "Codename Skylife 2100", "Mysore", 75000, 12.0, 3, 25, SubhaImage) ]
  }

  /** The seeded investment models, in insertion order. */
  function SeedModels(): seq<InvestmentModel> {
    [ InvestmentModel("aura-gold", "Gold", 100000, 12.0, 3, 5, "aura"),
      InvestmentModel("aura-platinum", "Platinum", 100000, 14.0, 4, 3, "aura"),
      InvestmentModel("aura-virtual", "Virtual", 100000, 10.0, 2, 10, "aura"),
      InvestmentModel("subha-gold", "Gold", 75000, 12.0, 3, 10, "subha"),
      InvestmentModel("subha-platinum", "Platinum", 75000, 14.0, 4, 5, "subha"),
      InvestmentModel("subha-virtual", "Virtual", 75000, 10.0, 2, 15, "subha") ]
  }

  /** The map left by `map.set(key(x), x)` for each `x` of `xs` in turn. */
  function KeyedBy<T>(xs: seq<T>, key: T -> string): (m: map<string, T>)
    ensures forall k :: k in m ==> exists i :: 0 <= i < |xs| && key(xs[i]) == k
  {
    if xs == [] then map[]
    else
      var x := xs[|xs| - 1];
      KeyedBy(xs[..|xs| - 1], key)[key(x) := x]
  }

  /** The key order of that map: a key joins the end when it is first set. */
  function InsertionOrder<T>(xs: seq<T>, key: T -> string): seq<string> {
    if xs == [] then []
    else
      var x := xs[|xs| - 1];
      var prefix := xs[..|xs| - 1];
      InsertionOrder(prefix, key) + (if key(x) in KeyedBy(prefix, key) then [] else [key(x)])
  }

  /** No two elements share a key. */
  ghost predicate DistinctKeys<T>(xs: seq<T>, key: T -> string) {
    forall i, j :: 0 <= i < j < |xs| ==> key(xs[i]) != key(xs[j])
  }

  /** With distinct keys, the last element's key is not yet in the map of the ones before it. */
  lemma LastKeyIsNew<T>(xs: seq<T>, key: T -> string)
    requires xs != [] && DistinctKeys(xs, key)
    ensures key(xs[|xs| - 1]) !in KeyedBy(xs[..|xs| - 1], key)
  {
    var x, prefix := xs[|xs| - 1], xs[..|xs| - 1];
    assert forall i :: 0 <= i < |prefix| ==> key(prefix[i]) != key(x) by {
      assert forall i :: 0 <= i < |prefix| ==> prefix[i] == xs[i];
    }
  }

  /** With distinct keys, every element is stored under its key. */
  lemma {:induction false} KeyedByStores<T>(xs: seq<T>, key: T -> string)
    requires DistinctKeys(xs, key)
    ensures forall i :: 0 <= i < |xs| ==> key(xs[i]) in KeyedBy(xs, key) && KeyedBy(xs, key)[key(xs[i])] == xs[i]
  {
    if xs != [] {
      var x, prefix := xs[|xs| - 1], xs[..|xs| - 1];
      assert DistinctKeys(prefix, key);
      KeyedByStores(prefix, key);
      LastKeyIsNew(xs, key);
      var m, m' := KeyedBy(prefix, key), KeyedBy(xs, key);
      assert m' == m[key(x) := x];
      forall i | 0 <= i < |xs| ensures key(xs[i]) in m' && m'[key(xs[i])] == xs[i] {
        if i < |prefix| {
          assert xs[i] == prefix[i] && key(xs[i]) != key(x);
          assert m'[key(xs[i])] == m[key(prefix[i])];
        } else {
          assert xs[i] == x;
        }
      }
    }
  }

  /** With distinct keys, the key order is the elements' order. */
  lemma {:induction false} InsertionOrderDistinct<T>(xs: seq<T>, key: T -> string)
    requires DistinctKeys(xs, key)
    ensures |InsertionOrder(xs, key)| == |xs|
    ensures forall i :: 0 <= i < |xs| ==> InsertionOrder(xs, key)[i] == key(xs[i])
  {
    if xs != [] {
      var x, prefix := xs[|xs| - 1], xs[..|xs| - 1];
      assert DistinctKeys(prefix, key);
      InsertionOrderDistinct(prefix, key);
      LastKeyIsNew(xs, key);
      var ks := InsertionOrder(prefix, key);
      assert InsertionOrder(xs, key) == ks + [key(x)];
      assert forall i :: 0 <= i < |prefix| ==> ks[i] == key(xs[i]);
    }
  }

  /** The facts `MemStorage.Valid` needs of a map seeded from elements with distinct ids. */
  lemma KeyedByIsOrdered<T>(xs: seq<T>, key: T -> string)
    requires DistinctKeys(xs, key)
    ensures IsOrderOf(InsertionOrder(xs, key), KeyedBy(xs, key).Keys)
    ensures forall k :: k in KeyedBy(xs, key) ==> key(KeyedBy(xs, key)[k]) == k
  {
    KeyedByStores(xs, key);
    InsertionOrderDistinct(xs, key);
    var order, m := InsertionOrder(xs, key), KeyedBy(xs, key);
    forall k | k in m ensures k in order && key(m[k]) == k {
      var i :| 0 <= i < |xs| && key(xs[i]) == k;
      assert order[i] == k && m[k] == xs[i];
    }
    forall k | k in order ensures k in m {
      var i :| 0 <= i < |order| && order[i] == k;
      assert key(xs[i]) in m;
    }
  }

  /** `Map.values()` gives the elements back in their order. */
  lemma KeyedByValues<T>(xs: seq<T>, key: T -> string)
    requires DistinctKeys(xs, key)
    ensures forall k :: k in InsertionOrder(xs, key) ==> k in KeyedBy(xs, key)
    ensures ValuesInOrder(InsertionOrder(xs, key), KeyedBy(xs, key)) == xs
  {
    KeyedByStores(xs, key);
    InsertionOrderDistinct(xs, key);
    var order, m := InsertionOrder(xs, key), KeyedBy(xs, key);
    var vs := ValuesInOrder(order, m);
    assert forall i :: 0 <= i < |xs| ==> vs[i] == m[key(xs[i])];
  }

  /** One seeding loop of `initializeData`: set each element under its key. */
  method SetEach<T>(xs: seq<T>, key: T -> string) returns (m: map<string, T>, order: seq<string>)
    ensures m == KeyedBy(xs, key) && order == InsertionOrder(xs, key)
  {
    m, order := map[], [];
    var i := 0;
    while i < |xs|
      invariant 0 <= i <= |xs|
      invariant m == KeyedBy(xs[..i], key) && order == InsertionOrder(xs[..i], key)
    {
      var x := xs[i];
      assert xs[..i + 1][..i] == xs[..i] && xs[..i + 1][i] == x;
      if key(x) !in m {
        order := order + [key(x)];
      }
      m := m[key(x) := x];
      i := i + 1;
    }
    assert xs[..i] == xs;
  }

  function ProjectId(p: Project): string { p.id }
  function ModelId(m: InvestmentModel): string { m.id }

  /** A seeding loop over elements with distinct keys leaves a store `MemStorage.Valid` accepts,
      whose values come back in the elements' order. */
  method Seed<T>(xs: seq<T>, key: T -> string) returns (m: map<string, T>, order: seq<string>)
    requires DistinctKeys(xs, key)
    ensures IsOrderOf(order, m.Keys) && forall k :: k in m ==> key(m[k]) == k
    ensures ValuesInOrder(order, m) == xs
  {
    m, order := SetEach(xs, key);
    KeyedByIsOrdered(xs, key);
    KeyedByValues(xs, key);
  }

  lemma SeedProjectIdsDistinct()
    ensures DistinctKeys(SeedProjects(), ProjectId)
  {
    var ps := SeedProjects();
    assert ps[0].id[0] != ps[1].id[0];
  }

  /** The six model ids are distinct: the project prefix tells the two groups apart, and the
      letter after the dash the models within a group. */
  lemma SeedModelIdsDistinct()
    ensures DistinctKeys(SeedModels(), ModelId)
  {
    var ms := SeedModels();
    assert ms[0].id[0] == ms[1].id[0] == ms[2].id[0] == 'a' && ms[3].id[0] == ms[4].id[0] == ms[5].id[0] == 's';
    assert ms[0].id[5] == 'g' && ms[1].id[5] == 'p' && ms[2].id[5] == 'v';
    assert ms[3].id[6] == 'g' && ms[4].id[6] == 'p' && ms[5].id[6] == 'v';
  }

  /** Each table keyed by its records' ids, those ids being the ones its counter handed out. */
  ghost predicate CountedUsers(users: map<int, User>, counter: int) {
    IdsBelow(users.Keys, counter) && forall id :: id in users ==> users[id].id == id
  }

  ghost predicate CountedInvestments(investments: map<int, Investment>, counter: int) {
    IdsBelow(investments.Keys, counter) && forall id :: id in investments ==> investments[id].id == id
  }

  ghost predicate CountedOtps(otps: map<int, Otp>, counter: int) {
    IdsBelow(otps.Keys, counter) && forall id :: id in otps ==> otps[id].id == id
  }

  /** The seeded tables keyed by id, with their insertion order. */
  ghost predicate OrderedProjects(order: seq<string>, projects: map<string, Project>) {
    IsOrderOf(order, projects.Keys) && forall k :: k in projects ==> projects[k].id == k
  }

  ghost predicate OrderedModels(order: seq<string>, models: map<string, InvestmentModel>) {
    IsOrderOf(order, models.Keys) && forall k :: k in models ==> models[k].id == k
  }

  /** Storing the record with the counter's id and moving the counter on keeps the table counted. */
  lemma AddInvestmentKeepsCount(investments: map<int, Investment>, counter: int, inv: Investment)
    requires CountedInvestments(investments, counter) && inv.id == counter
    ensures CountedInvestments(investments[counter := inv], counter + 1)
  {
  }

  /** Replacing a model by a record with the same id keeps the key order. */
  lemma UpdateKeepsModelOrder(order: seq<string>, models: map<string, InvestmentModel>, m: InvestmentModel)
    requires OrderedModels(order, models) && m.id in models
    ensures OrderedModels(order, models[m.id := m])
  {
    assert models[m.id := m].Keys == models.Keys;
  }

  class MemStorage {
    var users: map<int, User>
    var projects: map<string, Project>
    var projectOrder: seq<string>
    var investmentModels: map<string, InvestmentModel>
    var modelOrder: seq<string>
    var investments: map<int, Investment>
    var otps: map<int, Otp>

    var userIdCounter: int
    var investmentIdCounter: int
    var otpIdCounter: int

    ghost predicate Valid()
      reads this
    {
      && CountedUsers(users, userIdCounter)
      && CountedInvestments(investments, investmentIdCounter)
      && CountedOtps(otps, otpIdCounter)
      && OrderedProjects(projectOrder, projects)
      && OrderedModels(modelOrder, investmentModels)
    }

    /** The store after `initializeData()`: the seed projects and models, no users, investments
        or OTPs, every counter at 1. */
    constructor ()
      ensures Valid()
      ensures users == map[] && investments == map[] && otps == map[]
      ensures userIdCounter == 1 && investmentIdCounter == 1 && otpIdCounter == 1
      ensures ValuesInOrder(projectOrder, projects) == SeedProjects()
      ensures ValuesInOrder(modelOrder, investmentModels) == SeedModels()
    {
      users, investments, otps := map[], map[], map[];
      userIdCounter, investmentIdCounter, otpIdCounter := 1, 1, 1;
      SeedProjectIdsDistinct();
      SeedModelIdsDistinct();
      var pm, po := Seed(SeedProjects(), ProjectId);
      var mm, mo := Seed(SeedModels(), ModelId);
      projects, projectOrder, investmentModels, modelOrder := pm, po, mm, mo;
    }

    // ---- users ----

    function GetUser(id: int): (r: Option<User>)
      reads this
      ensures r.Some? <==> id in users
      ensures r.Some? ==> r.value == users[id]
    {
      if id in users then Some(users[id]) else None
    }

    /** The first user (in insertion order) with this phone number, if any. */
    method GetUserByPhoneNumber(phoneNumber: string) returns (r: Option<User>)
      requires Valid()
      ensures r.None? <==> forall id :: id in users ==> users[id].phoneNumber != phoneNumber
      ensures r.Some? ==> r.value.id in users && users[r.value.id] == r.value && r.value.phoneNumber == phoneNumber
      ensures r.Some? ==> forall id :: 1 <= id < r.value.id ==> users[id].phoneNumber != phoneNumber
    {
      var id := 1;
      while id < userIdCounter
        invariant 1 <= id <= userIdCounter
        invariant forall j :: 1 <= j < id ==> users[j].phoneNumber != phoneNumber
      {
        var user := users[id];
        if user.phoneNumber == phoneNumber {
          return Some(user);
        }
        id := id + 1;
      }
      return None;
    }

    /** Stores the new user under the next id; the counter moves on by one. */
    method CreateUser(user: InsertUser, now: Timestamp) returns (newUser: User)
      requires Valid()
      modifies this
      ensures Valid()
      ensures newUser == NewUser(user, old(userIdCounter), now)
      ensures userIdCounter == old(userIdCounter) + 1
      ensures users == old(users)[newUser.id := newUser]
      ensures GetUser(newUser.id) == Some(newUser)
      ensures forall id :: id in old(users) ==> id < newUser.id
      ensures projects == old(projects) && projectOrder == old(projectOrder)
      ensures investmentModels == old(investmentModels) && modelOrder == old(modelOrder)
      ensures investments == old(investments) && otps == old(otps)
      ensures investmentIdCounter == old(investmentIdCounter) && otpIdCounter == old(otpIdCounter)
    {
      var id := userIdCounter;
      userIdCounter := userIdCounter + 1;
      newUser := NewUser(user, id, now);
      users := users[id := newUser];
    }

    // ---- projects ----

    function GetProject(id: string): (r: Option<Project>)
      reads this
      ensures r.Some? <==> id in projects
      ensures r.Some? ==> r.value == projects[id]
    {
      if id in projects then Some(projects[id]) else None
    }

    /** `Array.from(projects.values())`: every project once, in insertion order. */
    function GetProjects(): (r: seq<Project>)
      reads this
      requires Valid()
      ensures |r| == |projects|
      ensures forall p :: p in r <==> p in projects.Values
    {
      var r := ValuesInOrder(projectOrder, projects);
      assert forall p :: p in projects.Values ==> p in r by {
        forall p | p in projects.Values ensures p in r {
          var k :| k in projects && projects[k] == p;
          var i :| 0 <= i < |projectOrder| && projectOrder[i] == k;
          assert r[i] == p;
        }
      }
      OrderSize(projectOrder, projects.Keys);
      r
    }

    // ---- investment models ----

    function GetInvestmentModel(id: string): (r: Option<InvestmentModel>)
      reads this
      ensures r.Some? <==> id in investmentModels
      ensures r.Some? ==> r.value == investmentModels[id]
    {
      if id in investmentModels then Some(investmentModels[id]) else None
    }

    /** The models of one project, in insertion order. */
    method GetInvestmentModelsByProject(projectId: string) returns (models: seq<InvestmentModel>)
      requires Valid()
      ensures models == ModelsOfProject(ValuesInOrder(modelOrder, investmentModels), projectId)
      ensures forall m :: m in models <==> m in investmentModels.Values && m.projectId == projectId
    {
      ghost var all := ValuesInOrder(modelOrder, investmentModels);
      models := [];
      var i := 0;
      while i < |modelOrder|
        invariant 0 <= i <= |modelOrder|
        invariant models == ModelsOfProject(all[..i], projectId)
      {
        var model := investmentModels[modelOrder[i]];
        assert all[..i + 1][..i] == all[..i];
        if model.projectId == projectId {
          models := models + [model];
        }
        i := i + 1;
      }
      assert all[..i] == all;
      ModelsOfProjectMembers(all, projectId);
      ValuesInOrderAreValues(modelOrder, investmentModels);
    }

    // ---- investments ----

    function GetInvestment(id: int): (r: Option<Investment>)
      reads this
      ensures r.Some? <==> id in investments
      ensures r.Some? ==> r.value == investments[id]
    {
      if id in investments then Some(investments[id]) else None
    }

    /** The investments of one user, in id order. */
    method GetInvestmentsByUser(userId: int) returns (userInvestments: seq<Investment>)
      requires Valid()
      ensures userInvestments == InvestmentsOfUser(InvestmentsUpTo(investments, investmentIdCounter), userId)
      ensures forall x :: x in userInvestments ==> x.userId == userId && x.id in investments && investments[x.id] == x
      ensures forall id :: id in investments && investments[id].userId == userId ==> investments[id] in userInvestments
    {
      assert forall i :: 1 <= i < investmentIdCounter ==> i in investments;
      userInvestments := [];
      var id := 1;
      while id < investmentIdCounter
        invariant 1 <= id <= investmentIdCounter
        invariant userInvestments == InvestmentsOfUser(InvestmentsUpTo(investments, id), userId)
      {
        var investment := investments[id];
        InvestmentsOfUserSnoc(InvestmentsUpTo(investments, id), investment, userId);
        if investment.userId == userId {
          userInvestments := userInvestments + [investment];
        }
        id := id + 1;
      }
      UserInvestmentsExact(investments, investmentIdCounter, userId);
    }

    /** Stores the investment under the next id and takes its slots off the referenced model; an
        unknown model id leaves every model as it was. */
    method CreateInvestment(investment: InsertInvestment, now: Timestamp) returns (newInvestment: Investment)
      requires Valid()
      modifies this
      ensures Valid()
      ensures newInvestment == NewInvestment(investment, old(investmentIdCounter), now)
      ensures investmentIdCounter == old(investmentIdCounter) + 1
      ensures investments == old(investments)[newInvestment.id := newInvestment]
      ensures GetInvestment(newInvestment.id) == Some(newInvestment)
      ensures investment.modelId in old(investmentModels) ==>
        var m := old(investmentModels)[investment.modelId];
        investmentModels == old(investmentModels)[investment.modelId := m.(availableSlots := m.availableSlots - investment.slots)]
      ensures investment.modelId !in old(investmentModels) ==> investmentModels == old(investmentModels)
      ensures modelOrder == old(modelOrder)
      ensures projects == old(projects) && projectOrder == old(projectOrder)
      ensures users == old(users) && otps == old(otps)
      ensures userIdCounter == old(userIdCounter) && otpIdCounter == old(otpIdCounter)
    {
      var id := investmentIdCounter;
      investmentIdCounter := investmentIdCounter + 1;
      newInvestment := NewInvestment(investment, id, now);
      AddInvestmentKeepsCount(investments, id, newInvestment);
      investments := investments[id := newInvestment];

      var model := GetInvestmentModel(investment.modelId);
      if model.Some? {
        var updatedModel := model.value.(availableSlots := model.value.availableSlots - investment.slots);
        UpdateKeepsModelOrder(modelOrder, investmentModels, updatedModel);
        investmentModels := investmentModels[model.value.id := updatedModel];
      }
    }

    // ---- OTPs ----

    method CreateOtp(otp: InsertOtp, now: Timestamp) returns (newOtp: Otp)
      requires Valid()
      modifies this
      ensures Valid()
      ensures newOtp == NewOtp(otp, old(otpIdCounter), now)
      ensures otpIdCounter == old(otpIdCounter) + 1
      ensures otps == old(otps)[newOtp.id := newOtp]
      ensures users == old(users) && projects == old(projects) && projectOrder == old(projectOrder)
      ensures investmentModels == old(investmentModels) && modelOrder == old(modelOrder)
      ensures investments == old(investments)
      ensures userIdCounter == old(userIdCounter) && investmentIdCounter == old(investmentIdCounter)
    {
      var id := otpIdCounter;
      otpIdCounter := otpIdCounter + 1;
      newOtp := NewOtp(otp, id, now);
      otps := otps[id := newOtp];
    }

    /** The unused OTP of this phone with the latest creation time; of equally late ones the first
        stored. The running maximum starts at 0, so an OTP created at time 0 or earlier is never
        chosen. */
    method GetLatestOtp(phoneNumber: string) returns (latestOtp: Option<Otp>)
      requires Valid()
      ensures latestOtp.Some? ==>
        var o := latestOtp.value;
        && o.id in otps && otps[o.id] == o && Candidate(o, phoneNumber) && o.createdAt > 0
        && (forall id :: id in otps && Candidate(otps[id], phoneNumber) ==> otps[id].createdAt <= o.createdAt)
        && (forall id :: 1 <= id < o.id && Candidate(otps[id], phoneNumber) ==> otps[id].createdAt < o.createdAt)
      ensures latestOtp.None? ==>
        forall id :: id in otps && Candidate(otps[id], phoneNumber) ==> otps[id].createdAt <= 0
    {
      latestOtp := None;
      var latestTimestamp := 0;
      var id := 1;
      while id < otpIdCounter
        invariant 1 <= id <= otpIdCounter
        invariant latestOtp.None? ==> latestTimestamp == 0
        invariant latestOtp.Some? ==>
          var o := latestOtp.value;
          && 1 <= o.id < id && otps[o.id] == o && Candidate(o, phoneNumber)
          && o.createdAt == latestTimestamp && latestTimestamp > 0
          && (forall j :: 1 <= j < o.id && Candidate(otps[j], phoneNumber) ==> otps[j].createdAt < latestTimestamp)
        invariant forall j :: 1 <= j < id && Candidate(otps[j], phoneNumber) ==> otps[j].createdAt <= latestTimestamp
      {
        var otp := otps[id];
        if otp.phoneNumber == phoneNumber && !otp.used {
          var timestamp := otp.createdAt;
          if timestamp > latestTimestamp {
            latestOtp := Some(otp);
            latestTimestamp := timestamp;
          }
        }
        id := id + 1;
      }
    }

    /** Sets `used` on the OTP with this id and nothing else; an unknown id changes nothing. */
    method MarkOtpAsUsed(id: int)
      requires Valid()
      modifies this
      ensures Valid()
      ensures id in old(otps) ==> otps == old(otps)[id := old(otps)[id].(used := true)]
      ensures id !in old(otps) ==> otps == old(otps)
      ensures users == old(users) && projects == old(projects) && projectOrder == old(projectOrder)
      ensures investmentModels == old(investmentModels) && modelOrder == old(modelOrder)
      ensures investments == old(investments)
      ensures userIdCounter == old(userIdCounter) && investmentIdCounter == old(investmentIdCounter)
      ensures otpIdCounter == old(otpIdCounter)
    {
      if id in otps {
        var otp := otps[id];
        otps := otps[id := otp.(used := true)];
      }
    }
  }

  /** A duplicate-free listing of a key set is as long as the set is large. */
  lemma {:induction false} OrderSize(order: seq<string>, keys: set<string>)
    requires IsOrderOf(order, keys)
    ensures |order| == |keys|
  {
    if order != [] {
      var k := order[|order| - 1];
      var rest := order[..|order| - 1];
      assert IsOrderOf(rest, keys - {k}) by {
        forall x ensures x in keys - {k} <==> x in rest {
          if x in rest {
            var i :| 0 <= i < |rest| && rest[i] == x;
            assert order[i] != order[|order| - 1];
          }
          if x in keys && x != k {
            var i :| 0 <= i < |order| && order[i] == x;
            assert i < |order| - 1;
            assert rest[i] == x;
          }
        }
      }
      OrderSize(rest, keys - {k});
    } else {
      assert forall x :: x !in keys;
      assert keys == {};
    }
  }
}
