/** The records the client works with (client/src/lib/types.ts). Numbers that are whole in every
    use (amounts, slots, years) are `int`; rates are `real`; dates are millisecond timestamps. */
module ClientTypes {
  import opened Options

  type Timestamp = int

  datatype Project = Project(
    id: string, name: string, location: string, minimumInvestment: int, estimatedReturns: real,
    lockInPeriod: int, availableSlots: int, image: string)

  datatype InvestmentModel = InvestmentModel(
    id: string, name: string, minInvestment: int, maxInvestment: Option<int>, roi: real, lockInPeriod: int,
    availableSlots: int, projectId: string, paymentPlan: Option<string>)

  /** An investment as the client writes it. `userId` holds the signed-in user's uid, a string,
      whatever the declared type says. */
  datatype Investment = Investment(
    id: int, userId: string, projectId: string, projectName: string, modelId: string,
    modelName: string, slots: int, amount: int, expectedReturns: real, lockInPeriod: int,
    maturityDate: Timestamp, createdAt: Timestamp, status: string)

  /** JavaScript truthiness of an optional string: missing and `""` are falsy. */
  predicate Present(s: Option<string>) {
    s.Some? && s.value != ""
  }

  /** `xs.find((x) => x.id === id)`: the first element whose id, as `idOf` reads it, is `id`. */
  function FindById<T(==)>(xs: seq<T>, idOf: T -> string, id: string): (r: Option<T>)
    ensures r.None? <==> forall i :: 0 <= i < |xs| ==> idOf(xs[i]) != id
    ensures r.Some? ==> exists i :: (0 <= i < |xs| && xs[i] == r.value && idOf(r.value) == id &&
                                     forall j :: 0 <= j < i ==> idOf(xs[j]) != id)
  {
    if xs == [] then None
    else if idOf(xs[0]) == id then Some(xs[0])
    else
      var r := FindById(xs[1..], idOf, id);
      if r.Some? then
        var i :| 0 <= i < |xs[1..]| && xs[1..][i] == r.value && idOf(r.value) == id
          && forall j :: 0 <= j < i ==> idOf(xs[1..][j]) != id;
        assert xs[i + 1] == r.value;
        r
      else r
  }

  /** `projects.find((p) => p.id === id)`: the first project with this id. */
  function FindProject(projects: seq<Project>, id: string): (r: Option<Project>)
    ensures r.None? <==> forall i :: 0 <= i < |projects| ==> projects[i].id != id
    ensures r.Some? ==> exists i :: (0 <= i < |projects| && projects[i] == r.value && r.value.id == id &&
                                     forall j :: 0 <= j < i ==> projects[j].id != id)
  {
    FindById(projects, (p: Project) => p.id, id)
  }

  /** `models.find((m) => m.id === id)`: the first model with this id. */
  function FindModel(models: seq<InvestmentModel>, id: string): (r: Option<InvestmentModel>)
    ensures r.None? <==> forall i :: 0 <= i < |models| ==> models[i].id != id
    ensures r.Some? ==> exists i :: (0 <= i < |models| && models[i] == r.value && r.value.id == id &&
                                     forall j :: 0 <= j < i ==> models[j].id != id)
  {
    FindById(models, (m: InvestmentModel) => m.id, id)
  }
}
