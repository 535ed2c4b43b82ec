/** The investment wizard (client/src/pages/invest/InvestPage.tsx): four steps, guarded moves
    between them, slot and quantity bounds, a per-project draft in local storage, the catalogue of
    models, their display order and the summary total. The page reads and writes the selection held
    by the investment context; `drafts` stands for local storage. */
module InvestPage {
  import opened Options
  import opened ClientTypes
  import opened InvestmentContext

  const Steps: seq<string> := ["Explore Project", "Choose Investment Model", "Select Unit/Sqft/Amount", "Investment Summary"]
  const PaymentPlanImage := "paymentPlan.png"

  /** An `InvestmentDraft`. */
  datatype Draft = Draft(projectId: string, modelId: Option<string>, slots: int, quantity: int, step: int)

  /** The local-storage key of a project's draft. */
  function DraftKey(projectId: string): string {
    "investDraft_" + projectId
  }

  /** Drafts of different projects live under different keys. */
  lemma DraftKeyInjective(p: string, q: string)
    requires DraftKey(p) == DraftKey(q)
    ensures p == q
  {
    var n := |"investDraft_"|;
    assert p == DraftKey(p)[n..];
    assert q == DraftKey(q)[n..];
  }

  /** `selectedModel?.id || null`: an empty id is stored as null. */
  function ModelIdOrNull(model: Option<InvestmentModel>): (r: Option<string>)
    ensures r.Some? <==> model.Some? && model.value.id != ""
    ensures r.Some? ==> r.value == model.value.id
  {
    if model.Some? && model.value.id != "" then Some(model.value.id) else None
  }

  /** `getModelsByProject`: the same three hard-coded models for every project, tagged with its id. */
  function GetModelsByProject(pid: string): (models: seq<InvestmentModel>)
    ensures |models| == 3
    ensures forall i :: 0 <= i < |models| ==> models[i].projectId == pid && models[i].maxInvestment == Some(900000)
    ensures models[0].name == "Gold" && models[1].name == "Platinum" && models[2].name == "Virtual"
  {
    [ InvestmentModel("gold", "Gold", 100000, Some(900000), 12.0, 3, 10, pid, Some(PaymentPlanImage)),
      InvestmentModel("platinum", "Platinum", 150000, Some(900000), 14.0, 4, 5, pid, Some(PaymentPlanImage)),
      InvestmentModel("virtual", "Virtual", 75000, Some(900000), 10.0, 2, 15, pid, Some(PaymentPlanImage)) ]
  }

  /** The display position of a model name: Gold, then Platinum, then everything else. */
  function Rank(name: string): (r: nat)
    ensures r <= 2
    ensures r == 0 <==> name == "Gold"
    ensures r == 1 <==> name == "Platinum"
  {
    if name == "Gold" then 0 else if name == "Platinum" then 1 else 2
  }

  /** The comparator passed to `models.sort` as written. */
  function CompareAsWritten(a: InvestmentModel, b: InvestmentModel): int {
    if a.name == "Gold" then -1
    else if b.name == "Gold" then 1
    else if a.name == "Platinum" then -1
    else if b.name == "Platinum" then 1
    else 0
  }

  /** Between models of different rank the comparator as written orders by rank. */
  lemma CompareAsWrittenOrdersByRank(a: InvestmentModel, b: InvestmentModel)
    requires Rank(a.name) != Rank(b.name)
    ensures CompareAsWritten(a, b) < 0 <==> Rank(a.name) < Rank(b.name)
    ensures CompareAsWritten(a, b) != 0
  {
  }

  /** As written, two Gold models each claim to come first: `compare(a, b)` and `compare(b, a)` are
      both -1, which breaks the comparator contract of `Array.prototype.sort`. */
  lemma CompareAsWrittenNotAntisymmetric(a: InvestmentModel, b: InvestmentModel)
    requires a.name == "Gold" && b.name == "Gold"
    ensures CompareAsWritten(a, b) == -1 && CompareAsWritten(b, a) == -1
  {
  }

  /** The comparator as intended: the sign of the rank difference. */
  function CompareModels(a: InvestmentModel, b: InvestmentModel): (r: int)
    ensures r < 0 <==> Rank(a.name) < Rank(b.name)
    ensures r == 0 <==> Rank(a.name) == Rank(b.name)
  {
    if Rank(a.name) < Rank(b.name) then -1 else if Rank(a.name) > Rank(b.name) then 1 else 0
  }

  /** Swapping the arguments of the intended comparator negates it. */
  lemma CompareModelsAntisymmetric(a: InvestmentModel, b: InvestmentModel)
    ensures CompareModels(a, b) == -CompareModels(b, a)
  {
  }

  /** The intended comparator is a total preorder: `compare(a, b) <= 0` is transitive. */
  lemma CompareModelsTransitive(a: InvestmentModel, b: InvestmentModel, c: InvestmentModel)
    requires CompareModels(a, b) <= 0 && CompareModels(b, c) <= 0
    ensures CompareModels(a, c) <= 0
  {
  }

  /** Wherever the comparator as written is consistent, it agrees with the intended one. */
  lemma CompareAgreesOutsideTies(a: InvestmentModel, b: InvestmentModel)
    requires Rank(a.name) != Rank(b.name) || Rank(a.name) == 2
    ensures CompareAsWritten(a, b) == CompareModels(a, b)
  {
  }

  predicate SortedByRank(models: seq<InvestmentModel>) {
    forall i, j :: 0 <= i < j < |models| ==> Rank(models[i].name) <= Rank(models[j].name)
  }

  /** Puts `m` before the first model of `sorted` whose rank is not smaller. */
  function InsertByRank(m: InvestmentModel, sorted: seq<InvestmentModel>): (r: seq<InvestmentModel>)
    ensures multiset(r) == multiset(sorted) + multiset{m}
  {
    if sorted == [] || Rank(m.name) <= Rank(sorted[0].name) then [m] + sorted
    else
      assert sorted == [sorted[0]] + sorted[1..];
      [sorted[0]] + InsertByRank(m, sorted[1..])
  }

  /** Every model of `models` ranks `b` or later. */
  predicate RanksFrom(models: seq<InvestmentModel>, b: nat) {
    forall k :: 0 <= k < |models| ==> b <= Rank(models[k].name)
  }

  lemma {:induction false} InsertByRankRanksFrom(m: InvestmentModel, sorted: seq<InvestmentModel>, b: nat)
    requires RanksFrom(sorted, b) && b <= Rank(m.name)
    ensures RanksFrom(InsertByRank(m, sorted), b)
  {
    if sorted != [] && Rank(m.name) > Rank(sorted[0].name) {
      InsertByRankRanksFrom(m, sorted[1..], b);
      assert RanksFrom(sorted[1..], b) by {
        assert forall k :: 0 <= k < |sorted[1..]| ==> sorted[1..][k] == sorted[k + 1];
      }
    }
  }

  lemma {:induction false} InsertByRankSorted(m: InvestmentModel, sorted: seq<InvestmentModel>)
    requires SortedByRank(sorted)
    ensures SortedByRank(InsertByRank(m, sorted))
  {
    if sorted != [] && Rank(m.name) > Rank(sorted[0].name) {
      var rest := InsertByRank(m, sorted[1..]);
      InsertByRankSorted(m, sorted[1..]);
      assert RanksFrom(sorted[1..], Rank(sorted[0].name));
      InsertByRankRanksFrom(m, sorted[1..], Rank(sorted[0].name));
    }
  }

  /** The order `models.sort(compare)` shows the models in (as a stable sort by rank). */
  function SortForDisplay(models: seq<InvestmentModel>): (r: seq<InvestmentModel>)
    ensures SortedByRank(r)
    ensures multiset(r) == multiset(models)
  {
    if models == [] then []
    else
      assert models == [models[0]] + models[1..];
      var rest := SortForDisplay(models[1..]);
      InsertByRankSorted(models[0], rest);
      InsertByRank(models[0], rest)
  }

  /** The catalogue is already in display order. */
  lemma CatalogueInDisplayOrder(pid: string)
    ensures SortForDisplay(GetModelsByProject(pid)) == GetModelsByProject(pid)
  {
    var ms := GetModelsByProject(pid);
    assert ms[1..][1..][1..] == [];
    assert SortForDisplay(ms[2..]) == [ms[2]];
    assert ms[1..][1..] == ms[2..];
    assert SortForDisplay(ms[1..]) == [ms[1], ms[2]];
  }

  /** The summary's total investment: minimum investment times slots times quantity. */
  function SummaryTotal(model: InvestmentModel, slots: int, quantity: int): (total: int)
    ensures total == model.minInvestment * slots * quantity
    ensures quantity == 1 ==> total == model.minInvestment * slots
    ensures model.minInvestment * slots >= 0 && quantity >= 1 ==> total >= model.minInvestment * slots
  {
    var perUnit := model.minInvestment * slots;
    assert perUnit * quantity - perUnit == perUnit * (quantity - 1);
    perUnit * quantity
  }

  /** Each extra unit of quantity adds the price of the selected slots once more. */
  lemma SummaryTotalPerUnit(model: InvestmentModel, slots: int, quantity: int)
    ensures SummaryTotal(model, slots, quantity + 1) == SummaryTotal(model, slots, quantity) + model.minInvestment * slots
  {
    var perUnit := model.minInvestment * slots;
    assert perUnit * (quantity + 1) == perUnit * quantity + perUnit;
  }

  /** The summary's total is the context's total amount times the quantity, and vanishes with no
      quantity. */
  lemma SummaryTotalIsRepeatedAmount(ctx: InvestmentState, quantity: int)
    requires ctx.selectedModel.Some?
    ensures SummaryTotal(ctx.selectedModel.value, ctx.selectedSlots, quantity) == ctx.TotalAmount() * quantity
  {
  }

  class InvestPageState {
    const ctx: InvestmentState
    /** The `projectId` route parameter. */
    const projectId: string
    var currentStep: int
    var quantity: int
    var models: seq<InvestmentModel>
    /** Local storage, as far as the page uses it. */
    var drafts: map<string, Draft>

    constructor (ctx: InvestmentState, projectId: string, drafts: map<string, Draft>)
      ensures this.ctx == ctx && this.projectId == projectId && this.drafts == drafts
      ensures currentStep == 0 && quantity == 1 && models == []
    {
      this.ctx := ctx;
      this.projectId := projectId;
      this.drafts := drafts;
      currentStep, quantity, models := 0, 1, [];
    }

    /** The draft of the current selection at the given step. */
    function DraftAt(step: int): Draft
      reads this, ctx
      requires ctx.selectedProject.Some?
    {
      Draft(ctx.selectedProject.value.id, ModelIdOrNull(ctx.selectedModel), ctx.selectedSlots, quantity, step)
    }

    /** Whether the guard of the current step lets Next through. Steps other than 0, 1 and 2
        have no guard. */
    predicate NextAllowed()
      reads this, ctx
    {
      && (currentStep == 0 ==> ctx.selectedProject.Some?)
      && (currentStep == 1 ==> ctx.selectedModel.Some?)
      && (currentStep == 2 ==> ctx.selectedSlots > 0)
    }

    /** `handleNextStep`. From steps 0, 1 and 2 it advances by one when the step's guard holds; a
        failed guard changes nothing. From any other step the step stays, yet the draft is still
        written, with the step number one past the current one. */
    method HandleNextStep()
      modifies this
      ensures old(NextAllowed()) && 0 <= old(currentStep) <= 2 ==> currentStep == old(currentStep) + 1
      ensures !(old(NextAllowed()) && 0 <= old(currentStep) <= 2) ==> currentStep == old(currentStep)
      ensures 0 <= old(currentStep) < |Steps| ==> 0 <= currentStep < |Steps|
      ensures old(NextAllowed()) && ctx.selectedProject.Some? ==>
        drafts == old(drafts)[DraftKey(projectId) := old(DraftAt(currentStep + 1))]
      ensures !(old(NextAllowed()) && ctx.selectedProject.Some?) ==> drafts == old(drafts)
      ensures quantity == old(quantity) && models == old(models)
    {
      if currentStep == 0 {
        if ctx.selectedProject.None? {
          return;
        }
      } else if currentStep == 1 {
        if ctx.selectedModel.None? {
          return;
        }
      } else if currentStep == 2 {
        if ctx.selectedSlots <= 0 {
          return;
        }
      }
      var next := currentStep + 1;
      if 0 <= currentStep <= 2 {
        currentStep := next;
      }
      if ctx.selectedProject.Some? {
        drafts := drafts[DraftKey(projectId) := DraftAt(next)];
      }
    }

    /** `handlePrevStep`: back one step only from a step above 0, recording that step in the draft. */
    method HandlePrevStep()
      modifies this
      ensures old(currentStep) > 0 ==> currentStep == old(currentStep) - 1
      ensures old(currentStep) <= 0 ==> currentStep == old(currentStep) && drafts == old(drafts)
      ensures 0 <= old(currentStep) < |Steps| ==> 0 <= currentStep < |Steps|
      ensures old(currentStep) > 0 && ctx.selectedProject.Some? ==>
        drafts == old(drafts)[DraftKey(projectId) := old(DraftAt(currentStep - 1))]
      ensures ctx.selectedProject.None? ==> drafts == old(drafts)
      ensures quantity == old(quantity) && models == old(models)
    {
      if currentStep > 0 {
        var previous := currentStep - 1;
        currentStep := previous;
        if ctx.selectedProject.Some? {
          drafts := drafts[DraftKey(projectId) := DraftAt(previous)];
        }
      }
    }

    /** `handleSlotsChange`: a new slot count between 1 and the selected model's available slots is
        taken; anything else, or no model, changes nothing. */
    method HandleSlotsChange(newSlots: int)
      modifies ctx
      ensures
        if newSlots >= 1 && old(ctx.selectedModel).Some? && newSlots <= old(ctx.selectedModel).value.availableSlots
        then ctx.selectedSlots == newSlots
        else ctx.selectedSlots == old(ctx.selectedSlots)
      ensures old(ctx.selectedModel).Some? && 1 <= old(ctx.selectedSlots) <= old(ctx.selectedModel).value.availableSlots ==>
        ctx.selectedModel.Some? && 1 <= ctx.selectedSlots <= ctx.selectedModel.value.availableSlots
      ensures ctx.selectedProject == old(ctx.selectedProject) && ctx.selectedModel == old(ctx.selectedModel)
      ensures ctx.projectSlots == old(ctx.projectSlots) && ctx.userDocs == old(ctx.userDocs)
      ensures ctx.location == old(ctx.location)
      ensures ctx.projects == old(ctx.projects) && ctx.investments == old(ctx.investments)
      ensures ctx.isLoading == old(ctx.isLoading) && ctx.projectModelDocs == old(ctx.projectModelDocs)
    {
      if newSlots >= 1 && ctx.selectedModel.Some? && newSlots <= ctx.selectedModel.value.availableSlots {
        ctx.SetSlots(newSlots);
      }
    }

    /** `handleQuantityChange`: only a quantity of at least 1 is taken, so the quantity stays >= 1. */
    method HandleQuantityChange(newQuantity: int)
      modifies this
      ensures newQuantity >= 1 ==> quantity == newQuantity
      ensures newQuantity < 1 ==> quantity == old(quantity)
      ensures old(quantity) >= 1 ==> quantity >= 1
      ensures currentStep == old(currentStep) && drafts == old(drafts) && models == old(models)
    {
      if newQuantity >= 1 {
        quantity := newQuantity;
      }
    }

    /** `handleContactSales`: go to the dashboard and drop this project's draft. */
    method HandleContactSales()
      modifies this, ctx
      ensures ctx.location == "/dashboard"
      ensures drafts == old(drafts) - {DraftKey(projectId)}
      ensures currentStep == old(currentStep) && quantity == old(quantity) && models == old(models)
      ensures ctx.selectedProject == old(ctx.selectedProject) && ctx.selectedModel == old(ctx.selectedModel)
      ensures ctx.selectedSlots == old(ctx.selectedSlots)
      ensures ctx.projectSlots == old(ctx.projectSlots) && ctx.userDocs == old(ctx.userDocs)
      ensures ctx.projects == old(ctx.projects) && ctx.investments == old(ctx.investments)
      ensures ctx.isLoading == old(ctx.isLoading) && ctx.projectModelDocs == old(ctx.projectModelDocs)
    {
      ctx.location := "/dashboard";
      drafts := drafts - {DraftKey(projectId)};
    }

    /** `handleSaveDraft`: the current selection and step, when a project is selected. */
    method HandleSaveDraft()
      modifies this
      ensures ctx.selectedProject.Some? ==> drafts == old(drafts)[DraftKey(projectId) := DraftAt(currentStep)]
      ensures ctx.selectedProject.None? ==> drafts == old(drafts)
      ensures currentStep == old(currentStep) && quantity == old(quantity) && models == old(models)
    {
      if ctx.selectedProject.None? {
        return;
      }
      drafts := drafts[DraftKey(projectId) := DraftAt(currentStep)];
    }

    /** The draft-saving effect, run after the selection, quantity or step changed. */
    method SaveDraftEffect()
      modifies this
      ensures ctx.selectedProject.Some? && currentStep >= 0 ==>
        drafts == old(drafts)[DraftKey(projectId) := DraftAt(currentStep)]
      ensures !(ctx.selectedProject.Some? && currentStep >= 0) ==> drafts == old(drafts)
      ensures currentStep == old(currentStep) && quantity == old(quantity) && models == old(models)
    {
      if ctx.selectedProject.Some? && currentStep >= 0 {
        drafts := drafts[DraftKey(projectId) := DraftAt(currentStep)];
      }
    }

    /** The project effect: select the project of the route, or go to the dashboard if the
        context has none with that id. */
    method FindProjectEffect()
      modifies ctx
      ensures FindProject(old(ctx.projects), projectId).Some? ==>
        ctx.selectedProject == FindProject(old(ctx.projects), projectId) && ctx.location == old(ctx.location)
      ensures FindProject(old(ctx.projects), projectId).None? ==>
        ctx.selectedProject == old(ctx.selectedProject) && ctx.location == "/dashboard"
      ensures ctx.selectedModel == old(ctx.selectedModel) && ctx.selectedSlots == old(ctx.selectedSlots)
      ensures ctx.projects == old(ctx.projects)
      ensures ctx.projectSlots == old(ctx.projectSlots) && ctx.userDocs == old(ctx.userDocs)
      ensures ctx.investments == old(ctx.investments)
      ensures ctx.isLoading == old(ctx.isLoading) && ctx.projectModelDocs == old(ctx.projectModelDocs)
    {
      var project := FindProject(ctx.projects, projectId);
      if project.Some? {
        ctx.SelectProject(project.value);
      } else {
        ctx.location := "/dashboard";
      }
    }

    /** The models effect: the catalogue for the selected project. */
    method LoadModelsEffect()
      modifies this
      ensures ctx.selectedProject.Some? ==> models == GetModelsByProject(ctx.selectedProject.value.id)
      ensures ctx.selectedProject.None? ==> models == old(models)
      ensures currentStep == old(currentStep) && quantity == old(quantity) && drafts == old(drafts)
    {
      if ctx.selectedProject.Some? {
        models := GetModelsByProject(ctx.selectedProject.value.id);
      }
    }

    /** `handleCompleteInvestment`: with a model and a positive slot count the context's
        `createInvestment` runs; when it succeeds the draft is dropped and the page goes to the
        dashboard. */
    method HandleCompleteInvestment(uid: Option<string>, now: Timestamp, maturityDate: Timestamp)
      returns (success: bool)
      modifies this, ctx
      ensures !(old(ctx.selectedModel).Some? && old(ctx.selectedSlots) > 0) ==>
        !success && unchanged(ctx) && drafts == old(drafts)
      ensures success ==>
        && old(ctx.selectedModel).Some? && old(ctx.selectedSlots) > 0 && old(ctx.HasSelection(uid))
        && drafts == old(drafts) - {DraftKey(projectId)} && ctx.location == "/dashboard"
        && ctx.selectedProject == None && ctx.selectedModel == None && ctx.selectedSlots == 1
      ensures !success ==> drafts == old(drafts)
      ensures !success ==>
        && ctx.projectSlots == old(ctx.projectSlots) && ctx.userDocs == old(ctx.userDocs)
        && ctx.selectedProject == old(ctx.selectedProject) && ctx.selectedModel == old(ctx.selectedModel)
        && ctx.selectedSlots == old(ctx.selectedSlots) && ctx.location == old(ctx.location)
      ensures old(ctx.selectedModel).Some? && old(ctx.selectedSlots) > 0 && old(ctx.HasSelection(uid)) ==> !ctx.isLoading
      ensures !old(ctx.HasSelection(uid)) ==> ctx.isLoading == old(ctx.isLoading)
      ensures ctx.projects == old(ctx.projects) && ctx.investments == old(ctx.investments)
      ensures ctx.projectModelDocs == old(ctx.projectModelDocs)
      ensures success ==>
        var pid := old(ctx.selectedProject).value.id;
        var inv := NewInvestmentRecord(old(ctx.selectedProject).value, old(ctx.selectedModel).value,
                                       old(ctx.selectedSlots), uid.value, now, maturityDate);
        && pid in old(ctx.projectSlots) && uid.value in old(ctx.userDocs)
        && ctx.projectSlots == old(ctx.projectSlots)[pid := old(ctx.projectSlots)[pid] - old(ctx.selectedSlots)]
        && ctx.userDocs == old(ctx.userDocs)[uid.value := ArrayUnion(old(ctx.userDocs)[uid.value], inv)]
      ensures currentStep == old(currentStep) && quantity == old(quantity) && models == old(models)
    {
      success := false;
      if ctx.selectedModel.Some? && ctx.selectedSlots > 0 {
        success := ctx.CreateInvestment(uid, now, maturityDate);
        if success {
          drafts := drafts - {DraftKey(projectId)};
          ctx.location := "/dashboard";
        }
      }
    }
  }
}
