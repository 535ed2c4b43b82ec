/** The slot picker (client/src/pages/projects/SlotSelectionPage.tsx): a counter bounded by the
    selected model's available slots, and the effect that fills in the project and model of the
    route or navigates away. The selection lives in the investment context. */
module SlotSelectionPage {
  import opened Options
  import opened ClientTypes
  import opened InvestmentContext

  /** The three mock models the page falls back on, tagged with the route's project id. */
  function MockModels(projectId: string): (models: seq<InvestmentModel>)
    ensures |models| == 3
    ensures forall i :: 0 <= i < |models| ==> models[i].projectId == projectId && models[i].minInvestment == 100000
    ensures models[0].id == "gold" && models[1].id == "platinum" && models[2].id == "virtual"
  {
    [ InvestmentModel("gold", "Gold", 100000, None, 12.0, 3, 5, projectId, None),
      InvestmentModel("platinum", "Platinum", 100000, None, 14.0, 4, 3, projectId, None),
      InvestmentModel("virtual", "Virtual", 100000, None, 10.0, 2, 10, projectId, None) ]
  }

  /** The slot count is within the selected model's bounds. */
  predicate SlotsInBounds(model: Option<InvestmentModel>, slots: int) {
    model.Some? && 1 <= slots <= model.value.availableSlots
  }

  /** The slot count after `handleIncreaseSlot`: one more while below the model's available slots. */
  function Increase(model: Option<InvestmentModel>, slots: int): (r: int)
    ensures SlotsInBounds(model, slots) ==> SlotsInBounds(model, r)
    ensures r == slots + 1 <==> model.Some? && slots < model.value.availableSlots
    ensures r != slots + 1 ==> r == slots
  {
    if model.Some? && slots < model.value.availableSlots then slots + 1 else slots
  }

  /** The slot count after `handleDecreaseSlot`: one fewer while above 1. */
  function Decrease(slots: int): (r: int)
    ensures r == slots - 1 <==> slots > 1
    ensures r != slots - 1 ==> r == slots
    ensures slots >= 1 ==> 1 <= r <= slots
  {
    if slots > 1 then slots - 1 else slots
  }

  /** Increasing and then decreasing returns to the start whenever the increase took place. */
  lemma IncreaseThenDecrease(model: Option<InvestmentModel>, slots: int)
    requires slots >= 1 && Increase(model, slots) == slots + 1
    ensures Decrease(Increase(model, slots)) == slots
  {
  }

  /** Decreasing keeps a count within the model's bounds. */
  lemma DecreaseKeepsBounds(model: Option<InvestmentModel>, slots: int)
    requires SlotsInBounds(model, slots)
    ensures SlotsInBounds(model, Decrease(slots))
  {
  }

  class SlotSelection {
    const ctx: InvestmentState
    /** The route's parameters. */
    const projectId: string
    const modelId: string

    constructor (ctx: InvestmentState, projectId: string, modelId: string)
      ensures this.ctx == ctx && this.projectId == projectId && this.modelId == modelId
    {
      this.ctx := ctx;
      this.projectId := projectId;
      this.modelId := modelId;
    }

    /** `handleIncreaseSlot`. */
    method HandleIncreaseSlot()
      modifies ctx
      ensures ctx.selectedSlots == Increase(old(ctx.selectedModel), old(ctx.selectedSlots))
      ensures old(SlotsInBounds(ctx.selectedModel, ctx.selectedSlots)) ==> SlotsInBounds(ctx.selectedModel, ctx.selectedSlots)
      ensures ctx.selectedProject == old(ctx.selectedProject) && ctx.selectedModel == old(ctx.selectedModel)
      ensures ctx.location == old(ctx.location)
      ensures ctx.projectSlots == old(ctx.projectSlots) && ctx.userDocs == old(ctx.userDocs)
      ensures ctx.projects == old(ctx.projects) && ctx.investments == old(ctx.investments)
      ensures ctx.isLoading == old(ctx.isLoading) && ctx.projectModelDocs == old(ctx.projectModelDocs)
    {
      if ctx.selectedModel.Some? && ctx.selectedSlots < ctx.selectedModel.value.availableSlots {
        ctx.SetSlots(ctx.selectedSlots + 1);
      }
    }

    /** `handleDecreaseSlot`. */
    method HandleDecreaseSlot()
      modifies ctx
      ensures ctx.selectedSlots == Decrease(old(ctx.selectedSlots))
      ensures old(SlotsInBounds(ctx.selectedModel, ctx.selectedSlots)) ==> SlotsInBounds(ctx.selectedModel, ctx.selectedSlots)
      ensures ctx.selectedProject == old(ctx.selectedProject) && ctx.selectedModel == old(ctx.selectedModel)
      ensures ctx.location == old(ctx.location)
      ensures ctx.projectSlots == old(ctx.projectSlots) && ctx.userDocs == old(ctx.userDocs)
      ensures ctx.projects == old(ctx.projects) && ctx.investments == old(ctx.investments)
      ensures ctx.isLoading == old(ctx.isLoading) && ctx.projectModelDocs == old(ctx.projectModelDocs)
    {
      if ctx.selectedSlots > 1 {
        ctx.SetSlots(ctx.selectedSlots - 1);
      }
    }

    /** The initialising effect. A missing or different project is looked up in the context's
        projects; if there is none, the page navigates to `/projects`. The model check runs either
        way: a missing or different model is looked up among the mock models, and if there is none
        the page navigates to `/projects/<projectId>` (the later navigation wins). */
    method InitEffect()
      modifies ctx
      ensures
        var needProject := old(ctx.selectedProject).None? || old(ctx.selectedProject).value.id != projectId;
        var project := FindProject(old(ctx.projects), projectId);
        && (!needProject ==> ctx.selectedProject == old(ctx.selectedProject))
        && (needProject && project.Some? ==> ctx.selectedProject == project)
        && (needProject && project.None? ==> ctx.selectedProject == old(ctx.selectedProject))
      ensures
        var needModel := old(ctx.selectedModel).None? || old(ctx.selectedModel).value.id != modelId;
        var model := FindModel(MockModels(projectId), modelId);
        && (!needModel ==> ctx.selectedModel == old(ctx.selectedModel))
        && (needModel && model.Some? ==> ctx.selectedModel == model)
        && (needModel && model.None? ==> ctx.selectedModel == old(ctx.selectedModel) && ctx.location == "/projects/" + projectId)
      ensures
        var needProject := old(ctx.selectedProject).None? || old(ctx.selectedProject).value.id != projectId;
        var needModel := old(ctx.selectedModel).None? || old(ctx.selectedModel).value.id != modelId;
        var missingProject := needProject && FindProject(old(ctx.projects), projectId).None?;
        var missingModel := needModel && FindModel(MockModels(projectId), modelId).None?;
        && (missingProject && !missingModel ==> ctx.location == "/projects")
        && (!missingProject && !missingModel ==> ctx.location == old(ctx.location))
      ensures ctx.selectedSlots == old(ctx.selectedSlots) && ctx.projects == old(ctx.projects)
      ensures ctx.projectSlots == old(ctx.projectSlots) && ctx.userDocs == old(ctx.userDocs)
      ensures ctx.investments == old(ctx.investments)
      ensures ctx.isLoading == old(ctx.isLoading) && ctx.projectModelDocs == old(ctx.projectModelDocs)
    {
      if ctx.selectedProject.None? || ctx.selectedProject.value.id != projectId {
        var project := FindProject(ctx.projects, projectId);
        if project.Some? {
          ctx.SelectProject(project.value);
        } else {
          ctx.location := "/projects";
        }
      }
      if ctx.selectedModel.None? || ctx.selectedModel.value.id != modelId {
        var model := FindModel(MockModels(projectId), modelId);
        if model.Some? {
          ctx.SelectModel(model.value);
        } else {
          ctx.location := "/projects/" + projectId;
        }
      }
    }

    /** `handlePayNow`. */
    method HandlePayNow()
      modifies ctx
      ensures ctx.location == "/payment"
      ensures ctx.selectedProject == old(ctx.selectedProject) && ctx.selectedModel == old(ctx.selectedModel)
      ensures ctx.selectedSlots == old(ctx.selectedSlots)
      ensures ctx.projectSlots == old(ctx.projectSlots) && ctx.userDocs == old(ctx.userDocs)
      ensures ctx.projects == old(ctx.projects) && ctx.investments == old(ctx.investments)
      ensures ctx.isLoading == old(ctx.isLoading) && ctx.projectModelDocs == old(ctx.projectModelDocs)
    {
      ctx.location := "/payment";
    }

    /** `handleInvestLater`. */
    method HandleInvestLater()
      modifies ctx
      ensures ctx.location == "/dashboard"
      ensures ctx.selectedProject == old(ctx.selectedProject) && ctx.selectedModel == old(ctx.selectedModel)
      ensures ctx.selectedSlots == old(ctx.selectedSlots)
      ensures ctx.projectSlots == old(ctx.projectSlots) && ctx.userDocs == old(ctx.userDocs)
      ensures ctx.projects == old(ctx.projects) && ctx.investments == old(ctx.investments)
      ensures ctx.isLoading == old(ctx.isLoading) && ctx.projectModelDocs == old(ctx.projectModelDocs)
    {
      ctx.location := "/dashboard";
    }
  }
}
