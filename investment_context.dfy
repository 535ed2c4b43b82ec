/** The client's investment state (client/src/context/InvestmentContext.tsx): the current
    selection of project, model and slot count, and `createInvestment`, which checks the project's
    slots, adds the investment to the user's document and writes the project's new slot count.

    Firestore is replaced by two maps: `projectSlots` holds the `availableSlots` field of each
    existing project document, and `userDocs` the `investments` array of each existing user
    document. `projectModelDocs` holds the `investmentModels` field of the project documents. */
module InvestmentContext {
  import opened Options
  import opened ClientTypes

  const SubhaFarmsCover := "subhaFarmsCover.jpg"

  /** The fallback projects shown in bypass mode or when the project snapshot fails. */
  function MockProjects(): seq<Project> {
    [ Project("subha-farms", "Subha Farms", "Bilanganakuppe, Karnataka 562112", 100000, 14.0, 3, 18, SubhaFarmsCover),
      Project("subha-white-waters", "Subha White Waters", "Electronic City", 150000, 16.0, 4, 12,
              "unsplash:photo-1486406146926-c627a92ad1ab") ]
  }

  /** The record `createInvestment` builds: its amount is the model's minimum investment times
      the slot count, its return and lock-in come from the model, and it starts out active. The id
      is the current time in milliseconds. */
  function NewInvestmentRecord(project: Project, model: InvestmentModel, slots: int, uid: string,
                               now: Timestamp, maturityDate: Timestamp): (inv: Investment)
    ensures inv.amount == model.minInvestment * slots && inv.slots == slots
    ensures inv.expectedReturns == model.roi && inv.lockInPeriod == model.lockInPeriod
    ensures inv.status == "active" && inv.userId == uid && inv.id == now && inv.createdAt == now
    ensures inv.projectId == project.id && inv.projectName == project.name
    ensures inv.modelId == model.id && inv.modelName == model.name && inv.maturityDate == maturityDate
  {
    Investment(now, uid, project.id, project.name, model.id, model.name, slots,
               model.minInvestment * slots, model.roi, model.lockInPeriod, maturityDate, now, "active")
  }

  /** Firestore's `arrayUnion(x)`: `x` is appended unless an equal element is already there. */
  function ArrayUnion(list: seq<Investment>, x: Investment): (r: seq<Investment>)
    ensures x in r
    ensures forall y :: y in list ==> y in r
    ensures forall y :: y in r ==> y in list || y == x
    ensures x in list ==> r == list
    ensures x !in list ==> |r| == |list| + 1
  {
    if x in list then list else list + [x]
  }

  /** Adding the same investment twice leaves the list as it was after the first time. */
  lemma ArrayUnionIdempotent(list: seq<Investment>, x: Investment)
    ensures ArrayUnion(ArrayUnion(list, x), x) == ArrayUnion(list, x)
  {
  }

  class InvestmentState {
    /** Whether the auth context runs in bypass mode (fixed for the provider's lifetime). */
    const isBypassMode: bool

    var projects: seq<Project>
    var investments: seq<Investment>
    var selectedProject: Option<Project>
    var selectedModel: Option<InvestmentModel>
    var selectedSlots: int
    var isLoading: bool
    /** The route the provider last navigated to. */
    var location: string

    var projectSlots: map<string, int>
    var userDocs: map<string, seq<Investment>>
    var projectModelDocs: map<string, seq<InvestmentModel>>

    /** The provider's initial state over the given documents. */
    constructor (isBypassMode: bool, location: string, projectSlots: map<string, int>,
                 userDocs: map<string, seq<Investment>>, projectModelDocs: map<string, seq<InvestmentModel>>)
      ensures this.isBypassMode == isBypassMode && this.location == location
      ensures projects == [] && investments == []
      ensures selectedProject == None && selectedModel == None && selectedSlots == 1 && isLoading
      ensures this.projectSlots == projectSlots && this.userDocs == userDocs
      ensures this.projectModelDocs == projectModelDocs
    {
      this.isBypassMode := isBypassMode;
      this.location := location;
      projects, investments := [], [];
      selectedProject, selectedModel, selectedSlots, isLoading := None, None, 1, true;
      this.projectSlots, this.userDocs, this.projectModelDocs := projectSlots, userDocs, projectModelDocs;
    }

    /** `totalAmount`: the selected model's minimum investment times the slot count, or 0. */
    function TotalAmount(): (r: int)
      reads this
      ensures selectedModel.None? ==> r == 0
      ensures selectedModel.Some? ==> r == selectedModel.value.minInvestment * selectedSlots
    {
      if selectedModel.Some? then selectedModel.value.minInvestment * selectedSlots else 0
    }

    method SelectProject(project: Project)
      modifies this
      ensures selectedProject == Some(project)
      ensures selectedModel == old(selectedModel) && selectedSlots == old(selectedSlots)
      ensures projects == old(projects) && investments == old(investments) && isLoading == old(isLoading)
      ensures location == old(location)
      ensures projectSlots == old(projectSlots) && userDocs == old(userDocs) && projectModelDocs == old(projectModelDocs)
    {
      selectedProject := Some(project);
    }

    method SelectModel(model: InvestmentModel)
      modifies this
      ensures selectedModel == Some(model)
      ensures selectedProject == old(selectedProject) && selectedSlots == old(selectedSlots)
      ensures projects == old(projects) && investments == old(investments) && isLoading == old(isLoading)
      ensures location == old(location)
      ensures projectSlots == old(projectSlots) && userDocs == old(userDocs) && projectModelDocs == old(projectModelDocs)
    {
      selectedModel := Some(model);
    }

    /** Any slot count is taken as it is; the context does not bound it. */
    method SetSlots(slots: int)
      modifies this
      ensures selectedSlots == slots
      ensures selectedProject == old(selectedProject) && selectedModel == old(selectedModel)
      ensures projects == old(projects) && investments == old(investments) && isLoading == old(isLoading)
      ensures location == old(location)
      ensures projectSlots == old(projectSlots) && userDocs == old(userDocs) && projectModelDocs == old(projectModelDocs)
    {
      selectedSlots := slots;
    }

    method ResetSelection()
      modifies this
      ensures selectedProject == None && selectedModel == None && selectedSlots == 1
      ensures TotalAmount() == 0
      ensures projects == old(projects) && investments == old(investments) && isLoading == old(isLoading)
      ensures location == old(location)
      ensures projectSlots == old(projectSlots) && userDocs == old(userDocs) && projectModelDocs == old(projectModelDocs)
    {
      selectedProject := None;
      selectedModel := None;
      selectedSlots := 1;
    }

    /** The project effect: the mock projects in bypass mode or when the snapshot fails
        (`snapshot == None`), otherwise the snapshot's projects; loading ends either way. */
    method LoadProjects(snapshot: Option<seq<Project>>)
      modifies this
      ensures isBypassMode || snapshot.None? ==> projects == MockProjects()
      ensures !isBypassMode && snapshot.Some? ==> projects == snapshot.value
      ensures !isLoading
      ensures selectedProject == old(selectedProject) && selectedModel == old(selectedModel)
      ensures selectedSlots == old(selectedSlots) && investments == old(investments)
      ensures location == old(location)
      ensures projectSlots == old(projectSlots) && userDocs == old(userDocs) && projectModelDocs == old(projectModelDocs)
    {
      if isBypassMode {
        projects := MockProjects();
        isLoading := false;
        return;
      }
      if snapshot.Some? {
        projects := snapshot.value;
      } else {
        projects := MockProjects();
      }
      isLoading := false;
    }

    /** The investments effect: nothing without a uid; cleared in bypass mode or on a snapshot error;
        otherwise the user document's list when the document exists. */
    method LoadInvestments(uid: Option<string>, snapshotFailed: bool)
      modifies this
      ensures !Present(uid) ==> investments == old(investments)
      ensures Present(uid) && (isBypassMode || snapshotFailed) ==> investments == []
      ensures Present(uid) && !isBypassMode && !snapshotFailed ==>
        investments == if uid.value in userDocs then userDocs[uid.value] else old(investments)
      ensures selectedProject == old(selectedProject) && selectedModel == old(selectedModel)
      ensures selectedSlots == old(selectedSlots) && projects == old(projects) && isLoading == old(isLoading)
      ensures location == old(location)
      ensures projectSlots == old(projectSlots) && userDocs == old(userDocs) && projectModelDocs == old(projectModelDocs)
    {
      if !Present(uid) {
        return;
      }
      if isBypassMode {
        investments := [];
        return;
      }
      if snapshotFailed {
        investments := [];
      } else if uid.value in userDocs {
        investments := userDocs[uid.value];
      }
    }

    /** `getModelsByProject`: none in bypass mode, otherwise the project document's models (none
        when the document does not exist). */
    function ModelsOfProject(projectId: string): (models: seq<InvestmentModel>)
      reads this
      ensures isBypassMode ==> models == []
      ensures !isBypassMode && projectId in projectModelDocs ==> models == projectModelDocs[projectId]
      ensures projectId !in projectModelDocs ==> models == []
    {
      if isBypassMode then []
      else if projectId in projectModelDocs then projectModelDocs[projectId]
      else []
    }

    /** The effect run when a project is selected: the project's first model, if it has any,
        becomes the selected model. */
    method LoadModelsForSelection()
      modifies this
      ensures
        if old(selectedProject).Some? && |ModelsOfProject(old(selectedProject).value.id)| > 0 then
          selectedModel == Some(ModelsOfProject(old(selectedProject).value.id)[0])
        else selectedModel == old(selectedModel)
      ensures selectedProject == old(selectedProject) && selectedSlots == old(selectedSlots)
      ensures projects == old(projects) && investments == old(investments) && isLoading == old(isLoading)
      ensures location == old(location)
      ensures projectSlots == old(projectSlots) && userDocs == old(userDocs) && projectModelDocs == old(projectModelDocs)
    {
      if selectedProject.Some? {
        var models := ModelsOfProject(selectedProject.value.id);
        if |models| > 0 {
          selectedModel := Some(models[0]);
        }
      }
    }

    /** Whether `createInvestment` gets past its first guard: a project, a model and a uid. */
    predicate HasSelection(uid: Option<string>)
      reads this
    {
      selectedProject.Some? && selectedModel.Some? && Present(uid)
    }

    /** `createInvestment`. Without a selection or uid nothing happens. A missing project document,
        too few slots in it, or a missing user document (`updateDoc` fails on it) end in `false`
        with nothing written. Otherwise the investment is added to the user's document, the project
        document gets `currentSlots - selectedSlots`, the selection is reset and the provider
        navigates to the dashboard. `now` is the clock; `maturityDate` is the date
        `lockInPeriod` years from now. */
    method CreateInvestment(uid: Option<string>, now: Timestamp, maturityDate: Timestamp) returns (ok: bool)
      modifies this
      ensures !old(HasSelection(uid)) ==> !ok && unchanged(this)
      ensures old(HasSelection(uid)) ==>
        var pid := old(selectedProject).value.id;
        var success := pid in old(projectSlots) && old(projectSlots)[pid] >= old(selectedSlots)
                       && uid.value in old(userDocs);
        && !isLoading
        && (ok <==> success)
        && (!success ==>
              && projectSlots == old(projectSlots) && userDocs == old(userDocs)
              && selectedProject == old(selectedProject) && selectedModel == old(selectedModel)
              && selectedSlots == old(selectedSlots) && location == old(location))
        && (success ==>
              var inv := NewInvestmentRecord(old(selectedProject).value, old(selectedModel).value,
                                             old(selectedSlots), uid.value, now, maturityDate);
              && userDocs == old(userDocs)[uid.value := ArrayUnion(old(userDocs)[uid.value], inv)]
              && projectSlots == old(projectSlots)[pid := old(projectSlots)[pid] - old(selectedSlots)]
              && selectedProject == None && selectedModel == None && selectedSlots == 1
              && location == "/dashboard")
      ensures projects == old(projects) && investments == old(investments)
      ensures projectModelDocs == old(projectModelDocs)
    {
      if !HasSelection(uid) {
        return false;
      }
      isLoading := true;
      var project := selectedProject.value;
      var model := selectedModel.value;
      if project.id !in projectSlots {
        isLoading := false;
        return false;
      }
      var currentSlots := projectSlots[project.id];
      if currentSlots < selectedSlots {
        isLoading := false;
        return false;
      }
      var newInvestment := NewInvestmentRecord(project, model, selectedSlots, uid.value, now, maturityDate);
      if uid.value !in userDocs {
        isLoading := false;
        return false;
      }
      userDocs := userDocs[uid.value := ArrayUnion(userDocs[uid.value], newInvestment)];
      projectSlots := projectSlots[project.id := currentSlots - selectedSlots];
      ResetSelection();
      location := "/dashboard";
      isLoading := false;
      ok := true;
    }
  }
}
