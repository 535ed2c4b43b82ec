/** The legacy three-step investment wizard (src/components/InvestmentFlow.jsx): an accordion whose
    expanded panel is `activeStep`, cards that select a project or a model and move one step on,
    two number fields for slots and quantity, and the total they give. */
module InvestmentFlow {
  import opened Options
  import opened Strings

  /** The rupee value of one unit of one slot. */
  const UnitPrice := 100000

  datatype FlowProject = FlowProject(name: string, location: string, minInvestment: string, yearlyReturns: string, lockIn: string)
  datatype FlowModel = FlowModel(name: string, minInvestment: string, roi: string, lockIn: string, slots: nat)

  /** The two projects offered by the wizard. */
  function Projects(): (ps: seq<FlowProject>)
    ensures |ps| == 2 && ps[0].name == "Aura" && ps[1].name == "Subha White Waters"
    ensures forall i :: 0 <= i < |ps| ==> ps[i].location == "Bangalore"
  {
    [ FlowProject("Aura", "Bangalore", "\U{20B9}1 Lakh", "14% p.a.", "3 years"),
      FlowProject("Subha White Waters", "Bangalore", "\U{20B9}1.5 Lakh", "16% p.a.", "4 years") ]
  }

  /** The three models: Gold with 5 slots, Platinum with 3, Virtual with 10. */
  function Models(): (ms: seq<FlowModel>)
    ensures |ms| == 3
    ensures ms[0].slots == 5 && ms[1].slots == 3 && ms[2].slots == 10
    ensures forall i :: 0 <= i < |ms| ==> ms[i].minInvestment == "\U{20B9}1L"
  {
    [ FlowModel("Gold Investment Model", "\U{20B9}1L", "12%", "3 years", 5),
      FlowModel("Platinum Investment Model", "\U{20B9}1L", "14%", "4 years", 3),
      FlowModel("Virtual Investment Model", "\U{20B9}1L", "10%", "2 years", 10) ]
  }

  /** `parseInt(v, 10) || 0`: NaN and 0 become 0, any other parsed value (negative ones too) is kept. */
  function ParseOrZero(v: string): (n: int)
    ensures ParseInt(v).None? ==> n == 0
    ensures ParseInt(v).Some? ==> n == ParseInt(v).value
  {
    match ParseInt(v)
    case None => 0
    case Some(k) => if k == 0 then 0 else k
  }

  /** A field holding a printed number reads back as that number. */
  lemma ParseOrZeroOfNat(n: nat)
    ensures ParseOrZero(NatToString(n)) == n
    ensures ParseOrZero("-" + NatToString(n)) == -(n as int)
  {
    ParseIntOfNatToString(n);
  }

  /** A field whose text (after blanks and a sign) does not begin with a digit reads as 0. */
  lemma ParseOrZeroOfNonNumber(v: string)
    requires var t := SkipSpaces(v);
      var body := if t != [] && (t[0] == '-' || t[0] == '+') then t[1..] else t;
      body == [] || !IsDigit(body[0])
    ensures ParseOrZero(v) == 0
  {
    ParseIntNaN(v);
  }

  /** The displayed total, `slots * quantity * 100000`. */
  function Total(slots: int, quantity: int): int {
    slots * quantity * UnitPrice
  }

  /** The total is zero exactly when one of the fields is zero, and is positive when both are. */
  lemma TotalZeroIff(slots: int, quantity: int)
    ensures Total(slots, quantity) == 0 <==> slots == 0 || quantity == 0
    ensures slots > 0 && quantity > 0 ==> Total(slots, quantity) >= UnitPrice
  {
    if slots > 0 && quantity > 0 {
      assert slots * quantity >= 1;
    }
  }

  /** One more unit per slot adds the price of every slot. */
  lemma TotalPerQuantity(slots: int, quantity: int)
    ensures Total(slots, quantity + 1) == Total(slots, quantity) + slots * UnitPrice
  {
    assert slots * (quantity + 1) == slots * quantity + slots;
  }

  /** Typing printed counts into both fields shows their product in lakh. */
  lemma TotalOfTypedFields(s: nat, q: nat)
    ensures Total(ParseOrZero(NatToString(s)), ParseOrZero(NatToString(q))) == s * q * UnitPrice
  {
    ParseOrZeroOfNat(s);
    ParseOrZeroOfNat(q);
  }

  /** The step after a click on panel `panel`'s header: panel 0 always opens; panel 1 opens only
      with a project selected and panel 2 only with a model selected (`selected && setActiveStep(k)`). */
  function OpenedStep(step: int, panel: int, hasProject: bool, hasModel: bool): (r: int)
    requires 0 <= panel <= 2
    ensures r == panel || r == step
    ensures panel == 0 ==> r == 0
    ensures panel == 1 ==> (r == 1 <==> hasProject || step == 1)
    ensures panel == 2 ==> (r == 2 <==> hasModel || step == 2)
  {
    if panel == 0 then 0
    else if panel == 1 then (if hasProject then 1 else step)
    else if hasModel then 2 else step
  }

  /** Opening a panel a second time changes nothing more. */
  lemma OpenedStepIdempotent(step: int, panel: int, hasProject: bool, hasModel: bool)
    requires 0 <= panel <= 2
    ensures OpenedStep(OpenedStep(step, panel, hasProject, hasModel), panel, hasProject, hasModel)
      == OpenedStep(step, panel, hasProject, hasModel)
  {
  }

  class Flow {
    var activeStep: int
    var selectedProject: Option<FlowProject>
    var selectedModel: Option<FlowModel>
    var slots: int
    var quantity: int
    var showSummary: bool

    /** The initial state: step 0, nothing selected, one slot, one unit, no summary. */
    constructor ()
      ensures activeStep == 0 && selectedProject == None && selectedModel == None
      ensures slots == 1 && quantity == 1 && !showSummary
    {
      activeStep := 0;
      selectedProject := None;
      selectedModel := None;
      slots := 1;
      quantity := 1;
      showSummary := false;
    }

    /** Panel `panel` is shown expanded (`expanded={activeStep === panel}`). */
    predicate Expanded(panel: int)
      reads this
    {
      activeStep == panel
    }

    /** `handleNext`. */
    method HandleNext()
      modifies this
      ensures activeStep == old(activeStep) + 1
      ensures selectedProject == old(selectedProject) && selectedModel == old(selectedModel)
      ensures slots == old(slots) && quantity == old(quantity) && showSummary == old(showSummary)
    {
      activeStep := activeStep + 1;
    }

    /** A project card's click: select it and move on. */
    method ClickProject(project: FlowProject)
      modifies this
      ensures selectedProject == Some(project) && activeStep == old(activeStep) + 1
      ensures selectedModel == old(selectedModel)
      ensures slots == old(slots) && quantity == old(quantity) && showSummary == old(showSummary)
    {
      selectedProject := Some(project);
      HandleNext();
    }

    /** A model card's click: select it and move on. */
    method ClickModel(model: FlowModel)
      modifies this
      ensures selectedModel == Some(model) && activeStep == old(activeStep) + 1
      ensures selectedProject == old(selectedProject)
      ensures slots == old(slots) && quantity == old(quantity) && showSummary == old(showSummary)
    {
      selectedModel := Some(model);
      HandleNext();
    }

    /** A click on panel `panel`'s header. */
    method OpenPanel(panel: int)
      requires 0 <= panel <= 2
      modifies this
      ensures activeStep == OpenedStep(old(activeStep), panel, old(selectedProject).Some?, old(selectedModel).Some?)
      ensures selectedProject == old(selectedProject) && selectedModel == old(selectedModel)
      ensures slots == old(slots) && quantity == old(quantity) && showSummary == old(showSummary)
    {
      if panel == 0 {
        activeStep := 0;
      } else if panel == 1 {
        if selectedProject.Some? {
          activeStep := 1;
        }
      } else if selectedModel.Some? {
        activeStep := 2;
      }
    }

    /** The slots field's change handler. */
    method ChangeSlots(v: string)
      modifies this
      ensures slots == ParseOrZero(v)
      ensures activeStep == old(activeStep) && selectedProject == old(selectedProject) && selectedModel == old(selectedModel)
      ensures quantity == old(quantity) && showSummary == old(showSummary)
    {
      slots := ParseOrZero(v);
    }

    /** The quantity field's change handler. */
    method ChangeQuantity(v: string)
      modifies this
      ensures quantity == ParseOrZero(v)
      ensures activeStep == old(activeStep) && selectedProject == old(selectedProject) && selectedModel == old(selectedModel)
      ensures slots == old(slots) && showSummary == old(showSummary)
    {
      quantity := ParseOrZero(v);
    }

    /** "Proceed To Payment": show the summary. */
    method ProceedToPayment()
      modifies this
      ensures showSummary
      ensures activeStep == old(activeStep) && selectedProject == old(selectedProject) && selectedModel == old(selectedModel)
      ensures slots == old(slots) && quantity == old(quantity)
    {
      showSummary := true;
    }

    /** The total shown both above the button and in the summary. */
    function DisplayedTotal(): (t: int)
      reads this
      ensures slots >= 0 && quantity >= 0 ==> t >= 0
    {
      Total(slots, quantity)
    }
  }

  /** Picking a project and then a model from the start leaves the wizard on its last panel with
      both shown in the summary. */
  method SelectBoth(project: FlowProject, model: FlowModel) returns (flow: Flow)
    ensures flow.activeStep == 2 && flow.Expanded(2)
    ensures flow.selectedProject == Some(project) && flow.selectedModel == Some(model)
    ensures flow.DisplayedTotal() == UnitPrice && !flow.showSummary
  {
    flow := new Flow();
    flow.ClickProject(project);
    flow.ClickModel(model);
  }
}
