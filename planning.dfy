/** tasks/planning_tasks.py: the eight planning factories, each a fixed list of tasks whose
    callbacks go through `_save_task_output`. */
module Planning {
  import opened SharedMemory
  import opened TaskModel
  import Deployment

  /** A planning task: its output is saved under ("phase_1", key) and to `<folder>/<key>.md`.
      `described` is false for the two tasks whose description is passed as `ddescription`. */
  function Saved(key: string, folder: string, described: bool): TaskSpec {
    TaskSpec(key, [], described, [SaveOutput("phase_1", key, folder, key + ".md")])
  }

  /** The tasks of one factory, one per key, all saved under `folder`; the task whose key is
      `undescribed` (if any) has its description misspelled. */
  function Group(keys: seq<string>, folder: string, undescribed: string): (r: seq<TaskSpec>)
    ensures |r| == |keys| && forall i :: 0 <= i < |keys| ==> r[i] == Saved(keys[i], folder, keys[i] != undescribed)
  {
    seq(|keys|, i requires 0 <= i < |keys| => Saved(keys[i], folder, keys[i] != undescribed))
  }

  /** The keys each factory's tasks save under, in the order they are returned. */
  const CostingKeys := ["cost_estimation_worksheet", "development_estimation", "capex_opex_comparison"]
  const ApprovalKeys := ["project_approval_document"]
  const OrgChartKeys := ["org_chart_specification", "raci_matrix_specification", "approvals_matrix_specification"]
  const PmoKeys := ["pmo_checklist", "cobit_checklist"]
  const ProcurementKeys := ["procurement_plan"]
  const SowKeys := ["statement_of_work"]
  const RiskPlanKeys := ["risk_information_form_specification", "risk_analysis_plan", "risk_management_plan"]
  const WbsKeys := ["wbs_specification", "wbs_dictionary_specification", "wbs_resource_template_specification",
                    "project_management_plan"]

  const Costing := Group(CostingKeys, "1_costing", "capex_opex_comparison")
  const Approval := Group(ApprovalKeys, "1_approval", "")
  const OrgChart := Group(OrgChartKeys, "1_org_chart", "")
  const Pmo := Group(PmoKeys, "1_pmo", "")
  const Procurement := Group(ProcurementKeys, "1_procurement", "")
  const Sow := Group(SowKeys, "1_sow", "")
  const RiskPlan := Group(RiskPlanKeys, "1_riskplan", "")
  const WbsPlan := Group(WbsKeys, "1_wbs", "wbs_specification")

  /** Constructing the tasks of one factory in order. The factory reads the seed request
      from the store but no description interpolates it, and no task has a context. When `strict` holds, a task without a `description` is refused by the Task
      model with a validation error, and the whole call raises. */
  function Construct(specs: seq<TaskSpec>, strict: bool): (r: Outcome<seq<Task>>)
    ensures r.Raise? <==> strict && exists i :: 0 <= i < |specs| && !specs[i].described
    ensures r.Raise? ==> r.error == ValidationError
    ensures r.Ok? ==> |r.value| == |specs| && forall i :: 0 <= i < |specs| ==> r.value[i] == Task(specs[i], [], [])
    decreases |specs|
  {
    if specs == [] then Ok([])
    else if strict && !specs[0].described then Raise(ValidationError)
    else
      match Construct(specs[1..], strict)
      case Raise(e) => Raise(e)
      case Ok(ts) =>
        assert forall i :: 0 < i < |specs| ==> specs[i] == specs[1..][i - 1];
        Ok([Task(specs[0], [], [])] + ts)
  }

  function CreateCostingTasks(strict: bool): Outcome<seq<Task>> { Construct(Costing, strict) }
  function CreateApprovalTasks(strict: bool): Outcome<seq<Task>> { Construct(Approval, strict) }
  function CreateOrgChartTasks(strict: bool): Outcome<seq<Task>> { Construct(OrgChart, strict) }
  function CreatePmoTasks(strict: bool): Outcome<seq<Task>> { Construct(Pmo, strict) }
  function CreateProcurementTasks(strict: bool): Outcome<seq<Task>> { Construct(Procurement, strict) }
  function CreateSowTasks(strict: bool): Outcome<seq<Task>> { Construct(Sow, strict) }
  function CreateRiskplanTasks(strict: bool): Outcome<seq<Task>> { Construct(RiskPlan, strict) }
  function CreateWbsTasks(strict: bool): Outcome<seq<Task>> { Construct(WbsPlan, strict) }

  /** The costing and WBS factories raise under a strict Task model, because of the
      `capex_opex_comparison` and `wbs_specification` tasks; otherwise they return three and
      four tasks. */
  lemma MisspelledFactories(strict: bool)
    ensures strict ==> CreateCostingTasks(strict) == Raise(ValidationError)
    ensures strict ==> CreateWbsTasks(strict) == Raise(ValidationError)
    ensures !strict ==> CreateCostingTasks(strict).Ok? && |CreateCostingTasks(strict).value| == 3
    ensures !strict ==> CreateWbsTasks(strict).Ok? && |CreateWbsTasks(strict).value| == 4
  {
    assert !Costing[2].described && !WbsPlan[0].described;
  }

  /** The other six factories describe every task, so they return their tasks in either case:
      one, three, two, one, one and three tasks. */
  lemma WellFormedFactories(strict: bool)
    ensures CreateApprovalTasks(strict).Ok? && |CreateApprovalTasks(strict).value| == 1
    ensures CreateOrgChartTasks(strict).Ok? && |CreateOrgChartTasks(strict).value| == 3
    ensures CreatePmoTasks(strict).Ok? && |CreatePmoTasks(strict).value| == 2
    ensures CreateProcurementTasks(strict).Ok? && |CreateProcurementTasks(strict).value| == 1
    ensures CreateSowTasks(strict).Ok? && |CreateSowTasks(strict).value| == 1
    ensures CreateRiskplanTasks(strict).Ok? && |CreateRiskplanTasks(strict).value| == 3
  {
    AllDescribed(Approval, strict);
    AllDescribed(OrgChart, strict);
    AllDescribed(Pmo, strict);
    AllDescribed(Procurement, strict);
    AllDescribed(Sow, strict);
    AllDescribed(RiskPlan, strict);
  }

  lemma AllDescribed(specs: seq<TaskSpec>, strict: bool)
    requires forall i :: 0 <= i < |specs| ==> specs[i].described
    ensures Construct(specs, strict).Ok? && |Construct(specs, strict).value| == |specs|
  {
  }

  /** The keys of all eight factories, in factory order. */
  const PlannedKeys := CostingKeys + ApprovalKeys + OrgChartKeys + PmoKeys + ProcurementKeys + SowKeys
                       + RiskPlanKeys + WbsKeys

  /** What a planning task's callback stores and writes: its own key under "phase_1", and
      `<folder>/<key>.md`. */
  lemma SavedWhere(key: string, folder: string, described: bool)
    ensures StoreKeys(Saved(key, folder, described).callback) == [("phase_1", key)]
    ensures FilePaths(Saved(key, folder, described).callback) == [folder + "/" + (key + ".md")]
  {
  }

  /** The eighteen planning keys are pairwise distinct, so no planning output overwrites
      another's entry in the store. */
  lemma KeysDistinct()
    ensures |PlannedKeys| == 18
    ensures forall i, j :: 0 <= i < j < |PlannedKeys| ==> PlannedKeys[i] != PlannedKeys[j]
  {
    var a := CostingKeys + ApprovalKeys + OrgChartKeys;
    var b := PmoKeys + ProcurementKeys + SowKeys + RiskPlanKeys;
    assert PlannedKeys == (a + b) + WbsKeys;
    FirstKeys();
    MiddleKeys();
    LastKeys();
    FirstApartMiddle();
    FirstApartLast();
    MiddleApartLast();
    DistinctJoin(a, b);
    ApartJoin(a, b, WbsKeys);
    DistinctJoin(a + b, WbsKeys);
  }

  predicate AllDistinct(s: seq<string>) {
    forall i, j :: 0 <= i < j < |s| ==> s[i] != s[j]
  }

  predicate Apart(a: seq<string>, b: seq<string>) {
    forall i, j :: 0 <= i < |a| && 0 <= j < |b| ==> a[i] != b[j]
  }

  lemma DistinctJoin(a: seq<string>, b: seq<string>)
    requires AllDistinct(a) && AllDistinct(b) && Apart(a, b)
    ensures AllDistinct(a + b)
  {
    var s := a + b;
    forall i, j | 0 <= i < j < |s| ensures s[i] != s[j] {
      if j < |a| {
        assert s[i] == a[i] && s[j] == a[j];
      } else if i < |a| {
        assert s[i] == a[i] && s[j] == b[j - |a|];
      } else {
        assert s[i] == b[i - |a|] && s[j] == b[j - |a|];
      }
    }
  }

  lemma ApartJoin(a: seq<string>, b: seq<string>, c: seq<string>)
    requires Apart(a, c) && Apart(b, c)
    ensures Apart(a + b, c)
  {
    var s := a + b;
    forall i, j | 0 <= i < |s| && 0 <= j < |c| ensures s[i] != c[j] {
      if i < |a| {
        assert s[i] == a[i];
      } else {
        assert s[i] == b[i - |a|];
      }
    }
  }

  lemma FirstKeys()
    ensures AllDistinct(CostingKeys + ApprovalKeys + OrgChartKeys)
  {
    assert CostingKeys + ApprovalKeys + OrgChartKeys == ["cost_estimation_worksheet", "development_estimation",
      "capex_opex_comparison", "project_approval_document", "org_chart_specification",
      "raci_matrix_specification", "approvals_matrix_specification"];
  }

  lemma MiddleKeys()
    ensures AllDistinct(PmoKeys + ProcurementKeys + SowKeys + RiskPlanKeys)
  {
    assert PmoKeys + ProcurementKeys + SowKeys + RiskPlanKeys == ["pmo_checklist", "cobit_checklist",
      "procurement_plan", "statement_of_work", "risk_information_form_specification", "risk_analysis_plan",
      "risk_management_plan"];
  }

  lemma LastKeys()
    ensures AllDistinct(WbsKeys)
  {
  }

  lemma FirstApartMiddle()
    ensures Apart(CostingKeys + ApprovalKeys + OrgChartKeys, PmoKeys + ProcurementKeys + SowKeys + RiskPlanKeys)
  {
    FirstKeys();
    MiddleKeys();
  }

  lemma FirstApartLast()
    ensures Apart(CostingKeys + ApprovalKeys + OrgChartKeys, WbsKeys)
  {
    FirstKeys();
  }

  lemma MiddleApartLast()
    ensures Apart(PmoKeys + ProcurementKeys + SowKeys + RiskPlanKeys, WbsKeys)
  {
    MiddleKeys();
  }

  /** `os.path.dirname(folder + "/" + filename)` is `folder` when `filename` has no slash. */
  lemma {:induction false} DirnameOfJoin(folder: string, filename: string)
    requires '/' !in filename
    ensures Dirname(folder + "/" + filename) == folder
    decreases |filename|
  {
    var path := folder + "/" + filename;
    if filename == [] {
      assert path[|path| - 1] == '/' && path[..|path| - 1] == folder;
    } else {
      var shorter := filename[..|filename| - 1];
      assert path[|path| - 1] == filename[|filename| - 1];
      assert path[..|path| - 1] == folder + "/" + shorter;
      assert forall c :: c in shorter ==> c in filename;
      DirnameOfJoin(folder, shorter);
    }
  }

  /** `_save_task_output`: `str(output.raw_output)` is written to `<folder>/<filename>` (the
      folder and its missing parents created when it is missing) and stored under (phase, key), the same text in both places;
      an output without `raw_output` raises AttributeError before anything is written or stored. */
  lemma SaveOutputEffect(phase: string, key: string, folder: string, filename: string, o: TaskOutput, w: World)
    requires '/' !in filename && folder != []
    ensures o.rawOutput.None? ==> RunCallback([SaveOutput(phase, key, folder, filename)], o, w) == Run(w, Some(AttributeError))
    ensures o.rawOutput.Some? ==>
      var t := o.rawOutput.value;
      RunCallback([SaveOutput(phase, key, folder, filename)], o, w)
        == Run(World(Put(w.store, phase, key, Text(t)),
                     Disk(w.disk.files[folder + "/" + filename := t],
                          if folder in w.disk.dirs then w.disk.dirs else w.disk.dirs + DirChain(folder))), None)
  {
    DirnameOfJoin(folder, filename);
    var cb := [SaveOutput(phase, key, folder, filename)];
    assert cb[1..] == [];
    if o.rawOutput.Some? {
      var path := folder + "/" + filename;
      var d := WriteOutput(w.disk, path, Text(o.rawOutput.value)).0;
      assert d.files == w.disk.files[path := o.rawOutput.value];
    }
  }

  /** A planning callback stores under its own key the very text it writes to `<folder>/<key>.md`. */
  lemma SavedOutput(key: string, folder: string, described: bool, o: TaskOutput, w: World)
    requires o.rawOutput.Some?
    ensures var r := RunCallback(Saved(key, folder, described).callback, o, w);
      r.error.None? && Lookup(r.world.store, "phase_1", key) == Some(Text(o.rawOutput.value))
      && folder + "/" + (key + ".md") in r.world.disk.files
      && r.world.disk.files[folder + "/" + (key + ".md")] == o.rawOutput.value
  {
    assert Saved(key, folder, described).callback[1..] == [];
  }

  /** Deployment reads the project plan under ("phase_1_planning", "project_plan"), and the
      requirement tasks read the vision, charter and CONOPS under ("phase_1", ...); no planning
      task stores under any of these pairs. */
  lemma PlanningFeedsNoReader(key: string, folder: string, described: bool)
    requires key in PlannedKeys
    ensures (Deployment.ProjectPlan.phase, Deployment.ProjectPlan.key) !in StoreKeys(Saved(key, folder, described).callback)
    ensures ("phase_1", "vision_document") !in StoreKeys(Saved(key, folder, described).callback)
    ensures ("phase_1", "project_charter") !in StoreKeys(Saved(key, folder, described).callback)
    ensures ("phase_1", "conops_document") !in StoreKeys(Saved(key, folder, described).callback)
  {
    SavedWhere(key, folder, described);
    KeysDistinct();
    assert key !in {"vision_document", "project_charter", "conops_document"};
  }
}
