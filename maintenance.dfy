/** tasks/maintenance_tasks.py: maintenance plan, feedback review, transition and knowledge
    transfer, then the phase gate. */
module Maintenance {
  import opened SharedMemory
  import opened TaskModel
  import opened QualityGate
  import Deployment

  /** The text embedded for a missing or empty document. */
  const Missing := "Không có"

  const PhaseName := "Phase 7: Maintenance"
  const GateKey := "maintenance_plan"
  const GateSuffix := "Maintenance and Support Plan, Lessons Learned, Transition Plans, Knowledge Transfer Reports"

  const Sla := Slot("phase_2_requirements", "service_level_agreement_template", Missing, None)
  const DeploymentPlan := Slot("phase_6_deployment", "deployment_plan_and_impl_plan", Missing, None)

  const MaintenancePlan := TaskSpec("maintenance_plan", [Sla, DeploymentPlan], true,
    [WriteFile("output/7_maintenance/Maintenance_and_Support_Plan.docx", Str),
     SetKey("phase_7_maintenance", "maintenance_plan", Str)])
  const FeedbackReview := TaskSpec("feedback_review", [], true,
    [WriteFile("output/7_maintenance/Lessons_Learned.md", Str),
     SetKey("phase_7_maintenance", "lessons_learned", Str)])
  const Transition := TaskSpec("transition", [], true,
    [WriteFile("output/7_maintenance/Change_Request_Document_CCR_Template.docx", Str),
     SetKey("phase_7_maintenance", "transition_plan", Str)])
  const SupportKnowledge := TaskSpec("support_knowledge", [], true,
    [WriteFile("output/7_maintenance/Developer_Knowledge_Transfer_Report.md", Str),
     SetKey("phase_7_maintenance", "knowledge_transfer", Str)])

  const Specs := [MaintenancePlan, FeedbackReview, Transition, SupportKnowledge]

  /** No core task depends on another. */
  const CoreContexts: seq<seq<nat>> := [[], [], [], []]

  /** `create_maintenance_tasks(maintenance_agent, project_manager_agent)` against the store as it
      is when it is called. */
  function CreateMaintenanceTasks(store: Mem, manager: string): Outcome<seq<Task>>
  {
    Gated(store, Specs, CoreContexts,
      CreateQualityGateTask(store, [Pos(manager), Pos(PhaseName), Pos(GateKey), Pos(GateSuffix)]))
  }

  /** The factory never raises and returns five tasks, whatever the store holds. */
  lemma MaintenanceOk(store: Mem, manager: string)
    ensures CreateMaintenanceTasks(store, manager).Ok? && |CreateMaintenanceTasks(store, manager).value| == 5
  {
    CoreOk(store);
    FourPositional(store, manager, PhaseName, GateKey, GateSuffix);
  }

  lemma CoreOk(store: Mem)
    ensures Core(store, Specs, CoreContexts).Ok? && |Core(store, Specs, CoreContexts).value| == 4
  {
    CoreBound(store);
  }

  /** The returned list: the four core tasks, then the gate for "Phase 7: Maintenance" and
      `maintenance_plan` with every core task as its context. */
  lemma MaintenanceShape(store: Mem, manager: string)
    ensures CreateMaintenanceTasks(store, manager).Ok?
    ensures CreateMaintenanceTasks(store, manager).value
         == Wire(Core(store, Specs, CoreContexts).value, GateFor(store, PhaseName, GateKey))
  {
    CoreOk(store);
    FourPositional(store, manager, PhaseName, GateKey, GateSuffix);
  }

  /** The plan embeds the SLA and the deployment plan, each in full or 'Không có' when it is
      missing or empty; the other three embed nothing from the store. */
  lemma CoreBound(store: Mem)
    ensures var core := Core(store, Specs, CoreContexts).value;
      core[0].spec == MaintenancePlan && core[1].spec == FeedbackReview
      && core[2].spec == Transition && core[3].spec == SupportKnowledge
      && core[0].bound == [Render(Fallback(store, "phase_2_requirements", "service_level_agreement_template", Missing)),
                           Render(Fallback(store, "phase_6_deployment", "deployment_plan_and_impl_plan", Missing))]
      && core[1].bound == [] && core[2].bound == [] && core[3].bound == []
  {
    var b := BindAll(store, MaintenancePlan.slots).value;
    assert |b| == 2;
    assert b == [b[0], b[1]];
  }

  /** A missing or empty SLA or deployment plan reaches the plan's description as 'Không có'. */
  lemma PlansPlaceholder(store: Mem, manager: string)
    requires !Truthy(Lookup(store, "phase_2_requirements", "service_level_agreement_template"))
    requires !Truthy(Lookup(store, "phase_6_deployment", "deployment_plan_and_impl_plan"))
    ensures CreateMaintenanceTasks(store, manager).Ok?
    ensures CreateMaintenanceTasks(store, manager).value[0].bound == [Missing, Missing]
  {
    MaintenanceShape(store, manager);
    CoreBound(store);
  }

  /** The core tasks have no context; the gate's is all four; the order is topological. */
  lemma MaintenanceContexts(store: Mem, manager: string)
    ensures CreateMaintenanceTasks(store, manager).Ok?
    ensures var ts := CreateMaintenanceTasks(store, manager).value;
      (forall i :: 0 <= i < 4 ==> ts[i].context == []) && ts[4].context == [0, 1, 2, 3]
      && Topological(Contexts(ts))
  {
    MaintenanceShape(store, manager);
    CoreOk(store);
    CoreWired(Core(store, Specs, CoreContexts).value, GateFor(store, PhaseName, GateKey));
  }

  lemma CoreWired(core: seq<Task>, gate: Task)
    requires Contexts(core) == CoreContexts
    ensures var ts := Wire(core, gate);
      (forall i :: 0 <= i < 4 ==> ts[i].context == []) && ts[4].context == [0, 1, 2, 3]
      && Topological(Contexts(ts))
  {
    assert Topological(CoreContexts);
    WiredOver(core, gate, CoreContexts);
    assert Upto(4) == [0, 1, 2, 3];
  }

  /** The callbacks store under "phase_7_maintenance", one key each, and write under
      `output/7_maintenance/`. */
  lemma MaintenanceCallbacks(o: TaskOutput, w: World)
    ensures StoreKeys(MaintenancePlan.callback) == [("phase_7_maintenance", "maintenance_plan")]
    ensures StoreKeys(FeedbackReview.callback) == [("phase_7_maintenance", "lessons_learned")]
    ensures StoreKeys(Transition.callback) == [("phase_7_maintenance", "transition_plan")]
    ensures StoreKeys(SupportKnowledge.callback) == [("phase_7_maintenance", "knowledge_transfer")]
    ensures RunCallback(MaintenancePlan.callback, o, w).error.None?
    ensures Lookup(RunCallback(MaintenancePlan.callback, o, w).world.store, "phase_7_maintenance", GateKey)
         == Some(Text(o.text))
  {
    var cb := MaintenancePlan.callback;
    assert StrStep(cb[0]) && StrStep(cb[1]) && cb[1] in cb;
    CallbackStores(cb, o, w, "phase_7_maintenance", GateKey);
  }

  /** The plan's callback leaves the entry the gate reads, under "phase_7:_maintenance", as it was. */
  lemma PlanMissesGate(o: TaskOutput, w: World)
    ensures Lookup(RunCallback(MaintenancePlan.callback, o, w).world.store, "phase_7:_maintenance", GateKey)
         == Lookup(w.store, "phase_7:_maintenance", GateKey)
  {
    var cb := MaintenancePlan.callback;
    assert StrStep(cb[0]) && StrStep(cb[1]);
    CallbackStoresRest(cb, o, w, "phase_7:_maintenance", GateKey);
  }

  /** The deployment plan is read under the pair the deployment plan's callback stores. */
  lemma ReadsDeploymentKey()
    ensures (DeploymentPlan.phase, DeploymentPlan.key) in StoreKeys(Deployment.Plan.callback)
  {
    assert Deployment.Plan.callback[1] == SetKey(DeploymentPlan.phase, DeploymentPlan.key, Str);
  }

  /** Once the deployment plan's callback ran on a non-empty output, a maintenance factory called
      afterwards embeds that output in full. */
  lemma SeesDeploymentPlan(o: TaskOutput, w: World, manager: string)
    requires o.text != []
    ensures var store := RunCallback(Deployment.Plan.callback, o, w).world.store;
      CreateMaintenanceTasks(store, manager).Ok? && CreateMaintenanceTasks(store, manager).value[0].bound[1] == o.text
  {
    Deployment.DeploymentCallbacks(o, w);
    var store := RunCallback(Deployment.Plan.callback, o, w).world.store;
    MaintenanceShape(store, manager);
    CoreBound(store);
  }

  /** The gate embeds what is stored under ("phase_7:_maintenance", "maintenance_plan"). */
  lemma GateBound(store: Mem, manager: string)
    ensures CreateMaintenanceTasks(store, manager).Ok?
    ensures CreateMaintenanceTasks(store, manager).value[4].bound
         == [Render(Fallback(store, "phase_7:_maintenance", GateKey, QualityGate.Placeholder))]
  {
    MaintenanceShape(store, manager);
    GateNames(PhaseName);
  }

  /** The names the gate derives from "Phase 7: Maintenance". */
  lemma GateNames(p: string)
    requires p == PhaseName
    ensures Namespace(p) == "phase_7:_maintenance"
    ensures ReportDir(p) == "7" && ReportFile(p) == "validation_report_7:_maintenance.md"
    ensures ExpectedFile(p) == "validation_report_phase_7:_maintenance.md" && ExpectedFile(p) != ReportFile(p)
  {
    GateNamesParts(p, " Maintenance");
  }

  lemma GateNamesParts(p: string, rest: string)
    requires p == "Phase " + ['7'] + ":" + rest && rest == " Maintenance"
    ensures Namespace(p) == "phase_7:_maintenance"
    ensures ReportDir(p) == "7" && ReportFile(p) == "validation_report_7:_maintenance.md"
    ensures ExpectedFile(p) == "validation_report_phase_7:_maintenance.md" && ExpectedFile(p) != ReportFile(p)
  {
    RestNamespace(rest);
    Spelled();
    PhaseNamesSpelled(p, '7', rest, "_maintenance", "7:_maintenance", "phase_7:_maintenance",
      "validation_report_7:_maintenance.md", "validation_report_phase_7:_maintenance.md");
  }

  lemma Spelled()
    ensures ['7'] + ":" + "_maintenance" == "7:_maintenance"
    ensures "phase_" + "7:_maintenance" == "phase_7:_maintenance"
    ensures "validation_report_" + "7:_maintenance" + ".md" == "validation_report_7:_maintenance.md"
    ensures "validation_report_phase_" + "7:_maintenance" + ".md" == "validation_report_phase_7:_maintenance.md"
  {
  }

  lemma RestNamespace(rest: string)
    requires rest == " Maintenance"
    ensures Namespace(rest) == "_maintenance"
  {
  }
}
