/** tasks/deployment_tasks.py: deployment plan, handover and monitoring, then the phase gate;
    and the stray name on the module's first line. */
module Deployment {
  import opened SharedMemory
  import opened TaskModel
  import opened QualityGate

  /** One module-level statement, reduced to what it does to the module's names:
      evaluate a bare name, or bind one (an `import` or a `def`). */
  datatype Statement = Load(name: string) | Define(name: string)

  /** Running module-level statements in order from the names `names` already bound;
      loading an unbound name raises NameError and stops the module there. */
  function Exec(body: seq<Statement>, names: set<string>): (r: Outcome<set<string>>)
    ensures r.Raise? ==> r.error == NameError
    ensures r.Ok? ==> names <= r.value
    decreases |body|
  {
    if body == [] then Ok(names)
    else match body[0]
      case Load(n) => if n in names then Exec(body[1..], names) else Raise(NameError)
      case Define(n) => Exec(body[1..], names + {n})
  }

  /** If a statement loads a name that nothing before it binds, the module raises NameError. */
  lemma {:induction false} UnboundLoadRaises(body: seq<Statement>, names: set<string>, j: nat)
    requires j < |body| && body[j] == Load(body[j].name) && body[j].name !in names
    requires forall i :: 0 <= i < j ==> body[i] != Define(body[j].name)
    ensures Exec(body, names) == Raise(NameError)
    decreases j
  {
    if j > 0 {
      var names' := if body[0].Define? then names + {body[0].name} else names;
      assert forall i :: 0 <= i < j - 1 ==> body[1..][i] == body[i + 1];
      if body[0].Load? && body[0].name !in names {
      } else {
        UnboundLoadRaises(body[1..], names', j - 1);
      }
    }
  }

  /** The module body: line 1 evaluates `ds`, then come the imports and the factory. */
  const ModuleBody := [Load("ds"), Define("Task"), Define("write_output"), Define("shared_memory"),
    Define("create_quality_gate_task"), Define("create_deployment_tasks")]

  /** Importing the module from a namespace of builtins in which `ds` is not bound raises
      NameError, so no importer ever obtains `create_deployment_tasks`. */
  lemma ImportRaises(builtins: set<string>)
    requires "ds" !in builtins
    ensures Exec(ModuleBody, builtins) == Raise(NameError)
  {
    UnboundLoadRaises(ModuleBody, builtins, 0);
  }

  /** The text embedded for a missing or empty plan. */
  const Missing := "Không có"

  const PhaseName := "Phase 6: Deployment"
  const GateKey := "deployment_plan_and_impl_plan"
  const GateSuffix := "Deployment Plan, Production Implementation Plan, Handover Documents, Monitoring Guide"

  const ProjectPlan := Slot("phase_1_planning", "project_plan", Missing, None)
  const BuildPlan := Slot("phase_4_development", "build_and_deployment_plan", Missing, None)

  const Plan := TaskSpec("deployment_plan", [ProjectPlan, BuildPlan], true,
    [WriteFile("output/6_deployment/Deployment_Plan.md", Str), SetKey("phase_6_deployment", GateKey, Str)])
  const Handover := TaskSpec("handover", [], true,
    [WriteFile("output/6_deployment/Production_Turnover_Approval_Form.docx", Str),
     SetKey("phase_6_deployment", "handover_documents", Str)])
  const Monitoring := TaskSpec("monitoring", [], true,
    [WriteFile("output/6_deployment/Monitoring_and_Alerting_Setup_Guide.md", Str),
     SetKey("phase_6_deployment", "monitoring_guide", Str)])

  const Specs := [Plan, Handover, Monitoring]

  /** Handover and monitoring each depend on the plan only. */
  const CoreContexts: seq<seq<nat>> := [[], [0], [0]]

  /** `create_deployment_tasks(deployment_agent, project_manager_agent)` against the store as it
      is when it is called, were the module importable. */
  function CreateDeploymentTasks(store: Mem, manager: string): Outcome<seq<Task>>
  {
    Gated(store, Specs, CoreContexts,
      CreateQualityGateTask(store, [Pos(manager), Pos(PhaseName), Pos(GateKey), Pos(GateSuffix)]))
  }

  /** The factory never raises and returns four tasks, whatever the store holds. */
  lemma DeploymentOk(store: Mem, manager: string)
    ensures CreateDeploymentTasks(store, manager).Ok? && |CreateDeploymentTasks(store, manager).value| == 4
  {
    CoreOk(store);
    FourPositional(store, manager, PhaseName, GateKey, GateSuffix);
  }

  lemma CoreOk(store: Mem)
    ensures Core(store, Specs, CoreContexts).Ok? && |Core(store, Specs, CoreContexts).value| == 3
  {
    CoreBound(store);
  }

  /** The returned list: the three core tasks with their contexts, then the gate for
      "Phase 6: Deployment" and the plan's key with every core task as its context. */
  lemma DeploymentShape(store: Mem, manager: string)
    ensures CreateDeploymentTasks(store, manager).Ok?
    ensures CreateDeploymentTasks(store, manager).value
         == Wire(Core(store, Specs, CoreContexts).value, GateFor(store, PhaseName, GateKey))
  {
    CoreOk(store);
    FourPositional(store, manager, PhaseName, GateKey, GateSuffix);
  }

  /** The plan embeds the project plan and the build plan, each in full or 'Không có' when it is
      missing or empty; handover and monitoring embed nothing from the store. */
  lemma CoreBound(store: Mem)
    ensures var core := Core(store, Specs, CoreContexts).value;
      core[0].spec == Plan && core[1].spec == Handover && core[2].spec == Monitoring
      && core[0].bound == [Render(Fallback(store, "phase_1_planning", "project_plan", Missing)),
                           Render(Fallback(store, "phase_4_development", "build_and_deployment_plan", Missing))]
      && core[1].bound == [] && core[2].bound == []
  {
    var b := BindAll(store, Plan.slots).value;
    assert |b| == 2;
    assert b == [b[0], b[1]];
  }

  /** A missing or empty project plan or build plan reaches the plan's description as 'Không có'. */
  lemma PlansPlaceholder(store: Mem, manager: string)
    requires !Truthy(Lookup(store, "phase_1_planning", "project_plan"))
    requires !Truthy(Lookup(store, "phase_4_development", "build_and_deployment_plan"))
    ensures CreateDeploymentTasks(store, manager).Ok?
    ensures CreateDeploymentTasks(store, manager).value[0].bound == [Missing, Missing]
  {
    DeploymentShape(store, manager);
    CoreBound(store);
  }

  /** Handover and monitoring depend on the plan only, the gate on all three; the returned
      order is topological. */
  lemma DeploymentContexts(store: Mem, manager: string)
    ensures CreateDeploymentTasks(store, manager).Ok?
    ensures var ts := CreateDeploymentTasks(store, manager).value;
      ts[0].context == [] && ts[1].context == [0] && ts[2].context == [0] && ts[3].context == [0, 1, 2]
      && Topological(Contexts(ts))
  {
    DeploymentShape(store, manager);
    CoreOk(store);
    CoreWired(Core(store, Specs, CoreContexts).value, GateFor(store, PhaseName, GateKey));
  }

  lemma CoreWired(core: seq<Task>, gate: Task)
    requires Contexts(core) == CoreContexts
    ensures var ts := Wire(core, gate);
      ts[0].context == [] && ts[1].context == [0] && ts[2].context == [0] && ts[3].context == [0, 1, 2]
      && Topological(Contexts(ts))
  {
    assert Topological(CoreContexts);
    WiredOver(core, gate, CoreContexts);
    assert Upto(3) == [0, 1, 2];
  }

  /** The callbacks store under "phase_6_deployment", one key each; the plan's callback leaves
      its text under the key the gate is given. */
  lemma DeploymentCallbacks(o: TaskOutput, w: World)
    ensures StoreKeys(Plan.callback) == [("phase_6_deployment", "deployment_plan_and_impl_plan")]
    ensures StoreKeys(Handover.callback) == [("phase_6_deployment", "handover_documents")]
    ensures StoreKeys(Monitoring.callback) == [("phase_6_deployment", "monitoring_guide")]
    ensures RunCallback(Plan.callback, o, w).error.None?
    ensures Lookup(RunCallback(Plan.callback, o, w).world.store, "phase_6_deployment", GateKey) == Some(Text(o.text))
  {
    var cb := Plan.callback;
    assert StrStep(cb[0]) && StrStep(cb[1]) && cb[1] in cb;
    CallbackStores(cb, o, w, "phase_6_deployment", GateKey);
  }

  /** The plan's callback stores under "phase_6_deployment" and leaves the entry the gate reads,
      under "phase_6:_deployment", as it was. */
  lemma PlanMissesGate(o: TaskOutput, w: World)
    ensures Lookup(RunCallback(Plan.callback, o, w).world.store, "phase_6:_deployment", GateKey)
         == Lookup(w.store, "phase_6:_deployment", GateKey)
  {
    var cb := Plan.callback;
    assert StrStep(cb[0]) && StrStep(cb[1]);
    CallbackStoresRest(cb, o, w, "phase_6:_deployment", GateKey);
  }

  /** The gate embeds what is stored under ("phase_6:_deployment", "deployment_plan_and_impl_plan"). */
  lemma GateBound(store: Mem, manager: string)
    ensures CreateDeploymentTasks(store, manager).Ok?
    ensures CreateDeploymentTasks(store, manager).value[3].bound
         == [Render(Fallback(store, "phase_6:_deployment", GateKey, QualityGate.Placeholder))]
  {
    DeploymentShape(store, manager);
    GateNames(PhaseName);
  }

  /** The names the gate derives from "Phase 6: Deployment". */
  lemma GateNames(p: string)
    requires p == PhaseName
    ensures Namespace(p) == "phase_6:_deployment"
    ensures ReportDir(p) == "6" && ReportFile(p) == "validation_report_6:_deployment.md"
    ensures ExpectedFile(p) == "validation_report_phase_6:_deployment.md" && ExpectedFile(p) != ReportFile(p)
  {
    GateNamesParts(p, " Deployment");
  }

  lemma GateNamesParts(p: string, rest: string)
    requires p == "Phase " + ['6'] + ":" + rest && rest == " Deployment"
    ensures Namespace(p) == "phase_6:_deployment"
    ensures ReportDir(p) == "6" && ReportFile(p) == "validation_report_6:_deployment.md"
    ensures ExpectedFile(p) == "validation_report_phase_6:_deployment.md" && ExpectedFile(p) != ReportFile(p)
  {
    RestNamespace(rest);
    Spellings();
    PhaseNamesSpelled(p, '6', rest, "_deployment", "6:_deployment", "phase_6:_deployment",
      "validation_report_6:_deployment.md", "validation_report_phase_6:_deployment.md");
  }

  lemma Spellings()
    ensures "6:_deployment" == ['6'] + ":" + "_deployment"
    ensures "phase_" + "6:_deployment" == "phase_6:_deployment"
    ensures "validation_report_" + "6:_deployment" + ".md" == "validation_report_6:_deployment.md"
    ensures "validation_report_phase_" + "6:_deployment" + ".md" == "validation_report_phase_6:_deployment.md"
  {
  }

  lemma RestNamespace(rest: string)
    requires rest == " Deployment"
    ensures Namespace(rest) == "_deployment"
  {
  }
}
