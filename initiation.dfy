/** tasks/initiation_tasks.py: vision, concept of operations and charter, then the phase gate. */
module Initiation {
  import opened SharedMemory
  import opened TaskModel
  import opened QualityGate

  /** The text embedded when the seed request is missing or empty. */
  const SeedPlaceholder := "Thông tin yêu cầu hệ thống bị thiếu."

  const PhaseName := "Phase 0: Initiation"

  /** The seed `system_request`, read once and embedded in full by all three tasks. */
  const Seed := Slot("phase_0", "system_request", SeedPlaceholder, None)

  const Vision := TaskSpec("vision", [Seed], true,
    [WriteFile("output/1_initiation/vision_document.txt", Str), SetKey("phase_0", "vision_document", Str)])
  const Conops := TaskSpec("conops", [Seed], true,
    [WriteFile("output/1_initiation/conops.txt", Str), SetKey("phase_0", "conops", Str)])
  const Charter := TaskSpec("charter", [Seed], true,
    [WriteFile("output/1_initiation/project_charter.txt", Str), SetKey("phase_0", "project_charter", Str)])

  const Specs := [Vision, Conops, Charter]

  /** conops depends on vision; charter on vision and conops. */
  const CoreContexts: seq<seq<nat>> := [[], [0], [0, 1]]

  const GateSuffix := "Project Charter, Vision Document và Concept of Operations"

  /** `create_initiation_tasks(...)` against the store as it is when it is called; the
      project manager agent is passed on to the gate as its first positional argument. */
  function CreateInitiationTasks(store: Mem, manager: string): Outcome<seq<Task>>
  {
    Gated(store, Specs, CoreContexts,
      CreateQualityGateTask(store, [Pos(manager), Pos(PhaseName), Pos("project_charter"), Pos(GateSuffix)]))
  }

  /** The factory never raises and returns four tasks, whatever the store holds. */
  lemma InitiationOk(store: Mem, manager: string)
    ensures CreateInitiationTasks(store, manager).Ok? && |CreateInitiationTasks(store, manager).value| == 4
  {
    CoreOk(store);
    FourPositional(store, manager, PhaseName, "project_charter", GateSuffix);
  }

  lemma CoreOk(store: Mem)
    ensures Core(store, Specs, CoreContexts).Ok? && |Core(store, Specs, CoreContexts).value| == 3
  {
    CoreBound(store);
  }

  /** The returned list: the three core tasks with their contexts, then the gate with context all three. */
  lemma InitiationShape(store: Mem, manager: string)
    ensures CreateInitiationTasks(store, manager).Ok?
    ensures CreateInitiationTasks(store, manager).value
         == Wire(Core(store, Specs, CoreContexts).value, GateFor(store, PhaseName, "project_charter"))
  {
    CoreOk(store);
    FourPositional(store, manager, PhaseName, "project_charter", GateSuffix);
  }

  /** Vision, conops and charter each embed the full seed request, or the placeholder when
      it is missing or empty. */
  lemma CoreBound(store: Mem)
    ensures var core := Core(store, Specs, CoreContexts).value;
      core[0].spec == Vision && core[1].spec == Conops && core[2].spec == Charter
      && forall i :: 0 <= i < 3 ==> core[i].bound == [Render(Fallback(store, "phase_0", "system_request", SeedPlaceholder))]
  {
    forall i | 0 <= i < 3
      ensures BindAll(store, Specs[i].slots) == Ok([Render(Fallback(store, "phase_0", "system_request", SeedPlaceholder))])
    {
      assert Specs[i].slots == [Seed];
      var b := BindAll(store, Specs[i].slots).value;
      assert |b| == 1 && b[0] == Render(Fallback(store, "phase_0", "system_request", SeedPlaceholder));
      assert b == [b[0]];
    }
  }

  /** The gate embeds what is stored under ("phase_0:_initiation", "project_charter"). */
  lemma GateBound(store: Mem)
    ensures GateFor(store, PhaseName, "project_charter").bound
         == [Render(Fallback(store, "phase_0:_initiation", "project_charter", QualityGate.Placeholder))]
  {
    GateNames(PhaseName);
  }

  /** The returned list is vision, conops, charter and the gate, in that order; each core task
      embeds the full seed request or its placeholder, and the gate what is stored under its namespace. */
  lemma InitiationTasksBound(store: Mem, manager: string)
    ensures CreateInitiationTasks(store, manager).Ok?
    ensures var ts := CreateInitiationTasks(store, manager).value;
      ts[0].spec == Vision && ts[1].spec == Conops && ts[2].spec == Charter
      && (forall i :: 0 <= i < 3 ==> ts[i].bound == [Render(Fallback(store, "phase_0", "system_request", SeedPlaceholder))])
      && ts[3].bound == [Render(Fallback(store, "phase_0:_initiation", "project_charter", QualityGate.Placeholder))]
  {
    InitiationShape(store, manager);
    CoreBound(store);
    GateBound(store);
  }

  /** The context chain: conops after vision, charter after both, the gate after all three;
      the returned order is topological. */
  lemma InitiationContexts(store: Mem, manager: string)
    ensures CreateInitiationTasks(store, manager).Ok?
    ensures var ts := CreateInitiationTasks(store, manager).value;
      ts[0].context == [] && ts[1].context == [0] && ts[2].context == [0, 1] && ts[3].context == [0, 1, 2]
      && Topological(Contexts(ts))
  {
    InitiationShape(store, manager);
    CoreOk(store);
    CoreWired(Core(store, Specs, CoreContexts).value, GateFor(store, PhaseName, "project_charter"));
  }

  lemma CoreWired(core: seq<Task>, gate: Task)
    requires Contexts(core) == CoreContexts
    ensures var ts := Wire(core, gate);
      ts[0].context == [] && ts[1].context == [0] && ts[2].context == [0, 1] && ts[3].context == [0, 1, 2]
      && Topological(Contexts(ts))
  {
    assert Topological(CoreContexts);
    WiredOver(core, gate, CoreContexts);
    assert Upto(3) == [0, 1, 2];
  }

  /** Each callback writes under `output/1_initiation/` and stores `str(output)` under "phase_0". */
  lemma InitiationCallbacks(o: TaskOutput, w: World)
    ensures StoreKeys(Vision.callback) == [("phase_0", "vision_document")]
    ensures StoreKeys(Conops.callback) == [("phase_0", "conops")]
    ensures StoreKeys(Charter.callback) == [("phase_0", "project_charter")]
    ensures Lookup(RunCallback(Charter.callback, o, w).world.store, "phase_0", "project_charter") == Some(Text(o.text))
    ensures RunCallback(Charter.callback, o, w).error.None?
  {
    var cb := Charter.callback;
    assert StrStep(cb[0]) && StrStep(cb[1]) && cb[1] in cb;
    CallbackStores(cb, o, w, "phase_0", "project_charter");
  }

  /** The gate reads from namespace "phase_0:_initiation", under which nothing of this phase
      stores, so unless something else put the charter there it embeds the placeholder. */
  lemma GateSeesPlaceholder(store: Mem, manager: string)
    requires !Truthy(Lookup(store, "phase_0:_initiation", "project_charter"))
    ensures CreateInitiationTasks(store, manager).Ok?
    ensures CreateInitiationTasks(store, manager).value[3].bound == [QualityGate.Placeholder]
  {
    InitiationTasksBound(store, manager);
  }

  /** The charter callback stores under "phase_0" and leaves the entry the gate reads as it was. */
  lemma CharterMissesGate(o: TaskOutput, w: World)
    ensures Lookup(RunCallback(Charter.callback, o, w).world.store, "phase_0:_initiation", "project_charter")
         == Lookup(w.store, "phase_0:_initiation", "project_charter")
  {
    var cb := Charter.callback;
    assert StrStep(cb[0]) && StrStep(cb[1]);
    CallbackStoresRest(cb, o, w, "phase_0:_initiation", "project_charter");
  }

  /** The names the gate derives from "Phase 0: Initiation". */
  lemma GateNames(p: string)
    requires p == PhaseName
    ensures Namespace(p) == "phase_0:_initiation"
    ensures ReportDir(p) == "0" && ReportFile(p) == "validation_report_0:_initiation.md"
    ensures ExpectedFile(p) == "validation_report_phase_0:_initiation.md" && ExpectedFile(p) != ReportFile(p)
  {
    GateNamesParts(p, " Initiation");
  }

  lemma GateNamesParts(p: string, rest: string)
    requires p == "Phase " + ['0'] + ":" + rest && rest == " Initiation"
    ensures Namespace(p) == "phase_0:_initiation"
    ensures ReportDir(p) == "0" && ReportFile(p) == "validation_report_0:_initiation.md"
    ensures ExpectedFile(p) == "validation_report_phase_0:_initiation.md" && ExpectedFile(p) != ReportFile(p)
  {
    RestNamespace(rest);
    Spellings();
    PhaseNamesSpelled(p, '0', rest, "_initiation", "0:_initiation", "phase_0:_initiation",
      "validation_report_0:_initiation.md", "validation_report_phase_0:_initiation.md");
  }

  lemma Spellings()
    ensures "0:_initiation" == ['0'] + ":" + "_initiation"
    ensures "phase_" + "0:_initiation" == "phase_0:_initiation"
    ensures "validation_report_" + "0:_initiation" + ".md" == "validation_report_0:_initiation.md"
    ensures "validation_report_phase_" + "0:_initiation" + ".md" == "validation_report_phase_0:_initiation.md"
  {
  }

  lemma RestNamespace(rest: string)
    requires rest == " Initiation"
    ensures Namespace(rest) == "_initiation"
  {
  }
}
