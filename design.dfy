/** tasks/design_task.py: the ten design tasks of `DesignTasksFactory`, their context graph,
    and the gate call of `create_design_tasks`. The braces of the examples in the
    `expected_output` texts are plain characters, since those literals are not f-strings. */
module Design {
  import opened SharedMemory
  import opened TaskModel
  import opened QualityGate
  import Requirement

  const SrsPlaceholder := "Tài liệu SRS không có sẵn."
  const UseCasePlaceholder := "Dữ liệu Use Case không có sẵn."

  function Srs(limit: nat): Slot { Slot("phase_2", "srs_document", SrsPlaceholder, Some(limit)) }
  const UseCases := Slot("phase_2", "use_cases_and_user_stories", UseCasePlaceholder, Some(2000))
  /** Step 2 reads the architecture under its own spelling of the placeholder. */
  const ArchitectureIn := Slot("phase_3", "architecture_document", "Tài liệu kiến trúc không có sẵn.", Some(1000))
  const SecurityIn := Slot("phase_2", "privacy_and_security_requirements", "Yêu cầu Bảo mật không có sẵn.", Some(3000))
  const HldArchitectureIn := Slot("phase_3", "architecture_document", "Tài liệu Kiến trúc không có sẵn.", Some(3000))
  const HldIn := Slot("phase_3", "high_level_design", "Tài liệu HLD không có sẵn.", Some(3000))

  /** A callback writing `3_design/<file>` and storing `str(output)` under ("phase_3", key). */
  function Saves(file: string, key: string): seq<Effect> {
    [WriteFile("3_design/" + file, Str), SetKey("phase_3", key, Str)]
  }

  const Architecture1 := TaskSpec("architecture_1", [Srs(2000)], true, Saves("System_Architecture.md", "architecture_document"))
  const Architecture2 := TaskSpec("architecture_2", [Srs(1500), ArchitectureIn], true,
    Saves("Website_Planning_Checklist.md", "website_planning_checklist"))
  const Dfd := TaskSpec("dfd", [Srs(2500)], true, Saves("DFD_and_Description.md", "dfd_document"))
  const Db := TaskSpec("db", [UseCases], true, Saves("Database_Design_Document.md", "database_design_document"))
  const Api := TaskSpec("api", [Srs(3000)], true, Saves("API_Design_Document.yaml", "api_design_document"))
  const SecurityArch := TaskSpec("security_arch", [SecurityIn], true,
    Saves("Security_Architecture_Document.md", "security_architecture_document"))
  const Hld := TaskSpec("hld", [HldArchitectureIn], true, Saves("High_Level_Design.md", "high_level_design"))
  const Lld := TaskSpec("lld", [HldIn], true, Saves("Low_Level_Design.md", "low_level_design"))
  /** Report design and sequence diagrams only write a file. */
  const ReportDesign := TaskSpec("report_design", [UseCases], true, [WriteFile("3_design/Report_Design_Template.md", Str)])
  const Sequence := TaskSpec("sequence", [UseCases], true, [WriteFile("3_design/Sequence_Diagrams.md", Str)])

  /** `core_tasks`, in the order the list is written. */
  const Specs := [Architecture1, Architecture2, Dfd, Db, Api, SecurityArch, Hld, Lld, ReportDesign, Sequence]

  /** Step 2's context is set at construction; the rest by the assignments in `create_design_tasks`. */
  const CoreContexts: seq<seq<nat>> := [[], [0], [1], [1], [1], [1], [1], [6], [3], [6, 4]]

  /** The gate call, all by keyword. */
  function GateArgs(manager: string): seq<CallArg> {
    [Kw("agent", manager), Kw("phase_name", PhaseName), Kw("keys_to_check", GateKeys),
     Kw("document_names", GateDocuments)]
  }

  const PhaseName := "Phase 3: Design"
  const GateKeys := "architecture_document, database_design_document, api_design_document, high_level_design, low_level_design"
  const GateDocuments := "Architecture, Database Design, API Design, HLD, LLD, and all related diagrams."

  /** `create_design_tasks(design_agent, project_manager_agent)` against the store as it is when
      it is called: the core tasks in list order, their contexts, then the gate. */
  function CreateDesignTasks(store: Mem, manager: string): Outcome<seq<Task>>
  {
    Gated(store, Specs, CoreContexts, CreateQualityGateTask(store, GateArgs(manager)))
  }

  /** The gate function declares no parameter `agent`, so the gate call raises TypeError. */
  lemma GateCallRaises(store: Mem, manager: string)
    ensures CreateQualityGateTask(store, GateArgs(manager)) == Raise(TypeError)
  {
    ParamsFacts();
    UndeclaredKeywordRaises(Params, Defaults, GateArgs(manager), 0);
  }

  /** The factory never returns a list: it raises TypeError, at a slice of a stored output
      object or else at the gate call. */
  lemma DesignRaises(store: Mem, manager: string)
    ensures CreateDesignTasks(store, manager) == Raise(TypeError)
  {
    GateCallRaises(store, manager);
  }

  /** Over a store holding only strings, the ten core tasks are constructed. */
  lemma CoreOk(store: Mem)
    requires AllText(store)
    ensures Core(store, Specs, CoreContexts).Ok? && |Core(store, Specs, CoreContexts).value| == 10
  {
    CoreOfText(store, Specs, CoreContexts);
  }

  /** Every context target lies earlier in `core_tasks`. */
  lemma CoreTopological(store: Mem)
    requires Core(store, Specs, CoreContexts).Ok?
    ensures Topological(Contexts(Core(store, Specs, CoreContexts).value))
  {
    ContextsBackward();
    CoreTopologicalOf(store, Specs, CoreContexts);
  }

  lemma ContextsBackward()
    ensures Topological(CoreContexts)
  {
  }

  /** Dfd, db, api, security and hld depend on step 2, which depends on step 1; lld on hld,
      report on db, sequence on hld and api. */
  lemma ContextGraph()
    ensures CoreContexts[1] == [0]
    ensures forall i :: 2 <= i <= 6 ==> CoreContexts[i] == [1]
    ensures CoreContexts[7] == [6] && CoreContexts[8] == [3] && CoreContexts[9] == [6, 4]
  {
  }

  /** Were the gate call accepted, the gate would come last with all ten core tasks as its
      context, and the list would be in topological order. */
  lemma GateWouldDependOnAll(store: Mem, gate: Task)
    requires Core(store, Specs, CoreContexts).Ok?
    ensures var ts := Wire(Core(store, Specs, CoreContexts).value, gate);
      |ts| == 11 && Topological(Contexts(ts)) && ts[10].context == Upto(10)
      && forall i :: 0 <= i < 10 ==> i in ts[10].context
  {
    CoreTopological(store);
    WireTopological(Core(store, Specs, CoreContexts).value, gate);
  }

  /** Who reads what whom writes in this file: step 2 and hld read step 1's architecture,
      lld reads hld's design. */
  const Feeds: seq<(nat, nat, nat)> := [(1, 1, 0), (6, 0, 0), (7, 0, 6)]

  lemma ConsumersReadProducers()
    ensures forall f :: f in Feeds ==>
      f.0 < |Specs| && f.1 < |Specs[f.0].slots| && f.2 < f.0
      && (Specs[f.0].slots[f.1].phase, Specs[f.0].slots[f.1].key) in StoreKeys(Specs[f.2].callback)
  {
    forall f | f in Feeds
      ensures f.0 < |Specs| && f.1 < |Specs[f.0].slots| && f.2 < f.0
      ensures (Specs[f.0].slots[f.1].phase, Specs[f.0].slots[f.1].key) in StoreKeys(Specs[f.2].callback)
    {
      FeedKey(f);
    }
  }

  lemma FeedKey(f: (nat, nat, nat))
    requires f in Feeds
    ensures f.0 < |Specs| && f.1 < |Specs[f.0].slots| && f.2 < f.0
    ensures (Specs[f.0].slots[f.1].phase, Specs[f.0].slots[f.1].key) in StoreKeys(Specs[f.2].callback)
  {
  }

  /** The security architecture reads the pair the requirements' security task stores. */
  lemma ReadsRequirementSecurity()
    ensures (SecurityIn.phase, SecurityIn.key) in StoreKeys(Requirement.Security.callback)
  {
    assert Requirement.Security.callback[1] == SetKey(SecurityIn.phase, SecurityIn.key, Str);
  }

  /** Step 2 reads the architecture when the factory is called, before step 1 can have run:
      on a store without it, step 2 embeds a prefix of the placeholder. */
  lemma ArchitectureReadEarly(store: Mem)
    requires Core(store, Specs, CoreContexts).Ok?
    requires !Truthy(Lookup(store, "phase_3", "architecture_document"))
    ensures Core(store, Specs, CoreContexts).value[1].bound[1] == "Tài liệu kiến trúc không có sẵn."
  {
    BoundAtConstruction(store, Specs, CoreContexts, 1, 1);
  }

  /** Eight tasks store one distinct "phase_3" key each; report design and sequence diagrams
      store nothing. */
  lemma CallbackKeys()
    ensures StoreKeys(Specs[8].callback) == [] && StoreKeys(Specs[9].callback) == []
    ensures forall i :: 0 <= i < 8 ==>
      |StoreKeys(Specs[i].callback)| == 1 && StoreKeys(Specs[i].callback)[0].0 == "phase_3"
    ensures forall i, j :: 0 <= i < j < 8 ==> StoreKeys(Specs[i].callback)[0] != StoreKeys(Specs[j].callback)[0]
  {
    forall i | 0 <= i < 8
      ensures StoreKeys(Specs[i].callback) == [("phase_3", Specs[i].callback[1].key)]
    {
      OneKey(i);
    }
  }

  lemma OneKey(i: nat)
    requires i < 8
    ensures StoreKeys(Specs[i].callback) == [("phase_3", Specs[i].callback[1].key)]
  {
  }
}
