/** tasks/requirement_tasks.py: the thirteen requirement tasks of `RequirementTasksFactory`,
    their context graph, and the gate call of `create_requirement_tasks`. */
module Requirement {
  import opened SharedMemory
  import opened TaskModel
  import opened QualityGate

  /** The store reads, each `get(...) or placeholder` sliced to its excerpt length. */
  const Wbs := Slot("phase_2", "wbs_data_as_text", "Dữ liệu WBS không có sẵn.", Some(1000))
  const ProjectPlanXml := Slot("phase_2", "project_plan_data_as_xml", "Dữ liệu Kế hoạch Dự án không có sẵn.", Some(1000))
  const ScopeIn := Slot("phase_2", "scope_checklist", "Checklist Yêu cầu Phạm vi không có sẵn.", Some(1500))
  const VisionIn := Slot("phase_1", "vision_document", "Tài liệu Tầm nhìn không có sẵn.", Some(500))
  const CharterIn := Slot("phase_1", "project_charter", "Hiến chương Dự án không có sẵn.", Some(500))
  const BrdPlaceholder := "Tài liệu Yêu cầu Nghiệp vụ (BRD) không có sẵn."
  const SrsPlaceholder := "Tài liệu SRS không có sẵn."
  const RtmPlaceholder := "Ma trận RTM không có sẵn."
  const ConopsPlaceholder := "Tài liệu CONOPS không có sẵn."
  const ConopsIn := Slot("phase_1", "conops_document", ConopsPlaceholder, Some(1000))
  const NfrIn := Slot("phase_2", "nfr_document", "Tài liệu NFRs không có sẵn.", Some(2000))
  const UseCasesIn := Slot("phase_2", "use_cases_and_user_stories", "Dữ liệu Use Case không có sẵn.", Some(2000))

  function Srs(limit: nat): Slot { Slot("phase_2", "srs_document", SrsPlaceholder, Some(limit)) }
  function Brd(limit: nat): Slot { Slot("phase_2", "brd_document", BrdPlaceholder, Some(limit)) }
  function Rtm(limit: nat): Slot { Slot("phase_2", "rtm_document", RtmPlaceholder, Some(limit)) }

  /** A callback writing `2_requirements/<file>` and storing `str(output)` under ("phase_2", key). */
  function Saves(file: string, key: string): seq<Effect> {
    [WriteFile("2_requirements/" + file, Str), SetKey("phase_2", key, Str)]
  }

  const Scope := TaskSpec("scope", [Wbs, ProjectPlanXml], true, Saves("Scope_Checklist.md", "scope_checklist"))
  const BrdTask := TaskSpec("brd", [ScopeIn, VisionIn, CharterIn], true, Saves("BRD.md", "brd_document"))
  const Presentation := TaskSpec("presentation", [Brd(2000)], true,
    Saves("BRD_Presentation_Outline.md", "brd_presentation_outline"))
  const SrsTask := TaskSpec("srs", [Brd(3000)], true, Saves("SRS.md", "srs_document"))
  /** Use-case step 1 has no callback. */
  const UseCase1 := TaskSpec("usecase_1", [Srs(1500), ConopsIn], true, [])
  const UseCase2 := TaskSpec("usecase_2", [], true,
    Saves("Use_Cases_and_User_Stories.md", "use_cases_and_user_stories"))
  const RtmTask := TaskSpec("rtm", [Srs(3000)], true, Saves("Requirements_Traceability_Matrix.csv", "rtm_document"))
  const Impact := TaskSpec("impact_analysis", [Rtm(2000)], true,
    Saves("Change_Impact_Analysis_Report.md", "change_impact_report"))
  const Sla := TaskSpec("sla", [Srs(3000)], true, Saves("SLA_Template.md", "sla_template"))
  const Nfr := TaskSpec("nfr", [Srs(3000)], true, Saves("NFRs.md", "nfr_document"))
  const Security := TaskSpec("security", [NfrIn], true,
    Saves("Security_Requirements.md", "privacy_and_security_requirements"))
  const Checklist := TaskSpec("checklist", [Srs(1500), Rtm(1000)], true,
    Saves("Requirements_Inspection_Checklist.md", "requirements_inspection_checklist"))
  const Training := TaskSpec("training", [ConopsIn, UseCasesIn], true, Saves("Training_Plan.md", "training_plan"))

  /** `core_tasks`, in the order the list is written. */
  const Specs := [Scope, BrdTask, Presentation, SrsTask, UseCase1, UseCase2, RtmTask, Impact, Sla,
    Nfr, Security, Checklist, Training]

  /** The `.context` assignments, as indices into `core_tasks`; use-case step 2 gets its
      context at construction. */
  const CoreContexts: seq<seq<nat>> := [[], [0], [1], [1], [3], [4], [3], [6], [3], [3], [9], [3, 6], [5]]

  /** The gate call, all by keyword. */
  function GateArgs(manager: string): seq<CallArg> {
    [Kw("agent", manager), Kw("phase_name", PhaseName), Kw("keys_to_check", GateKeys),
     Kw("document_names", GateDocuments)]
  }

  const PhaseName := "Phase 2: Requirements"
  const GateKeys := "scope_checklist, brd_document, srs_document, rtm_document, nfr_document"
  const GateDocuments := "Scope Checklist, BRD, SRS, RTM, NFRs, and all related documents."

  /** `create_requirement_tasks(requirement_agent, project_manager_agent)` against the store as it is
      when it is called. */
  function CreateRequirementTasks(store: Mem, manager: string): Outcome<seq<Task>>
  {
    Gated(store, Specs, CoreContexts, CreateQualityGateTask(store, GateArgs(manager)))
  }

  /** The gate function declares no parameter `agent` (nor `keys_to_check`,
      `document_names`), so the gate call raises TypeError. */
  lemma GateCallRaises(store: Mem, manager: string)
    ensures CreateQualityGateTask(store, GateArgs(manager)) == Raise(TypeError)
  {
    ParamsFacts();
    UndeclaredKeywordRaises(Params, Defaults, GateArgs(manager), 0);
  }

  /** Whatever the store holds, the factory raises TypeError: at a slice of a stored output
      object, or else at the gate call. It never returns a list. */
  lemma RequirementRaises(store: Mem, manager: string)
    ensures CreateRequirementTasks(store, manager) == Raise(TypeError)
  {
    GateCallRaises(store, manager);
  }

  /** Over a store that holds only strings, the thirteen core tasks are constructed. */
  lemma CoreOk(store: Mem)
    requires AllText(store)
    ensures Core(store, Specs, CoreContexts).Ok? && |Core(store, Specs, CoreContexts).value| == 13
  {
    CoreOfText(store, Specs, CoreContexts);
  }

  /** Every context target lies earlier in `core_tasks`. */
  lemma CoreTopological(store: Mem)
    requires Core(store, Specs, CoreContexts).Ok?
    ensures Topological(Contexts(Core(store, Specs, CoreContexts).value))
  {
    ContextsBackward();
    CoreTopologicalOf(store, Specs, CoreContexts);
  }

  lemma ContextsBackward()
    ensures Topological(CoreContexts)
  {
  }

  /** Were the gate call accepted, the gate would come last with all thirteen core tasks as its
      context, and the list would be in topological order. */
  lemma GateWouldDependOnAll(store: Mem, gate: Task)
    requires Core(store, Specs, CoreContexts).Ok?
    ensures var ts := Wire(Core(store, Specs, CoreContexts).value, gate);
      |ts| == 14 && Topological(Contexts(ts)) && ts[13].context == Upto(13)
      && forall i :: 0 <= i < 13 ==> i in ts[13].context
  {
    CoreTopological(store);
    WireTopological(Core(store, Specs, CoreContexts).value, gate);
  }

  /** Who reads what whom writes: (consumer, slot, producer) for every slot whose key a core
      task's callback stores. */
  const Feeds: seq<(nat, nat, nat)> := [(1, 0, 0), (2, 0, 1), (3, 0, 1), (4, 0, 3), (6, 0, 3), (7, 0, 6),
    (8, 0, 3), (9, 0, 3), (10, 0, 9), (11, 0, 3), (11, 1, 6), (12, 1, 5)]

  /** Each consumer reads the pair its producer's callback stores, the producer comes
      earlier in `core_tasks`, and it is in the consumer's context. */
  lemma ConsumersReadProducers()
    ensures forall f :: f in Feeds ==>
      f.0 < |Specs| && f.1 < |Specs[f.0].slots| && f.2 < f.0 && f.2 in CoreContexts[f.0]
    ensures forall f :: f in Feeds ==>
      (Specs[f.0].slots[f.1].phase, Specs[f.0].slots[f.1].key) in StoreKeys(Specs[f.2].callback)
  {
    FeedsBackward();
    CallbackKeys();
    forall f | f in Feeds
      ensures (Specs[f.0].slots[f.1].phase, Specs[f.0].slots[f.1].key) in StoreKeys(Specs[f.2].callback)
    {
      FeedKey(f);
      assert StoreKeys(Specs[f.2].callback) == [("phase_2", StoredKeys[f.2])];
    }
  }

  lemma FeedsBackward()
    ensures forall f :: f in Feeds ==>
      f.0 < |Specs| && f.1 < |Specs[f.0].slots| && f.2 < f.0 && f.2 in CoreContexts[f.0]
  {
  }

  /** The slot a feed names reads the key its producer stores. */
  lemma FeedKey(f: (nat, nat, nat))
    requires f in Feeds
    ensures f.0 < |Specs| && f.1 < |Specs[f.0].slots| && f.2 < |StoredKeys| && f.2 != 4
    ensures Specs[f.0].slots[f.1].phase == "phase_2" && Specs[f.0].slots[f.1].key == StoredKeys[f.2]
  {
  }

  /** Every store-derived slot holds the store's contents as they were when the factory was
      called: a consumer constructed beside its producer never sees what the producer will store. */
  lemma ConsumersSeeConstructionStore(store: Mem)
    requires Core(store, Specs, CoreContexts).Ok?
    ensures forall f :: f in Feeds && f.0 < |Specs| && f.1 < |Specs[f.0].slots| ==>
      var s := Specs[f.0].slots[f.1];
      Core(store, Specs, CoreContexts).value[f.0].bound[f.1] == Cut(Render(Fallback(store, s.phase, s.key, s.placeholder)), s.limit)
  {
    forall f | f in Feeds && f.0 < |Specs| && f.1 < |Specs[f.0].slots|
      ensures var s := Specs[f.0].slots[f.1];
        Core(store, Specs, CoreContexts).value[f.0].bound[f.1] == Cut(Render(Fallback(store, s.phase, s.key, s.placeholder)), s.limit)
    {
      BoundAtConstruction(store, Specs, CoreContexts, f.0, f.1);
    }
  }

  /** Every slot is sliced to 500, 1000, 1500, 2000 or 3000 characters. */
  lemma SlotLimits()
    ensures forall i, j :: 0 <= i < |Specs| && 0 <= j < |Specs[i].slots| ==>
      Specs[i].slots[j].limit.Some? && Specs[i].slots[j].limit.value in {500, 1000, 1500, 2000, 3000}
  {
  }

  /** Every excerpt is a prefix of the bound value of at most its slot's length. */
  lemma ExcerptsBounded(store: Mem)
    requires Core(store, Specs, CoreContexts).Ok?
    ensures forall i, j :: 0 <= i < |Specs| && 0 <= j < |Specs[i].slots| ==>
      var s := Specs[i].slots[j];
      var e := Core(store, Specs, CoreContexts).value[i].bound[j];
      var v := Render(Fallback(store, s.phase, s.key, s.placeholder));
      s.limit.Some? && |e| <= s.limit.value && e == v[..|e|]
  {
    SlotLimits();
    forall i, j | 0 <= i < |Specs| && 0 <= j < |Specs[i].slots|
      ensures var s := Specs[i].slots[j];
        var e := Core(store, Specs, CoreContexts).value[i].bound[j];
        var v := Render(Fallback(store, s.phase, s.key, s.placeholder));
        s.limit.Some? && |e| <= s.limit.value && e == v[..|e|]
    {
      BoundAtConstruction(store, Specs, CoreContexts, i, j);
    }
  }

  /** The key each core task's callback stores under "phase_2", in `core_tasks` order; use-case
      step 1 stores nothing and has the empty string here. */
  const StoredKeys := ["scope_checklist", "brd_document", "brd_presentation_outline", "srs_document", "",
    "use_cases_and_user_stories", "rtm_document", "change_impact_report", "sla_template", "nfr_document",
    "privacy_and_security_requirements", "requirements_inspection_checklist", "training_plan"]

  /** Every task but use-case step 1 stores exactly one key, under "phase_2"; use-case step 1
      stores nothing. */
  lemma CallbackKeys()
    ensures Specs[4].callback == []
    ensures forall i :: 0 <= i < |Specs| && i != 4 ==> StoreKeys(Specs[i].callback) == [("phase_2", StoredKeys[i])]
  {
    forall i | 0 <= i < |Specs| && i != 4
      ensures StoreKeys(Specs[i].callback) == [("phase_2", StoredKeys[i])]
    {
      OneKey(i);
    }
  }

  lemma OneKey(i: nat)
    requires i < |Specs| && i != 4
    ensures StoreKeys(Specs[i].callback) == [("phase_2", StoredKeys[i])]
  {
  }

  /** No two core tasks store under the same key. */
  lemma StoredKeysDistinct()
    ensures forall i, j :: 0 <= i < j < |StoredKeys| ==> StoredKeys[i] != StoredKeys[j]
  {
  }

  /** The core tasks whose first slot reads the SRS: use-case step 1, RTM, SLA, NFR and the
      inspection checklist. */
  const SrsReaders: seq<nat> := [4, 6, 8, 9, 11]

  /** A missing or empty SRS reaches each of its five readers as its placeholder. */
  lemma MissingSrs(store: Mem, i: nat)
    requires Core(store, Specs, CoreContexts).Ok?
    requires !Truthy(Lookup(store, "phase_2", "srs_document"))
    requires i in SrsReaders
    ensures i < |Specs| && 0 < |Specs[i].slots| && Specs[i].slots[0].key == "srs_document"
    ensures Core(store, Specs, CoreContexts).value[i].bound[0] == SrsPlaceholder
  {
    SrsReaderSlot(i);
    BoundMissing(store, Specs, CoreContexts, i, 0);
  }

  /** An SRS reader's first slot reads the SRS with a limit its placeholder fits in. */
  lemma SrsReaderSlot(i: nat)
    requires i in SrsReaders
    ensures i < |Specs| && 0 < |Specs[i].slots| && Specs[i].slots[0].phase == "phase_2"
    ensures Specs[i].slots[0].key == "srs_document" && Specs[i].slots[0].placeholder == SrsPlaceholder
    ensures Specs[i].slots[0].limit.Some? && Specs[i].slots[0].limit.value >= |SrsPlaceholder|
  {
    assert |SrsPlaceholder| < 1500;
  }
}
