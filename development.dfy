/** tasks/development_tasks.py: the five development factories and their concatenation. */
module Development {
  import opened SharedMemory
  import opened TaskModel

  const Dev := "phase_4_development"
  const Out := "output/4_development/"

  const CodeReviewGuidelines := Slot(Dev, "coding_guidelines", "Coding Guidelines chưa có.", Some(600))
  const CodeReviewStandards := Slot(Dev, "dev_standards", "Development Standards chưa có.", Some(600))
  function Lld(limit: nat): Slot { Slot("phase_3_design", "low_level_design", "Tài liệu LLD chưa sẵn sàng.", Some(limit)) }
  const ConfigPlan := Slot("phase_1_planning", "config_plan", "Không có Configuration Management Plan.", Some(500))
  const ProjectPlan := Slot("phase_1_planning", "project_plan", "Không có Project Plan.", Some(500))
  const Hld := Slot("phase_3_design", "hld", "Không có High-Level Design.", Some(500))
  const ApiDoc := Slot(Dev, "api_design", "Không có API Design.", Some(500))
  const ControlStandards := Slot(Dev, "dev_standards", "Không có Development Standards.", Some(500))
  const ControlGuidelines := Slot(Dev, "coding_guidelines", "Không có Coding Guidelines.", Some(500))

  /** A callback writing `output/4_development/<file>` and storing under (Dev, key), passing
      `str(output)` (`Str`) or the output object itself (`RawObj`). */
  function Saves(file: string, key: string, a: Arg): seq<Effect> {
    [WriteFile(Out + file, a), SetKey(Dev, key, a)]
  }

  const Checklist := TaskSpec("checklist", [CodeReviewGuidelines, CodeReviewStandards], true,
    Saves("Code_Review_Checklist.md", "code_review_checklist", Str))
  const SourceDoc := TaskSpec("source_doc", [Lld(800)], true,
    Saves("Source_Code_Documentation_Template.md", "source_code_doc_template", RawObj))
  const ProgressReport := TaskSpec("progress_report", [], true,
    Saves("Development_Progress_Report_Template.docx", "dev_progress_template", RawObj))
  const Middleware := TaskSpec("middleware", [Lld(1000)], true,
    Saves("Middleware_Documentation.md", "middleware_docs", RawObj))
  const Standards := TaskSpec("standards", [ConfigPlan, ProjectPlan], true,
    [WriteFile(Out + "Development_Standards_Document.md", RawObj), WriteFile(Out + "Coding_Guidelines.md", RawObj),
     SetKey(Dev, "dev_standards", RawObj), SetKey(Dev, "coding_guidelines", RawObj)])
  const Review := TaskSpec("review", [], true,
    Saves("dev_standards_validation_report.md", "dev_standards_review", RawObj))
  const IntegrationPlan := TaskSpec("integration_plan", [Hld, ApiDoc], true,
    Saves("Integration_Plan.md", "integration_plan", Str))
  const UnitTestTemplate := TaskSpec("unit_test_template", [], true,
    Saves("Unit_Test_Scripts_Template.txt", "unit_test_template", Str))
  const VersionControl := TaskSpec("version_control", [ControlStandards], true,
    Saves("Version_Control_Plan.md", "version_control_plan", Str))
  const RepoChecklist := TaskSpec("repo_checklist", [ControlGuidelines], true,
    Saves("Source_Code_Repository_Checklist.md", "repo_checklist", Str))

  const CodeReview := [Checklist]
  const DevDocs := [SourceDoc, ProgressReport, Middleware]
  const DevStandards := [Standards, Review]
  const Integration := [IntegrationPlan, UnitTestTemplate]
  const SourceControl := [VersionControl, RepoChecklist]

  function CreateCodeReviewTasks(store: Mem): Outcome<seq<Task>> { Factory(store, CodeReview) }
  function CreateDevDocsTasks(store: Mem): Outcome<seq<Task>> { Factory(store, DevDocs) }
  function CreateDevStandardsTasks(store: Mem): Outcome<seq<Task>> { Factory(store, DevStandards) }
  function CreateIntegrationTasks(store: Mem): Outcome<seq<Task>> { Factory(store, Integration) }
  function CreateSourceControlTasks(store: Mem): Outcome<seq<Task>> { Factory(store, SourceControl) }

  /** `a + b` on the results of two calls made in this order: the first exception wins. */
  function Concat(a: Outcome<seq<Task>>, b: Outcome<seq<Task>>): Outcome<seq<Task>> {
    match a
    case Raise(e) => Raise(e)
    case Ok(x) =>
      match b
      case Raise(e) => Raise(e)
      case Ok(y) => Ok(x + y)
  }

  /** `create_all_development_tasks`: the five factories, called in order from one store. */
  function CreateAllDevelopmentTasks(store: Mem): Outcome<seq<Task>> {
    Concat(Concat(Concat(Concat(CreateCodeReviewTasks(store), CreateDevDocsTasks(store)),
      CreateDevStandardsTasks(store)), CreateIntegrationTasks(store)), CreateSourceControlTasks(store))
  }

  const AllSpecs := CodeReview + DevDocs + DevStandards + Integration + SourceControl

  /** Calling two factories one after the other, with no task run in between, is the same as
      one factory building both lists of tasks. */
  lemma FactoryAppend(store: Mem, a: seq<TaskSpec>, b: seq<TaskSpec>)
    ensures Concat(Factory(store, a), Factory(store, b)) == Factory(store, a + b)
  {
    var ab := a + b;
    assert forall i :: 0 <= i < |a| ==> ab[i] == a[i];
    assert forall i :: |a| <= i < |ab| ==> ab[i] == b[i - |a|];
    if Factory(store, a).Ok? && Factory(store, b).Ok? {
      BothOk(store, a, b);
    } else if Factory(store, a).Ok? {
      var j :| 0 <= j < |b| && !BindAll(store, b[j].slots).Ok?;
      assert ab[|a| + j] == b[j];
    }
  }

  lemma BothOk(store: Mem, a: seq<TaskSpec>, b: seq<TaskSpec>)
    requires Factory(store, a).Ok? && Factory(store, b).Ok?
    ensures Factory(store, a + b) == Ok(Factory(store, a).value + Factory(store, b).value)
  {
    var ab := a + b;
    forall i | 0 <= i < |ab| ensures BindAll(store, ab[i].slots).Ok? {
      if i < |a| {
        assert ab[i] == a[i];
      } else {
        assert ab[i] == b[i - |a|];
      }
    }
    assert Factory(store, ab).Ok?;
    var both := Factory(store, ab).value;
    var x := Factory(store, a).value + Factory(store, b).value;
    assert |both| == |ab| == |x|;
    forall i | 0 <= i < |ab| ensures both[i] == x[i] {
      AppendedTask(store, a, b, i);
    }
    assert both == x;
  }

  /** One task of the appended factory is the task at that place in the two lists. */
  lemma AppendedTask(store: Mem, a: seq<TaskSpec>, b: seq<TaskSpec>, i: nat)
    requires Factory(store, a).Ok? && Factory(store, b).Ok? && Factory(store, a + b).Ok?
    requires i < |a| + |b|
    ensures Factory(store, a + b).value[i] == (Factory(store, a).value + Factory(store, b).value)[i]
  {
    var fa := Factory(store, a).value;
    var fb := Factory(store, b).value;
    assert |fa| == |a| && |fb| == |b|;
    FactoryTask(store, a + b, i);
    if i < |a| {
      FactoryTask(store, a, i);
      assert (a + b)[i] == a[i] && (fa + fb)[i] == fa[i];
    } else {
      FactoryTask(store, b, i - |a|);
      assert (a + b)[i] == b[i - |a|] && (fa + fb)[i] == fb[i - |a|];
    }
  }

  /** `create_all_development_tasks` builds all ten tasks, in the order of the five factories,
      from the one store it is called with. */
  lemma AllDevelopment(store: Mem)
    ensures CreateAllDevelopmentTasks(store) == Factory(store, AllSpecs)
  {
    FactoryAppend(store, CodeReview, DevDocs);
    FactoryAppend(store, CodeReview + DevDocs, DevStandards);
    FactoryAppend(store, CodeReview + DevDocs + DevStandards, Integration);
    FactoryAppend(store, CodeReview + DevDocs + DevStandards + Integration, SourceControl);
  }

  /** Over a store that holds only strings, the ten development tasks are constructed. */
  lemma DevelopmentOk(store: Mem)
    requires AllText(store)
    ensures CreateAllDevelopmentTasks(store).Ok? && |CreateAllDevelopmentTasks(store).value| == 10
  {
    AllDevelopment(store);
    CoreOfText(store, AllSpecs, NoContexts(|AllSpecs|));
  }

  /** A stored output object under an excerpted key, here the LLD, makes the whole call raise
      TypeError. */
  lemma DevelopmentRaises(store: Mem, o: TaskOutput)
    requires Lookup(store, "phase_3_design", "low_level_design") == Some(Output(o))
    ensures CreateAllDevelopmentTasks(store) == Raise(TypeError)
  {
    SlicedObjectRaises(store, DevDocs, NoContexts(3), 0, 0, o);
  }

  /** The checklist embeds the first 600 characters of the coding guidelines and development
      standards, or of their placeholders, as stored when the factory is called. */
  lemma ChecklistBound(store: Mem)
    requires CreateCodeReviewTasks(store).Ok?
    ensures CreateCodeReviewTasks(store).value[0].bound
         == [Cut(Render(Fallback(store, Dev, "coding_guidelines", "Coding Guidelines chưa có.")), Some(600)),
             Cut(Render(Fallback(store, Dev, "dev_standards", "Development Standards chưa có.")), Some(600))]
  {
    var b := CreateCodeReviewTasks(store).value[0].bound;
    assert |b| == 2 && b == [b[0], b[1]];
    BoundAtConstruction(store, CodeReview, NoContexts(1), 0, 0);
    BoundAtConstruction(store, CodeReview, NoContexts(1), 0, 1);
  }

  /** Five callbacks hand the output object itself to `write_output`. */
  predicate RawFirst(spec: TaskSpec) {
    spec.callback != [] && RawWrite(spec.callback[0])
  }

  /** Which development tasks those are: the three documentation tasks and both standards tasks. */
  lemma RawTasks()
    ensures forall i :: 0 <= i < |AllSpecs| ==> (RawFirst(AllSpecs[i]) <==> 1 <= i < 6)
  {
  }

  /** The other five store `str(output)` under their own key and raise nowhere. */
  lemma StrTasks(o: TaskOutput, w: World)
    ensures Lookup(RunCallback(Checklist.callback, o, w).world.store, Dev, "code_review_checklist") == Some(Text(o.text))
    ensures Lookup(RunCallback(IntegrationPlan.callback, o, w).world.store, Dev, "integration_plan") == Some(Text(o.text))
    ensures Lookup(RunCallback(UnitTestTemplate.callback, o, w).world.store, Dev, "unit_test_template") == Some(Text(o.text))
    ensures Lookup(RunCallback(VersionControl.callback, o, w).world.store, Dev, "version_control_plan") == Some(Text(o.text))
    ensures Lookup(RunCallback(RepoChecklist.callback, o, w).world.store, Dev, "repo_checklist") == Some(Text(o.text))
  {
    StrSaves("Code_Review_Checklist.md", "code_review_checklist", o, w);
    StrSaves("Integration_Plan.md", "integration_plan", o, w);
    StrSaves("Unit_Test_Scripts_Template.txt", "unit_test_template", o, w);
    StrSaves("Version_Control_Plan.md", "version_control_plan", o, w);
    StrSaves("Source_Code_Repository_Checklist.md", "repo_checklist", o, w);
  }

  lemma StrSaves(file: string, key: string, o: TaskOutput, w: World)
    ensures RunCallback(Saves(file, key, Str), o, w).error.None?
    ensures Lookup(RunCallback(Saves(file, key, Str), o, w).world.store, Dev, key) == Some(Text(o.text))
  {
    var cb := Saves(file, key, Str);
    assert StrStep(cb[0]) && StrStep(cb[1]) && cb[1] in cb;
    CallbackStores(cb, o, w, Dev, key);
  }

  /** No development callback changes the development standards or the coding guidelines: the
      standards task's callback raises at its first file write, before either `set`. So the
      checklist and the source-control tasks only ever see what was stored before this phase. */
  lemma StandardsNeverStored(i: nat, o: TaskOutput, w: World)
    requires i < |AllSpecs|
    ensures Lookup(RunCallback(AllSpecs[i].callback, o, w).world.store, Dev, "dev_standards") == Lookup(w.store, Dev, "dev_standards")
    ensures Lookup(RunCallback(AllSpecs[i].callback, o, w).world.store, Dev, "coding_guidelines") == Lookup(w.store, Dev, "coding_guidelines")
  {
    var cb := AllSpecs[i].callback;
    RawTasks();
    if 1 <= i < 6 {
      RawWriteFirstRaises(cb, o, w);
    } else {
      assert cb == Saves(cb[0].path[|Out|..], cb[1].key, Str) && cb[0].path[..|Out|] == Out && cb[1].key !in {"dev_standards", "coding_guidelines"};
      StrKeeps(cb[0].path[|Out|..], cb[1].key, o, w, "dev_standards");
      StrKeeps(cb[0].path[|Out|..], cb[1].key, o, w, "coding_guidelines");
    }
  }

  lemma StrKeeps(file: string, key: string, o: TaskOutput, w: World, other: string)
    requires other != key
    ensures Lookup(RunCallback(Saves(file, key, Str), o, w).world.store, Dev, other) == Lookup(w.store, Dev, other)
  {
    var cb := Saves(file, key, Str);
    assert StrStep(cb[0]) && StrStep(cb[1]);
    CallbackStoresRest(cb, o, w, Dev, other);
  }
}
