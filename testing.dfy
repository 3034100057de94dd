/** tasks/testing_tasks.py: the seven testing factories. */
module Testing {
  import opened SharedMemory
  import opened TaskModel
  import Development
  import Planning

  const Test := "phase_5_testing"
  const Out := "output/5_testing/"

  const Frd := Slot("phase_3_design", "functional_requirements", "Chưa có Functional Requirements Document.", Some(300))
  const UseCases := Slot("phase_3_design", "use_case_diagrams", "Chưa có Use Case Diagram.", Some(300))
  const ProjectPlan := Slot("phase_1_planning", "project_plan", "Chưa có Project Plan.", Some(300))
  const TestPlanIn := Slot(Test, "test_plan", "Test Plan chưa có.", Some(400))
  const RequirementFrd := Slot("phase_2_requirement", "frd", "F.R.D chưa sẵn sàng.", Some(400))
  const RequirementUseCases := Slot("phase_2_requirement", "use_case_diagrams", "Use Case Diagram chưa có.", Some(400))
  const SecurityDoc := Slot(Test, "security_architecture", "Chưa có tài liệu Security Architecture.", Some(800))
  function Nfr(limit: nat): Slot { Slot("phase_3_design", "non_functional_requirements", "Chưa có NFR.", Some(limit)) }
  function DocData(limit: nat): Slot { Slot(Test, "source_code_documentation", "Source Code Documentation chưa có.", Some(limit)) }
  function CodeReview(limit: nat): Slot { Slot(Test, "code_review_checklist", "Code Review Checklist chưa có.", Some(limit)) }
  const Cobit := Slot(Test, "cobit_checklist", "Không tìm thấy COBIT Checklist.", Some(800))
  const QaChecklist := Slot(Test, "qa_checklist", "Không tìm thấy QA Checklist.", Some(800))
  const TestCases := Slot(Test, "test_case_specification", "Test Case Specification chưa có.", Some(400))
  const BugListIn := Slot(Test, "bug_list", "Bug List chưa có.", Some(400))
  const BugReport := Slot(Test, "bug_list", "Bug list chưa có.", Some(300))
  const TestSummary := Slot(Test, "test_summary_report", "Test summary chưa có.", Some(300))

  /** A callback writing `output/5_testing/<file>` and storing under (Test, key). */
  function Saves(file: string, key: string, a: Arg): seq<Effect> {
    [WriteFile(Out + file, a), SetKey(Test, key, a)]
  }

  /** A callback that only writes the output object to `output/5_testing/<file>`. */
  function Writes(file: string): seq<Effect> {
    [WriteFile(Out + file, RawObj)]
  }

  const TestPlan := [
    TaskSpec("master_test_plan", [Frd, UseCases, ProjectPlan], true, Saves("Test_Plan.docx", "test_plan", RawObj)),
    TaskSpec("regression_test_plan", [Frd, ProjectPlan], true, Saves("Regression_Testing_Plan.md", "regression_plan", RawObj)),
    TaskSpec("uat_test_plan", [Frd, UseCases, ProjectPlan], true, Saves("User_Acceptance_Test_Plan.docx", "uat_plan", RawObj))]
  const TestCase := [
    TaskSpec("test_case", [TestPlanIn, RequirementFrd, RequirementUseCases], true,
      Saves("Test_Case_Specification.xlsx", "test_case_specification", RawObj)),
    TaskSpec("bug_template", [], true, Saves("Testing_Bug_Report_Template.xlsx", "bug_report_template", RawObj)),
    TaskSpec("bug_list", [], true, Saves("Testing_Bug_List.xlsx", "bug_list", RawObj))]
  const SecurityPerf := [
    TaskSpec("penetration", [SecurityDoc, Nfr(500)], true, Saves("Penetration_Testing_Report.md", "penetration_test_report", Str)),
    TaskSpec("performance", [Nfr(800)], true, Saves("Performance_Testing_Report.md", "performance_test_report", Str))]
  const QaChecklists := [
    TaskSpec("doc_checklist", [DocData(800), CodeReview(400)], true,
      Saves("Documentation_Quality_Assurance_Checklist.md", "qa_doc_checklist", Str)),
    TaskSpec("sys_checklist", [DocData(500), CodeReview(500)], true,
      Saves("System_Quality_Assurance_Checklist.md", "qa_system_checklist", Str))]
  const Audit := [
    TaskSpec("review", [Cobit, QaChecklist], true, Saves("COBIT_Checklist_and_Review.md", "cobit_review", Str)),
    TaskSpec("audit_report", [Cobit, QaChecklist], true,
      Saves("COBIT_Objectives_And_Audit_Activity_Report.md", "cobit_audit", Str))]
  const Execution := [
    TaskSpec("summary", [TestCases, BugListIn], true, Saves("Test_Summary_Report.docx", "test_summary_report", RawObj)),
    TaskSpec("interoperability", [], true, Saves("Interoperability_Test_Logs.md", "interoperability_logs", RawObj)),
    TaskSpec("connectivity", [], true, Saves("Connectivity_Testing_Report.md", "connectivity_test_report", RawObj))]
  const Management := [
    TaskSpec("risk", [BugReport, TestSummary], true, Writes("Risk_Management_Register.xlsx")),
    TaskSpec("issues", [], true, Writes("Issues_Management_Log.xlsx")),
    TaskSpec("status_report", [TestSummary], true, Writes("Project_Status_Report.md")),
    TaskSpec("meeting_summary", [], true, Writes("Meeting_Summary_Template.docx")),
    TaskSpec("milestone_status", [], true, Writes("Project_Milestone_Status_Form_Template.docx"))]

  function CreateTestPlanTasks(store: Mem): Outcome<seq<Task>> { Factory(store, TestPlan) }
  function CreateTestCaseTasks(store: Mem): Outcome<seq<Task>> { Factory(store, TestCase) }
  function CreateSecurityPerfTestTasks(store: Mem): Outcome<seq<Task>> { Factory(store, SecurityPerf) }
  function CreateQaChecklistTasks(store: Mem): Outcome<seq<Task>> { Factory(store, QaChecklists) }
  function CreateAuditTasks(store: Mem): Outcome<seq<Task>> { Factory(store, Audit) }
  function CreateTestExecutionTasks(store: Mem): Outcome<seq<Task>> { Factory(store, Execution) }
  function CreateTestManagementTasks(store: Mem): Outcome<seq<Task>> { Factory(store, Management) }

  /** Over a store that holds only strings, the planning, case, security and QA factories
      return three, three, two and two tasks ... */
  lemma TestingOk(store: Mem)
    requires AllText(store)
    ensures CreateTestPlanTasks(store).Ok? && |CreateTestPlanTasks(store).value| == 3
    ensures CreateTestCaseTasks(store).Ok? && |CreateTestCaseTasks(store).value| == 3
    ensures CreateSecurityPerfTestTasks(store).Ok? && |CreateSecurityPerfTestTasks(store).value| == 2
    ensures CreateQaChecklistTasks(store).Ok? && |CreateQaChecklistTasks(store).value| == 2
  {
    FactoryOfText(store, TestPlan);
    FactoryOfText(store, TestCase);
    FactoryOfText(store, SecurityPerf);
    FactoryOfText(store, QaChecklists);
  }

  /** ... and the audit, execution and management factories two, three and five. */
  lemma LaterTestingOk(store: Mem)
    requires AllText(store)
    ensures CreateAuditTasks(store).Ok? && |CreateAuditTasks(store).value| == 2
    ensures CreateTestExecutionTasks(store).Ok? && |CreateTestExecutionTasks(store).value| == 3
    ensures CreateTestManagementTasks(store).Ok? && |CreateTestManagementTasks(store).value| == 5
  {
    FactoryOfText(store, Audit);
    FactoryOfText(store, Execution);
    FactoryOfText(store, Management);
  }

  /** The keys the Str callbacks store under. */
  const StrKeys := ["penetration_test_report", "performance_test_report", "qa_doc_checklist",
                    "qa_system_checklist", "cobit_review", "cobit_audit"]

  /** Every testing callback either hands the output object to `write_output` first, or writes
      and stores `str(output)` under one of `StrKeys`. */
  predicate RawFirst(cb: seq<Effect>) {
    cb != [] && RawWrite(cb[0])
  }

  predicate StrSaving(cb: seq<Effect>) {
    |cb| == 2 && StrStep(cb[0]) && StrStep(cb[1]) && cb[0].WriteFile? && cb[1].SetKey?
    && cb[1].phase == Test && cb[1].key in StrKeys
  }

  /** The test plan, test case, execution and management callbacks hand over the object. */
  lemma RawGroups()
    ensures forall i :: 0 <= i < |TestPlan| ==> RawFirst(TestPlan[i].callback)
    ensures forall i :: 0 <= i < |TestCase| ==> RawFirst(TestCase[i].callback)
    ensures forall i :: 0 <= i < |Execution| ==> RawFirst(Execution[i].callback)
    ensures forall i :: 0 <= i < |Management| ==> RawFirst(Management[i].callback)
  {
  }

  /** The security, performance, QA and audit callbacks store `str(output)`. */
  lemma StrGroups()
    ensures forall i :: 0 <= i < |SecurityPerf| ==> StrSaving(SecurityPerf[i].callback)
    ensures forall i :: 0 <= i < |QaChecklists| ==> StrSaving(QaChecklists[i].callback)
    ensures forall i :: 0 <= i < |Audit| ==> StrSaving(Audit[i].callback)
  {
  }

  /** The entries the test-case, execution and management tasks read. */
  predicate ConsumerRead(p: string, k: string) {
    (p, k) in {(Test, "test_plan"), ("phase_2_requirement", "frd"), ("phase_2_requirement", "use_case_diagrams"),
               (Test, "test_case_specification"), (Test, "bug_list"), (Test, "test_summary_report")}
  }

  /** Those are all the reads of the three consuming factories. */
  lemma ConsumerReads()
    ensures forall i, j :: 0 <= i < |TestCase| && 0 <= j < |TestCase[i].slots| ==> ConsumerRead(TestCase[i].slots[j].phase, TestCase[i].slots[j].key)
    ensures forall i, j :: 0 <= i < |Execution| && 0 <= j < |Execution[i].slots| ==> ConsumerRead(Execution[i].slots[j].phase, Execution[i].slots[j].key)
    ensures forall i, j :: 0 <= i < |Management| && 0 <= j < |Management[i].slots| ==> ConsumerRead(Management[i].slots[j].phase, Management[i].slots[j].key)
  {
  }

  /** No testing callback changes an entry the consumers read: the test plan, test cases, bug
      list and summary are handed to `write_output` as objects, which raises before they are
      stored, and the callbacks that do store use other keys. */
  lemma CallbackKeepsConsumerReads(cb: seq<Effect>, o: TaskOutput, w: World, p: string, k: string)
    requires (RawFirst(cb) || StrSaving(cb)) && ConsumerRead(p, k)
    ensures Lookup(RunCallback(cb, o, w).world.store, p, k) == Lookup(w.store, p, k)
  {
    if RawFirst(cb) {
      RawWriteFirstRaises(cb, o, w);
    } else {
      assert (p, k) != (Test, cb[1].key);
      CallbackStoresRest(cb, o, w, p, k);
    }
  }

  /** So the tasks that consume in-phase documents are the same whether they are constructed
      before or after any testing task's callback ran: the test-case tasks ... */
  lemma CasesSeeNoTestingOutput(cb: seq<Effect>, o: TaskOutput, w: World)
    requires RawFirst(cb) || StrSaving(cb)
    ensures CreateTestCaseTasks(RunCallback(cb, o, w).world.store) == CreateTestCaseTasks(w.store)
  {
    ConsumerReadsKept(cb, o, w);
    ConsumerReads();
    FactorySameReads(RunCallback(cb, o, w).world.store, w.store, TestCase);
  }

  /** ... the execution tasks ... */
  lemma ExecutionSeesNoTestingOutput(cb: seq<Effect>, o: TaskOutput, w: World)
    requires RawFirst(cb) || StrSaving(cb)
    ensures CreateTestExecutionTasks(RunCallback(cb, o, w).world.store) == CreateTestExecutionTasks(w.store)
  {
    ConsumerReadsKept(cb, o, w);
    ConsumerReads();
    FactorySameReads(RunCallback(cb, o, w).world.store, w.store, Execution);
  }

  /** ... and the management tasks. */
  lemma ManagementSeesNoTestingOutput(cb: seq<Effect>, o: TaskOutput, w: World)
    requires RawFirst(cb) || StrSaving(cb)
    ensures CreateTestManagementTasks(RunCallback(cb, o, w).world.store) == CreateTestManagementTasks(w.store)
  {
    ConsumerReadsKept(cb, o, w);
    ConsumerReads();
    FactorySameReads(RunCallback(cb, o, w).world.store, w.store, Management);
  }

  lemma ConsumerReadsKept(cb: seq<Effect>, o: TaskOutput, w: World)
    requires RawFirst(cb) || StrSaving(cb)
    ensures forall p, k :: ConsumerRead(p, k) ==> Lookup(RunCallback(cb, o, w).world.store, p, k) == Lookup(w.store, p, k)
  {
    forall p, k | ConsumerRead(p, k) ensures Lookup(RunCallback(cb, o, w).world.store, p, k) == Lookup(w.store, p, k) {
      CallbackKeepsConsumerReads(cb, o, w, p, k);
    }
  }

  /** The QA tasks read the code-review checklist under "phase_5_testing", where the development
      checklist task does not store it; the audit tasks read the COBIT checklist under
      "phase_5_testing", where the PMO planning task does not store it. */
  lemma ReadsMissProducers()
    ensures StoreKeys(Development.Checklist.callback) == [(Development.Dev, "code_review_checklist")]
    ensures (CodeReview(400).phase, CodeReview(400).key) !in StoreKeys(Development.Checklist.callback)
    ensures Planning.Pmo[1].name == "cobit_checklist"
    ensures StoreKeys(Planning.Pmo[1].callback) == [("phase_1", "cobit_checklist")]
    ensures (Cobit.phase, Cobit.key) !in StoreKeys(Planning.Pmo[1].callback)
  {
    Planning.SavedWhere("cobit_checklist", "1_pmo", true);
  }
}
