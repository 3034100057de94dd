/** tasks/phase_0/input_tasks.py: the requirement interview. Six groups of questions are asked
    in order, the answers are recorded, and the transcript is stored and written to a file.
    `input()` is replaced by a given sequence of answers. */
module InputTasks {
  import opened SharedMemory
  import opened TaskModel

  datatype QuestionGroup = QuestionGroup(title: string, questions: seq<string>)

  const Planning := QuestionGroup("1. Lập Kế Hoạch & Yêu Cầu Chung", [
    "Tên hệ thống/dự án là gì?",
    "Mục tiêu chính của hệ thống là gì? (Ví dụ: giám sát nông nghiệp, nhà thông minh, theo dõi tài sản)",
    "Hệ thống này giải quyết vấn đề cụ thể nào cho người dùng hoặc doanh nghiệp?",
    "Ai là người dùng cuối của hệ thống? (Ví dụ: kỹ sư vận hành, người quản lý, người dân)",
    "Phạm vi của dự án là gì? (Chỉ giám sát, hay có cả điều khiển thiết bị từ xa?)",
    "Dự án có những ràng buộc nào về thời gian hoặc ngân sách không?"])
  const Hardware := QuestionGroup("2.1. Thiết Kế - Phần Cứng (The 'Things')", [
    "Hệ thống sẽ sử dụng những loại cảm biến (sensor) hoặc cơ cấu chấp hành (actuator) nào? (Ví dụ: nhiệt độ, độ ẩm, GPS, relay...)",
    "Thiết bị sẽ hoạt động bằng nguồn điện nào? (Pin, điện lưới, năng lượng mặt trời?)",
    "Môi trường hoạt động của các thiết bị là gì? (Trong nhà, ngoài trời, nhà máy công nghiệp?)",
    "Có yêu cầu cụ thể nào về vỏ hộp hay độ bền của thiết bị không (ví dụ: chống nước, chống bụi IP67)?"])
  const Connectivity := QuestionGroup("2.2. Thiết Kế - Kết Nối (Connectivity)", [
    "Dữ liệu từ thiết bị sẽ được gửi đi bằng phương thức kết nối nào? (WiFi, Bluetooth/BLE, 4G/5G, LoRaWAN?)",
    "Tần suất gửi dữ liệu dự kiến là bao lâu một lần? (Mỗi giây, mỗi phút, mỗi giờ?)",
    "Giao thức truyền tin dự kiến là gì? (MQTT, HTTP, CoAP, hay giao thức khác?)"])
  const Platform := QuestionGroup("2.3. Thiết Kế - Nền tảng & Dữ liệu (Platform & Data)", [
    "Dữ liệu thu thập sẽ được xử lý và lưu trữ ở đâu? (Trên cloud, tại một server cục bộ, hay xử lý tại biên - edge computing?)",
    "Có yêu cầu tích hợp với nền tảng cloud cụ thể nào không? (AWS, Azure Hub, Google Cloud?)",
    "Hệ thống cần lưu trữ dữ liệu trong bao lâu? Có yêu cầu gì về truy xuất dữ liệu lịch sử không?"])
  const Application := QuestionGroup("2.4. Thiết Kế - Ứng dụng & Giao diện (Application & UI/UX)", [
    "Người dùng sẽ tương tác với hệ thống qua đâu? (Web dashboard, ứng dụng di động, email/SMS cảnh báo?)",
    "Hệ thống cần cung cấp những loại báo cáo, thống kê hay biểu đồ trực quan hóa dữ liệu nào?",
    "Giao diện người dùng cần có những đặc điểm gì? (Đơn giản, hiện đại, hiển thị real-time?)"])
  const Operation := QuestionGroup("3. Vận Hành & Bảo Mật", [
    "Hệ thống có yêu cầu đặc biệt nào về bảo mật không? (Mã hóa dữ liệu, xác thực thiết bị an toàn?)",
    "Có cần hỗ trợ cập nhật phần mềm cho thiết bị từ xa (OTA - Over-the-Air) không?",
    "Làm thế nào để quản lý và giám sát trạng thái của hàng loạt thiết bị? (Ví dụ: trạng thái pin, kết nối)"])

  /** `all_question_groups`, in the order they are asked. */
  const Groups := [Planning, Hardware, Connectivity, Platform, Application, Operation]

  /** The questions of the first `n` groups of `gs`, group after group. */
  function Asked(gs: seq<QuestionGroup>, n: nat): (r: seq<string>)
    requires n <= |gs|
  {
    if n == 0 then [] else Asked(gs, n - 1) + gs[n - 1].questions
  }

  /** The text one group opens with. */
  function Header(title: string): string {
    "## " + title + "\n"
  }

  /** The text one answered question adds. */
  function Entry(question: string, answer: string): string {
    "**Câu hỏi:** " + question + "\n**Trả lời:** " + answer + "\n\n"
  }

  /** The entries of the first `j` questions of `qs`, answered in order by the answers from
      index `start` on. */
  function Answered(qs: seq<string>, answers: seq<string>, start: nat, j: nat): string
    requires j <= |qs| && start + j <= |answers|
  {
    if j == 0 then "" else Answered(qs, answers, start, j - 1) + Entry(qs[j - 1], answers[start + j - 1])
  }

  /** `system_request` after the first `n` groups of `gs` are asked, consuming `answers` from
      the front. */
  function Transcript(gs: seq<QuestionGroup>, n: nat, answers: seq<string>): string
    requires n <= |gs| && |Asked(gs, n)| <= |answers|
  {
    if n == 0 then ""
    else
      var k := |Asked(gs, n - 1)|;
      var g := gs[n - 1];
      Transcript(gs, n - 1, answers) + Header(g.title) + Answered(g.questions, answers, k, |g.questions|)
  }

  /** `system_info` after questions `qs` are answered in order: a later answer to the same
      question replaces an earlier one. */
  function Recorded(qs: seq<string>, answers: seq<string>): map<string, string>
    requires |qs| <= |answers|
    decreases |qs|
  {
    if qs == [] then map[] else Recorded(qs[..|qs| - 1], answers)[qs[|qs| - 1] := answers[|qs| - 1]]
  }

  /** One more question of the current group answered, in the transcript ... */
  lemma {:induction false} TextStep(request0: string, questions: seq<string>, answers: seq<string>, start: nat, j: nat)
    requires j < |questions| && start + j < |answers|
    ensures request0 + Answered(questions, answers, start, j) + Entry(questions[j], answers[start + j])
         == request0 + Answered(questions, answers, start, j + 1)
  {
  }

  /** ... and in the recorded answers. */
  lemma {:induction false} RecordedStep(asked: seq<string>, questions: seq<string>, answers: seq<string>, j: nat)
    requires j < |questions| && |asked| + j < |answers|
    ensures Recorded(asked + questions[..j], answers)[questions[j] := answers[|asked| + j]]
         == Recorded(asked + questions[..j + 1], answers)
  {
    assert (asked + questions[..j + 1])[..|asked| + j] == asked + questions[..j];
  }

  /** The recorded answers depend only on the answers actually consumed. */
  lemma {:induction false} RecordedPrefix(qs: seq<string>, a: seq<string>, b: seq<string>)
    requires |qs| <= |a| && |qs| <= |b| && a[..|qs|] == b[..|qs|]
    ensures Recorded(qs, a) == Recorded(qs, b)
    decreases |qs|
  {
    if qs != [] {
      var init := qs[..|qs| - 1];
      assert a[..|init|] == a[..|qs|][..|init|] && b[..|init|] == b[..|qs|][..|init|];
      RecordedPrefix(init, a, b);
      assert a[|qs| - 1] == a[..|qs|][|qs| - 1];
      assert b[|qs| - 1] == b[..|qs|][|qs| - 1];
    }
  }

  /** `run_input_collection()`: every group's header, then each of its questions answered from
      `answers` in order. When the answers run out, `input()` raises EOFError and neither the
      store nor the file is touched. Otherwise the transcript is stored under
      ("phase_0", "system_request") and written to `output/system_request.txt`. */
  method RunInputCollection(mem: Memory<Value>, fs: FileSystem, groups: seq<QuestionGroup>, answers: seq<string>)
    returns (systemRequest: string, systemInfo: map<string, string>, err: Option<PyError>)
    modifies mem, fs
    ensures err.None? <==> |Asked(groups, |groups|)| <= |answers|
    ensures err.Some? ==> err == Some(EOFError) && mem.data == old(mem.data) && fs.Snapshot() == old(fs.Snapshot())
    ensures err.None? ==> systemRequest == Transcript(groups, |groups|, answers)
    ensures err.None? ==> systemInfo == Recorded(Asked(groups, |groups|), answers)
    ensures err.None? ==> mem.data == Put(old(mem.data), "phase_0", "system_request", Text(systemRequest))
    ensures err.None? ==> fs.Snapshot() == WriteOutput(old(fs.Snapshot()), "output/system_request.txt", Text(systemRequest)).0
  {
    systemRequest, systemInfo, err := AskAll(groups, answers);
    if err.None? {
      mem.Set("phase_0", "system_request", Text(systemRequest));
      err := fs.Write("output/system_request.txt", Text(systemRequest));
    }
  }

  /** The outer loop over the groups: the interview itself, before anything is saved. */
  method AskAll(groups: seq<QuestionGroup>, answers: seq<string>)
    returns (systemRequest: string, systemInfo: map<string, string>, err: Option<PyError>)
    ensures err.None? <==> |Asked(groups, |groups|)| <= |answers|
    ensures err.Some? ==> err == Some(EOFError)
    ensures err.None? ==> systemRequest == Transcript(groups, |groups|, answers)
    ensures err.None? ==> systemInfo == Recorded(Asked(groups, |groups|), answers)
  {
    systemInfo := map[];
    systemRequest := "";
    err := None;
    var used := 0;
    var g := 0;
    while g < |groups|
      invariant 0 <= g <= |groups|
      invariant used == |Asked(groups, g)| <= |answers|
      invariant systemRequest == Transcript(groups, g, answers)
      invariant systemInfo == Recorded(Asked(groups, g), answers)
      invariant err.None?
    {
      systemRequest, systemInfo, err := AskNext(groups, g, answers, used, systemRequest, systemInfo);
      if err.Some? {
        return;
      }
      used := used + |groups[g].questions|;
      g := g + 1;
    }
  }

  /** One pass of the outer loop: group `g`'s header, then its questions. */
  method AskNext(groups: seq<QuestionGroup>, g: nat, answers: seq<string>, used: nat,
                 request0: string, info0: map<string, string>)
    returns (request: string, info: map<string, string>, err: Option<PyError>)
    requires g < |groups| && used == |Asked(groups, g)| <= |answers|
    requires request0 == Transcript(groups, g, answers) && info0 == Recorded(Asked(groups, g), answers)
    ensures Asked(groups, g + 1) == Asked(groups, g) + groups[g].questions
    ensures err.None? <==> |Asked(groups, g + 1)| <= |answers|
    ensures err.Some? ==> err == Some(EOFError) && |Asked(groups, |groups|)| > |answers|
    ensures err.None? ==> request == Transcript(groups, g + 1, answers)
    ensures err.None? ==> info == Recorded(Asked(groups, g + 1), answers)
  {
    ghost var asked := Asked(groups, g);
    request, info, err := AskGroup(request0 + Header(groups[g].title), info0, asked, groups[g].questions, answers, used);
    if err.Some? {
      EofLeft(groups, g, |answers| - used, used);
    } else {
      GroupStep(groups, g, answers);
    }
  }

  /** The inner loop over one group's questions, continuing `system_request` and `system_info`
      after the questions `asked` have consumed the first `start` answers. */
  method AskGroup(request0: string, info0: map<string, string>, ghost asked: seq<string>, questions: seq<string>,
                  answers: seq<string>, start: nat)
    returns (request: string, info: map<string, string>, err: Option<PyError>)
    requires start == |asked| <= |answers| && info0 == Recorded(asked, answers)
    ensures err.None? <==> start + |questions| <= |answers|
    ensures err.Some? ==> err == Some(EOFError)
    ensures err.None? ==> request == request0 + Answered(questions, answers, start, |questions|)
    ensures err.None? ==> info == Recorded(asked + questions, answers)
  {
    request := request0;
    info := info0;
    err := None;
    var used := start;
    var j := 0;
    assert asked + questions[..j] == asked;
    while j < |questions|
      invariant 0 <= j <= |questions| && used == start + j <= |answers|
      invariant request == request0 + Answered(questions, answers, start, j)
      invariant info == Recorded(asked + questions[..j], answers)
    {
      if used == |answers| {
        err := Some(EOFError);
        return;
      }
      var answer := answers[used];
      info := info[questions[j] := answer];
      request := request + Entry(questions[j], answer);
      TextStep(request0, questions, answers, start, j);
      RecordedStep(asked, questions, answers, j);
      used := used + 1;
      j := j + 1;
    }
    assert questions[..j] == questions;
  }

  /** One more group asked, in the questions and in the transcript. */
  lemma {:induction false} GroupStep(gs: seq<QuestionGroup>, g: nat, answers: seq<string>)
    requires g < |gs| && |Asked(gs, g)| + |gs[g].questions| <= |answers|
    ensures Asked(gs, g + 1) == Asked(gs, g) + gs[g].questions
    ensures var k := |Asked(gs, g)|;
      Transcript(gs, g + 1, answers)
      == Transcript(gs, g, answers) + Header(gs[g].title) + Answered(gs[g].questions, answers, k, |gs[g].questions|)
  {
    assert Asked(gs, g + 1) == Asked(gs, g) + gs[g].questions;
    var k := |Asked(gs, g)|;
    var rest := Answered(gs[g].questions, answers, k, |gs[g].questions|);
    assert Transcript(gs, g + 1, answers) == Transcript(gs, g, answers) + Header(gs[g].title) + rest;
  }

  /** Running out of answers inside group `g` means there are fewer answers than questions. */
  lemma {:induction false} EofLeft(groups: seq<QuestionGroup>, g: nat, j: nat, used: nat)
    requires g < |groups| && j < |groups[g].questions| && used == |Asked(groups, g)|
    ensures |Asked(groups, |groups|)| > used + j
  {
    AskedMonotone(groups, g + 1, |groups|);
  }

  /** Asking more groups never asks fewer questions. */
  lemma {:induction false} AskedMonotone(gs: seq<QuestionGroup>, m: nat, n: nat)
    requires m <= n <= |gs|
    ensures |Asked(gs, m)| <= |Asked(gs, n)|
    decreases n - m
  {
    if m < n {
      AskedMonotone(gs, m, n - 1);
    }
  }

  /** The interview asks six groups of six, four, three, three, three and three questions. */
  lemma {:induction false} GroupSizes()
    ensures Groups == [Planning, Hardware, Connectivity, Platform, Application, Operation]
    ensures |Planning.questions| == 6 && |Hardware.questions| == 4 && |Connectivity.questions| == 3
    ensures |Platform.questions| == 3 && |Application.questions| == 3 && |Operation.questions| == 3
  {
  }

  /** The questions of six groups, group after group. */
  lemma {:induction false} AskedSix(gs: seq<QuestionGroup>)
    requires |gs| == 6
    ensures Asked(gs, 6) == gs[0].questions + gs[1].questions + gs[2].questions + gs[3].questions + gs[4].questions
                            + gs[5].questions
  {
    assert Asked(gs, 1) == gs[0].questions;
    assert Asked(gs, 2) == gs[0].questions + gs[1].questions;
    assert Asked(gs, 3) == gs[0].questions + gs[1].questions + gs[2].questions;
    assert Asked(gs, 4) == gs[0].questions + gs[1].questions + gs[2].questions + gs[3].questions;
    assert Asked(gs, 5) == gs[0].questions + gs[1].questions + gs[2].questions + gs[3].questions + gs[4].questions;
  }

  /** The whole interview: twenty-two questions, group after group. */
  lemma {:induction false} AllQuestions()
    ensures Asked(Groups, |Groups|) == Planning.questions + Hardware.questions + Connectivity.questions
                                       + Platform.questions + Application.questions + Operation.questions
    ensures |Asked(Groups, |Groups|)| == 22
  {
    GroupSizes();
    AskedSix(Groups);
  }

  predicate Distinct(s: seq<string>) {
    forall i, j :: 0 <= i < j < |s| ==> s[i] != s[j]
  }

  predicate Disjoint(a: seq<string>, b: seq<string>) {
    forall i, j :: 0 <= i < |a| && 0 <= j < |b| ==> a[i] != b[j]
  }

  lemma {:induction false} DistinctConcat(a: seq<string>, b: seq<string>)
    requires Distinct(a) && Distinct(b) && Disjoint(a, b)
    ensures Distinct(a + b)
  {
  }

  lemma {:induction false} DisjointConcat(a: seq<string>, b: seq<string>, c: seq<string>)
    requires Disjoint(a, c) && Disjoint(b, c)
    ensures Disjoint(a + b, c)
  {
  }

  // Each group's questions differ from one another and from every other group's, one pair of
  // groups at a time.
  lemma {:induction false} DistinctPlanning() ensures Distinct(Planning.questions) {}
  lemma {:induction false} DistinctHardware() ensures Distinct(Hardware.questions) {}
  lemma {:induction false} DistinctConnectivity() ensures Distinct(Connectivity.questions) {}
  lemma {:induction false} DistinctPlatform() ensures Distinct(Platform.questions) {}
  lemma {:induction false} DistinctApplication() ensures Distinct(Application.questions) {}
  lemma {:induction false} DistinctOperation() ensures Distinct(Operation.questions) {}
  lemma {:induction false} DisjointPlanningHardware() ensures Disjoint(Planning.questions, Hardware.questions) {}
  lemma {:induction false} DisjointPlanningConnectivity() ensures Disjoint(Planning.questions, Connectivity.questions) {}
  lemma {:induction false} DisjointHardwareConnectivity() ensures Disjoint(Hardware.questions, Connectivity.questions) {}
  lemma {:induction false} DisjointPlanningPlatform() ensures Disjoint(Planning.questions, Platform.questions) {}
  lemma {:induction false} DisjointHardwarePlatform() ensures Disjoint(Hardware.questions, Platform.questions) {}
  lemma {:induction false} DisjointConnectivityPlatform() ensures Disjoint(Connectivity.questions, Platform.questions) {}
  lemma {:induction false} DisjointPlanningApplication() ensures Disjoint(Planning.questions, Application.questions) {}
  lemma {:induction false} DisjointHardwareApplication() ensures Disjoint(Hardware.questions, Application.questions) {}
  lemma {:induction false} DisjointConnectivityApplication() ensures Disjoint(Connectivity.questions, Application.questions) {}
  lemma {:induction false} DisjointPlatformApplication() ensures Disjoint(Platform.questions, Application.questions) {}
  lemma {:induction false} DisjointPlanningOperation() ensures Disjoint(Planning.questions, Operation.questions) {}
  lemma {:induction false} DisjointHardwareOperation() ensures Disjoint(Hardware.questions, Operation.questions) {}
  lemma {:induction false} DisjointConnectivityOperation() ensures Disjoint(Connectivity.questions, Operation.questions) {}
  lemma {:induction false} DisjointPlatformOperation() ensures Disjoint(Platform.questions, Operation.questions) {}
  lemma {:induction false} DisjointApplicationOperation() ensures Disjoint(Application.questions, Operation.questions) {}

  /** No question is asked twice. */
  lemma {:induction false} QuestionsDistinct()
    ensures Distinct(Asked(Groups, |Groups|))
  {
    AllQuestions();
    var p, h, c := Planning.questions, Hardware.questions, Connectivity.questions;
    var f, a, o := Platform.questions, Application.questions, Operation.questions;
    DistinctPlanning(); DistinctHardware(); DistinctConnectivity();
    DistinctPlatform(); DistinctApplication(); DistinctOperation();
    DisjointPlanningHardware();
    DistinctConcat(p, h);
    DisjointPlanningConnectivity(); DisjointHardwareConnectivity();
    DisjointConcat(p, h, c);
    DistinctConcat(p + h, c);
    DisjointPlanningPlatform(); DisjointHardwarePlatform(); DisjointConnectivityPlatform();
    DisjointConcat(p, h, f); DisjointConcat(p + h, c, f);
    DistinctConcat(p + h + c, f);
    DisjointPlanningApplication(); DisjointHardwareApplication(); DisjointConnectivityApplication();
    DisjointPlatformApplication();
    DisjointConcat(p, h, a); DisjointConcat(p + h, c, a); DisjointConcat(p + h + c, f, a);
    DistinctConcat(p + h + c + f, a);
    DisjointPlanningOperation(); DisjointHardwareOperation(); DisjointConnectivityOperation();
    DisjointPlatformOperation(); DisjointApplicationOperation();
    DisjointConcat(p, h, o); DisjointConcat(p + h, c, o); DisjointConcat(p + h + c, f, o);
    DisjointConcat(p + h + c + f, a, o);
    DistinctConcat(p + h + c + f + a, o);
  }

  /** When no question repeats, the recorded answers map exactly the questions asked, each to
      the answer given to it. */
  lemma {:induction false} RecordedMaps(qs: seq<string>, answers: seq<string>)
    requires |qs| <= |answers|
    requires Distinct(qs)
    ensures Recorded(qs, answers).Keys == set q | q in qs
    ensures forall k :: 0 <= k < |qs| ==> Recorded(qs, answers)[qs[k]] == answers[k]
    decreases |qs|
  {
    if qs != [] {
      var init := qs[..|qs| - 1];
      RecordedMaps(init, answers);
      assert qs == init + [qs[|qs| - 1]];
      forall k | 0 <= k < |qs| - 1
        ensures Recorded(qs, answers)[qs[k]] == answers[k]
      {
        assert qs[k] == init[k];
      }
    }
  }

  /** A run that completes records each of the twenty-two questions, and nothing else, with the
      answer given to it. */
  lemma {:induction false} InterviewRecords(answers: seq<string>)
    requires 22 <= |answers|
    ensures var qs := Asked(Groups, |Groups|);
      |qs| == 22 && Recorded(qs, answers).Keys == (set q | q in qs)
      && forall k :: 0 <= k < |qs| ==> Recorded(qs, answers)[qs[k]] == answers[k]
  {
    AllQuestions();
    QuestionsDistinct();
    RecordedMaps(Asked(Groups, |Groups|), answers);
  }

  /** An earlier state of the transcript is a prefix of every later one: groups appear in list
      order and nothing written is ever changed. */
  lemma {:induction false} TranscriptGrows(gs: seq<QuestionGroup>, m: nat, n: nat, answers: seq<string>)
    requires m <= n <= |gs| && |Asked(gs, n)| <= |answers|
    ensures |Asked(gs, m)| <= |Asked(gs, n)|
    ensures Transcript(gs, m, answers) <= Transcript(gs, n, answers)
    decreases n - m
  {
    AskedMonotone(gs, m, n);
    if m < n {
      AskedMonotone(gs, n - 1, n);
      TranscriptGrows(gs, m, n - 1, answers);
    }
  }

  /** The transcript of a run over at least one group starts with the first group's header. */
  lemma {:induction false} FirstHeader(gs: seq<QuestionGroup>, n: nat, answers: seq<string>)
    requires 1 <= n <= |gs| && |Asked(gs, n)| <= |answers|
    ensures Header(gs[0].title) <= Transcript(gs, n, answers)
  {
    TranscriptGrows(gs, 1, n, answers);
    FirstGroup(gs, answers);
    HeadOfPrefix(Header(gs[0].title), Answered(gs[0].questions, answers, 0, |gs[0].questions|), Transcript(gs, n, answers));
  }

  lemma {:induction false} FirstGroup(gs: seq<QuestionGroup>, answers: seq<string>)
    requires 1 <= |gs| && |Asked(gs, 1)| <= |answers|
    ensures Transcript(gs, 1, answers) == Header(gs[0].title) + Answered(gs[0].questions, answers, 0, |gs[0].questions|)
  {
  }

  lemma {:induction false} HeadOfPrefix(a: string, b: string, c: string)
    requires a + b <= c
    ensures a <= c
  {
    assert c[..|a|] == (a + b)[..|a|];
  }
}
