/** tasks/quality_gate_tasks.py: the review task that closes a phase. */
module QualityGate {
  import opened Strings
  import opened SharedMemory
  import opened TaskModel

  /** The declared parameters of `create_quality_gate_task`, in order, and the one default. */
  const Params: seq<string> := ["project_manager_agent", "phase_name", "previous_tasks_output_key", "description_suffix"]
  const Defaults: map<string, string> := map["description_suffix" := ""]

  /** The text embedded when there is nothing to review. */
  const Placeholder := "Không có tài liệu nào để kiểm tra từ các task trước trong giai đoạn này."

  /** The store namespace `phase_name.replace(" ", "_").lower()`. */
  function Namespace(phaseName: string): (r: string)
    ensures |r| == |phaseName|
    ensures forall i :: 0 <= i < |r| ==> r[i] == if phaseName[i] == ' ' then '_' else LowerChar(phaseName[i])
  {
    ReplaceOneChar(phaseName, ' ', '_');
    Lower(Replace(phaseName, " ", "_"))
  }

  /** The report directory: the part before the first `:` (`split(':')[0]`, see `HeadSplit`),
      stripped, without "Phase ", spaces to `_`, lower case. */
  function ReportDir(phaseName: string): string {
    Lower(Replace(Replace(Strip(Head(phaseName, ':')), "Phase ", ""), " ", "_"))
  }

  /** The report file name actually written: the namespace without "phase_". */
  function ReportFile(phaseName: string): string {
    "validation_report_" + Replace(Namespace(phaseName), "phase_", "") + ".md"
  }

  function ReportPath(phaseName: string): string {
    "output/" + ReportDir(phaseName) + "/" + ReportFile(phaseName)
  }

  /** The file name the expected output announces: the namespace as it is. */
  function ExpectedFile(phaseName: string): string {
    "validation_report_" + Namespace(phaseName) + ".md"
  }

  /** The gate task reading `key` under namespace `ns`: when run it writes the report
      file at `path` and stores the report under the same namespace. */
  function GateSpecAt(ns: string, path: string, key: string): TaskSpec {
    TaskSpec("quality_gate", [Slot(ns, key, Placeholder, None)], true,
      [WriteFile(path, Str), SetKey(ns, "validation_report", Str)])
  }

  /** The gate for a phase name, reading `key` from the store as it is at construction. */
  function GateFor(store: Mem, phaseName: string, key: string): Task {
    GateTask(store, Namespace(phaseName), ReportPath(phaseName), key)
  }

  /** The gate embeds the text stored under (namespace, key), or the placeholder when that is
      missing or empty; a stored output object is embedded as its `str`. */
  function GateTask(store: Mem, ns: string, path: string, key: string): (r: Task)
    ensures r.spec == GateSpecAt(ns, path, key) && r.context == []
    ensures r.bound == [Render(Fallback(store, ns, key, Placeholder))]
  {
    var spec := GateSpecAt(ns, path, key);
    var text := Render(Fallback(store, ns, key, Placeholder));
    var b := BindAll(store, spec.slots);
    assert Bind(store, spec.slots[0]) == Ok(text);
    assert b.Ok? && |b.value| == 1 && b.value[0] == text;
    assert b.value == [text];
    Build(store, spec).value
  }

  /** `create_quality_gate_task(...)`: bind the arguments as Python does, then read the store. */
  function CreateQualityGateTask(store: Mem, args: seq<CallArg>): (r: Outcome<Task>)
    requires PosFirst(args)
    ensures r.Raise? <==> BindCall(Params, Defaults, args).Raise?
    ensures r.Raise? ==> r.error == TypeError
    ensures r.Ok? ==> var b := BindCall(Params, Defaults, args).value;
      "phase_name" in b && "previous_tasks_output_key" in b
      && r.value == GateFor(store, b["phase_name"], b["previous_tasks_output_key"])
  {
    ParamsFacts();
    match BindCall(Params, Defaults, args)
    case Raise(e) => Raise(e)
    case Ok(b) =>
      assert Params[1] in Params && Params[2] in Params;
      Ok(GateFor(store, b["phase_name"], b["previous_tasks_output_key"]))
  }

  lemma ParamsFacts()
    ensures DistinctNames(Params)
    ensures |Params| == 4 && Params[1] == "phase_name" && Params[2] == "previous_tasks_output_key"
  {
  }

  /** A call with three positional arguments binds them to the first three parameters and
      leaves the suffix empty. */
  lemma ThreePositional(store: Mem, agent: string, phaseName: string, key: string)
    ensures var args := [Pos(agent), Pos(phaseName), Pos(key)];
      PosFirst(args) && CreateQualityGateTask(store, args) == Ok(GateFor(store, phaseName, key))
  {
    var args := [Pos(agent), Pos(phaseName), Pos(key)];
    ParamsFacts();
    assert Params[3] in Defaults;
    PositionalCall(Params, Defaults, args);
  }

  /** A call with four positional arguments binds the fourth to the suffix. */
  lemma FourPositional(store: Mem, agent: string, phaseName: string, key: string, suffix: string)
    ensures var args := [Pos(agent), Pos(phaseName), Pos(key), Pos(suffix)];
      PosFirst(args) && CreateQualityGateTask(store, args) == Ok(GateFor(store, phaseName, key))
  {
    var args := [Pos(agent), Pos(phaseName), Pos(key), Pos(suffix)];
    ParamsFacts();
    PositionalCall(Params, Defaults, args);
  }

  /** The gate stores its report under the very namespace it reads from. */
  lemma GateReadsWhereItStores(ns: string, path: string, key: string)
    ensures var g := GateSpecAt(ns, path, key);
      StoreKeys(g.callback) == [(g.slots[0].phase, "validation_report")] && FilePaths(g.callback) == [path]
  {
  }

  /** The gate runs with `str(output)` throughout, so its callback never raises and leaves the report
      under the namespace. */
  lemma GateCallbackStores(ns: string, path: string, key: string, o: TaskOutput, w: World)
    ensures var r := RunCallback(GateSpecAt(ns, path, key).callback, o, w);
      r.error == None && Lookup(r.world.store, ns, "validation_report") == Some(Text(o.text))
      && path in r.world.disk.files && r.world.disk.files[path] == o.text
  {
    var cb := GateSpecAt(ns, path, key).callback;
    assert StrStep(cb[0]) && StrStep(cb[1]);
    assert cb[1] in cb;
    CallbackStores(cb, o, w, ns, "validation_report");
    var s := Step(cb[0], o, w);
    assert path in s.world.disk.files && s.world.disk.files[path] == o.text;
    assert cb[1..] == [cb[1]] && cb[1..][1..] == [];
    var t := Step(cb[1], o, s.world);
    assert t.world.disk == s.world.disk;
    assert RunCallback(cb[1..], o, s.world) == t;
  }

  /** A phase name of the form `Phase <digit>:<rest>` has namespace `phase_<digit>:` followed by
      the namespace of the rest. */
  lemma NamespaceOfPhase(d: char, rest: string)
    requires '0' <= d <= '9'
    ensures Namespace("Phase " + [d] + ":" + rest) == "phase_" + [d] + ":" + Namespace(rest)
  {
    var p := "Phase " + [d] + ":" + rest;
    var r := "phase_" + [d] + ":" + Namespace(rest);
    assert |Namespace(p)| == |r|;
    forall i | 0 <= i < |r| ensures Namespace(p)[i] == r[i] {
      if i >= 8 {
        assert p[i] == rest[i - 8];
      }
    }
  }

  /** For `Phase <digit>:<rest>` the report directory is the digit alone. */
  lemma ReportDirOfPhase(d: char, rest: string)
    requires '0' <= d <= '9'
    ensures ReportDir("Phase " + [d] + ":" + rest) == [d]
  {
    var head := "Phase " + [d];
    HeadBeforeColon(d, rest);
    HeadStripped(d);
    HeadWithoutPhase(d);
    DigitUnchanged(d);
  }

  lemma HeadBeforeColon(d: char, rest: string)
    requires '0' <= d <= '9'
    ensures Head("Phase " + [d] + ":" + rest, ':') == "Phase " + [d]
  {
    var head := "Phase " + [d];
    assert "Phase " + [d] + ":" + rest == head + [':'] + rest;
    assert ':' !in head;
    HeadFirst(head, ':', rest);
  }

  lemma HeadStripped(d: char)
    requires '0' <= d <= '9'
    ensures Strip("Phase " + [d]) == "Phase " + [d]
  {
    var head := "Phase " + [d];
    assert head[0] == 'P' && head[|head| - 1] == d;
    assert !IsSpace('P') && !IsSpace(d);
    StripNoop(head);
  }

  lemma HeadWithoutPhase(d: char)
    ensures Replace("Phase " + [d], "Phase ", "") == [d]
  {
    ReplaceLeading("Phase ", [d], "");
  }

  lemma DigitUnchanged(d: char)
    requires '0' <= d <= '9'
    ensures Lower(Replace([d], " ", "_")) == [d]
  {
    assert [d][..1] == [d];
    assert [d] != " " by {
      assert " "[0] == ' ';
    }
    assert [d][1..] == [];
    assert Replace([d], " ", "_") == [d];
  }

  /** `PhaseNames` with the concatenations written out by the caller. */
  lemma PhaseNamesSpelled(p: string, d: char, rest: string, nsRest: string, tail: string, ns: string, file: string, expected: string)
    requires '0' <= d <= '9' && p == "Phase " + [d] + ":" + rest
    requires Namespace(rest) == nsRest && 'h' !in nsRest && tail == [d] + ":" + nsRest
    requires "phase_" + tail == ns && "validation_report_" + tail + ".md" == file
    requires "validation_report_phase_" + tail + ".md" == expected
    ensures Namespace(p) == ns
    ensures ReportDir(p) == [d] && ReportFile(p) == file
    ensures ExpectedFile(p) == expected && expected != file
  {
    PhaseNames(p, d, rest, nsRest, tail);
  }

  /** For `Phase <digit>:<rest>`, with `tail` the digit, `:` and the namespace of the rest (which
      must hold no `h`, so that "phase_" occurs only at the start): the namespace is "phase_" + tail,
      the report goes to directory `<digit>` as `validation_report_<tail>.md`, and the expected
      output announces `validation_report_phase_<tail>.md` instead. */
  lemma PhaseNames(p: string, d: char, rest: string, nsRest: string, tail: string)
    requires '0' <= d <= '9' && p == "Phase " + [d] + ":" + rest
    requires Namespace(rest) == nsRest && 'h' !in nsRest && tail == [d] + ":" + nsRest
    ensures Namespace(p) == "phase_" + tail
    ensures ReportDir(p) == [d] && ReportFile(p) == "validation_report_" + tail + ".md"
    ensures ExpectedFile(p) == "validation_report_phase_" + tail + ".md"
    ensures ExpectedFile(p) != ReportFile(p)
  {
    PhaseNamespace(p, d, rest, nsRest, tail);
    ReportDirOfPhase(d, rest);
    ExpectedDiffers(p, tail);
  }

  lemma PhaseNamespace(p: string, d: char, rest: string, nsRest: string, tail: string)
    requires '0' <= d <= '9' && p == "Phase " + [d] + ":" + rest
    requires Namespace(rest) == nsRest && 'h' !in nsRest && tail == [d] + ":" + nsRest
    ensures Namespace(p) == "phase_" + tail
    ensures ReportFile(p) == "validation_report_" + tail + ".md"
  {
    NamespaceOfPhase(d, rest);
    assert "phase_" + [d] + ":" + nsRest == "phase_" + tail;
    assert tail[1..] == ":" + nsRest;
    ReportFileOfPhase(p, tail);
  }

  lemma ExpectedDiffers(p: string, tail: string)
    requires Namespace(p) == "phase_" + tail && |tail| >= 1 && 'h' !in tail[1..]
    ensures ExpectedFile(p) == "validation_report_phase_" + tail + ".md"
    ensures ExpectedFile(p) != ReportFile(p)
  {
    ReportFileOfPhase(p, tail);
  }

  lemma ReportFileOfPhase(p: string, tail: string)
    requires Namespace(p) == "phase_" + tail && |tail| >= 1 && 'h' !in tail[1..]
    ensures ReportFile(p) == "validation_report_" + tail + ".md"
    ensures |ExpectedFile(p)| == |ReportFile(p)| + 6
  {
    ReplaceLeading("phase_", tail, "");
    assert "phase_"[1] == 'h';
    ReplaceAbsent(tail, "phase_", "", 1);
    assert Replace(Namespace(p), "phase_", "") == tail;
  }
}
