/** bootstrap.py: `run_project_crew`, the start-up sequence. It creates one output directory
    per phase and seeds the store with the request. Then it runs the eight phases in a fixed
    order: phase 0 without an exception guard, phases 1 to 7 each inside its own
    try/except. The outcome of each block that builds and runs a crew is a parameter;
    `CiteAfter` says what the block produces as the source is written. */
module Bootstrap {
  import opened SharedMemory
  import opened TaskModel
  import Planning
  import Initiation

  /** What the run logs, phase by phase. */
  datatype Event =
    | Begin(phase: nat)               // "Bắt đầu Giai đoạn i"
    | Skipped(phase: nat)             // "... chưa được triển khai đầy đủ. Bỏ qua."
    | Finished(phase: nat)            // "Hoàn thành Giai đoạn i", then the crew's result
    | Failed(phase: nat, error: PyError)  // "Lỗi khi chạy Giai đoạn i", from the except clause
    | Completed                       // "Toàn bộ quy trình dự án đã hoàn tất."

  /** The body of a phase: a log line only, or building and running a crew, which ends in
      success or in the exception it raised. */
  datatype Body = SkipOnly | Crew(outcome: Option<PyError>)

  datatype Phase = Phase(guarded: bool, body: Body)

  predicate Raises(b: Body) {
    b.Crew? && b.outcome.Some?
  }

  /** What one phase logs, and the exception that escapes from it: a guarded phase logs its
      exception and lets none escape; an unguarded one lets its exception abort the run. */
  function PhaseEvents(i: nat, p: Phase): (seq<Event>, Option<PyError>)
  {
    match p.body
    case SkipOnly => ([Begin(i), Skipped(i)], None)
    case Crew(None) => ([Begin(i), Finished(i)], None)
    case Crew(Some(e)) => if p.guarded then ([Begin(i), Failed(i, e)], None) else ([Begin(i)], Some(e))
  }

  /** The log of the first `n` phases run one after another, stopping at the first
      exception that escapes. */
  function Trace(phases: seq<Phase>, n: nat): (seq<Event>, Option<PyError>)
    requires n <= |phases|
  {
    if n == 0 then ([], None)
    else
      var before := Trace(phases, n - 1);
      if before.1.Some? then before
      else
        var step := PhaseEvents(n - 1, phases[n - 1]);
        (before.0 + step.0, step.1)
  }

  /** The whole run: every phase, then the completion line unless an exception escaped. */
  function RunAll(phases: seq<Phase>): (seq<Event>, Option<PyError>)
  {
    var t := Trace(phases, |phases|);
    if t.1.None? then (t.0 + [Completed], None) else t
  }

  /** The phases whose start was logged, in order. */
  function Begins(log: seq<Event>): seq<nat>
  {
    if log == [] then []
    else Begins(log[..|log| - 1]) + (if log[|log| - 1].Begin? then [log[|log| - 1].phase] else [])
  }

  /** No exception escapes from any of the first `n` phases. */
  predicate NoneEscapes(phases: seq<Phase>, n: nat)
    requires n <= |phases|
  {
    forall k :: 0 <= k < n ==> phases[k].guarded || !Raises(phases[k].body)
  }

  lemma {:induction false} BeginsAppend(a: seq<Event>, b: seq<Event>)
    ensures Begins(a + b) == Begins(a) + Begins(b)
    decreases |b|
  {
    if b == [] {
      assert a + b == a;
    } else {
      var init := b[..|b| - 1];
      assert (a + b)[..|a + b| - 1] == a + init;
      assert (a + b)[|a + b| - 1] == b[|b| - 1];
      BeginsAppend(a, init);
    }
  }

  lemma PhaseBegins(i: nat, p: Phase)
    ensures Begins(PhaseEvents(i, p).0) == [i]
  {
    var ev := PhaseEvents(i, p).0;
    assert ev[..1] == [Begin(i)];
    if |ev| == 2 {
      assert ev[..|ev| - 1] == [Begin(i)];
    }
    assert Begins([Begin(i)]) == [i] by {
      assert [Begin(i)][..0] == [];
    }
  }

  /** When no exception escapes, every phase starts, in order, and nothing is reported as
      escaping. */
  lemma {:induction false} AllStart(phases: seq<Phase>, n: nat)
    requires n <= |phases| && NoneEscapes(phases, n)
    ensures Trace(phases, n).1 == None
    ensures Begins(Trace(phases, n).0) == Upto(n)
  {
    if n > 0 {
      AllStart(phases, n - 1);
      var before := Trace(phases, n - 1);
      var step := PhaseEvents(n - 1, phases[n - 1]);
      BeginsAppend(before.0, step.0);
      PhaseBegins(n - 1, phases[n - 1]);
      assert Upto(n - 1) + [n - 1] == Upto(n);
    }
  }

  /** Each guarded phase's exception is logged and the next phase still starts: when nothing
      escapes, all phases start in order and the run ends with the completion line. */
  lemma {:induction false} GuardedRunCompletes(phases: seq<Phase>)
    requires NoneEscapes(phases, |phases|)
    ensures RunAll(phases).1 == None
    ensures Begins(RunAll(phases).0) == Upto(|phases|)
    ensures RunAll(phases).0 != [] && RunAll(phases).0[|RunAll(phases).0| - 1] == Completed
  {
    AllStart(phases, |phases|);
    BeginsAppend(Trace(phases, |phases|).0, [Completed]);
    assert Begins([Completed]) == [] by {
      assert [Completed][..0] == [];
    }
  }

  /** Once an exception has escaped, later phases add nothing. */
  lemma {:induction false} TraceSticks(phases: seq<Phase>, m: nat, n: nat)
    requires m <= n <= |phases| && Trace(phases, m).1.Some?
    ensures Trace(phases, n) == Trace(phases, m)
    decreases n - m
  {
    if m < n {
      TraceSticks(phases, m, n - 1);
    }
  }

  /** An exception escaping from phase `i` aborts the run: phases 0..i started, no later one
      starts, the completion line is never logged, and the exception is the run's outcome. */
  lemma {:induction false} UnguardedAborts(phases: seq<Phase>, i: nat)
    requires i < |phases| && NoneEscapes(phases, i)
    requires !phases[i].guarded && Raises(phases[i].body)
    ensures RunAll(phases).1 == phases[i].body.outcome
    ensures Begins(RunAll(phases).0) == Upto(i + 1)
    ensures Completed !in RunAll(phases).0
  {
    AllStart(phases, i);
    var before := Trace(phases, i);
    var step := PhaseEvents(i, phases[i]);
    assert Trace(phases, i + 1) == (before.0 + step.0, step.1);
    TraceSticks(phases, i + 1, |phases|);
    BeginsAppend(before.0, step.0);
    PhaseBegins(i, phases[i]);
    assert Upto(i) + [i] == Upto(i + 1);
    NoCompleted(phases, i + 1);
  }

  lemma {:induction false} NoCompleted(phases: seq<Phase>, n: nat)
    requires n <= |phases|
    ensures Completed !in Trace(phases, n).0
  {
    if n > 0 {
      NoCompleted(phases, n - 1);
    }
  }

  /** The phases as `run_project_crew` arranges them: the initiation crew without a guard,
      five phases that only log a skip, then the deployment and maintenance crews, each
      guarded. The arguments are the outcomes of the three crew blocks. */
  function Phases(initiation: Option<PyError>, deployment: Option<PyError>, maintenance: Option<PyError>): seq<Phase>
  {
    [Phase(false, Crew(initiation)), Phase(true, SkipOnly), Phase(true, SkipOnly), Phase(true, SkipOnly),
     Phase(true, SkipOnly), Phase(true, SkipOnly), Phase(true, Crew(deployment)), Phase(true, Crew(maintenance))]
  }

  /** The shape of the run: phases 0 to 7 in this order, phase 0 unguarded, 1 to 7 guarded,
      1 to 5 logging a skip and running nothing. */
  lemma PhasesShape(initiation: Option<PyError>, deployment: Option<PyError>, maintenance: Option<PyError>)
    ensures var ps := Phases(initiation, deployment, maintenance);
      |ps| == 8 && !ps[0].guarded && (forall k :: 1 <= k < 8 ==> ps[k].guarded)
      && (forall k :: 1 <= k <= 5 ==> ps[k].body == SkipOnly)
      && (forall k :: 1 <= k <= 5 ==> PhaseEvents(k, ps[k]) == ([Begin(k), Skipped(k)], None))
  {
  }

  /** What the run logs for given crew outcomes: an initiation failure aborts after the first
      line; otherwise every phase is logged, whatever deployment and maintenance do, and the
      completion line comes last. */
  lemma RunTrace(initiation: Option<PyError>, deployment: Option<PyError>, maintenance: Option<PyError>)
    ensures var ps := Phases(initiation, deployment, maintenance);
      initiation.Some? ==> RunAll(ps) == ([Begin(0)], initiation)
    ensures var ps := Phases(initiation, deployment, maintenance);
      initiation.None? ==>
        (RunAll(ps).1 == None && Begins(RunAll(ps).0) == Upto(8) && RunAll(ps).0[|RunAll(ps).0| - 1] == Completed)
  {
    var ps := Phases(initiation, deployment, maintenance);
    if initiation.Some? {
      assert ps[0] == Phase(false, Crew(initiation));
      assert PhaseEvents(0, ps[0]) == ([Begin(0)], initiation);
      StepTrace(ps, 0);
      assert [] + [Begin(0)] == [Begin(0)];
      TraceSticks(ps, 1, 8);
    } else {
      GuardedRunCompletes(ps);
    }
  }

  /** A crew block as written: create the agents (unpacking them at line 72 for phase 0),
      build the tasks, then evaluate the `[cite: ...]` subscript glued to the factory call,
      which raises NameError because `cite` is not defined; the crew is never kicked off. */
  function CiteAfter(agents: Option<PyError>, tasks: Outcome<seq<Task>>): (r: Option<PyError>)
  {
    if agents.Some? then agents else if tasks.Raise? then Some(tasks.error) else Some(NameError)
  }

  /** Every as-written crew block raises; with agents created and tasks built, the exception
      is the NameError of the citation. */
  lemma CiteRaises(agents: Option<PyError>, tasks: Outcome<seq<Task>>)
    ensures CiteAfter(agents, tasks).Some?
    ensures agents.None? && tasks.Ok? ==> CiteAfter(agents, tasks) == Some(NameError)
  {
  }

  /** So, as written, phase 0 always aborts the run after its first log line: no later phase
      starts and the completion line is never logged. With the agents created, the exception
      is the citation's NameError, because the initiation factory itself never raises. */
  lemma AsWrittenAborts(agents: Option<PyError>, store: Mem, manager: string,
                        deployment: Option<PyError>, maintenance: Option<PyError>)
    ensures var o := CiteAfter(agents, Initiation.CreateInitiationTasks(store, manager));
      RunAll(Phases(o, deployment, maintenance)) == ([Begin(0)], o) && o.Some?
    ensures agents.None? ==> CiteAfter(agents, Initiation.CreateInitiationTasks(store, manager)) == Some(NameError)
  {
    Initiation.InitiationOk(store, manager);
    var o := CiteAfter(agents, Initiation.CreateInitiationTasks(store, manager));
    RunTrace(o, deployment, maintenance);
  }

  /** The phase directory names, in phase order. */
  const PhaseNames := ["initiation", "planning", "requirements", "design", "development", "testing",
                       "deployment", "maintenance"]

  /** `os.path.join("output", f"{i}_<name>")`. */
  function PhaseDir(i: nat): string
    requires i < 8
  {
    "output/" + [('0' as int + i) as char] + "_" + PhaseNames[i]
  }

  /** The directories made by the first `n` passes of the start-up loop. */
  function Made(n: nat): set<string>
    requires n <= 8
  {
    if n == 0 then {} else Made(n - 1) + DirChain(PhaseDir(n - 1))
  }

  lemma {:induction false} NoSlashInName(i: nat)
    requires i < 8
    ensures '/' !in [('0' as int + i) as char] + "_" + PhaseNames[i]
  {
    var name := [('0' as int + i) as char] + "_" + PhaseNames[i];
    assert forall c :: c in PhaseNames[i] ==> c != '/';
    assert forall c :: c in name ==> c == name[0] || c == '_' || c in PhaseNames[i];
  }

  lemma DirChainOfJoin(folder: string, name: string)
    requires folder != [] && '/' !in folder && '/' !in name
    ensures DirChain(folder + "/" + name) == {folder + "/" + name, folder}
  {
    Planning.DirnameOfJoin(folder, name);
    assert DirChain(folder) == {folder} by {
      assert Dirname(folder) == [];
      assert DirChain([]) == {};
    }
  }

  /** Each pass makes `output/<i>_<name>` and, the first time, `output` itself. */
  lemma PhaseDirMade(i: nat)
    requires i < 8
    ensures DirChain(PhaseDir(i)) == {PhaseDir(i), "output"}
  {
    NoSlashInName(i);
    var name := [('0' as int + i) as char] + "_" + PhaseNames[i];
    assert PhaseDir(i) == "output" + "/" + name;
    DirChainOfJoin("output", name);
  }

  /** The phase directories of the first `n` phases. */
  function PhaseDirs(n: nat): set<string>
    requires n <= 8
  {
    if n == 0 then {} else PhaseDirs(n - 1) + {PhaseDir(n - 1)}
  }

  /** The loop makes exactly `output` and `output/<i>_<name>` for i = 0..7. */
  lemma {:induction false} MadeDirs(n: nat)
    requires 1 <= n <= 8
    ensures Made(n) == {"output"} + PhaseDirs(n)
  {
    PhaseDirMade(n - 1);
    if n > 1 {
      MadeDirs(n - 1);
    } else {
      assert Made(0) == {} && PhaseDirs(0) == {};
    }
  }

  /** `PhaseDirs(n)` holds the directory of phase `i` exactly when `i < n`. */
  lemma {:induction false} InPhaseDirs(n: nat, d: string)
    requires n <= 8
    ensures d in PhaseDirs(n) <==> exists i :: 0 <= i < n && d == PhaseDir(i)
  {
    if n > 0 {
      InPhaseDirs(n - 1, d);
    }
  }

  /** The directories are told apart by their phase number. */
  lemma PhaseDirsDistinct(i: nat, j: nat)
    requires i < j < 8
    ensures PhaseDir(i) != PhaseDir(j)
  {
    assert PhaseDir(i)[7] != PhaseDir(j)[7];
  }

  /** The seeded request reaches the initiation tasks: vision, conops and charter embed it
      in full, unless it is the empty string, which is replaced by the placeholder. */
  lemma SeedReachesInitiation(store: Mem, systemRequest: string, manager: string)
    ensures var ts := Initiation.CreateInitiationTasks(Put(store, "phase_0", "system_request", Text(systemRequest)), manager);
      ts.Ok? && |ts.value| == 4
      && forall i :: 0 <= i < 3 ==>
        ts.value[i].bound == [if systemRequest == [] then Initiation.SeedPlaceholder else systemRequest]
  {
    var seeded := Put(store, "phase_0", "system_request", Text(systemRequest));
    Initiation.InitiationOk(seeded, manager);
    Initiation.InitiationTasksBound(seeded, manager);
    GetAfterSet(store, "phase_0", "system_request", Text(systemRequest));
  }

  /** Phases 1 to 7: the try/except around one phase body. */
  method Guarded(i: nat, body: Body) returns (events: seq<Event>)
    ensures (events, None) == PhaseEvents(i, Phase(true, body))
  {
    match body {
      case SkipOnly =>
        events := [Begin(i), Skipped(i)];
      case Crew(outcome) =>
        if outcome.Some? {
          events := [Begin(i), Failed(i, outcome.value)];
        } else {
          events := [Begin(i), Finished(i)];
        }
    }
  }

  /** `run_project_crew(system_request)`. Creating the project manager agent and the three
      crew blocks are opaque: their outcomes are given. The directories are made first; if
      creating the manager agent raises, the run ends before any phase. Otherwise the store
      is seeded before the initiation block, and the log and the escaping exception are
      those of `RunAll` over the eight phases. */
  method RunProjectCrew(mem: Memory<Value>, fs: FileSystem, systemRequest: string, manager: Option<PyError>,
                        initiation: Option<PyError>, deployment: Option<PyError>, maintenance: Option<PyError>)
    returns (log: seq<Event>, err: Option<PyError>)
    modifies mem, fs
    ensures fs.files == old(fs.files) && fs.dirs == old(fs.dirs) + {"output"} + PhaseDirs(8)
    ensures manager.Some? ==> log == [] && err == manager && mem.data == old(mem.data)
    ensures manager.None? ==> mem.data == Put(old(mem.data), "phase_0", "system_request", Text(systemRequest))
    ensures manager.None? ==> (log, err) == RunAll(Phases(initiation, deployment, maintenance))
  {
    MakePhaseDirs(fs);
    log := [];
    err := manager;
    if manager.Some? {
      return;
    }
    // Phase 0 seeds the store before it builds the initiation tasks.
    mem.Set("phase_0", "system_request", Text(systemRequest));
    log, err := RunPhases(initiation, deployment, maintenance);
  }

  /** The start-up loop over the eight phase directories. */
  method MakePhaseDirs(fs: FileSystem)
    modifies fs
    ensures fs.files == old(fs.files) && fs.dirs == old(fs.dirs) + {"output"} + PhaseDirs(8)
  {
    var i := 0;
    while i < 8
      invariant 0 <= i <= 8
      invariant fs.files == old(fs.files) && fs.dirs == old(fs.dirs) + Made(i)
    {
      fs.MakeDirs(PhaseDir(i));
      i := i + 1;
    }
    MadeDirs(8);
  }

  /** The eight phases in order: phase 0 without a guard, then phases 1 to 7 each inside its
      own try/except. */
  method RunPhases(initiation: Option<PyError>, deployment: Option<PyError>, maintenance: Option<PyError>)
    returns (log: seq<Event>, err: Option<PyError>)
    ensures (log, err) == RunAll(Phases(initiation, deployment, maintenance))
  {
    ghost var ps := Phases(initiation, deployment, maintenance);
    if initiation.Some? {
      RunTrace(initiation, deployment, maintenance);
      log := [Begin(0)];
      err := initiation;
      return;
    }
    log := [Begin(0), Finished(0)];
    err := None;
    StepTrace(ps, 0);
    assert log == Trace(ps, 1).0;
    var events := Guarded(1, SkipOnly);
    log := log + events;
    StepTrace(ps, 1);
    events := Guarded(2, SkipOnly);
    log := log + events;
    StepTrace(ps, 2);
    events := Guarded(3, SkipOnly);
    log := log + events;
    StepTrace(ps, 3);
    events := Guarded(4, SkipOnly);
    log := log + events;
    StepTrace(ps, 4);
    events := Guarded(5, SkipOnly);
    log := log + events;
    StepTrace(ps, 5);
    events := Guarded(6, Crew(deployment));
    log := log + events;
    StepTrace(ps, 6);
    events := Guarded(7, Crew(maintenance));
    log := log + events;
    StepTrace(ps, 7);
    log := log + [Completed];
  }

  /** One more phase run, when none before it let an exception escape. */
  lemma StepTrace(phases: seq<Phase>, n: nat)
    requires n < |phases| && Trace(phases, n).1.None?
    ensures Trace(phases, n + 1) == (Trace(phases, n).0 + PhaseEvents(n, phases[n]).0, PhaseEvents(n, phases[n]).1)
  {
  }
}
