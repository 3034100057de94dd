/** What every phase task file shares: a crewai `Task` abstracted to the store reads
    bound into its description, the effects of its callback, and its `context`;
    the callback effects on the store and the files; Python's binding of call arguments. */
module TaskModel {
  import opened Strings
  import opened SharedMemory

  /** The exceptions the modelled code can raise. */
  datatype PyError = TypeError | NameError | ValueError | AttributeError | EOFError | ValidationError

  /** A Python call that returns a value or raises. */
  datatype Outcome<T> = Ok(value: T) | Raise(error: PyError)

  /** What a callback receives: `str(output)`, and the `raw_output` attribute when
      the installed crewai provides one. */
  datatype TaskOutput = TaskOutput(text: string, rawOutput: Option<string>)

  /** A stored value: a string, or a task output object stored without `str`. */
  datatype Value = Text(s: string) | Output(o: TaskOutput)

  type Mem = Store<Value>

  /** Python truthiness of what `get` returned: `None` and `""` are false. */
  predicate Truthy(v: Option<Value>) {
    match v
    case None => false
    case Some(Text(s)) => s != []
    case Some(Output(_)) => true
  }

  /** `str(value)`. */
  function Render(v: Value): string {
    match v
    case Text(s) => s
    case Output(o) => o.text
  }

  /** `get(phase, key) or placeholder` (and the equivalent `if not x: x = placeholder`). */
  function Fallback(store: Mem, phase: string, key: string, placeholder: string): (r: Value)
    ensures Truthy(Lookup(store, phase, key)) ==> Lookup(store, phase, key) == Some(r)
    ensures !Truthy(Lookup(store, phase, key)) ==> r == Text(placeholder)
  {
    var v := Lookup(store, phase, key);
    if Truthy(v) then v.value else Text(placeholder)
  }

  /** `s[:limit]`, or `s` itself when there is no slice. */
  function Cut(s: string, limit: Option<nat>): (r: string)
    ensures |r| <= |s| && r == s[..|r|]
    ensures limit.None? ==> r == s
    ensures limit.Some? ==> |r| == if limit.value < |s| then limit.value else |s|
  {
    if limit.None? then s else Take(s, limit.value)
  }

  /** One interpolation `{(get(phase, key) or placeholder)[:limit]}` in a description. */
  datatype Slot = Slot(phase: string, key: string, placeholder: string, limit: Option<nat>)

  /** The text a slot contributes when the task is constructed. Slicing a stored
      output object raises TypeError; an unsliced one is rendered with `str`. */
  function Bind(store: Mem, s: Slot): (r: Outcome<string>)
    ensures r.Raise? <==> s.limit.Some? && Fallback(store, s.phase, s.key, s.placeholder).Output?
    ensures r.Raise? ==> r.error == TypeError
    ensures r.Ok? ==> r.value == Cut(Render(Fallback(store, s.phase, s.key, s.placeholder)), s.limit)
  {
    var v := Fallback(store, s.phase, s.key, s.placeholder);
    if s.limit.Some? && v.Output? then Raise(TypeError) else Ok(Cut(Render(v), s.limit))
  }

  /** A slot whose entry is missing or empty contributes a prefix of its placeholder. */
  lemma BindMissing(store: Mem, s: Slot)
    requires !Truthy(Lookup(store, s.phase, s.key))
    ensures Bind(store, s).Ok?
    ensures var t := Bind(store, s).value; t == s.placeholder[..|t|]
    ensures s.limit.None? || s.limit.value >= |s.placeholder| ==> Bind(store, s) == Ok(s.placeholder)
  {
  }

  /** A slot whose entry holds non-empty text contributes a prefix of it of at most `limit` characters. */
  lemma BindPresent(store: Mem, s: Slot, t: string)
    requires Lookup(store, s.phase, s.key) == Some(Text(t)) && t != []
    ensures Bind(store, s).Ok?
    ensures var e := Bind(store, s).value; e == t[..|e|] && (s.limit.Some? ==> |e| <= s.limit.value)
    ensures |Bind(store, s).value| == (if s.limit.Some? && s.limit.value < |t| then s.limit.value else |t|)
  {
  }

  /** The value a callback passes on: `str(output)` or `output` itself. */
  datatype Arg = Str | RawObj

  /** One step of a callback. */
  datatype Effect =
    | WriteFile(path: string, arg: Arg)                                 // write_output(path, arg)
    | SetKey(phase: string, key: string, arg: Arg)                      // shared_memory.set(phase, key, arg)
    | SaveOutput(phase: string, key: string, folder: string, filename: string)  // _save_task_output

  function ArgValue(a: Arg, o: TaskOutput): Value {
    if a == Str then Text(o.text) else Output(o)
  }

  /** The files written (path to last content) and the directories created. */
  datatype Disk = Disk(files: map<string, string>, dirs: set<string>)

  datatype World = World(store: Mem, disk: Disk)

  /** The state after a sequence of steps, and the exception that stopped it, if any. */
  datatype Run = Run(world: World, error: Option<PyError>)

  /** `os.path.dirname` for relative paths without repeated slashes: everything before the
      last `/`. */
  function Dirname(path: string): (r: string)
    ensures |r| <= |path| && r == path[..|r|]
    ensures path != [] ==> |r| < |path|
    ensures '/' !in path ==> r == []
    decreases |path|
  {
    if path == [] then []
    else if path[|path| - 1] == '/' then path[..|path| - 1]
    else Dirname(path[..|path| - 1])
  }

  /** The directories `os.makedirs(path, exist_ok=True)` makes sure of: `path` and each of its
      parents. */
  function DirChain(path: string): (r: set<string>)
    ensures path != [] ==> path in r
    decreases |path|
  {
    if path == [] then {} else {path} + DirChain(Dirname(path))
  }

  /** The directories `write_output` makes for `path`: when its directory is missing,
      `os.makedirs` creates it together with every missing parent. */
  function MadeFor(dirs: set<string>, path: string): set<string> {
    var dir := Dirname(path);
    if dir == [] || dir in dirs then dirs else dirs + DirChain(dir)
  }

  /** `write_output(path, content)`: create the directory when missing, open the file for
      writing (which empties it), then write. Writing anything but a string raises TypeError
      after the file was emptied. */
  function WriteOutput(d: Disk, path: string, content: Value): (r: (Disk, Option<PyError>))
    ensures r.0.dirs == MadeFor(d.dirs, path)
    ensures Dirname(path) != [] ==> Dirname(path) in r.0.dirs
    ensures path in r.0.files && r.0.files[path] == (if content.Text? then content.s else [])
    ensures forall p :: p != path ==> (p in r.0.files <==> p in d.files) && (p in d.files ==> r.0.files[p] == d.files[p])
    ensures r.1.Some? <==> content.Output?
    ensures r.1.Some? ==> r.1.value == TypeError
  {
    var dirs := MadeFor(d.dirs, path);
    match content
    case Text(s) => (Disk(d.files[path := s], dirs), None)
    case Output(_) => (Disk(d.files[path := []], dirs), Some(TypeError))
  }

  /** A set of directories holding the parents of each of its members, as a real file
      system does. */
  ghost predicate ParentClosed(dirs: set<string>) {
    forall p :: p in dirs ==> DirChain(p) <= dirs
  }

  /** The parents of a directory in a chain are in the chain. */
  lemma {:induction false} DirChainClosed(path: string)
    ensures ParentClosed(DirChain(path))
    decreases |path|
  {
    if path != [] {
      DirChainClosed(Dirname(path));
    }
  }

  /** On a file system whose directories are closed under parents, `write_output` leaves it
      so and adds exactly the directory of the path with its parents. */
  lemma WriteKeepsParents(d: Disk, path: string, content: Value)
    requires ParentClosed(d.dirs)
    ensures ParentClosed(WriteOutput(d, path, content).0.dirs)
    ensures WriteOutput(d, path, content).0.dirs == d.dirs + DirChain(Dirname(path))
  {
    DirChainClosed(Dirname(path));
  }

  /** `key.replace('_', ' ').title()`, the title `_save_task_output` announces. */
  function SaveTitle(key: string): (r: string)
    ensures |r| == |key|
  {
    ReplaceOneChar(key, '_', ' ');
    Title(Replace(key, "_", " "))
  }

  /** One character of the announced title: an underscore is a space, and any other character
      is cased as `title()` cases it, an underscore counting as a non-letter. */
  lemma SaveTitleAt(key: string, i: nat)
    requires i < |key|
    ensures key[i] == '_' ==> SaveTitle(key)[i] == ' '
    ensures key[i] != '_' && (i > 0 ==> !IsAsciiLetter(key[i - 1])) ==> SaveTitle(key)[i] == UpperChar(key[i])
    ensures key[i] != '_' && i > 0 && IsAsciiLetter(key[i - 1]) ==> SaveTitle(key)[i] == LowerChar(key[i])
  {
    ReplaceOneChar(key, '_', ' ');
    var spaced := Replace(key, "_", " ");
    assert spaced[i] == if key[i] == '_' then ' ' else key[i];
    if i > 0 {
      assert spaced[i - 1] == if key[i - 1] == '_' then ' ' else key[i - 1];
    }
    assert SaveTitle(key)[i] == TitleChar(spaced[i], i > 0 && IsAsciiLetter(spaced[i - 1]));
  }

  /** In the announced title underscores become spaces, a letter at the start or after a
      non-letter becomes a capital, and a letter after a letter becomes lower case. */
  lemma SaveTitleCases(key: string)
    ensures forall i :: 0 <= i < |key| && key[i] == '_' ==> SaveTitle(key)[i] == ' '
    ensures forall i :: 0 < i < |key| && key[i - 1] == '_' && 'a' <= key[i] <= 'z' ==> 'A' <= SaveTitle(key)[i] <= 'Z'
    ensures forall i :: 0 <= i < |key| && key[i] != '_' && (i > 0 ==> !IsAsciiLetter(key[i - 1])) ==> SaveTitle(key)[i] == UpperChar(key[i])
    ensures forall i :: 0 < i < |key| && key[i] != '_' && IsAsciiLetter(key[i - 1]) ==> SaveTitle(key)[i] == LowerChar(key[i])
  {
    forall i | 0 <= i < |key|
      ensures key[i] == '_' ==> SaveTitle(key)[i] == ' '
      ensures key[i] != '_' && (i > 0 ==> !IsAsciiLetter(key[i - 1])) ==> SaveTitle(key)[i] == UpperChar(key[i])
      ensures key[i] != '_' && i > 0 && IsAsciiLetter(key[i - 1]) ==> SaveTitle(key)[i] == LowerChar(key[i])
    {
      SaveTitleAt(key, i);
    }
  }

  /** One callback step on the world. */
  function Step(e: Effect, o: TaskOutput, w: World): (r: Run)
    ensures e.SaveOutput? && o.rawOutput.None? ==> r == Run(w, Some(AttributeError))
    ensures e.SetKey? ==> r == Run(w.(store := Put(w.store, e.phase, e.key, ArgValue(e.arg, o))), None)
    ensures e.WriteFile? ==> r.world.store == w.store && (r.error.Some? <==> e.arg == RawObj)
  {
    match e
    case WriteFile(path, a) =>
      var (d, err) := WriteOutput(w.disk, path, ArgValue(a, o));
      Run(w.(disk := d), err)
    case SetKey(phase, key, a) =>
      Run(w.(store := Put(w.store, phase, key, ArgValue(a, o))), None)
    case SaveOutput(phase, key, folder, filename) =>
      if o.rawOutput.None? then Run(w, Some(AttributeError))
      else
        var content := Text(o.rawOutput.value);
        var (d, err) := WriteOutput(w.disk, folder + "/" + filename, content);
        if err.Some? then Run(w.(disk := d), err) else Run(World(Put(w.store, phase, key, content), d), None)
  }

  /** A callback: its steps in order, stopping at the first exception. */
  function RunCallback(cb: seq<Effect>, o: TaskOutput, w: World): (r: Run)
    decreases |cb|
  {
    if cb == [] then Run(w, None)
    else
      var s := Step(cb[0], o, w);
      if s.error.Some? then s else RunCallback(cb[1..], o, s.world)
  }

  /** The files and directories that `write_output` and `os.makedirs` change. */
  class FileSystem {
    var files: map<string, string>
    var dirs: set<string>

    constructor ()
      ensures files == map[] && dirs == {}
    {
      files := map[];
      dirs := {};
    }

    function Snapshot(): Disk
      reads this
    {
      Disk(files, dirs)
    }

    /** `os.makedirs(path, exist_ok=True)`: directories that already exist are left as they are. */
    method MakeDirs(path: string)
      modifies this
      ensures files == old(files) && dirs == old(dirs) + DirChain(path)
    {
      dirs := dirs + DirChain(path);
    }

    /** `write_output(path, content)` in place. */
    method Write(path: string, content: Value) returns (err: Option<PyError>)
      modifies this
      ensures (Snapshot(), err) == WriteOutput(old(Snapshot()), path, content)
    {
      var dir := Dirname(path);
      if dir != [] && dir !in dirs {
        dirs := dirs + DirChain(dir);
      }
      match content {
        case Text(s) =>
          files := files[path := s];
          err := None;
        case Output(_) =>
          files := files[path := []];
          err := Some(TypeError);
      }
    }
  }

  /** A callback run against the shared store and the file system, one step at a time,
      ends in the state `RunCallback` describes. */
  method ApplyCallback(mem: Memory<Value>, fs: FileSystem, cb: seq<Effect>, o: TaskOutput) returns (err: Option<PyError>)
    modifies mem, fs
    ensures RunCallback(cb, o, World(old(mem.data), old(fs.Snapshot()))) == Run(World(mem.data, fs.Snapshot()), err)
  {
    ghost var w0 := World(mem.data, fs.Snapshot());
    var i := 0;
    err := None;
    while i < |cb| && err.None?
      invariant 0 <= i <= |cb|
      invariant err.None? ==> RunCallback(cb, o, w0) == RunCallback(cb[i..], o, World(mem.data, fs.Snapshot()))
      invariant err.Some? ==> RunCallback(cb, o, w0) == Run(World(mem.data, fs.Snapshot()), err)
      decreases |cb| - i
    {
      ghost var before := World(mem.data, fs.Snapshot());
      assert cb[i..][0] == cb[i] && cb[i..][1..] == cb[i + 1..];
      match cb[i] {
        case WriteFile(path, a) =>
          err := fs.Write(path, ArgValue(a, o));
        case SetKey(phase, key, a) =>
          mem.Set(phase, key, ArgValue(a, o));
        case SaveOutput(phase, key, folder, filename) =>
          if o.rawOutput.None? {
            err := Some(AttributeError);
          } else {
            var content := Text(o.rawOutput.value);
            err := fs.Write(folder + "/" + filename, content);
            if err.None? {
              mem.Set(phase, key, content);
            }
          }
      }
      assert Step(cb[i], o, before) == Run(World(mem.data, fs.Snapshot()), err);
      i := i + 1;
    }
  }

  /** Every value a store holds is a string. */
  predicate AllText(store: Mem) {
    forall p, k :: p in store && k in store[p] ==> store[p][k].Text?
  }

  predicate RawWrite(e: Effect) {
    e.WriteFile? && e.arg == RawObj
  }

  predicate RawSet(e: Effect) {
    e.SetKey? && e.arg == RawObj
  }

  /** A step that passes `str(output)` to `write_output` or `set`. */
  predicate StrStep(e: Effect) {
    (e.WriteFile? || e.SetKey?) && e.arg == Str
  }

  /** A store step that would keep the object itself follows a file write of the object. */
  predicate RawSetGuarded(cb: seq<Effect>) {
    forall i :: 0 <= i < |cb| && RawSet(cb[i]) ==> exists j :: 0 <= j < i && RawWrite(cb[j])
  }

  /** Callbacks that write the object to a file before storing it raise at the write,
      so the store keeps holding only strings. */
  lemma {:induction false} GuardedKeepsText(cb: seq<Effect>, o: TaskOutput, w: World)
    requires AllText(w.store) && RawSetGuarded(cb)
    ensures AllText(RunCallback(cb, o, w).world.store)
    decreases |cb|
  {
    if cb != [] {
      var s := Step(cb[0], o, w);
      assert !RawSet(cb[0]);
      assert AllText(s.world.store);
      if s.error.None? {
        assert !RawWrite(cb[0]);
        var rest := cb[1..];
        forall i | 0 <= i < |rest| && RawSet(rest[i]) ensures exists j :: 0 <= j < i && RawWrite(rest[j]) {
          assert RawSet(cb[i + 1]);
          var j :| 0 <= j < i + 1 && RawWrite(cb[j]);
          assert j != 0;
          assert rest[j - 1] == cb[j];
        }
        GuardedKeepsText(rest, o, s.world);
      }
    }
  }

  /** A callback whose first step writes the output object itself raises TypeError there:
      the file is left empty and nothing is stored. */
  lemma RawWriteFirstRaises(cb: seq<Effect>, o: TaskOutput, w: World)
    requires cb != [] && RawWrite(cb[0])
    ensures RunCallback(cb, o, w).error == Some(TypeError)
    ensures RunCallback(cb, o, w).world.store == w.store
    ensures cb[0].path in RunCallback(cb, o, w).world.disk.files && RunCallback(cb, o, w).world.disk.files[cb[0].path] == []
  {
  }

  /** The phase/key pairs a callback stores under. */
  function StoreKeys(cb: seq<Effect>): (r: seq<(string, string)>)
    ensures |r| <= |cb|
  {
    if cb == [] then []
    else match cb[0]
      case WriteFile(_, _) => StoreKeys(cb[1..])
      case SetKey(p, k, _) => [(p, k)] + StoreKeys(cb[1..])
      case SaveOutput(p, k, _, _) => [(p, k)] + StoreKeys(cb[1..])
  }

  /** The file paths a callback writes. */
  function FilePaths(cb: seq<Effect>): (r: seq<string>)
    ensures |r| <= |cb|
  {
    if cb == [] then []
    else match cb[0]
      case WriteFile(p, _) => [p] + FilePaths(cb[1..])
      case SetKey(_, _, _) => FilePaths(cb[1..])
      case SaveOutput(_, _, folder, filename) => [folder + "/" + filename] + FilePaths(cb[1..])
  }

  /** A callback that stores `str(output)` under one pair and raises nowhere stores exactly
      that text there. */
  lemma {:induction false} CallbackStores(cb: seq<Effect>, o: TaskOutput, w: World, phase: string, key: string)
    requires forall i :: 0 <= i < |cb| ==> StrStep(cb[i])
    requires SetKey(phase, key, Str) in cb
    ensures RunCallback(cb, o, w).error == None
    ensures Lookup(RunCallback(cb, o, w).world.store, phase, key) == Some(Text(o.text))
    decreases |cb|
  {
    var s := Step(cb[0], o, w);
    assert StrStep(cb[0]);
    if cb[0].WriteFile? {
      assert s.error.None?;
    }
    if |cb| > 1 {
      assert forall i :: 0 <= i < |cb[1..]| ==> cb[1..][i] == cb[i + 1];
      if SetKey(phase, key, Str) in cb[1..] {
        CallbackStores(cb[1..], o, s.world, phase, key);
      } else {
        assert cb[0] == SetKey(phase, key, Str);
        CallbackStoresRest(cb[1..], o, s.world, phase, key);
      }
    }
  }

  /** Steps that do not store under a pair leave that pair as it was. */
  lemma {:induction false} CallbackStoresRest(cb: seq<Effect>, o: TaskOutput, w: World, phase: string, key: string)
    requires forall i :: 0 <= i < |cb| ==> StrStep(cb[i])
    requires forall i :: 0 <= i < |cb| && cb[i].SetKey? ==> cb[i].phase != phase || cb[i].key != key
    ensures RunCallback(cb, o, w).error == None
    ensures Lookup(RunCallback(cb, o, w).world.store, phase, key) == Lookup(w.store, phase, key)
    decreases |cb|
  {
    if cb != [] {
      var s := Step(cb[0], o, w);
      assert StrStep(cb[0]);
      if cb[0].WriteFile? {
        assert s.error.None?;
      }
      assert forall i :: 0 <= i < |cb[1..]| ==> cb[1..][i] == cb[i + 1];
      CallbackStoresRest(cb[1..], o, s.world, phase, key);
    }
  }

  /** A task as constructed: what it is, the text its slots received at construction,
      and its `context` as indices into the list the factory returns. */
  datatype TaskSpec = TaskSpec(name: string, slots: seq<Slot>, described: bool, callback: seq<Effect>)

  datatype Task = Task(spec: TaskSpec, bound: seq<string>, context: seq<nat>)

  /** All slots of one task, in order: the first slot that raises makes construction raise. */
  function BindAll(store: Mem, slots: seq<Slot>): (r: Outcome<seq<string>>)
    ensures r.Ok? <==> forall i :: 0 <= i < |slots| ==> Bind(store, slots[i]).Ok?
    ensures r.Ok? ==> |r.value| == |slots| && forall i :: 0 <= i < |slots| ==> Bind(store, slots[i]) == Ok(r.value[i])
    ensures r.Raise? ==> r.error == TypeError
    decreases |slots|
  {
    if slots == [] then Ok([])
    else
      var head := Bind(store, slots[0]);
      if head.Raise? then Raise(head.error)
      else
        var rest := BindAll(store, slots[1..]);
        assert forall i :: 0 < i < |slots| ==> slots[i] == slots[1..][i - 1];
        if rest.Raise? then
          assert exists j :: 0 <= j < |slots[1..]| && !Bind(store, slots[1..][j]).Ok?;
          Raise(rest.error)
        else
          var v := [head.value] + rest.value;
          assert forall i :: 0 < i < |slots| ==> v[i] == rest.value[i - 1];
          Ok(v)
  }

  /** `Task(...)`: the description's slots are bound from the store as it is at this moment. */
  function Build(store: Mem, spec: TaskSpec): (r: Outcome<Task>)
    ensures r.Ok? <==> BindAll(store, spec.slots).Ok?
    ensures r.Ok? ==> r.value == Task(spec, BindAll(store, spec.slots).value, [])
  {
    match BindAll(store, spec.slots)
    case Raise(e) => Raise(e)
    case Ok(b) => Ok(Task(spec, b, []))
  }

  /** Constructing tasks in list order. No task runs in between, so every one of them is
      bound from the same store. */
  function BuildAll(store: Mem, specs: seq<TaskSpec>): (r: Outcome<seq<Task>>)
    ensures r.Ok? <==> forall i :: 0 <= i < |specs| ==> Build(store, specs[i]).Ok?
    ensures r.Ok? ==> |r.value| == |specs| && forall i :: 0 <= i < |specs| ==> Build(store, specs[i]) == Ok(r.value[i])
    decreases |specs|
  {
    if specs == [] then Ok([])
    else
      match Build(store, specs[0])
      case Raise(e) => Raise(e)
      case Ok(t) =>
        match BuildAll(store, specs[1..])
        case Raise(e) => Raise(e)
        case Ok(ts) => Ok([t] + ts)
  }

  /** Assigning every task's `context`. */
  function WithContexts(tasks: seq<Task>, ctx: seq<seq<nat>>): (r: seq<Task>)
    requires |ctx| == |tasks|
    ensures |r| == |tasks| && forall i :: 0 <= i < |tasks| ==> r[i] == tasks[i].(context := ctx[i])
  {
    seq(|tasks|, i requires 0 <= i < |tasks| => tasks[i].(context := ctx[i]))
  }

  /** `[0, 1, ..., n - 1]`. */
  function Upto(n: nat): (r: seq<nat>)
    ensures |r| == n && forall i :: 0 <= i < n ==> r[i] == i
  {
    seq(n, i => i)
  }

  /** Every context target lies earlier in the list: list order is a topological order. */
  predicate Topological(ctx: seq<seq<nat>>) {
    forall i, j :: 0 <= i < |ctx| && 0 <= j < |ctx[i]| ==> ctx[i][j] < i
  }

  function Contexts(tasks: seq<Task>): (r: seq<seq<nat>>)
    ensures |r| == |tasks| && forall i :: 0 <= i < |tasks| ==> r[i] == tasks[i].context
  {
    seq(|tasks|, i requires 0 <= i < |tasks| => tasks[i].context)
  }

  /** `gate.context = core_tasks; return core_tasks + [gate]`. */
  function Wire(core: seq<Task>, gate: Task): (r: seq<Task>)
    ensures |r| == |core| + 1 && r[..|core|] == core
    ensures r[|core|] == gate.(context := Upto(|core|))
  {
    core + [gate.(context := Upto(|core|))]
  }

  /** Appending the gate keeps the list in topological order, and the gate depends on every core task. */
  lemma WireTopological(core: seq<Task>, gate: Task)
    requires Topological(Contexts(core))
    ensures Topological(Contexts(Wire(core, gate)))
    ensures forall i :: 0 <= i < |core| ==> i in Contexts(Wire(core, gate))[|core|]
  {
    var r := Wire(core, gate);
    var c := Contexts(r);
    forall i, j | 0 <= i < |c| && 0 <= j < |c[i]| ensures c[i][j] < i {
      if i < |core| {
        assert c[i] == Contexts(core)[i];
      }
    }
    forall i | 0 <= i < |core| ensures i in c[|core|] {
      assert c[|core|][i] == i;
    }
  }

  /** A factory's core tasks: built in list order from one store, then given their contexts. */
  function Core(store: Mem, specs: seq<TaskSpec>, ctx: seq<seq<nat>>): (r: Outcome<seq<Task>>)
    requires |ctx| == |specs|
    ensures r.Ok? <==> forall i :: 0 <= i < |specs| ==> BindAll(store, specs[i].slots).Ok?
    ensures r.Raise? ==> r.error == TypeError
    ensures r.Ok? ==> |r.value| == |specs| && Contexts(r.value) == ctx
    ensures r.Ok? ==> forall i :: 0 <= i < |specs| ==>
      r.value[i].spec == specs[i] && r.value[i].bound == BindAll(store, specs[i].slots).value
  {
    match BuildAll(store, specs)
    case Raise(e) => Raise(TypeError)
    case Ok(ts) => Ok(WithContexts(ts, ctx))
  }

  /** A factory that ends with the phase gate: the core tasks, then the gate with every
      core task as its context. The gate is created after the core tasks. */
  function Gated(store: Mem, specs: seq<TaskSpec>, ctx: seq<seq<nat>>, gate: Outcome<Task>): (r: Outcome<seq<Task>>)
    requires |ctx| == |specs|
    ensures r.Ok? <==> Core(store, specs, ctx).Ok? && gate.Ok?
    ensures r.Raise? && Core(store, specs, ctx).Ok? ==> r.error == gate.error
    ensures r.Ok? ==> r.value == Wire(Core(store, specs, ctx).value, gate.value)
  {
    match Core(store, specs, ctx)
    case Raise(e) => Raise(e)
    case Ok(core) =>
      match gate
      case Raise(e) => Raise(e)
      case Ok(g) => Ok(Wire(core, g))
  }

  /** `n` empty contexts. */
  function NoContexts(n: nat): (r: seq<seq<nat>>)
    ensures |r| == n && forall i :: 0 <= i < n ==> r[i] == []
  {
    seq(n, i => [])
  }

  /** A factory without a gate or contexts: its tasks built in order from the store as it is
      when it is called. */
  function Factory(store: Mem, specs: seq<TaskSpec>): Outcome<seq<Task>> {
    Core(store, specs, NoContexts(|specs|))
  }

  /** A factory's tasks: each one's spec, with the text of its slots and no context. */
  lemma FactoryTask(store: Mem, specs: seq<TaskSpec>, i: nat)
    requires Factory(store, specs).Ok? && i < |specs|
    ensures Factory(store, specs).value[i] == Task(specs[i], BindAll(store, specs[i].slots).value, [])
  {
    assert Contexts(Factory(store, specs).value)[i] == [];
  }

  /** Over a store that holds only strings, a plain factory returns one task per spec. */
  lemma FactoryOfText(store: Mem, specs: seq<TaskSpec>)
    requires AllText(store)
    ensures Factory(store, specs).Ok? && |Factory(store, specs).value| == |specs|
  {
    CoreOfText(store, specs, NoContexts(|specs|));
  }

  /** Stores that agree on every entry a factory's slots read give the same result. */
  lemma FactorySameReads(s1: Mem, s2: Mem, specs: seq<TaskSpec>)
    requires forall i, j :: 0 <= i < |specs| && 0 <= j < |specs[i].slots| ==>
      Lookup(s1, specs[i].slots[j].phase, specs[i].slots[j].key) == Lookup(s2, specs[i].slots[j].phase, specs[i].slots[j].key)
    ensures Factory(s1, specs) == Factory(s2, specs)
  {
    forall i | 0 <= i < |specs| ensures BindAll(s1, specs[i].slots) == BindAll(s2, specs[i].slots) {
      BindAllSameReads(s1, s2, specs[i].slots);
    }
    var f1 := Factory(s1, specs);
    if f1.Ok? {
      var f2 := Factory(s2, specs);
      forall i | 0 <= i < |specs| ensures f1.value[i] == f2.value[i] {
        FactoryTask(s1, specs, i);
        FactoryTask(s2, specs, i);
      }
      assert f1.value == f2.value;
    }
  }

  lemma BindAllSameReads(s1: Mem, s2: Mem, slots: seq<Slot>)
    requires forall j :: 0 <= j < |slots| ==> Lookup(s1, slots[j].phase, slots[j].key) == Lookup(s2, slots[j].phase, slots[j].key)
    ensures BindAll(s1, slots) == BindAll(s2, slots)
  {
    forall j | 0 <= j < |slots| ensures Bind(s1, slots[j]) == Bind(s2, slots[j]) {
      assert Fallback(s1, slots[j].phase, slots[j].key, slots[j].placeholder)
          == Fallback(s2, slots[j].phase, slots[j].key, slots[j].placeholder);
    }
    var b1 := BindAll(s1, slots);
    if b1.Ok? {
      assert b1.value == BindAll(s2, slots).value;
    }
  }

  /** A gated factory whose core contexts point backwards returns a list in topological order
      with the gate last, depending on every core task. */
  lemma GatedTopological(store: Mem, specs: seq<TaskSpec>, ctx: seq<seq<nat>>, gate: Outcome<Task>)
    requires |ctx| == |specs| && Topological(ctx)
    requires Gated(store, specs, ctx, gate).Ok?
    ensures var ts := Gated(store, specs, ctx, gate).value;
      |ts| == |specs| + 1 && Topological(Contexts(ts))
      && ts[|specs|] == gate.value.(context := Upto(|specs|))
      && forall i :: 0 <= i < |specs| ==> i in ts[|specs|].context
  {
    WireTopological(Core(store, specs, ctx).value, gate.value);
  }

  /** A slot is bound from the store the factory was called with; whatever the producer's
      callback later stores has no effect on it. */
  lemma BoundAtConstruction(store: Mem, specs: seq<TaskSpec>, ctx: seq<seq<nat>>, i: nat, j: nat)
    requires |ctx| == |specs| && Core(store, specs, ctx).Ok?
    requires i < |specs| && j < |specs[i].slots|
    ensures var s := specs[i].slots[j];
      Core(store, specs, ctx).value[i].bound[j] == Cut(Render(Fallback(store, s.phase, s.key, s.placeholder)), s.limit)
  {
    assert Bind(store, specs[i].slots[j]).Ok?;
  }

  /** A slot whose entry is missing or empty, and whose slice is at least as long as its
      placeholder, is bound to the placeholder itself. */
  lemma BoundMissing(store: Mem, specs: seq<TaskSpec>, ctx: seq<seq<nat>>, i: nat, j: nat)
    requires |ctx| == |specs| && Core(store, specs, ctx).Ok?
    requires i < |specs| && j < |specs[i].slots|
    requires !Truthy(Lookup(store, specs[i].slots[j].phase, specs[i].slots[j].key))
    requires specs[i].slots[j].limit.None? || specs[i].slots[j].limit.value >= |specs[i].slots[j].placeholder|
    ensures Core(store, specs, ctx).value[i].bound[j] == specs[i].slots[j].placeholder
  {
    BoundAtConstruction(store, specs, ctx, i, j);
  }

  /** Appending the gate to the core tasks: the contexts are the given ones followed by every
      core index, and stay topological when the given ones are. */
  /** The contexts of a wired list, task by task, for a core whose contexts are `ctx`. */
  lemma WiredOver(core: seq<Task>, gate: Task, ctx: seq<seq<nat>>)
    requires Contexts(core) == ctx && Topological(ctx)
    ensures |Wire(core, gate)| == |core| + 1
    ensures forall i :: 0 <= i < |core| ==> Wire(core, gate)[i].context == ctx[i]
    ensures Wire(core, gate)[|core|].context == Upto(|core|)
    ensures Topological(Contexts(Wire(core, gate)))
  {
    var w := Wire(core, gate);
    WireTopological(core, gate);
    forall i | 0 <= i < |core| ensures w[i].context == ctx[i] {
      assert w[i] == w[..|core|][i] == core[i];
    }
  }

  lemma CoreWiredOf(store: Mem, specs: seq<TaskSpec>, ctx: seq<seq<nat>>, gate: Task)
    requires |ctx| == |specs| && Core(store, specs, ctx).Ok? && Topological(ctx)
    ensures Contexts(Wire(Core(store, specs, ctx).value, gate)) == ctx + [Upto(|specs|)]
    ensures Topological(Contexts(Wire(Core(store, specs, ctx).value, gate)))
  {
    var core := Core(store, specs, ctx).value;
    CoreTopologicalOf(store, specs, ctx);
    WireTopological(core, gate);
    var w := Wire(core, gate);
    var c := Contexts(w);
    forall i | 0 <= i < |c| ensures c[i] == (ctx + [Upto(|specs|)])[i] {
      if i < |core| {
        assert w[i] == w[..|core|][i] == core[i];
      }
    }
  }

  /** Core tasks keep the contexts they are given, so backward contexts stay backward. */
  lemma CoreTopologicalOf(store: Mem, specs: seq<TaskSpec>, ctx: seq<seq<nat>>)
    requires |ctx| == |specs| && Topological(ctx) && Core(store, specs, ctx).Ok?
    ensures Topological(Contexts(Core(store, specs, ctx).value))
  {
  }

  /** A store that holds only strings binds every slot. */
  lemma TextBinds(store: Mem, s: Slot)
    requires AllText(store)
    ensures Bind(store, s).Ok?
  {
    if Truthy(Lookup(store, s.phase, s.key)) {
      assert store[s.phase][s.key].Text?;
    }
  }

  /** Over a store that holds only strings, the core tasks are always constructed. */
  lemma CoreOfText(store: Mem, specs: seq<TaskSpec>, ctx: seq<seq<nat>>)
    requires |ctx| == |specs| && AllText(store)
    ensures Core(store, specs, ctx).Ok?
  {
    forall i, j | 0 <= i < |specs| && 0 <= j < |specs[i].slots| ensures Bind(store, specs[i].slots[j]).Ok? {
      TextBinds(store, specs[i].slots[j]);
    }
  }

  /** A sliced slot whose entry holds an output object makes its factory raise TypeError. */
  lemma SlicedObjectRaises(store: Mem, specs: seq<TaskSpec>, ctx: seq<seq<nat>>, i: nat, j: nat, o: TaskOutput)
    requires |ctx| == |specs| && i < |specs| && j < |specs[i].slots|
    requires specs[i].slots[j].limit.Some?
    requires Lookup(store, specs[i].slots[j].phase, specs[i].slots[j].key) == Some(Output(o))
    ensures Core(store, specs, ctx) == Raise(TypeError)
  {
    assert Bind(store, specs[i].slots[j]).Raise?;
  }

  /** One argument of a call: positional, or `name=value`. */
  datatype CallArg = Pos(value: string) | Kw(name: string, value: string)

  /** Python's grammar puts positional arguments before keyword arguments. */
  predicate PosFirst(args: seq<CallArg>) {
    forall i, j :: 0 <= i < j < |args| && args[j].Pos? ==> args[i].Pos?
  }

  function CountPos(args: seq<CallArg>): (n: nat)
    ensures n <= |args|
  {
    if args == [] || !args[0].Pos? then 0 else 1 + CountPos(args[1..])
  }

  predicate DistinctNames(params: seq<string>) {
    forall i, j :: 0 <= i < j < |params| ==> params[i] != params[j]
  }

  /** The names a sequence of keyword arguments binds. */
  function Names(kws: seq<CallArg>): (r: set<string>)
    ensures forall j :: 0 <= j < |kws| && kws[j].Kw? ==> kws[j].name in r
    decreases |kws|
  {
    if kws == [] then {}
    else
      var rest := Names(kws[1..]);
      assert forall j :: 1 <= j < |kws| ==> kws[1..][j - 1] == kws[j];
      if kws[0].Kw? then {kws[0].name} + rest else rest
  }

  /** `Names` holds nothing but the names of keyword arguments. */
  lemma {:induction false} NamesOfKeywords(kws: seq<CallArg>)
    ensures forall x :: x in Names(kws) ==> exists j :: 0 <= j < |kws| && kws[j] == Kw(x, kws[j].value)
    decreases |kws|
  {
    if kws != [] {
      NamesOfKeywords(kws[1..]);
      assert forall j :: 1 <= j < |kws| ==> kws[1..][j - 1] == kws[j];
    }
  }

  /** The first `n` parameters bound to the first `n` (positional) arguments. */
  function Positional(params: seq<string>, args: seq<CallArg>, n: nat): (r: map<string, string>)
    requires n <= |params| && n <= |args| && DistinctNames(params)
    ensures forall p :: p in r ==> p in params
    ensures forall i :: n <= i < |params| ==> params[i] !in r
    ensures forall i :: 0 <= i < n ==> params[i] in r && r[params[i]] == args[i].value
  {
    if n == 0 then map[]
    else
      var prev := Positional(params, args, n - 1);
      assert forall i :: 0 <= i < |params| && i != n - 1 ==> params[i] != params[n - 1];
      prev[params[n - 1] := args[n - 1].value]
  }

  /** Python accepts a call when there are no more positional arguments than parameters, every
      keyword names a declared parameter that no positional argument and no earlier keyword
      bound, and every parameter bound neither way has a default. */
  predicate CallAccepted(params: seq<string>, defaults: map<string, string>, args: seq<CallArg>) {
    var n := CountPos(args);
    n <= |params| &&
    KeywordsAccepted(params, set i | 0 <= i < n :: params[i], args[n..]) &&
    forall i :: n <= i < |params| && params[i] !in Names(args[n..]) ==> params[i] in defaults
  }

  /** Python's binding of a call's arguments to a function's parameters: positional
      arguments fill parameters in order, each keyword must name a parameter not bound
      yet, and every parameter left over takes its default; otherwise the call raises TypeError. */
  function BindCall(params: seq<string>, defaults: map<string, string>, args: seq<CallArg>): (r: Outcome<map<string, string>>)
    requires DistinctNames(params) && PosFirst(args)
    ensures r.Raise? ==> r.error == TypeError
    ensures r.Ok? <==> CallAccepted(params, defaults, args)
    ensures r.Ok? ==> forall p :: p in r.value <==> p in params
    ensures r.Ok? ==> CountPos(args) <= |params| && forall i :: 0 <= i < CountPos(args) ==> r.value[params[i]] == args[i].value
    ensures r.Ok? ==> forall j :: CountPos(args) <= j < |args| ==>
      args[j].Kw? && args[j].name in r.value && r.value[args[j].name] == args[j].value
    ensures r.Ok? ==> forall i :: CountPos(args) <= i < |params| && params[i] !in Names(args[CountPos(args)..]) ==>
      params[i] in defaults && r.value[params[i]] == defaults[params[i]]
  {
    var n := CountPos(args);
    if n > |params| then Raise(TypeError)
    else
      var positional := Positional(params, args, n);
      PositionalKeys(params, args, n);
      var kw := BindKeywords(params, positional, args[n..]);
      if kw.Raise? then kw
      else
        var r := FillDefaults(params, defaults, kw.value);
        DefaultsAccepted(params, defaults, args, n, kw.value);
        KeywordValues(params, positional, args[n..], kw.value);
        BindCallFacts(params, defaults, args, n, kw.value, r);
        KeywordsBound(params, defaults, args, n, kw.value, r);
        DefaultsBound(params, defaults, args, n, kw.value, r);
        r
  }

  /** The positional arguments bind exactly the first `n` parameters. */
  lemma PositionalKeys(params: seq<string>, args: seq<CallArg>, n: nat)
    requires n <= |params| && n <= |args| && DistinctNames(params)
    ensures Positional(params, args, n).Keys == set i | 0 <= i < n :: params[i]
  {
    var positional := Positional(params, args, n);
    forall p | p in positional ensures p in set i | 0 <= i < n :: params[i] {
      var k :| 0 <= k < |params| && params[k] == p;
      assert k < n;
    }
  }

  /** Once positional and keyword arguments are bound, the defaults complete the call exactly
      when every parameter after the first `n` that no keyword names has a default. */
  lemma DefaultsAccepted(params: seq<string>, defaults: map<string, string>, args: seq<CallArg>, n: nat,
                         bound: map<string, string>)
    requires n <= |params| && n <= |args| && DistinctNames(params)
    requires bound.Keys == Positional(params, args, n).Keys + Names(args[n..])
    ensures FillDefaults(params, defaults, bound).Ok? <==>
      forall i :: n <= i < |params| && params[i] !in Names(args[n..]) ==> params[i] in defaults
  {
    var positional := Positional(params, args, n);
    assert forall i :: 0 <= i < n ==> params[i] in bound;
    if forall i :: n <= i < |params| && params[i] !in Names(args[n..]) ==> params[i] in defaults {
      forall p | p in params && p !in bound ensures p in defaults {
        var k :| 0 <= k < |params| && params[k] == p;
        assert n <= k;
      }
    }
  }

  /** What the successful path of `BindCall` binds: exactly the parameters, the first `n` to
      the positional arguments. */
  lemma BindCallFacts(params: seq<string>, defaults: map<string, string>, args: seq<CallArg>, n: nat,
                      bound: map<string, string>, r: Outcome<map<string, string>>)
    requires n <= |params| && n <= |args| && DistinctNames(params)
    requires KeywordsAccepted(params, Positional(params, args, n).Keys, args[n..])
    requires bound.Keys == Positional(params, args, n).Keys + Names(args[n..])
    requires forall p :: p in Positional(params, args, n) ==> bound[p] == Positional(params, args, n)[p]
    requires r == FillDefaults(params, defaults, bound)
    ensures r.Ok? ==> forall p :: p in r.value <==> p in params
    ensures r.Ok? ==> forall i :: 0 <= i < n ==> r.value[params[i]] == args[i].value
  {
    var positional := Positional(params, args, n);
    KeywordNamesDeclared(params, positional.Keys, args[n..]);
    assert forall p :: p in bound ==> p in params;
    assert forall i :: 0 <= i < n ==> params[i] in positional && bound[params[i]] == args[i].value;
  }

  /** The keyword arguments after the first `n` keep, through the defaults, their own values. */
  lemma KeywordsBound(params: seq<string>, defaults: map<string, string>, args: seq<CallArg>, n: nat,
                      bound: map<string, string>, r: Outcome<map<string, string>>)
    requires n <= |args|
    requires forall j :: 0 <= j < |args[n..]| ==>
      args[n..][j].Kw? && args[n..][j].name in bound && bound[args[n..][j].name] == args[n..][j].value
    requires r == FillDefaults(params, defaults, bound)
    ensures r.Ok? ==> forall j :: n <= j < |args| ==>
      args[j].Kw? && args[j].name in r.value && r.value[args[j].name] == args[j].value
  {
    assert forall j :: n <= j < |args| ==> args[j] == args[n..][j - n];
  }

  /** A parameter after the first `n` that no keyword names takes its default. */
  lemma DefaultsBound(params: seq<string>, defaults: map<string, string>, args: seq<CallArg>, n: nat,
                      bound: map<string, string>, r: Outcome<map<string, string>>)
    requires n <= |params| && n <= |args| && DistinctNames(params)
    requires bound.Keys == Positional(params, args, n).Keys + Names(args[n..])
    requires r == FillDefaults(params, defaults, bound)
    ensures r.Ok? ==> forall i :: n <= i < |params| && params[i] !in Names(args[n..]) ==>
      params[i] in defaults && params[i] in r.value && r.value[params[i]] == defaults[params[i]]
  {
    assert forall i :: n <= i < |params| && params[i] !in Names(args[n..]) ==> params[i] !in bound;
  }

  function BindKeywords(params: seq<string>, bound: map<string, string>, kws: seq<CallArg>): (r: Outcome<map<string, string>>)
    ensures r.Raise? ==> r.error == TypeError
    ensures r.Ok? <==> KeywordsAccepted(params, bound.Keys, kws)
    ensures r.Ok? ==> r.value.Keys == bound.Keys + Names(kws)
    ensures r.Ok? ==> forall p :: p in bound ==> r.value[p] == bound[p]
    decreases |kws|
  {
    if kws == [] then Ok(bound)
    else if !kws[0].Kw? || kws[0].name !in params || kws[0].name in bound then Raise(TypeError)
    else
      var next := bound[kws[0].name := kws[0].value];
      assert next.Keys == bound.Keys + {kws[0].name};
      BindKeywords(params, next, kws[1..])
  }

  /** An accepted first keyword names a fresh parameter, and the rest bind after it. */
  lemma KeywordsHead(params: seq<string>, bound: map<string, string>, kws: seq<CallArg>, m: map<string, string>)
    requires kws != [] && BindKeywords(params, bound, kws) == Ok(m)
    ensures kws[0].Kw? && kws[0].name in params && kws[0].name !in bound
    ensures BindKeywords(params, bound[kws[0].name := kws[0].value], kws[1..]) == Ok(m)
  {
  }

  /** Each accepted keyword argument binds its own value: a later keyword never names a
      parameter an earlier one bound. */
  lemma KeywordValues(params: seq<string>, bound: map<string, string>, kws: seq<CallArg>, m: map<string, string>)
    requires BindKeywords(params, bound, kws) == Ok(m)
    ensures forall j :: 0 <= j < |kws| ==> kws[j].Kw? && kws[j].name in m && m[kws[j].name] == kws[j].value
  {
    forall j | 0 <= j < |kws|
      ensures kws[j].Kw? && kws[j].name in m && m[kws[j].name] == kws[j].value
    {
      KeywordValueAt(params, bound, kws, m, j);
    }
  }

  lemma {:induction false} KeywordValueAt(params: seq<string>, bound: map<string, string>, kws: seq<CallArg>, m: map<string, string>, j: nat)
    requires BindKeywords(params, bound, kws) == Ok(m) && j < |kws|
    ensures kws[j].Kw? && kws[j].name in m && m[kws[j].name] == kws[j].value
    decreases j
  {
    KeywordsHead(params, bound, kws, m);
    var next := bound[kws[0].name := kws[0].value];
    if j == 0 {
      assert kws[0].name in next;
    } else {
      KeywordValueAt(params, next, kws[1..], m, j - 1);
      assert kws[1..][j - 1] == kws[j];
    }
  }

  lemma {:induction false} KeywordNamesDeclared(params: seq<string>, bound: set<string>, kws: seq<CallArg>)
    requires KeywordsAccepted(params, bound, kws)
    ensures forall x :: x in Names(kws) ==> x in params
    decreases |kws|
  {
    if kws != [] {
      KeywordNamesDeclared(params, bound + {kws[0].name}, kws[1..]);
    }
  }

  /** Every keyword argument names a declared parameter that is not bound yet, each at most once. */
  predicate KeywordsAccepted(params: seq<string>, bound: set<string>, kws: seq<CallArg>)
    decreases |kws|
  {
    kws == [] ||
    (kws[0].Kw? && kws[0].name in params && kws[0].name !in bound &&
     KeywordsAccepted(params, bound + {kws[0].name}, kws[1..]))
  }

  /** A keyword argument that names no parameter makes the call raise, whatever else is passed. */
  lemma {:induction false} UndeclaredKeyword(params: seq<string>, bound: set<string>, kws: seq<CallArg>, j: nat)
    requires j < |kws| && kws[j].Kw? && kws[j].name !in params
    ensures !KeywordsAccepted(params, bound, kws)
    decreases j
  {
    if j > 0 && kws[0].Kw? && kws[0].name in params && kws[0].name !in bound {
      UndeclaredKeyword(params, bound + {kws[0].name}, kws[1..], j - 1);
    }
  }

  /** A keyword argument that names a parameter already bound is never accepted. */
  lemma {:induction false} BoundKeywordRejected(params: seq<string>, bound: set<string>, kws: seq<CallArg>, j: nat)
    requires j < |kws| && kws[j].Kw? && kws[j].name in bound
    ensures !KeywordsAccepted(params, bound, kws)
    decreases j
  {
    if j > 0 && kws[0].Kw? && kws[0].name in params && kws[0].name !in bound {
      BoundKeywordRejected(params, bound + {kws[0].name}, kws[1..], j - 1);
    }
  }

  /** Two keyword arguments with the same name are never accepted, whatever their values. */
  lemma {:induction false} RepeatedKeywordRejected(params: seq<string>, bound: set<string>, kws: seq<CallArg>, i: nat, j: nat)
    requires i < j < |kws| && kws[i].Kw? && kws[j].Kw? && kws[i].name == kws[j].name
    ensures !KeywordsAccepted(params, bound, kws)
    decreases i
  {
    if kws[0].Kw? && kws[0].name in params && kws[0].name !in bound {
      if i == 0 {
        BoundKeywordRejected(params, bound + {kws[0].name}, kws[1..], j - 1);
      } else {
        RepeatedKeywordRejected(params, bound + {kws[0].name}, kws[1..], i - 1, j - 1);
      }
    }
  }

  /** A keyword argument naming a parameter that a positional argument already fills raises
      TypeError, even when it passes the same value. */
  lemma RebindPositionalRaises(params: seq<string>, defaults: map<string, string>, args: seq<CallArg>, i: nat, j: nat)
    requires DistinctNames(params) && PosFirst(args)
    requires i < CountPos(args) && i < |params| && j < |args| && args[j].Kw? && args[j].name == params[i]
    ensures BindCall(params, defaults, args) == Raise(TypeError)
  {
    var n := CountPos(args);
    CountPosPrefix(args);
    if n <= |params| {
      assert j >= n;
      assert args[n..][j - n] == args[j];
      BoundKeywordRejected(params, set k | 0 <= k < n :: params[k], args[n..], j - n);
    }
  }

  /** A call passing the same keyword twice raises TypeError, even with equal values. */
  lemma RepeatedKeywordRaises(params: seq<string>, defaults: map<string, string>, args: seq<CallArg>, i: nat, j: nat)
    requires DistinctNames(params) && PosFirst(args)
    requires i < j < |args| && args[i].Kw? && args[j].Kw? && args[i].name == args[j].name
    ensures BindCall(params, defaults, args) == Raise(TypeError)
  {
    var n := CountPos(args);
    CountPosPrefix(args);
    if n <= |params| {
      assert n <= i;
      assert args[n..][i - n] == args[i] && args[n..][j - n] == args[j];
      RepeatedKeywordRejected(params, set k | 0 <= k < n :: params[k], args[n..], i - n, j - n);
    }
  }

  /** A call with an undeclared keyword raises TypeError. */
  lemma UndeclaredKeywordRaises(params: seq<string>, defaults: map<string, string>, args: seq<CallArg>, j: nat)
    requires DistinctNames(params) && PosFirst(args)
    requires j < |args| && args[j].Kw? && args[j].name !in params
    ensures BindCall(params, defaults, args) == Raise(TypeError)
  {
    var n := CountPos(args);
    CountPosPrefix(args);
    if n <= |params| {
      assert j >= n;
      assert args[n..][j - n] == args[j];
      UndeclaredKeyword(params, Positional(params, args, n).Keys, args[n..], j - n);
    }
  }

  lemma {:induction false} CountPosPrefix(args: seq<CallArg>)
    ensures forall i :: 0 <= i < CountPos(args) ==> args[i].Pos?
    ensures CountPos(args) < |args| ==> !args[CountPos(args)].Pos?
    decreases |args|
  {
    if args != [] && args[0].Pos? {
      CountPosPrefix(args[1..]);
      assert forall i :: 1 <= i < |args| ==> args[1..][i - 1] == args[i];
    }
  }
  lemma {:induction false} CountPosAll(args: seq<CallArg>)
    requires forall i :: 0 <= i < |args| ==> args[i].Pos?
    ensures CountPos(args) == |args|
    decreases |args|
  {
    if args != [] {
      assert forall i :: 0 <= i < |args[1..]| ==> args[1..][i] == args[i + 1];
      CountPosAll(args[1..]);
    }
  }

  /** A call with positional arguments only succeeds when there are not too many and every
      parameter they leave unbound has a default. */
  lemma PositionalCall(params: seq<string>, defaults: map<string, string>, args: seq<CallArg>)
    requires DistinctNames(params) && forall i :: 0 <= i < |args| ==> args[i].Pos?
    requires |args| <= |params| && forall i :: |args| <= i < |params| ==> params[i] in defaults
    ensures PosFirst(args) && CountPos(args) == |args|
    ensures BindCall(params, defaults, args).Ok?
  {
    CountPosAll(args);
    var n := |args|;
    var positional := Positional(params, args, n);
    assert args[n..] == [];
    assert BindKeywords(params, positional, args[n..]) == Ok(positional);
    PositionalDefaults(params, defaults, args);
  }

  lemma PositionalDefaults(params: seq<string>, defaults: map<string, string>, args: seq<CallArg>)
    requires DistinctNames(params) && forall i :: 0 <= i < |args| ==> args[i].Pos?
    requires |args| <= |params| && forall i :: |args| <= i < |params| ==> params[i] in defaults
    ensures FillDefaults(params, defaults, Positional(params, args, |args|)).Ok?
  {
    var positional := Positional(params, args, |args|);
    forall p | p in params && p !in positional ensures p in defaults {
      var i :| 0 <= i < |params| && params[i] == p;
      assert i >= |args|;
    }
  }

  function FillDefaults(params: seq<string>, defaults: map<string, string>, bound: map<string, string>): (r: Outcome<map<string, string>>)
    ensures r.Raise? ==> r.error == TypeError
    ensures r.Ok? <==> forall p :: p in params && p !in bound ==> p in defaults
    ensures r.Ok? ==> forall p :: p in r.value <==> p in bound || p in params
    ensures r.Ok? ==> forall p :: p in bound ==> r.value[p] == bound[p]
    ensures r.Ok? ==> forall p :: p in params && p !in bound ==> p in defaults && p in r.value && r.value[p] == defaults[p]
  {
    if forall p :: p in params && p !in bound ==> p in defaults then
      Ok(map p | p in bound.Keys + (set q | q in params) :: if p in bound then bound[p] else defaults[p])
    else Raise(TypeError)
  }
}
