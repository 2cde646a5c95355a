/** The configuration files and everyone who reads and writes them: several processes, several threads in
    each, src/lib/ConfigStore.cpp:302-593, 692-778 and 881-1010, the saves of
    src/bin/calaos_server/CalaosConfig.cpp:266-281, 432-458, 563-586 and the restore of
    src/bin/calaos_server/AdminConfig.cpp:542-581. Any step may be the last one of its process. */
module ConfigStore {
  import opened Options
  import opened ConfigDocuments

  // ----- the text of a file -----

  /** A file is printed piece by piece. */
  datatype Piece = Open | Child(node: Node) | Close

  type Text = seq<Piece>

  function Print(doc: Doc): Text { [Open] + PrintRest(doc) }

  function PrintRest(doc: Doc): Text { if doc == [] then [Close] else [Child(doc[0])] + PrintRest(doc[1..]) }

  function Parse(text: Text): Option<Doc> { if text == [] || text[0] != Open then None else ParseRest(text[1..]) }

  function ParseRest(text: Text): Option<Doc> {
    if text == [Close] then Some([])
    else if text == [] || !text[0].Child? then None
    else
      match ParseRest(text[1..])
      case None => None
      case Some(doc) => Some([text[0].node] + doc)
  }

  lemma {:induction false} ParsePrintRest(doc: Doc, n: nat)
    requires n <= |PrintRest(doc)|
    ensures ParseRest(PrintRest(doc)[..n]) == if n == |PrintRest(doc)| then Some(doc) else None
  {
    var text := PrintRest(doc);
    if doc == [] {
      assert n == 0 ==> text[..n] == [];
      assert n == 1 ==> text[..n] == [Close];
    } else if n == 0 {
      assert text[..n] == [];
    } else {
      ParsePrintRest(doc[1..], n - 1);
      assert text[..n][1..] == PrintRest(doc[1..])[..n - 1];
      assert text[..n][0] == Child(doc[0]);
      assert doc == [doc[0]] + doc[1..];
    }
  }

  /** A complete file is read as the document that was written, a torn one is not read at all. */
  lemma ParsePrint(doc: Doc, n: nat)
    requires n <= |Print(doc)|
    ensures Parse(Print(doc)[..n]) == if n == |Print(doc)| then Some(doc) else None
  {
    if n > 0 {
      ParsePrintRest(doc, n - 1);
      assert Print(doc)[..n][1..] == PrintRest(doc)[..n - 1];
    }
  }

  lemma {:induction false} PrintParseRest(text: Text)
    requires ParseRest(text).Some?
    ensures PrintRest(ParseRest(text).value) == text
  {
    if text != [Close] {
      PrintParseRest(text[1..]);
      var doc := ParseRest(text[1..]).value;
      assert ([text[0].node] + doc)[1..] == doc;
      assert text == [text[0]] + text[1..];
    }
  }

  lemma PrintParse(text: Text)
    requires Parse(text).Some?
    ensures Print(Parse(text).value) == text
  {
    PrintParseRest(text[1..]);
    assert text == [text[0]] + text[1..];
  }

  // ----- the system -----

  datatype Path = Local | Io | Rules

  /** A run of a process, and one call of a function of the store: neither comes back. */
  type Pid = nat
  type Tid = nat

  /** get_config_option; set_config_options and its two short forms; restore_config_file. */
  datatype Op =
    | Read(path: Path)
    | Update(batch: Batch)
    | Replace(path: Path, text: Text)

  function PathOf(op: Op): Path { if op.Update? then Local else op.path }

  /** mkstemp() gives each writer its own temporary file; a restore or a save uses one name per file. */
  datatype Temp = Unique(t: Tid) | Suffixed(path: Path)

  function TempOf(t: Tid, op: Op): Temp { if op.Update? then Unique(t) else Suffixed(PathOf(op)) }

  datatype Pc =
    | Calling
    | HasMutex
    | Locked(held: bool)
    | Checked
    | Printing(text: Text, done: nat)
    | Leaving(ok: bool, found: Option<Text>)
    | Returned(ok: bool, found: Option<Text>)

  datatype Thread = Thread(pid: Pid, op: Op, pc: Pc)

  /** What the main thread of a process is busy with. */
  datatype Main = Idle | Saving(t: Tid) | Restoring(t: Tid, rest: seq<Op>)

  /** `replaced` says which commit of the log replaced a file in the restore of this process. */
  datatype Proc = Proc(frozen: bool, loaded: set<Path>, main: Main, restarting: bool, replaced: map<Path, nat>)

  /** A change that reached the disk, or that had nothing to change there. */
  datatype Commit = Commit(t: Tid, pid: Pid, op: Op)

  datatype Disk = Disk(files: map<Path, Text>, temps: map<Temp, Text>, log: seq<Commit>)

  datatype Locks = Locks(mutex: map<Pid, Tid>, writer: Option<Tid>, readers: set<Tid>)

  datatype Names = Names(calls: set<Tid>, boots: set<Pid>)

  datatype State = State(disk: Disk, locks: Locks, threads: map<Tid, Thread>, procs: map<Pid, Proc>, names: Names)

  function Initial(files: map<Path, Text>): State {
    State(Disk(files, map[], []), Locks(map[], None, {}), map[], map[], Names({}, {}))
  }

  /** A restore writes io.xml, rules.xml and, when the backup has one, local_config.xml. */
  datatype Plan = Plan(io: Text, rules: Text, local: Option<Text>) {
    function Writes(): seq<Op> {
      [Replace(Io, io), Replace(Rules, rules)] + (if local.Some? then [Replace(Local, local.value)] else [])
    }
  }

  datatype Event =
    | Boot(pid: Pid, loaded: set<Path>)
    | Crash(pid: Pid)
    | Call(pid: Pid, t: Tid, op: Op)
    | TakeMutex(t: Tid)
    | TakeFlock(t: Tid)
    | FlockFails(t: Tid)
    | ReadFile(t: Tid)
    | CheckFrozen(t: Tid)
    | Load(t: Tid)
    | CreateTemp(t: Tid)
    | PrintPiece(t: Tid)
    | Rename(t: Tid)
    | WriteFails(t: Tid)
    | Leave(t: Tid)
    | StartSave(pid: Pid, t: Tid, path: Path, text: Text)
    | StartRestore(pid: Pid, t: Tid, plan: Plan, backedUp: bool)
    | Resume(pid: Pid, t: Tid)

  predicate At(s: State, t: Tid) { t in s.threads }

  /** What may happen. That a printing thread has its temporary file, and a thread its process, only makes the
      steps well defined: StepsAreDefined shows that it never holds anybody back. */
  predicate Enabled(s: State, e: Event) {
    match e
    case Boot(p, _) => p !in s.names.boots
    case Crash(p) => p in s.procs
    case Call(p, t, op) => p in s.procs && t !in s.names.calls && !op.Replace?
    case TakeMutex(t) => At(s, t) && s.threads[t].pc.Calling? && s.threads[t].pid !in s.locks.mutex
    case TakeFlock(t) => At(s, t) && s.threads[t].pc.HasMutex? && s.locks.writer.None?
                         && (s.threads[t].op.Read? || s.locks.readers == {})
    case FlockFails(t) => At(s, t) && s.threads[t].pc.HasMutex?
    case ReadFile(t) => At(s, t) && s.threads[t].pc.Locked? && s.threads[t].op.Read?
    case CheckFrozen(t) => At(s, t) && s.threads[t].pc.Locked? && s.threads[t].op.Update?
                           && s.threads[t].pid in s.procs
    case Load(t) => At(s, t) && s.threads[t].pc.Checked? && s.threads[t].op.Update?
    case CreateTemp(t) => At(s, t) && s.threads[t].pc.Locked? && s.threads[t].op.Replace?
    case PrintPiece(t) => At(s, t) && s.threads[t].pc.Printing? && s.threads[t].pc.done < |s.threads[t].pc.text|
                          && TempOf(t, s.threads[t].op) in s.disk.temps
    case Rename(t) => At(s, t) && s.threads[t].pc.Printing? && s.threads[t].pc.done == |s.threads[t].pc.text|
                      && TempOf(t, s.threads[t].op) in s.disk.temps
    case WriteFails(t) => At(s, t) && (s.threads[t].pc.Printing? || s.threads[t].pc.Checked?
                                       || (s.threads[t].pc.Locked? && s.threads[t].op.Replace?))
    case Leave(t) => At(s, t) && s.threads[t].pc.Leaving?
    case StartSave(p, t, path, _) => p in s.procs && s.procs[p].main.Idle? && t !in s.names.calls && path != Local
    case StartRestore(p, t, _, _) => p in s.procs && s.procs[p].main.Idle? && t !in s.names.calls
    case Resume(p, t) => p in s.procs && !s.procs[p].main.Idle? && t !in s.names.calls
                         && At(s, s.procs[p].main.t) && s.threads[s.procs[p].main.t].pc.Returned?
  }

  function Go(s: State, t: Tid, pc: Pc): State
    requires t in s.threads
  {
    s.(threads := s.threads[t := s.threads[t].(pc := pc)])
  }

  function Spawn(s: State, p: Pid, t: Tid, op: Op): State {
    s.(threads := s.threads[t := Thread(p, op, Calling)], names := s.names.(calls := s.names.calls + {t}))
  }

  function Committed(s: State, t: Tid): seq<Commit>
    requires t in s.threads
  {
    s.disk.log + [Commit(t, s.threads[t].pid, s.threads[t].op)]
  }

  /** rename() put the restored file in place. */
  function Replaced(procs: map<Pid, Proc>, p: Pid, t: Tid, path: Path, at: nat): map<Pid, Proc> {
    if p in procs && procs[p].main.Restoring? && procs[p].main.t == t
    then procs[p := procs[p].(replaced := procs[p].replaced[path := at])]
    else procs
  }

  ghost function DoLoad(s: State, t: Tid): State
    requires t in s.threads && s.threads[t].op.Update?
  {
    var batch := s.threads[t].op.batch;
    if Local !in s.disk.files || Parse(s.disk.files[Local]).None? then Go(s, t, Leaving(false, None))
    else
      var doc := Parse(s.disk.files[Local]).value;
      if Done(doc, batch) then Go(s.(disk := s.disk.(log := Committed(s, t))), t, Leaving(true, None))
      else Go(s.(disk := s.disk.(temps := s.disk.temps[Unique(t) := []])), t, Printing(Print(Apply(doc, batch)), 0))
  }

  function DoLeave(s: State, t: Tid): State
    requires t in s.threads && s.threads[t].pc.Leaving?
  {
    var x := s.threads[t];
    var locks := Locks(if x.pid in s.locks.mutex && s.locks.mutex[x.pid] == t then s.locks.mutex - {x.pid}
                       else s.locks.mutex,
                       if s.locks.writer == Some(t) then None else s.locks.writer,
                       s.locks.readers - {t});
    Go(s.(locks := locks), t, Returned(x.pc.ok, x.pc.found))
  }

  function Dead(threads: map<Tid, Thread>, p: Pid): set<Tid> { set t | t in threads && threads[t].pid == p }

  /** The kernel releases the locks of a dead process; its temporary files stay where they were. */
  function DoCrash(s: State, p: Pid): State {
    var dead := Dead(s.threads, p);
    s.(threads := s.threads - dead, procs := s.procs - {p},
       locks := Locks(s.locks.mutex - {p},
                      if s.locks.writer.Some? && s.locks.writer.value in dead then None else s.locks.writer,
                      s.locks.readers - dead))
  }

  function DoResume(s: State, p: Pid, t: Tid): State
    requires p in s.procs && !s.procs[p].main.Idle? && s.procs[p].main.t in s.threads
    requires s.threads[s.procs[p].main.t].pc.Returned?
  {
    var x := s.procs[p];
    match x.main
    case Saving(_) => s.(procs := s.procs[p := x.(main := Idle)])
    case Restoring(u, rest) =>
      if !s.threads[u].pc.ok then s.(procs := s.procs[p := x.(main := Idle, frozen := x.restarting)])
      else if rest == [] then s.(procs := s.procs[p := x.(main := Idle, restarting := true)])
      else Spawn(s.(procs := s.procs[p := x.(main := Restoring(t, rest[1..]), restarting := true)]), p, t, rest[0])
  }

  ghost function Next(s: State, e: Event): State
    requires Enabled(s, e)
  {
    match e
    case Boot(p, loaded) =>
      s.(procs := s.procs[p := Proc(false, loaded, Idle, false, map[])],
         names := s.names.(boots := s.names.boots + {p}))
    case Crash(p) => DoCrash(s, p)
    case Call(p, t, op) => Spawn(s, p, t, op)
    case TakeMutex(t) => Go(s.(locks := s.locks.(mutex := s.locks.mutex[s.threads[t].pid := t])), t, HasMutex)
    case TakeFlock(t) =>
      Go(s.(locks := if s.threads[t].op.Read? then s.locks.(readers := s.locks.readers + {t})
                     else s.locks.(writer := Some(t))), t, Locked(true))
    case FlockFails(t) => Go(s, t, if s.threads[t].op.Read? then Locked(false) else Leaving(false, None))
    case ReadFile(t) =>
      var path := PathOf(s.threads[t].op);
      Go(s, t, Leaving(true, if path in s.disk.files then Some(s.disk.files[path]) else None))
    case CheckFrozen(t) => Go(s, t, if s.procs[s.threads[t].pid].frozen then Leaving(false, None) else Checked)
    case Load(t) => DoLoad(s, t)
    case CreateTemp(t) =>
      Go(s.(disk := s.disk.(temps := s.disk.temps[TempOf(t, s.threads[t].op) := []])), t,
         Printing(s.threads[t].op.text, 0))
    case PrintPiece(t) =>
      var x := s.threads[t];
      var tmp := TempOf(t, x.op);
      Go(s.(disk := s.disk.(temps := s.disk.temps[tmp := s.disk.temps[tmp] + [x.pc.text[x.pc.done]]])), t,
         Printing(x.pc.text, x.pc.done + 1))
    case Rename(t) =>
      var x := s.threads[t];
      var tmp := TempOf(t, x.op);
      var path := PathOf(x.op);
      Go(s.(disk := Disk(s.disk.files[path := s.disk.temps[tmp]], s.disk.temps - {tmp}, Committed(s, t)),
            procs := Replaced(s.procs, x.pid, t, path, |s.disk.log|)), t, Leaving(true, None))
    case WriteFails(t) =>
      var tmp := TempOf(t, s.threads[t].op);
      Go(s.(disk := s.disk.(temps := if s.threads[t].pc.Printing? then s.disk.temps - {tmp} else s.disk.temps)), t,
         Leaving(false, None))
    case Leave(t) => DoLeave(s, t)
    case StartSave(p, t, path, text) =>
      if s.procs[p].frozen || path !in s.procs[p].loaded then s
      else Spawn(s.(procs := s.procs[p := s.procs[p].(main := Saving(t))]), p, t, Replace(path, text))
    case StartRestore(p, t, plan, backedUp) =>
      if s.procs[p].frozen || !backedUp then s
      else
        var writes := plan.Writes();
        Spawn(s.(procs := s.procs[p := s.procs[p].(main := Restoring(t, writes[1..]), frozen := true)]), p, t,
              writes[0])
    case Resume(p, t) => DoResume(s, p, t)
  }

  // ----- what the log says the files hold -----

  /** The file as it would be had the changes been made one after the other, each in one go. */
  function Effect(before: Option<Text>, op: Op): Option<Text> {
    match op
    case Read(_) => before
    case Replace(_, text) => Some(text)
    case Update(batch) =>
      if before.None? || Parse(before.value).None? then before
      else Some(Print(Apply(Parse(before.value).value, batch)))
  }

  function Fold(first: Option<Text>, log: seq<Commit>, path: Path): Option<Text> {
    if log == [] then first
    else
      var before := Fold(first, log[..|log| - 1], path);
      if PathOf(log[|log| - 1].op) == path then Effect(before, log[|log| - 1].op) else before
  }

  function Lookup(files: map<Path, Text>, path: Path): Option<Text> {
    if path in files then Some(files[path]) else None
  }

  // ----- the invariant -----

  predicate Inside(pc: Pc) { !pc.Calling? && !pc.Returned? }

  /** One thread of a process at a time. */
  ghost predicate MutexOk(mutex: map<Pid, Tid>, threads: map<Tid, Thread>) {
    && (forall p <- mutex :: mutex[p] in threads && threads[mutex[p]].pid == p)
    && (forall t <- threads :: Inside(threads[t].pc) ==> threads[t].pid in mutex && mutex[threads[t].pid] == t)
  }

  predicate Writing(x: Thread) { !x.op.Read? && (x.pc.Locked? || x.pc.Checked? || x.pc.Printing?) }

  /** A reader that waited for the lock and has it. */
  predicate LockedReader(x: Thread) { x.op.Read? && x.pc == Locked(true) }

  /** One writer at a time over all processes, and no locked reader beside it. */
  ghost predicate FlockOk(writer: Option<Tid>, readers: set<Tid>, threads: map<Tid, Thread>) {
    && (forall t <- threads :: Writing(threads[t]) ==> writer == Some(t))
    && (writer.Some? ==> readers == {} && writer.value in threads && (Writing(threads[writer.value])
                         || threads[writer.value].pc.Leaving?))
    && (forall t <- readers :: t in threads && threads[t].op.Read?)
    && (forall t <- threads :: LockedReader(threads[t]) ==> t in readers)
  }

  /** What a writer has printed so far, and that what it prints is still up to date. */
  ghost predicate PrintOk(x: Thread, t: Tid, files: map<Path, Text>, temps: map<Temp, Text>) {
    && (x.pc.Checked? ==> x.op.Update?)
    && (x.pc.Printing? ==>
          && x.pc.done <= |x.pc.text|
          && TempOf(t, x.op) in temps && temps[TempOf(t, x.op)] == x.pc.text[..x.pc.done]
          && !x.op.Read?
          && (x.op.Update? ==> Local in files && Parse(files[Local]).Some?)
          && Some(x.pc.text) == Effect(Lookup(files, PathOf(x.op)), x.op))
  }

  ghost predicate PrintsOk(threads: map<Tid, Thread>, files: map<Path, Text>, temps: map<Temp, Text>) {
    forall t <- threads :: PrintOk(threads[t], t, files, temps)
  }

  ghost predicate LogOk(first: map<Path, Text>, files: map<Path, Text>, log: seq<Commit>) {
    forall path: Path :: Lookup(files, path) == Fold(Lookup(first, path), log, path)
  }

  predicate Succeeded(pc: Pc) { (pc.Leaving? || pc.Returned?) && pc.ok }

  ghost predicate Logged(log: seq<Commit>, t: Tid) { exists i: nat :: i < |log| && log[i].t == t }

  /** A writer that succeeded is in the log, once, and so is nobody else. */
  ghost predicate AnswersOk(log: seq<Commit>, threads: map<Tid, Thread>, calls: set<Tid>) {
    && (forall t <- threads :: t in calls && (!threads[t].op.Read? ==> (Succeeded(threads[t].pc) <==> Logged(log, t))))
    && (forall i: nat | i < |log| :: log[i].t in calls)
    && (forall i: nat, j: nat | i < j < |log| :: log[i].t != log[j].t)
    && (forall i: nat | i < |log| && log[i].t in threads ::
          log[i] == Commit(log[i].t, threads[log[i].t].pid, threads[log[i].t].op))
  }

  /** The freeze follows the restore: raised before the first file, and kept exactly when one was replaced. */
  ghost predicate ProcOk(x: Proc, p: Pid, threads: map<Tid, Thread>) {
    match x.main
    case Idle => x.frozen == x.restarting && (x.restarting <==> x.replaced != map[])
    case Saving(t) =>
      && !x.frozen && !x.restarting && x.replaced == map[]
      && t in threads && threads[t].pid == p && threads[t].op.Replace? && threads[t].op.path in x.loaded
    case Restoring(t, rest) =>
      && x.frozen
      && t in threads && threads[t].pid == p && threads[t].op.Replace? && (forall op <- rest :: op.Replace?)
      && (x.replaced != map[] <==> x.restarting || Succeeded(threads[t].pc))
  }

  ghost predicate ProcsOk(procs: map<Pid, Proc>, threads: map<Tid, Thread>) {
    forall p <- procs :: ProcOk(procs[p], p, threads)
  }

  /** restore_config_file runs in the main thread, and a writer that went past the check went before it. */
  predicate ThreadOk(x: Thread, t: Tid, procs: map<Pid, Proc>) {
    && x.pid in procs
    && (x.op.Replace? && !x.pc.Returned? ==> !procs[x.pid].main.Idle? && procs[x.pid].main.t == t)
    && (x.op.Update? && (x.pc.Checked? || x.pc.Printing?) ==> procs[x.pid].replaced == map[])
  }

  ghost predicate ThreadsOk(threads: map<Tid, Thread>, procs: map<Pid, Proc>) {
    forall t <- threads :: ThreadOk(threads[t], t, procs)
  }

  /** Nothing the process wrote comes after what its restore put in place. */
  ghost predicate LastWord(log: seq<Commit>, p: Pid, path: Path, i: nat) {
    && i < |log| && log[i].pid == p && log[i].op.Replace? && log[i].op.path == path
    && forall j: nat | i < j < |log| && log[j].pid == p :: PathOf(log[j].op) != path
  }

  ghost predicate KeepOk(log: seq<Commit>, procs: map<Pid, Proc>) {
    forall p <- procs :: forall path <- procs[p].replaced :: LastWord(log, p, path, procs[p].replaced[path])
  }

  /** A file that was not loaded is written by a restore or not at all. */
  ghost predicate SavedOk(log: seq<Commit>, procs: map<Pid, Proc>) {
    forall i: nat | i < |log| && log[i].pid in procs && log[i].op.Replace? ::
      log[i].op.path in procs[log[i].pid].loaded || log[i].op.path in procs[log[i].pid].replaced
  }

  ghost predicate NamesOk(log: seq<Commit>, procs: map<Pid, Proc>, boots: set<Pid>) {
    procs.Keys <= boots && forall i: nat | i < |log| :: log[i].pid in boots
  }

  ghost predicate Inv(s: State, first: map<Path, Text>) {
    && MutexOk(s.locks.mutex, s.threads)
    && FlockOk(s.locks.writer, s.locks.readers, s.threads)
    && PrintsOk(s.threads, s.disk.files, s.disk.temps)
    && LogOk(first, s.disk.files, s.disk.log)
    && AnswersOk(s.disk.log, s.threads, s.names.calls)
    && ProcsOk(s.procs, s.threads)
    && ThreadsOk(s.threads, s.procs)
    && KeepOk(s.disk.log, s.procs)
    && SavedOk(s.disk.log, s.procs)
    && NamesOk(s.disk.log, s.procs, s.names.boots)
  }

  // ----- one thread moves -----

  function Moved(threads: map<Tid, Thread>, t: Tid, pc: Pc): map<Tid, Thread>
    requires t in threads
  {
    threads[t := threads[t].(pc := pc)]
  }

  lemma MoveMutex(mutex: map<Pid, Tid>, threads: map<Tid, Thread>, t: Tid, pc: Pc)
    requires MutexOk(mutex, threads) && t in threads && (Inside(pc) ==> Inside(threads[t].pc))
    ensures MutexOk(mutex, Moved(threads, t, pc))
  {
  }

  lemma MoveFlock(writer: Option<Tid>, readers: set<Tid>, threads: map<Tid, Thread>, t: Tid, pc: Pc)
    requires FlockOk(writer, readers, threads) && t in threads
    requires Writing(threads[t].(pc := pc)) ==> Writing(threads[t])
    requires writer == Some(t) ==> Writing(threads[t].(pc := pc)) || pc.Leaving?
    requires !LockedReader(threads[t].(pc := pc))
    ensures FlockOk(writer, readers, Moved(threads, t, pc))
  {
  }

  /** Nobody else is printing: whatever happens to t's own temporary file is t's business. */
  lemma MovePrints(threads: map<Tid, Thread>, files: map<Path, Text>, temps: map<Temp, Text>, temps': map<Temp, Text>,
                   t: Tid, pc: Pc)
    requires PrintsOk(threads, files, temps) && t in threads && PrintOk(threads[t].(pc := pc), t, files, temps')
    requires temps' == temps || forall u <- threads | u != t :: !threads[u].pc.Printing?
    ensures PrintsOk(Moved(threads, t, pc), files, temps')
  {
    var moved := Moved(threads, t, pc);
    forall u <- moved
      ensures PrintOk(moved[u], u, files, temps')
    {
      if u != t {
        assert PrintOk(threads[u], u, files, temps);
      }
    }
  }

  lemma MoveAnswers(log: seq<Commit>, threads: map<Tid, Thread>, calls: set<Tid>, t: Tid, pc: Pc)
    requires AnswersOk(log, threads, calls) && t in threads
    requires threads[t].op.Read? || Succeeded(pc) == Succeeded(threads[t].pc)
    ensures AnswersOk(log, Moved(threads, t, pc), calls)
  {
  }

  lemma MoveProcs(procs: map<Pid, Proc>, threads: map<Tid, Thread>, t: Tid, pc: Pc)
    requires ProcsOk(procs, threads) && t in threads
    requires threads[t].op.Replace? ==> Succeeded(pc) == Succeeded(threads[t].pc)
    ensures ProcsOk(procs, Moved(threads, t, pc))
  {
    forall p <- procs
      ensures ProcOk(procs[p], p, Moved(threads, t, pc))
    {
      assert ProcOk(procs[p], p, threads);
    }
  }

  lemma MoveThreads(threads: map<Tid, Thread>, procs: map<Pid, Proc>, t: Tid, pc: Pc)
    requires ThreadsOk(threads, procs) && t in threads && ThreadOk(threads[t].(pc := pc), t, procs)
    ensures ThreadsOk(Moved(threads, t, pc), procs)
  {
  }

  /** While one thread holds the lock to write, no other one prints. */
  lemma OneWriter(writer: Option<Tid>, readers: set<Tid>, threads: map<Tid, Thread>, files: map<Path, Text>,
                  temps: map<Temp, Text>, t: Tid)
    requires FlockOk(writer, readers, threads) && PrintsOk(threads, files, temps)
    requires t in threads && Writing(threads[t])
    ensures writer == Some(t) && readers == {}
    ensures forall u <- threads | u != t :: !threads[u].pc.Printing? && !Writing(threads[u])
  {
    forall u <- threads | u != t
      ensures !threads[u].pc.Printing? && !Writing(threads[u])
    {
      assert PrintOk(threads[u], u, files, temps);
    }
  }

  /** The steps that leave the disk's files and the log as they are. */
  lemma QuietOk(s: State, first: map<Path, Text>, t: Tid, pc: Pc, locks: Locks, temps: map<Temp, Text>)
    requires Inv(s, first) && t in s.threads
    requires MutexOk(locks.mutex, Moved(s.threads, t, pc))
    requires FlockOk(locks.writer, locks.readers, Moved(s.threads, t, pc))
    requires PrintOk(s.threads[t].(pc := pc), t, s.disk.files, temps)
    requires temps == s.disk.temps || Writing(s.threads[t])
    requires ThreadOk(s.threads[t].(pc := pc), t, s.procs)
    requires s.threads[t].op.Read? || Succeeded(pc) == Succeeded(s.threads[t].pc)
    ensures Inv(Go(s.(locks := locks, disk := s.disk.(temps := temps)), t, pc), first)
  {
    hide MutexOk, FlockOk, PrintsOk, LogOk, AnswersOk, ProcsOk, ThreadsOk, KeepOk, SavedOk, NamesOk, PrintOk, ThreadOk;
    if Writing(s.threads[t]) {
      OneWriter(s.locks.writer, s.locks.readers, s.threads, s.disk.files, s.disk.temps, t);
    }
    MovePrints(s.threads, s.disk.files, s.disk.temps, temps, t, pc);
    MoveAnswers(s.disk.log, s.threads, s.names.calls, t, pc);
    MoveProcs(s.procs, s.threads, t, pc);
    MoveThreads(s.threads, s.procs, t, pc);
  }

  lemma TakeMutexOk(s: State, first: map<Path, Text>, t: Tid)
    requires Inv(s, first) && Enabled(s, TakeMutex(t))
    ensures Inv(Next(s, TakeMutex(t)), first)
  {
    hide LogOk, AnswersOk, ProcsOk, KeepOk, SavedOk, NamesOk, FlockOk;
    var x := s.threads[t];
    assert ThreadOk(x, t, s.procs);
    var locks := s.locks.(mutex := s.locks.mutex[x.pid := t]);
    assert MutexOk(locks.mutex, Moved(s.threads, t, HasMutex)) by {
      hide PrintsOk, ThreadsOk;
    }
    hide MutexOk;
    assert s.locks.writer != Some(t) by {
      WriterHolds(s.locks.writer, s.locks.readers, s.threads, t);
    }
    MoveFlock(s.locks.writer, s.locks.readers, s.threads, t, HasMutex);
    QuietOk(s, first, t, HasMutex, locks, s.disk.temps);
  }

  lemma WriterHolds(writer: Option<Tid>, readers: set<Tid>, threads: map<Tid, Thread>, t: Tid)
    requires FlockOk(writer, readers, threads) && t in threads
    ensures writer == Some(t) ==> Writing(threads[t]) || threads[t].pc.Leaving?
  {
  }

  lemma TakeFlockOk(s: State, first: map<Path, Text>, t: Tid)
    requires Inv(s, first) && Enabled(s, TakeFlock(t))
    ensures Inv(Next(s, TakeFlock(t)), first)
  {
    hide LogOk, AnswersOk, ProcsOk, KeepOk, SavedOk, NamesOk, MutexOk;
    var x := s.threads[t];
    assert ThreadOk(x, t, s.procs);
    MoveMutex(s.locks.mutex, s.threads, t, Locked(true));
    var locks := Next(s, TakeFlock(t)).locks;
    assert FlockOk(locks.writer, locks.readers, Moved(s.threads, t, Locked(true))) by {
      hide PrintsOk, ThreadsOk;
    }
    hide FlockOk;
    QuietOk(s, first, t, Locked(true), locks, s.disk.temps);
  }

  lemma FlockFailsOk(s: State, first: map<Path, Text>, t: Tid)
    requires Inv(s, first) && Enabled(s, FlockFails(t))
    ensures Inv(Next(s, FlockFails(t)), first)
  {
    hide LogOk, AnswersOk, ProcsOk, KeepOk, SavedOk, NamesOk, MutexOk, FlockOk;
    var pc := Next(s, FlockFails(t)).threads[t].pc;
    assert ThreadOk(s.threads[t], t, s.procs);
    MoveMutex(s.locks.mutex, s.threads, t, pc);
    assert s.locks.writer != Some(t) by {
      WriterHolds(s.locks.writer, s.locks.readers, s.threads, t);
    }
    MoveFlock(s.locks.writer, s.locks.readers, s.threads, t, pc);
    QuietOk(s, first, t, pc, s.locks, s.disk.temps);
  }

  lemma LeaveOk(s: State, first: map<Path, Text>, t: Tid)
    requires Inv(s, first) && Enabled(s, Leave(t))
    ensures Inv(Next(s, Leave(t)), first)
  {
    hide LogOk, AnswersOk, ProcsOk, KeepOk, SavedOk, NamesOk, MutexOk, FlockOk;
    var x := s.threads[t];
    var pc := Returned(x.pc.ok, x.pc.found);
    var locks := Next(s, Leave(t)).locks;
    assert ThreadOk(x, t, s.procs);
    LeaveLocks(s.locks, s.threads, t, pc, locks);
    QuietOk(s, first, t, pc, locks, s.disk.temps);
  }

  lemma LeaveLocks(locks: Locks, threads: map<Tid, Thread>, t: Tid, pc: Pc, left: Locks)
    requires MutexOk(locks.mutex, threads) && FlockOk(locks.writer, locks.readers, threads)
    requires t in threads && Inside(threads[t].pc) && pc.Returned?
    requires left == Locks(locks.mutex - {threads[t].pid}, if locks.writer == Some(t) then None else locks.writer,
                           locks.readers - {t})
             || left == Locks(locks.mutex, if locks.writer == Some(t) then None else locks.writer, locks.readers - {t})
    requires left.mutex == locks.mutex ==> threads[t].pid !in locks.mutex || locks.mutex[threads[t].pid] != t
    ensures MutexOk(left.mutex, Moved(threads, t, pc)) && FlockOk(left.writer, left.readers, Moved(threads, t, pc))
  {
  }

  lemma CheckStepOk(s: State, first: map<Path, Text>, e: Event)
    requires Inv(s, first) && Enabled(s, e) && (e.ReadFile? || e.CheckFrozen?)
    ensures Inv(Next(s, e), first)
  {
    hide LogOk, AnswersOk, KeepOk, SavedOk, NamesOk, MutexOk, FlockOk;
    var x := s.threads[e.t];
    var pc := Next(s, e).threads[e.t].pc;
    assert ThreadOk(x, e.t, s.procs);
    assert PrintOk(x, e.t, s.disk.files, s.disk.temps);
    MoveMutex(s.locks.mutex, s.threads, e.t, pc);
    MoveFlock(s.locks.writer, s.locks.readers, s.threads, e.t, pc);
    if e.CheckFrozen? && !s.procs[x.pid].frozen {
      assert ProcOk(s.procs[x.pid], x.pid, s.threads);
    }
    QuietOk(s, first, e.t, pc, s.locks, s.disk.temps);
  }

  lemma PrintStepOk(s: State, first: map<Path, Text>, e: Event)
    requires Inv(s, first) && Enabled(s, e) && (e.CreateTemp? || e.PrintPiece? || e.WriteFails?)
    ensures Inv(Next(s, e), first)
  {
    hide LogOk, AnswersOk, KeepOk, SavedOk, NamesOk, MutexOk, FlockOk, ProcsOk;
    var x := s.threads[e.t];
    var pc := Next(s, e).threads[e.t].pc;
    var temps := Next(s, e).disk.temps;
    assert ThreadOk(x, e.t, s.procs);
    assert PrintOk(x, e.t, s.disk.files, s.disk.temps);
    MoveMutex(s.locks.mutex, s.threads, e.t, pc);
    MoveFlock(s.locks.writer, s.locks.readers, s.threads, e.t, pc);
    if e.PrintPiece? {
      assert x.pc.text[..x.pc.done + 1] == x.pc.text[..x.pc.done] + [x.pc.text[x.pc.done]];
    }
    QuietOk(s, first, e.t, pc, s.locks, temps);
  }

  // ----- a change is made -----

  lemma FoldOne(first: Option<Text>, log: seq<Commit>, c: Commit, path: Path)
    ensures Fold(first, log + [c], path)
         == if PathOf(c.op) == path then Effect(Fold(first, log, path), c.op) else Fold(first, log, path)
  {
    assert (log + [c])[..|log|] == log;
  }

  lemma CommitLog(first: map<Path, Text>, files: map<Path, Text>, log: seq<Commit>, c: Commit, after: map<Path, Text>)
    requires LogOk(first, files, log)
    requires Lookup(after, PathOf(c.op)) == Effect(Lookup(files, PathOf(c.op)), c.op)
    requires forall path: Path :: path != PathOf(c.op) ==> Lookup(after, path) == Lookup(files, path)
    ensures LogOk(first, after, log + [c])
  {
    forall path: Path
      ensures Lookup(after, path) == Fold(Lookup(first, path), log + [c], path)
    {
      FoldOne(Lookup(first, path), log, c, path);
    }
  }

  lemma CommitAnswers(log: seq<Commit>, threads: map<Tid, Thread>, calls: set<Tid>, t: Tid, pc: Pc)
    requires AnswersOk(log, threads, calls) && t in threads && !threads[t].op.Read?
    requires !Succeeded(threads[t].pc) && Succeeded(pc)
    ensures AnswersOk(log + [Commit(t, threads[t].pid, threads[t].op)], Moved(threads, t, pc), calls)
  {
    var c := Commit(t, threads[t].pid, threads[t].op);
    var moved := Moved(threads, t, pc);
    assert (log + [c])[|log|].t == t;
    assert !Logged(log, t);
    forall u <- moved | !moved[u].op.Read?
      ensures Succeeded(moved[u].pc) <==> Logged(log + [c], u)
    {
      if u != t && Logged(log, u) {
        var i: nat :| i < |log| && log[i].t == u;
        assert (log + [c])[i].t == u;
      }
    }
  }

  lemma CommitKeep(log: seq<Commit>, procs: map<Pid, Proc>, c: Commit)
    requires KeepOk(log, procs) && SavedOk(log, procs)
    requires c.pid in procs && (c.op.Update? ==> procs[c.pid].replaced == map[]) && !c.op.Read?
    requires c.op.Replace? ==> (procs[c.pid].main.Restoring? && procs[c.pid].main.t == c.t)
                               || (procs[c.pid].replaced == map[] && c.op.path in procs[c.pid].loaded)
    ensures var procs' := if c.op.Replace? then Replaced(procs, c.pid, c.t, c.op.path, |log|) else procs;
            KeepOk(log + [c], procs') && SavedOk(log + [c], procs')
  {
    var procs' := if c.op.Replace? then Replaced(procs, c.pid, c.t, c.op.path, |log|) else procs;
    var log' := log + [c];
    forall p <- procs', path <- procs'[p].replaced
      ensures LastWord(log', p, path, procs'[p].replaced[path])
    {
      if p != c.pid || path != PathOf(c.op) {
        assert LastWord(log, p, path, procs[p].replaced[path]);
      }
    }
  }

  /** Two ways to make a change: rename(), or finding that there is none to make. */
  lemma CommitOk(s: State, first: map<Path, Text>, t: Tid, files: map<Path, Text>, temps: map<Temp, Text>)
    requires Inv(s, first) && t in s.threads && Writing(s.threads[t])
    requires var x := s.threads[t];
             && (x.op.Update? ==> s.procs[x.pid].replaced == map[])
             && Lookup(files, PathOf(x.op)) == Effect(Lookup(s.disk.files, PathOf(x.op)), x.op)
             && forall path: Path :: path != PathOf(x.op) ==> Lookup(files, path) == Lookup(s.disk.files, path)
    requires s.threads[t].pid in s.procs
    ensures var x := s.threads[t];
            var procs := if x.op.Replace? then Replaced(s.procs, x.pid, t, x.op.path, |s.disk.log|) else s.procs;
            Inv(Go(s.(disk := Disk(files, temps, Committed(s, t)), procs := procs), t, Leaving(true, None)), first)
  {
    hide MutexOk, FlockOk, PrintsOk, LogOk, AnswersOk, ProcsOk, ThreadsOk, KeepOk, SavedOk, NamesOk, PrintOk, ProcOk,
         Fold, Effect, Replaced;
    var x := s.threads[t];
    var pc := Leaving(true, None);
    OneWriter(s.locks.writer, s.locks.readers, s.threads, s.disk.files, s.disk.temps, t);
    MoveMutex(s.locks.mutex, s.threads, t, pc);
    MoveFlock(s.locks.writer, s.locks.readers, s.threads, t, pc);
    CommitPrints(s.threads, s.disk.files, s.disk.temps, files, temps, t, pc);
    var c := Commit(t, x.pid, x.op);
    CommitLog(first, s.disk.files, s.disk.log, c, files);
    CommitAnswers(s.disk.log, s.threads, s.names.calls, t, pc);
    if x.op.Replace? {
      WriterIsMain(s.procs, s.threads, t);
    }
    CommitKeep(s.disk.log, s.procs, c);
    CommitProcs(s.procs, s.threads, t, pc, |s.disk.log|);
    CommitNames(s.disk.log, s.procs, s.names.boots, c);
  }

  lemma CommitPrints(threads: map<Tid, Thread>, files: map<Path, Text>, temps: map<Temp, Text>, files': map<Path, Text>,
                     temps': map<Temp, Text>, t: Tid, pc: Pc)
    requires PrintsOk(threads, files, temps) && t in threads && pc.Leaving?
    requires forall u <- threads | u != t :: !threads[u].pc.Printing?
    ensures PrintsOk(Moved(threads, t, pc), files', temps')
  {
    var moved := Moved(threads, t, pc);
    forall u <- moved
      ensures PrintOk(moved[u], u, files', temps')
    {
      if u != t {
        assert PrintOk(threads[u], u, files, temps);
      }
    }
  }

  lemma WriterIsMain(procs: map<Pid, Proc>, threads: map<Tid, Thread>, t: Tid)
    requires ProcsOk(procs, threads) && ThreadsOk(threads, procs) && t in threads && Writing(threads[t])
    requires threads[t].op.Replace?
    ensures var x := threads[t];
            && x.pid in procs
            && ((procs[x.pid].main.Restoring? && procs[x.pid].main.t == t)
                || (procs[x.pid].main.Saving? && procs[x.pid].replaced == map[] && x.op.path in procs[x.pid].loaded))
  {
    var x := threads[t];
    assert ThreadOk(x, t, procs);
    assert ProcOk(procs[x.pid], x.pid, threads);
  }

  lemma CommitProcs(procs: map<Pid, Proc>, threads: map<Tid, Thread>, t: Tid, pc: Pc, at: nat)
    requires ProcsOk(procs, threads) && ThreadsOk(threads, procs)
    requires t in threads && Writing(threads[t]) && pc.Leaving? && pc.ok
    requires forall u <- threads | u != t :: !Writing(threads[u])
    ensures var x := threads[t];
            var procs' := if x.op.Replace? then Replaced(procs, x.pid, t, x.op.path, at) else procs;
            ProcsOk(procs', Moved(threads, t, pc)) && ThreadsOk(Moved(threads, t, pc), procs')
            && procs'.Keys == procs.Keys
  {
    var x := threads[t];
    var procs' := if x.op.Replace? then Replaced(procs, x.pid, t, x.op.path, at) else procs;
    var moved := Moved(threads, t, pc);
    assert ThreadOk(x, t, procs);
    assert x.op.Replace? ==> procs[x.pid].replaced[x.op.path := at] != map[] by {
      if x.op.Replace? {
        assert x.op.path in procs[x.pid].replaced[x.op.path := at];
      }
    }
    forall p <- procs'
      ensures ProcOk(procs'[p], p, moved)
    {
      assert ProcOk(procs[p], p, threads);
    }
    forall u <- moved
      ensures ThreadOk(moved[u], u, procs')
    {
      assert ThreadOk(threads[u], u, procs);
    }
  }

  lemma CommitNames(log: seq<Commit>, procs: map<Pid, Proc>, boots: set<Pid>, c: Commit)
    requires NamesOk(log, procs, boots) && c.pid in procs
    ensures forall procs': map<Pid, Proc> :: procs'.Keys == procs.Keys ==> NamesOk(log + [c], procs', boots)
  {
  }

  lemma LoadOk(s: State, first: map<Path, Text>, t: Tid)
    requires Inv(s, first) && Enabled(s, Load(t))
    ensures Inv(Next(s, Load(t)), first)
  {
    hide LogOk, AnswersOk, KeepOk, SavedOk, NamesOk, MutexOk, FlockOk, ProcsOk, Parse, Print, Apply, Done;
    var x := s.threads[t];
    assert ThreadOk(x, t, s.procs);
    assert PrintOk(x, t, s.disk.files, s.disk.temps);
    var pc := Next(s, Load(t)).threads[t].pc;
    MoveMutex(s.locks.mutex, s.threads, t, pc);
    MoveFlock(s.locks.writer, s.locks.readers, s.threads, t, pc);
    if Local !in s.disk.files || Parse(s.disk.files[Local]).None? {
      QuietOk(s, first, t, pc, s.locks, s.disk.temps);
    } else {
      var doc := Parse(s.disk.files[Local]).value;
      if Done(doc, x.op.batch) {
        PrintParse(s.disk.files[Local]);
        DoneIsSame(doc, x.op.batch);
        CommitOk(s, first, t, s.disk.files, s.disk.temps);
      } else {
        var temps := s.disk.temps[Unique(t) := []];
        assert temps[Unique(t)] == pc.text[..0];
        QuietOk(s, first, t, pc, s.locks, temps);
      }
    }
  }

  lemma RenameOk(s: State, first: map<Path, Text>, t: Tid)
    requires Inv(s, first) && Enabled(s, Rename(t))
    ensures Inv(Next(s, Rename(t)), first)
  {
    hide LogOk, AnswersOk, KeepOk, SavedOk, NamesOk, MutexOk, FlockOk, ProcsOk, Effect, Fold;
    var x := s.threads[t];
    var tmp := TempOf(t, x.op);
    assert ThreadOk(x, t, s.procs);
    assert PrintOk(x, t, s.disk.files, s.disk.temps);
    assert x.pc.text[..x.pc.done] == x.pc.text;
    var files := s.disk.files[PathOf(x.op) := s.disk.temps[tmp]];
    CommitOk(s, first, t, files, s.disk.temps - {tmp});
    if x.op.Update? {
      NotMain(s.procs, s.threads, t);
    }
  }

  /** restore_config_file alone is called by a save or a restore. */
  lemma NotMain(procs: map<Pid, Proc>, threads: map<Tid, Thread>, t: Tid)
    requires ProcsOk(procs, threads) && t in threads && !threads[t].op.Replace?
    ensures var p := threads[t].pid; p in procs ==> procs[p].main.Idle? || procs[p].main.t != t
  {
    var p := threads[t].pid;
    if p in procs {
      assert ProcOk(procs[p], p, threads);
    }
  }

  // ----- processes and calls come and go -----

  lemma BootOk(s: State, first: map<Path, Text>, p: Pid, loaded: set<Path>)
    requires Inv(s, first) && Enabled(s, Boot(p, loaded))
    ensures Inv(Next(s, Boot(p, loaded)), first)
  {
    hide LogOk, AnswersOk, MutexOk, FlockOk, PrintsOk;
    var t := Next(s, Boot(p, loaded));
    assert p !in s.procs;
    assert ProcsOk(t.procs, s.threads) by {
      hide ThreadsOk, KeepOk, SavedOk, NamesOk;
      forall q <- s.procs
        ensures ProcOk(s.procs[q], q, s.threads)
      {
      }
    }
    assert ThreadsOk(s.threads, t.procs) by {
      hide ProcsOk, KeepOk, SavedOk, NamesOk;
      forall u <- s.threads
        ensures ThreadOk(s.threads[u], u, t.procs)
      {
        assert ThreadOk(s.threads[u], u, s.procs);
      }
    }
    hide ProcsOk, ThreadsOk;
    assert KeepOk(s.disk.log, t.procs) by {
      hide SavedOk, NamesOk;
    }
    assert SavedOk(s.disk.log, t.procs) by {
      hide KeepOk;
    }
  }

  lemma SpawnOk(s: State, first: map<Path, Text>, p: Pid, t: Tid, op: Op)
    requires Inv(s, first) && p in s.procs && t !in s.names.calls
    requires !op.Replace?
    ensures Inv(Spawn(s, p, t, op), first)
  {
    hide MutexOk, FlockOk, PrintsOk, LogOk, AnswersOk, ProcsOk, ThreadsOk, KeepOk, SavedOk, NamesOk;
    SpawnLocks(s.locks, s.threads, s.disk, s.names.calls, t, Thread(p, op, Calling));
    SpawnProcs(s.procs, s.threads, s.disk.log, s.names.calls, t, Thread(p, op, Calling), s.procs);
  }

  lemma SpawnLocks(locks: Locks, threads: map<Tid, Thread>, disk: Disk, calls: set<Tid>, t: Tid, x: Thread)
    requires t !in calls && x.pc.Calling?
    requires AnswersOk(disk.log, threads, calls)
    requires MutexOk(locks.mutex, threads) && FlockOk(locks.writer, locks.readers, threads)
    requires PrintsOk(threads, disk.files, disk.temps)
    ensures var more := threads[t := x];
            && MutexOk(locks.mutex, more) && FlockOk(locks.writer, locks.readers, more)
            && PrintsOk(more, disk.files, disk.temps) && AnswersOk(disk.log, more, calls + {t})
  {
    var more := threads[t := x];
    assert t !in threads && !Logged(disk.log, t);
    assert MutexOk(locks.mutex, more) by {
      hide FlockOk, PrintsOk, AnswersOk;
    }
    assert FlockOk(locks.writer, locks.readers, more) by {
      hide MutexOk, PrintsOk, AnswersOk;
    }
    assert PrintsOk(more, disk.files, disk.temps) by {
      hide MutexOk, FlockOk, AnswersOk;
      forall u <- more
        ensures PrintOk(more[u], u, disk.files, disk.temps)
      {
      }
    }
    assert AnswersOk(disk.log, more, calls + {t}) by {
      hide MutexOk, FlockOk, PrintsOk;
    }
    hide MutexOk, FlockOk, PrintsOk, AnswersOk;
  }

  /** A new call leaves what it is not part of as it was. */
  lemma SpawnProcs(procs: map<Pid, Proc>, threads: map<Tid, Thread>, log: seq<Commit>, calls: set<Tid>,
                   t: Tid, x: Thread, procs': map<Pid, Proc>)
    requires AnswersOk(log, threads, calls) && t !in calls && x.pid in procs && x.pc.Calling?
    requires ProcsOk(procs, threads) && ThreadsOk(threads, procs)
    requires x.pid in procs' && procs' == procs[x.pid := procs'[x.pid]]
    requires if x.op.Replace? then ProcOk(procs'[x.pid], x.pid, threads[t := x]) && procs'[x.pid].main != Idle
                                   && procs'[x.pid].main.t == t
             else procs' == procs
    requires x.op.Replace? ==> procs'[x.pid].replaced == procs[x.pid].replaced
                               && (procs[x.pid].main.Idle? || (procs[x.pid].main.t in threads
                                                               && threads[procs[x.pid].main.t].pc.Returned?))
    ensures ProcsOk(procs', threads[t := x]) && ThreadsOk(threads[t := x], procs')
  {
    var more := threads[t := x];
    assert t !in threads by {
      hide ProcsOk, ThreadsOk;
    }
    hide AnswersOk;
    forall p <- procs'
      ensures ProcOk(procs'[p], p, more)
    {
      if p != x.pid || !x.op.Replace? {
        assert ProcOk(procs[p], p, threads);
      }
    }
    forall u <- more
      ensures ThreadOk(more[u], u, procs')
    {
      if u != t {
        assert ThreadOk(threads[u], u, procs);
      }
    }
  }

  /** What a process is busy with may change, what it loaded and replaced stays. */
  predicate SameHistory(procs: map<Pid, Proc>, procs': map<Pid, Proc>) {
    procs'.Keys == procs.Keys
    && forall p <- procs :: procs'[p].loaded == procs[p].loaded && procs'[p].replaced == procs[p].replaced
  }

  lemma HistoryKept(log: seq<Commit>, procs: map<Pid, Proc>, procs': map<Pid, Proc>, boots: set<Pid>)
    requires KeepOk(log, procs) && SavedOk(log, procs) && NamesOk(log, procs, boots) && SameHistory(procs, procs')
    ensures KeepOk(log, procs') && SavedOk(log, procs') && NamesOk(log, procs', boots)
  {
    forall p <- procs', path <- procs'[p].replaced
      ensures LastWord(log, p, path, procs'[p].replaced[path])
    {
      assert LastWord(log, p, path, procs[p].replaced[path]);
    }
  }

  /** The main thread calls restore_config_file. */
  lemma MainCallOk(s: State, first: map<Path, Text>, x: Proc, p: Pid, t: Tid, op: Op)
    requires Inv(s, first) && p in s.procs && t !in s.names.calls && op.Replace?
    requires s.procs[p].main.Idle? || (s.procs[p].main.t in s.threads && s.threads[s.procs[p].main.t].pc.Returned?)
    requires x.loaded == s.procs[p].loaded && x.replaced == s.procs[p].replaced && !x.main.Idle? && x.main.t == t
    requires ProcOk(x, p, s.threads[t := Thread(p, op, Calling)])
    ensures Inv(Spawn(s.(procs := s.procs[p := x]), p, t, op), first)
  {
    hide MutexOk, FlockOk, PrintsOk, LogOk, AnswersOk, ProcsOk, ThreadsOk, KeepOk, SavedOk, NamesOk, ProcOk;
    var call := Thread(p, op, Calling);
    SpawnLocks(s.locks, s.threads, s.disk, s.names.calls, t, call);
    SpawnProcs(s.procs, s.threads, s.disk.log, s.names.calls, t, call, s.procs[p := x]);
    HistoryKept(s.disk.log, s.procs, s.procs[p := x], s.names.boots);
  }

  lemma StartSaveOk(s: State, first: map<Path, Text>, e: Event)
    requires Inv(s, first) && Enabled(s, e) && e.StartSave?
    ensures Inv(Next(s, e), first)
  {
    hide MutexOk, FlockOk, PrintsOk, LogOk, AnswersOk, ThreadsOk, KeepOk, SavedOk, NamesOk;
    var x := s.procs[e.pid];
    assert ProcOk(x, e.pid, s.threads);
    if !x.frozen && e.path in x.loaded {
      MainCallOk(s, first, x.(main := Saving(e.t)), e.pid, e.t, Replace(e.path, e.text));
    }
  }

  lemma StartRestoreOk(s: State, first: map<Path, Text>, e: Event)
    requires Inv(s, first) && Enabled(s, e) && e.StartRestore?
    ensures Inv(Next(s, e), first)
  {
    hide MutexOk, FlockOk, PrintsOk, LogOk, AnswersOk, ThreadsOk, KeepOk, SavedOk, NamesOk;
    var x := s.procs[e.pid];
    assert ProcOk(x, e.pid, s.threads);
    var writes := e.plan.Writes();
    if !x.frozen && e.backedUp {
      MainCallOk(s, first, x.(main := Restoring(e.t, writes[1..]), frozen := true), e.pid, e.t, writes[0]);
    }
  }

  lemma ResumeOk(s: State, first: map<Path, Text>, p: Pid, t: Tid)
    requires Inv(s, first) && Enabled(s, Resume(p, t))
    ensures Inv(Next(s, Resume(p, t)), first)
  {
    hide MutexOk, FlockOk, PrintsOk, LogOk, AnswersOk, KeepOk, SavedOk, NamesOk;
    var x := s.procs[p];
    assert ProcOk(x, p, s.threads);
    if x.main.Restoring? && s.threads[x.main.t].pc.ok && x.main.rest != [] {
      MainCallOk(s, first, x.(main := Restoring(t, x.main.rest[1..]), restarting := true), p, t, x.main.rest[0]);
    } else {
      var y := Next(s, Resume(p, t)).procs[p];
      HistoryKept(s.disk.log, s.procs, s.procs[p := y], s.names.boots);
      BackToIdle(s.procs, s.threads, p, y);
    }
  }

  lemma BackToIdle(procs: map<Pid, Proc>, threads: map<Tid, Thread>, p: Pid, y: Proc)
    requires ProcsOk(procs, threads) && ThreadsOk(threads, procs) && p in procs && !procs[p].main.Idle?
    requires procs[p].main.t in threads && threads[procs[p].main.t].pc.Returned?
    requires y.main.Idle? && ProcOk(y, p, threads) && y.replaced == procs[p].replaced
    ensures ProcsOk(procs[p := y], threads) && ThreadsOk(threads, procs[p := y])
  {
    forall u <- threads
      ensures ThreadOk(threads[u], u, procs[p := y])
    {
      assert ThreadOk(threads[u], u, procs);
    }
  }

  lemma CrashOk(s: State, first: map<Path, Text>, p: Pid)
    requires Inv(s, first) && Enabled(s, Crash(p))
    ensures Inv(Next(s, Crash(p)), first)
  {
    hide MutexOk, FlockOk, PrintsOk, LogOk, AnswersOk, ProcsOk, ThreadsOk, KeepOk, SavedOk, NamesOk;
    var t := Next(s, Crash(p));
    CrashLocks(s.locks, s.threads, p);
    CrashProcs(s.procs, s.threads, s.disk, s.names.calls, p);
    CrashHistory(s.disk.log, s.procs, s.names.boots, p);
  }

  lemma CrashLocks(locks: Locks, threads: map<Tid, Thread>, p: Pid)
    requires MutexOk(locks.mutex, threads) && FlockOk(locks.writer, locks.readers, threads)
    ensures var dead := Dead(threads, p);
            && MutexOk(locks.mutex - {p}, threads - dead)
            && FlockOk(if locks.writer.Some? && locks.writer.value in dead then None else locks.writer,
                       locks.readers - dead, threads - dead)
  {
  }

  lemma CrashProcs(procs: map<Pid, Proc>, threads: map<Tid, Thread>, disk: Disk, calls: set<Tid>, p: Pid)
    requires ProcsOk(procs, threads) && ThreadsOk(threads, procs)
    requires PrintsOk(threads, disk.files, disk.temps) && AnswersOk(disk.log, threads, calls)
    ensures var alive := threads - Dead(threads, p);
            && ProcsOk(procs - {p}, alive) && ThreadsOk(alive, procs - {p})
            && PrintsOk(alive, disk.files, disk.temps) && AnswersOk(disk.log, alive, calls)
  {
    var alive := threads - Dead(threads, p);
    assert AnswersOk(disk.log, alive, calls) by {
      hide ProcsOk, ThreadsOk, PrintsOk;
    }
    hide AnswersOk;
    assert forall u <- alive :: u in threads && alive[u] == threads[u];
    forall u <- alive
      ensures ThreadOk(alive[u], u, procs - {p}) && PrintOk(alive[u], u, disk.files, disk.temps)
    {
      hide PrintOk;
      assert ThreadOk(threads[u], u, procs);
      assert PrintOk(threads[u], u, disk.files, disk.temps);
    }
    forall q <- procs - {p}
      ensures ProcOk((procs - {p})[q], q, alive)
    {
      assert ProcOk(procs[q], q, threads);
    }
  }

  lemma CrashHistory(log: seq<Commit>, procs: map<Pid, Proc>, boots: set<Pid>, p: Pid)
    requires KeepOk(log, procs) && SavedOk(log, procs) && NamesOk(log, procs, boots)
    ensures KeepOk(log, procs - {p}) && SavedOk(log, procs - {p}) && NamesOk(log, procs - {p}, boots)
  {
    forall q <- procs - {p}, path <- (procs - {p})[q].replaced
      ensures LastWord(log, q, path, (procs - {p})[q].replaced[path])
    {
      assert LastWord(log, q, path, procs[q].replaced[path]);
    }
  }

  lemma StepsAreDefined(s: State, first: map<Path, Text>, t: Tid)
    requires Inv(s, first) && t in s.threads
    ensures s.threads[t].pid in s.procs
    ensures s.threads[t].pc.Printing? ==> TempOf(t, s.threads[t].op) in s.disk.temps
  {
    hide MutexOk, FlockOk, LogOk, AnswersOk, ProcsOk, KeepOk, SavedOk, NamesOk, Effect;
    assert ThreadOk(s.threads[t], t, s.procs);
    assert PrintOk(s.threads[t], t, s.disk.files, s.disk.temps);
  }

  /** Every step of every thread, and every crash, keeps the invariant. */
  lemma InvNext(s: State, first: map<Path, Text>, e: Event)
    requires Inv(s, first) && Enabled(s, e)
    ensures Inv(Next(s, e), first)
  {
    hide Inv, Next;
    match e {
      case Boot(p, loaded) => BootOk(s, first, p, loaded);
      case Crash(p) => CrashOk(s, first, p);
      case Call(p, t, op) => CallOk(s, first, e);
      case TakeMutex(t) => TakeMutexOk(s, first, t);
      case TakeFlock(t) => TakeFlockOk(s, first, t);
      case FlockFails(t) => FlockFailsOk(s, first, t);
      case ReadFile(_) => CheckStepOk(s, first, e);
      case CheckFrozen(_) => CheckStepOk(s, first, e);
      case Load(t) => LoadOk(s, first, t);
      case CreateTemp(_) => PrintStepOk(s, first, e);
      case PrintPiece(_) => PrintStepOk(s, first, e);
      case Rename(t) => RenameOk(s, first, t);
      case WriteFails(_) => PrintStepOk(s, first, e);
      case Leave(t) => LeaveOk(s, first, t);
      case StartSave(_, _, _, _) => StartSaveOk(s, first, e);
      case StartRestore(_, _, _, _) => StartRestoreOk(s, first, e);
      case Resume(p, t) => ResumeOk(s, first, p, t);
    }
  }

  lemma CallOk(s: State, first: map<Path, Text>, e: Event)
    requires Inv(s, first) && Enabled(s, e) && e.Call?
    ensures Inv(Next(s, e), first)
  {
    hide Inv;
    SpawnOk(s, first, e.pid, e.t, e.op);
  }

  // ----- whole runs -----

  ghost predicate Run(first: map<Path, Text>, states: seq<State>, events: seq<Event>) {
    && |states| == |events| + 1
    && states[0] == Initial(first)
    && forall i: nat | i < |events| :: StepAt(states, events, i)
  }

  ghost predicate StepAt(states: seq<State>, events: seq<Event>, i: nat)
    requires i < |events| && |states| == |events| + 1
  {
    Leads(states[i], events[i], states[i + 1])
  }

  ghost predicate Leads(s: State, e: Event, t: State) { Enabled(s, e) && t == Next(s, e) }

  lemma RunStep(first: map<Path, Text>, states: seq<State>, events: seq<Event>, i: nat)
    requires Run(first, states, events) && i < |events|
    ensures Enabled(states[i], events[i]) && states[i + 1] == Next(states[i], events[i])
  {
    hide Enabled, Next;
    assert StepAt(states, events, i);
  }

  lemma InitialInv(first: map<Path, Text>)
    ensures Inv(Initial(first), first)
  {
  }

  lemma {:induction false} RunInv(first: map<Path, Text>, states: seq<State>, events: seq<Event>, i: nat)
    requires Run(first, states, events) && i <= |events|
    ensures Inv(states[i], first)
    decreases i
  {
    hide Inv, Next, Enabled, Leads, StepAt;
    if i == 0 {
      InitialInv(first);
    } else {
      RunInv(first, states, events, i - 1);
      RunStep(first, states, events, i - 1);
      InvNext(states[i - 1], first, events[i - 1]);
    }
  }

  // ----- what is read, and what is written -----

  /** What the changes made so far make of a file, or the first so many of them: `from` at least. */
  ghost predicate Version(first: map<Path, Text>, log: seq<Commit>, from: nat, path: Path, found: Option<Text>) {
    exists n: nat :: from <= n <= |log| && found == Fold(Lookup(first, path), log[..n], path)
  }

  /** Every reader called after the early ones, with or without its lock, was given the file as it stood between two
      changes, and no older than when it was called. */
  ghost predicate ReadsOk(first: map<Path, Text>, log: seq<Commit>, threads: map<Tid, Thread>, early: set<Tid>,
                          from: nat)
  {
    forall t <- threads :: t !in early && threads[t].op.Read? && Succeeded(threads[t].pc) ==>
      Version(first, log, from, threads[t].op.path, threads[t].pc.found)
  }

  /** Every update was made to a file that could be read. */
  ghost predicate UpdatesOk(first: map<Path, Text>, log: seq<Commit>) {
    forall i: nat | i < |log| && log[i].op.Update? :: Readable(Fold(Lookup(first, Local), log[..i], Local))
  }

  predicate Readable(file: Option<Text>) { file.Some? && Parse(file.value).Some? }

  lemma VersionGrows(first: map<Path, Text>, log: seq<Commit>, log': seq<Commit>, from: nat, path: Path,
                     found: Option<Text>)
    requires Version(first, log, from, path, found) && log <= log'
    ensures Version(first, log', from, path, found)
  {
    var n: nat :| from <= n <= |log| && found == Fold(Lookup(first, path), log[..n], path);
    assert log'[..n] == log[..n];
  }

  lemma VersionNow(first: map<Path, Text>, files: map<Path, Text>, log: seq<Commit>, from: nat, path: Path)
    requires LogOk(first, files, log) && from <= |log|
    ensures Version(first, log, from, path, Lookup(files, path))
  {
    assert log[..|log|] == log;
  }

  lemma UpdatesGrow(first: map<Path, Text>, files: map<Path, Text>, log: seq<Commit>, c: Commit)
    requires UpdatesOk(first, log) && LogOk(first, files, log)
    requires c.op.Update? ==> Readable(Lookup(files, Local))
    ensures UpdatesOk(first, log + [c])
  {
    var log' := log + [c];
    forall i: nat | i < |log'| && log'[i].op.Update?
      ensures Readable(Fold(Lookup(first, Local), log'[..i], Local))
    {
      assert log'[..i] == log[..i];
      if i == |log| {
        assert log[..i] == log;
      }
    }
  }

  /** One step either leaves the log alone or adds the change of the thread that moves. */
  lemma LogStep(s: State, first: map<Path, Text>, e: Event)
    requires Inv(s, first) && Enabled(s, e)
    ensures var t := Next(s, e);
            || t.disk.log == s.disk.log
            || ((e.Load? || e.Rename?) && t.disk.log == Committed(s, e.t)
                && (s.threads[e.t].op.Update? ==> Readable(Lookup(s.disk.files, Local))))
  {
    hide MutexOk, FlockOk, LogOk, AnswersOk, ProcsOk, ThreadsOk, KeepOk, SavedOk, NamesOk, Parse, Print, Apply, Done,
         Effect, Fold, Replaced;
    if e.Rename? {
      assert PrintOk(s.threads[e.t], e.t, s.disk.files, s.disk.temps);
    }
  }

  lemma LogGrowsBy(s: State, first: map<Path, Text>, e: Event)
    requires Inv(s, first) && Enabled(s, e)
    ensures s.disk.log <= Next(s, e).disk.log
  {
    LogStep(s, first, e);
    hide Inv, Enabled, Next;
  }

  /** A call that has been answered with what it read was answered so before, or reads just now. */
  lemma ReadStep(s: State, e: Event, u: Tid)
    requires Enabled(s, e)
    ensures var t := Next(s, e);
            u in t.threads && t.threads[u].op.Read? && Succeeded(t.threads[u].pc) && !e.Load? && !e.Rename? ==>
              u in s.threads && s.threads[u].op == t.threads[u].op
              && (if e == ReadFile(u) then t.threads[u].pc.found == Lookup(s.disk.files, s.threads[u].op.path)
                  else Succeeded(s.threads[u].pc) && s.threads[u].pc.found == t.threads[u].pc.found)
  {
    hide Parse, Print, Apply, Done;
  }

  /** A writer at work changes no answer. */
  lemma WriteKeepsReads(s: State, first: map<Path, Text>, e: Event, u: Tid)
    requires Inv(s, first) && Enabled(s, e) && (e.Load? || e.Rename?)
    ensures var t := Next(s, e);
            u in t.threads && t.threads[u].op.Read? ==> u in s.threads && s.threads[u] == t.threads[u]
  {
    hide MutexOk, FlockOk, LogOk, AnswersOk, ProcsOk, ThreadsOk, KeepOk, SavedOk, NamesOk, Parse, Print, Apply, Done,
      Effect, Fold, Replaced;
    assert PrintOk(s.threads[e.t], e.t, s.disk.files, s.disk.temps);
  }

  lemma ReadsNext(s: State, first: map<Path, Text>, e: Event, early: set<Tid>, from: nat)
    requires Inv(s, first) && Enabled(s, e) && ReadsOk(first, s.disk.log, s.threads, early, from)
    requires from <= |s.disk.log|
    ensures ReadsOk(first, Next(s, e).disk.log, Next(s, e).threads, early, from)
  {
    var t := Next(s, e);
    LogStep(s, first, e);
    hide MutexOk, FlockOk, LogOk, AnswersOk, ProcsOk, ThreadsOk, KeepOk, SavedOk, NamesOk, Parse, Print, Apply, Done,
      Effect, Fold, Replaced, Version;
    forall u <- t.threads | u !in early && t.threads[u].op.Read? && Succeeded(t.threads[u].pc)
      ensures Version(first, t.disk.log, from, t.threads[u].op.path, t.threads[u].pc.found)
    {
      if e.Load? || e.Rename? {
        WriteKeepsReads(s, first, e, u);
        hide Next;
        VersionGrows(first, s.disk.log, t.disk.log, from, t.threads[u].op.path, t.threads[u].pc.found);
      } else {
        ReadStep(s, e, u);
        hide Next;
        if e == ReadFile(u) {
          VersionNow(first, s.disk.files, s.disk.log, from, s.threads[u].op.path);
        }
      }
    }
  }

  lemma UpdatesNext(s: State, first: map<Path, Text>, e: Event)
    requires Inv(s, first) && Enabled(s, e) && UpdatesOk(first, s.disk.log)
    ensures UpdatesOk(first, Next(s, e).disk.log)
  {
    LogStep(s, first, e);
    hide Next, UpdatesOk, MutexOk, FlockOk, PrintsOk, LogOk, AnswersOk, ProcsOk, ThreadsOk, KeepOk, SavedOk, NamesOk;
    if Next(s, e).disk.log != s.disk.log {
      UpdatesGrow(first, s.disk.files, s.disk.log, Commit(e.t, s.threads[e.t].pid, s.threads[e.t].op));
    }
  }

  lemma NoneYet(s: State, first: map<Path, Text>)
    requires Inv(s, first)
    ensures ReadsOk(first, s.disk.log, s.threads, s.names.calls, |s.disk.log|)
  {
  }

  lemma {:induction false} RunReads(first: map<Path, Text>, states: seq<State>, events: seq<Event>, i: nat, j: nat)
    requires Run(first, states, events) && i <= j <= |events|
    ensures ReadsOk(first, states[j].disk.log, states[j].threads, states[i].names.calls, |states[i].disk.log|)
    ensures |states[i].disk.log| <= |states[j].disk.log|
    decreases j
  {
    hide Inv, Next, Enabled, ReadsOk, StepAt, Leads;
    if i == j {
      RunInv(first, states, events, i);
      NoneYet(states[i], first);
    } else {
      RunReads(first, states, events, i, j - 1);
      RunInv(first, states, events, j - 1);
      RunStep(first, states, events, j - 1);
      hide Run;
      ReadsNext(states[j - 1], first, events[j - 1], states[i].names.calls, |states[i].disk.log|);
      LogGrowsBy(states[j - 1], first, events[j - 1]);
    }
  }

  lemma {:induction false} RunUpdates(first: map<Path, Text>, states: seq<State>, events: seq<Event>, i: nat)
    requires Run(first, states, events) && i <= |events|
    ensures UpdatesOk(first, states[i].disk.log)
    decreases i
  {
    if i > 0 {
      hide Inv, Next, Enabled, UpdatesOk, StepAt, Leads;
      RunUpdates(first, states, events, i - 1);
      RunInv(first, states, events, i - 1);
      RunStep(first, states, events, i - 1);
      UpdatesNext(states[i - 1], first, events[i - 1]);
    }
  }

  // ----- what the store promises -----

  /** Over every interleaving, with crashes anywhere: a file is what the changes made so far, one after the
      other, make of it, so it is never torn and no change is lost; whoever reads, locked or not, was handed
      such a version. */
  lemma EveryVersionIsComplete(first: map<Path, Text>, states: seq<State>, events: seq<Event>, i: nat, path: Path,
                               t: Tid)
    requires Run(first, states, events) && i <= |events|
    ensures Lookup(states[i].disk.files, path) == Fold(Lookup(first, path), states[i].disk.log, path)
    ensures t in states[i].threads && states[i].threads[t].op.Read? && Succeeded(states[i].threads[t].pc) ==>
              Version(first, states[i].disk.log, 0, states[i].threads[t].op.path, states[i].threads[t].pc.found)
  {
    hide Version, Fold;
    RunInv(first, states, events, i);
    RunReads(first, states, events, 0, i);
  }

  /** No read is stale: whoever is called later than a state of the run was handed a version with all the changes
      made by then. */
  lemma ReadsAreFresh(first: map<Path, Text>, states: seq<State>, events: seq<Event>, i: nat, j: nat, t: Tid)
    requires Run(first, states, events) && i <= j <= |events|
    requires t !in states[i].names.calls && t in states[j].threads
    requires states[j].threads[t].op.Read? && Succeeded(states[j].threads[t].pc)
    ensures Version(first, states[j].disk.log, |states[i].disk.log|, states[j].threads[t].op.path,
                    states[j].threads[t].pc.found)
  {
    hide Version;
    RunReads(first, states, events, i, j);
  }

  /** A writer is told of a success exactly when its own change is in the log, and it is there once. */
  lemma SuccessMeansWritten(first: map<Path, Text>, states: seq<State>, events: seq<Event>, i: nat, t: Tid)
    returns (at: nat)
    requires Run(first, states, events) && i <= |events|
    requires t in states[i].threads && states[i].threads[t].pc.Returned? && !states[i].threads[t].op.Read?
    ensures var x := states[i].threads[t];
            var log := states[i].disk.log;
            && (x.pc.ok ==> at < |log| && log[at] == Commit(t, x.pid, x.op))
            && forall j: nat | j < |log| && log[j].t == t :: x.pc.ok && j == at
  {
    at := 0;
    RunInv(first, states, events, i);
    var s := states[i];
    assert AnswersOk(s.disk.log, s.threads, s.names.calls);
    hide Inv, Run;
    if s.threads[t].pc.ok {
      assert Logged(s.disk.log, t);
      at :| at < |s.disk.log| && s.disk.log[at].t == t;
    } else {
      assert !Logged(s.disk.log, t);
    }
  }

  predicate Failed(s: State, t: Tid) {
    t in s.threads && (s.threads[t].pc.Leaving? || s.threads[t].pc.Returned?) && !s.threads[t].pc.ok
  }

  /** A writer without the lock, a frozen process, a file that cannot be read, or a write that went wrong. */
  predicate Cause(s: State, e: Event, t: Tid)
    requires Enabled(s, e)
  {
    || (e == FlockFails(t) && !s.threads[t].op.Read?)
    || (e == CheckFrozen(t) && s.procs[s.threads[t].pid].frozen)
    || (e == Load(t) && !Readable(Lookup(s.disk.files, Local)))
    || e == WriteFails(t)
  }

  lemma FailuresHaveCauses(s: State, e: Event, t: Tid)
    requires Enabled(s, e)
    ensures Failed(Next(s, e), t) ==> Failed(s, t) || Cause(s, e, t)
    ensures Cause(s, e, t) ==> Failed(Next(s, e), t)
  {
    hide Parse, Print, Apply, Done, Replaced;
  }

  ghost predicate CauseAt(states: seq<State>, events: seq<Event>, k: nat, t: Tid)
    requires k < |events| && |states| == |events| + 1 && StepAt(states, events, k)
  {
    Cause(states[k], events[k], t)
  }

  lemma NobodyYet(first: map<Path, Text>, t: Tid)
    ensures !Failed(Initial(first), t)
  {
  }

  /** Whoever is told of a failure, there was such a cause, and at that moment the call became a failure. */
  lemma {:induction false} EveryFailureHasACause(first: map<Path, Text>, states: seq<State>, events: seq<Event>,
                                                 i: nat, t: Tid)
      returns (k: nat)
    requires Run(first, states, events) && i <= |events| && Failed(states[i], t)
    ensures k < i && StepAt(states, events, k) && CauseAt(states, events, k, t)
    ensures !Failed(states[k], t) && Failed(states[k + 1], t)
    decreases i
  {
    hide Enabled, Next, Failed, Cause;
    assert i > 0 by {
      assert !Failed(Initial(first), t) by {
        NobodyYet(first, t);
      }
    }
    assert StepAt(states, events, i - 1);
    FailuresHaveCauses(states[i - 1], events[i - 1], t);
    if Failed(states[i - 1], t) {
      k := EveryFailureHasACause(first, states, events, i - 1, t);
    } else {
      k := i - 1;
    }
  }

  /** The process and the operation of a call, while it lasts, and in the log. */
  ghost predicate CallIs(s: State, t: Tid, p: Pid, op: Op) {
    && t in s.names.calls
    && (t in s.threads ==> s.threads[t].pid == p && s.threads[t].op == op)
    && forall i: nat | i < |s.disk.log| && s.disk.log[i].t == t :: s.disk.log[i] == Commit(t, p, op)
  }

  lemma CallKept(s: State, first: map<Path, Text>, e: Event, t: Tid, p: Pid, op: Op)
    requires Inv(s, first) && Enabled(s, e) && CallIs(s, t, p, op)
    ensures CallIs(Next(s, e), t, p, op)
  {
    LogStep(s, first, e);
    CallersKept(s, e, t);
    hide Inv, Next;
  }

  /** Nobody changes what a call is for, and no call begins twice. */
  lemma CallersKept(s: State, e: Event, t: Tid)
    requires Enabled(s, e) && t in s.names.calls
    ensures var u := Next(s, e);
            && t in u.names.calls
            && (t in u.threads ==> t in s.threads && u.threads[t].pid == s.threads[t].pid
                                   && u.threads[t].op == s.threads[t].op)
  {
    hide Parse, Print, Apply, Done, Replaced;
  }

  /** What is asked for: a call of the store, or a save that is allowed. */
  predicate Asks(s: State, e: Event, t: Tid, p: Pid, op: Op) {
    || e == Call(p, t, op)
    || (e.StartSave? && e.pid == p && e.t == t && op == Replace(e.path, e.text) && p in s.procs
        && !s.procs[p].frozen && e.path in s.procs[p].loaded)
  }

  lemma AskedIs(s: State, first: map<Path, Text>, e: Event, t: Tid, p: Pid, op: Op)
    requires Inv(s, first) && Enabled(s, e) && Asks(s, e, t, p, op)
    ensures CallIs(Next(s, e), t, p, op) && t in Next(s, e).threads
  {
    hide MutexOk, FlockOk, PrintsOk, LogOk, ProcsOk, ThreadsOk, KeepOk, SavedOk, NamesOk;
  }

  /** Over any run what is called for is what is done: a call is for the process and the operation that were asked
      for, and so is what it adds to the log. */
  lemma {:induction false} CallsAreDone(first: map<Path, Text>, states: seq<State>, events: seq<Event>, k: nat, i: nat,
                                        t: Tid, p: Pid, op: Op)
    requires Run(first, states, events) && k < i <= |events| && Asks(states[k], events[k], t, p, op)
    ensures CallIs(states[i], t, p, op)
    decreases i
  {
    hide Inv, Enabled, Next, CallIs, StepAt, Leads, Asks;
    RunStep(first, states, events, i - 1);
    RunInv(first, states, events, i - 1);
    if i == k + 1 {
      AskedIs(states[k], first, events[k], t, p, op);
    } else {
      CallsAreDone(first, states, events, k, i - 1, t, p, op);
      CallKept(states[i - 1], first, events[i - 1], t, p, op);
    }
  }

  /** What an update of a key means for the file it is made to. */
  lemma EffectOnKey(before: Option<Text>, b: Batch, key: string)
    requires Readable(before) && b.Valid()
    ensures Readable(Effect(before, Update(b)))
    ensures var was := Get(Parse(before.value).value, key);
            var now := Get(Parse(Effect(before, Update(b)).value).value, key);
            && (forall s <- b.toSet :: s.key == key ==> now == s.value)
            && (!b.Sets(key) && key in b.toDelete ==> now == "")
            && (!b.Touches(key) ==> now == was)
  {
    var doc := Parse(before.value).value;
    var after := Apply(doc, b);
    ParsePrint(after, |Print(after)|);
    assert Print(after)[..|Print(after)|] == Print(after);
    GetAfterUpdate(doc, b, key);
  }

  /** Nothing but updates that do not name the key. */
  ghost predicate LeavesAlone(log: seq<Commit>, from: nat, key: string) {
    forall j: nat | from <= j < |log| && PathOf(log[j].op) == Local ::
      log[j].op.Update? && log[j].op.batch.Valid() && !log[j].op.batch.Touches(key)
  }

  lemma {:induction false} KeyKept(first: Option<Text>, log: seq<Commit>, from: nat, key: string)
    requires from <= |log| && LeavesAlone(log, from, key)
    requires Readable(Fold(first, log[..from], Local))
    ensures Readable(Fold(first, log, Local))
    ensures Get(Parse(Fold(first, log, Local).value).value, key)
         == Get(Parse(Fold(first, log[..from], Local).value).value, key)
    decreases |log|
  {
    if from == |log| {
      assert log[..from] == log;
    } else {
      var shorter := log[..|log| - 1];
      var c := log[|log| - 1];
      hide Parse, Effect, Get;
      assert shorter[..from] == log[..from];
      KeyKept(first, shorter, from, key);
      if PathOf(c.op) == Local {
        EffectOnKey(Fold(first, shorter, Local), c.op.batch, key);
      }
    }
  }

  /** A reader of the text finds what the batch set, or nothing when it deleted the key. */
  ghost predicate Holding(file: Option<Text>, b: Batch, key: string) {
    && Readable(file)
    && (forall s <- b.toSet :: s.key == key ==> Get(Parse(file.value).value, key) == s.value)
    && (!b.Sets(key) ==> Get(Parse(file.value).value, key) == "")
  }

  lemma LogIs(s: State, first: map<Path, Text>, path: Path)
    requires Inv(s, first)
    ensures Lookup(s.disk.files, path) == Fold(Lookup(first, path), s.disk.log, path)
  {
    hide Fold;
  }

  lemma Prefixes<T>(a: seq<T>, b: seq<T>, c: seq<T>)
    requires a <= b <= c
    ensures a <= c
  {
  }

  lemma {:induction false} LogGrows(first: map<Path, Text>, states: seq<State>, events: seq<Event>, i: nat, j: nat)
    requires Run(first, states, events) && i <= j <= |events|
    ensures states[i].disk.log <= states[j].disk.log
    decreases j
  {
    hide Inv, Next, Enabled, Leads, StepAt;
    if i < j {
      LogGrows(first, states, events, i, j - 1);
      RunInv(first, states, events, j - 1);
      RunStep(first, states, events, j - 1);
      LogGrowsBy(states[j - 1], first, events[j - 1]);
      Prefixes(states[i].disk.log, states[j - 1].disk.log, states[j].disk.log);
    }
  }

  /** What a log with an update of a key in it makes of the file, while nothing later in it touches the key. */
  lemma UpdateHolds(first: Option<Text>, log: seq<Commit>, at: nat, key: string)
    requires at < |log| && log[at].op.Update? && log[at].op.batch.Valid() && log[at].op.batch.Touches(key)
    requires LeavesAlone(log, at + 1, key) && Readable(Fold(first, log[..at], Local))
    ensures Holding(Fold(first, log, Local), log[at].op.batch, key)
  {
    hide Parse, Effect, Get, LeavesAlone;
    assert log[..at + 1] == log[..at] + [log[at]];
    FoldOne(first, log[..at], log[at], Local);
    EffectOnKey(Fold(first, log[..at], Local), log[at].op.batch, key);
    KeyKept(first, log, at + 1, key);
  }

  /** No successful update of one key is lost to updates of others, whoever makes them and whenever: until somebody
      touches the key again, the file holds what was set, or nothing when the key was deleted. */
  lemma NoUpdateIsLost(first: map<Path, Text>, states: seq<State>, events: seq<Event>, i: nat, at: nat, key: string)
    requires Run(first, states, events) && i <= |events|
    requires var log := states[i].disk.log;
             && at < |log| && log[at].op.Update? && log[at].op.batch.Valid() && log[at].op.batch.Touches(key)
             && LeavesAlone(log, at + 1, key)
    ensures Holding(Lookup(states[i].disk.files, Local), states[i].disk.log[at].op.batch, key)
  {
    hide Inv, LeavesAlone, Readable, Holding, Fold, Lookup, StepAt;
    RunInv(first, states, events, i);
    RunUpdates(first, states, events, i);
    hide Run;
    UpdateHolds(Lookup(first, Local), states[i].disk.log, at, key);
    LogIs(states[i], first, Local);
  }

  lemma HoldsInPrefix(log: seq<Commit>, n: nat, from: nat, key: string)
    requires n <= |log| && LeavesAlone(log, from, key)
    ensures LeavesAlone(log[..n], from, key)
  {
  }

  /** What the caller of get_config_option is told, then: called after an update has succeeded, it finds the value set,
      or nothing when the key was deleted, whatever else happened to the file, while nobody touched the key since. */
  lemma UpdatesAreRead(first: map<Path, Text>, states: seq<State>, events: seq<Event>, i: nat, j: nat, t: Tid, u: Tid,
                       key: string)
    requires Run(first, states, events) && i <= j <= |events|
    requires t in states[i].threads && states[i].threads[t].pc.Returned? && states[i].threads[t].pc.ok
    requires states[i].threads[t].op.Update?
    requires states[i].threads[t].op.batch.Valid() && states[i].threads[t].op.batch.Touches(key)
    requires u !in states[i].names.calls && u in states[j].threads && states[j].threads[u].op == Read(Local)
    requires Succeeded(states[j].threads[u].pc)
    requires forall at: nat | at < |states[j].disk.log| && states[j].disk.log[at].t == t ::
               LeavesAlone(states[j].disk.log, at + 1, key)
    ensures Holding(states[j].threads[u].pc.found, states[i].threads[t].op.batch, key)
  {
    hide Inv, LeavesAlone, Readable, Holding, Fold, Lookup, StepAt;
    var at := SuccessMeansWritten(first, states, events, i, t);
    LogGrows(first, states, events, i, j);
    ReadsAreFresh(first, states, events, i, j, u);
    RunUpdates(first, states, events, j);
    hide Run;
    var log, was := states[j].disk.log, states[i].disk.log;
    assert log[at] == was[at];
    var n: nat :| |was| <= n <= |log| && states[j].threads[u].pc.found == Fold(Lookup(first, Local), log[..n], Local);
    HoldsInPrefix(log, n, at + 1, key);
    assert log[..n][..at] == log[..at] && log[..n][at] == log[at];
    UpdateHolds(Lookup(first, Local), log[..n], at, key);
  }

  lemma EffectOnRest(before: Option<Text>, b: Batch, keys: set<string>)
    requires Readable(before) && forall key: string :: b.Touches(key) ==> key in keys
    ensures Readable(Effect(before, Update(b)))
    ensures Rest(Parse(Effect(before, Update(b)).value).value, keys) == Rest(Parse(before.value).value, keys)
  {
    var doc := Parse(before.value).value;
    var after := Apply(doc, b);
    ParsePrint(after, |Print(after)|);
    assert Print(after)[..|Print(after)|] == Print(after);
    UntouchedNodesStay(doc, b, keys);
  }

  /** Nothing but updates that name some of these keys. */
  ghost predicate NamesOnly(log: seq<Commit>, from: nat, keys: set<string>) {
    forall j: nat | from <= j < |log| && PathOf(log[j].op) == Local ::
      log[j].op.Update? && forall key: string :: log[j].op.batch.Touches(key) ==> key in keys
  }

  lemma {:induction false} RestKept(first: Option<Text>, log: seq<Commit>, from: nat, keys: set<string>)
    requires from <= |log| && NamesOnly(log, from, keys)
    requires Readable(Fold(first, log[..from], Local))
    ensures Readable(Fold(first, log, Local))
    ensures Rest(Parse(Fold(first, log, Local).value).value, keys)
         == Rest(Parse(Fold(first, log[..from], Local).value).value, keys)
    decreases |log|
  {
    if from == |log| {
      assert log[..from] == log;
    } else {
      var shorter := log[..|log| - 1];
      var c := log[|log| - 1];
      hide Parse, Effect, Rest;
      assert shorter[..from] == log[..from];
      RestKept(first, shorter, from, keys);
      if PathOf(c.op) == Local {
        EffectOnRest(Fold(first, shorter, Local), c.op.batch, keys);
      }
    }
  }

  /** From one state of the store to any later one, whatever stands in the options file that no update in between
      names keeps its attributes, its subtree and its place among the rest. */
  lemma UnnamedNodesStay(first: map<Path, Text>, states: seq<State>, events: seq<Event>, i: nat, j: nat,
                         keys: set<string>)
    requires Run(first, states, events) && i <= j <= |events|
    requires Readable(Lookup(states[i].disk.files, Local)) && NamesOnly(states[j].disk.log, |states[i].disk.log|, keys)
    ensures var was, now := Lookup(states[i].disk.files, Local), Lookup(states[j].disk.files, Local);
            Readable(now) && Rest(Parse(now.value).value, keys) == Rest(Parse(was.value).value, keys)
  {
    hide Inv, Next, Enabled, Leads, StepAt, Parse, Rest, Fold, Lookup, NamesOnly;
    RunInv(first, states, events, i);
    RunInv(first, states, events, j);
    LogGrows(first, states, events, i, j);
    LogIs(states[i], first, Local);
    LogIs(states[j], first, Local);
    hide Run;
    var log, was := states[j].disk.log, states[i].disk.log;
    assert log[..|was|] == was;
    RestKept(Lookup(first, Local), log, |was|, keys);
  }

  /** At most one thread of all the processes is changing a file, and none while a reader that got the lock reads; at
      most one of each process is inside. */
  lemma OneAtATime(first: map<Path, Text>, states: seq<State>, events: seq<Event>, i: nat, t: Tid, u: Tid)
    requires Run(first, states, events) && i <= |events|
    requires t in states[i].threads && u in states[i].threads && t != u
    ensures !(Writing(states[i].threads[t]) && Writing(states[i].threads[u]))
    ensures !(Writing(states[i].threads[t]) && LockedReader(states[i].threads[u]))
    ensures states[i].threads[t].pid == states[i].threads[u].pid ==>
              !(Inside(states[i].threads[t].pc) && Inside(states[i].threads[u].pc))
  {
    RunInv(first, states, events, i);
  }

  // ----- no temporary file is left behind -----

  /** Somebody is printing this temporary file. */
  ghost predicate Used(threads: map<Tid, Thread>, tmp: Temp) {
    exists t: Tid :: t in threads && Prints(threads[t], t, tmp)
  }

  predicate Prints(x: Thread, t: Tid, tmp: Temp) { x.pc.Printing? && TempOf(t, x.op) == tmp }

  ghost predicate TempsUsed(threads: map<Tid, Thread>, temps: map<Temp, Text>) {
    forall tmp <- temps :: Used(threads, tmp)
  }

  /** The thread t takes a step; the files it does not print are somebody else's. */
  lemma TempsMoved(threads: map<Tid, Thread>, temps: map<Temp, Text>, t: Tid, pc: Pc, temps': map<Temp, Text>)
    requires TempsUsed(threads, temps) && t in threads
    requires forall tmp <- temps' :: tmp in temps || (pc.Printing? && TempOf(t, threads[t].op) == tmp)
    requires threads[t].pc.Printing? && !pc.Printing? ==> TempOf(t, threads[t].op) !in temps'
    ensures TempsUsed(Moved(threads, t, pc), temps')
  {
    var after := Moved(threads, t, pc);
    forall tmp <- temps'
      ensures Used(after, tmp)
    {
      if pc.Printing? && TempOf(t, threads[t].op) == tmp {
        assert Prints(after[t], t, tmp);
      } else {
        var u: Tid :| u in threads && Prints(threads[u], u, tmp);
        assert Prints(after[u], u, tmp);
      }
    }
  }

  lemma TempsSpawned(threads: map<Tid, Thread>, temps: map<Temp, Text>, t: Tid, x: Thread)
    requires TempsUsed(threads, temps) && t !in threads
    ensures TempsUsed(threads[t := x], temps)
  {
    forall tmp <- temps
      ensures Used(threads[t := x], tmp)
    {
      var u: Tid :| u in threads && Prints(threads[u], u, tmp);
      assert Prints(threads[t := x][u], u, tmp);
    }
  }

  /** One thread moves, nobody is added. */
  predicate OfThread(e: Event) {
    e.TakeMutex? || e.TakeFlock? || e.FlockFails? || e.ReadFile? || e.CheckFrozen? || e.Load? || e.CreateTemp?
    || e.PrintPiece? || e.Rename? || e.WriteFails? || e.Leave?
  }

  lemma ThreadStep(s: State, e: Event)
    requires Enabled(s, e) && OfThread(e)
    ensures e.t in s.threads
    ensures var t := Next(s, e);
            && e.t in t.threads && t.threads == Moved(s.threads, e.t, t.threads[e.t].pc)
            && (forall tmp <- t.disk.temps :: tmp in s.disk.temps
                  || (t.threads[e.t].pc.Printing? && TempOf(e.t, s.threads[e.t].op) == tmp))
            && (s.threads[e.t].pc.Printing? && !t.threads[e.t].pc.Printing? ==>
                  TempOf(e.t, s.threads[e.t].op) !in t.disk.temps)
  {
    hide Parse, Print, Apply, Done;
  }

  lemma TempsNext(s: State, e: Event)
    requires Enabled(s, e) && !e.Crash? && TempsUsed(s.threads, s.disk.temps)
    requires forall t <- s.threads :: t in s.names.calls
    ensures TempsUsed(Next(s, e).threads, Next(s, e).disk.temps)
  {
    hide TempsUsed;
    if OfThread(e) {
      ThreadStep(s, e);
      var t := Next(s, e);
      TempsMoved(s.threads, s.disk.temps, e.t, t.threads[e.t].pc, t.disk.temps);
    } else {
      OthersSpawn(s, e);
    }
  }

  lemma OthersSpawn(s: State, e: Event)
    requires Enabled(s, e) && !e.Crash? && !OfThread(e) && TempsUsed(s.threads, s.disk.temps)
    requires forall t <- s.threads :: t in s.names.calls
    ensures TempsUsed(Next(s, e).threads, Next(s, e).disk.temps)
  {
    hide TempsUsed;
    var t := Next(s, e);
    if t.threads != s.threads {
      TempsSpawned(s.threads, s.disk.temps, e.t, t.threads[e.t]);
    }
  }

  /** As long as nothing crashes, every temporary file there is is one that somebody is printing: a write that fails, or
      that comes to its end, leaves none. */
  lemma {:induction false} NoTempIsLeft(first: map<Path, Text>, states: seq<State>, events: seq<Event>, i: nat)
    requires Run(first, states, events) && i <= |events|
    requires forall k | 0 <= k < i :: !events[k].Crash?
    ensures TempsUsed(states[i].threads, states[i].disk.temps)
    decreases i
  {
    if i > 0 {
      hide TempsUsed, Enabled, Next;
      NoTempIsLeft(first, states, events, i - 1);
      RunInv(first, states, events, i - 1);
      ThreadsAreCalls(first, states[i - 1]);
      hide Inv;
      assert StepAt(states, events, i - 1);
      TempsNext(states[i - 1], events[i - 1]);
    }
  }

  lemma ThreadsAreCalls(first: map<Path, Text>, s: State)
    requires Inv(s, first)
    ensures forall t <- s.threads :: t in s.names.calls
  {
    hide MutexOk, FlockOk, PrintsOk, LogOk, ProcsOk, ThreadsOk, KeepOk, SavedOk, NamesOk, Logged;
  }

  // ----- the freeze -----

  predicate Frozen(s: State, p: Pid) { p in s.procs && s.procs[p].main.Idle? && s.procs[p].frozen }

  /** A restore leaves the process frozen if and only if it restarts, if and only if it replaced a file. */
  lemma FrozenIffReplaced(first: map<Path, Text>, states: seq<State>, events: seq<Event>, i: nat, p: Pid)
    requires Run(first, states, events) && i <= |events| && p in states[i].procs && states[i].procs[p].main.Idle?
    ensures var x := states[i].procs[p];
            (x.frozen <==> x.restarting) && (x.restarting <==> x.replaced != map[])
  {
    RunInv(first, states, events, i);
    hide Run, MutexOk, FlockOk, PrintsOk, LogOk, AnswersOk, ThreadsOk, SavedOk, NamesOk, KeepOk;
    assert ProcOk(states[i].procs[p], p, states[i].threads);
  }

  lemma {:induction false} FoldQuiet(first: Option<Text>, log: seq<Commit>, from: nat, path: Path)
    requires from <= |log| && forall j: nat | from <= j < |log| :: PathOf(log[j].op) != path
    ensures Fold(first, log, path) == Fold(first, log[..from], path)
    decreases |log|
  {
    if from == |log| {
      assert log[..from] == log;
    } else {
      var shorter := log[..|log| - 1];
      assert shorter[..from] == log[..from];
      FoldQuiet(first, shorter, from, path);
    }
  }

  lemma {:induction false} FoldSplit(first: Option<Text>, log: seq<Commit>, from: nat, path: Path)
    requires from <= |log|
    ensures Fold(first, log, path) == Fold(Fold(first, log[..from], path), log[from..], path)
    decreases |log|
  {
    if from == |log| {
      assert log[..from] == log;
    } else {
      var shorter := log[..|log| - 1];
      assert shorter[..from] == log[..from] && log[from..][..|log| - from - 1] == shorter[from..];
      hide Effect;
      FoldSplit(first, shorter, from, path);
    }
  }

  /** The commits of the other processes. */
  function Others(log: seq<Commit>, p: Pid): seq<Commit> {
    if log == [] then []
    else Others(log[..|log| - 1], p) + (if log[|log| - 1].pid != p then [log[|log| - 1]] else [])
  }

  lemma {:induction false} FoldOthers(first: Option<Text>, log: seq<Commit>, p: Pid, path: Path)
    requires forall j: nat | j < |log| && log[j].pid == p :: PathOf(log[j].op) != path
    ensures Fold(first, log, path) == Fold(first, Others(log, p), path)
    decreases |log|
  {
    if log != [] {
      var shorter := log[..|log| - 1];
      hide Effect;
      FoldOthers(first, shorter, p, path);
      if log[|log| - 1].pid != p {
        FoldOne(first, Others(shorter, p), log[|log| - 1], path);
      } else {
        assert Others(shorter, p) + [] == Others(shorter, p);
      }
    }
  }

  predicate Overwrites(c: Commit, path: Path) { c.op.Replace? && c.op.path == path }

  /** Nothing but a replacement changes io.xml or rules.xml. */
  lemma {:induction false} FoldLast(first: Option<Text>, log: seq<Commit>, path: Path) returns (j: nat)
    requires path != Local
    ensures if j < |log| then Overwrites(log[j], path) && Fold(first, log, path) == Some(log[j].op.text)
            else Fold(first, log, path) == first
    ensures forall k: nat | k < |log| && Overwrites(log[k], path) :: k <= j < |log|
    decreases |log|
  {
    j := |log|;
    if log != [] {
      if Overwrites(log[|log| - 1], path) {
        j := |log| - 1;
      } else {
        j := FoldLast(first, log[..|log| - 1], path);
        if j == |log| - 1 {
          j := |log|;
        }
      }
    }
  }

  ghost predicate LastToReplace(log: seq<Commit>, j: nat, path: Path)
    requires j < |log|
  {
    Overwrites(log[j], path) && forall k: nat | j < k < |log| :: !Overwrites(log[k], path)
  }

  /** Whoever replaced the file last since the commit at `at` wrote the same text. */
  ghost predicate SameTextSince(log: seq<Commit>, at: nat, path: Path)
    requires at < |log| && Overwrites(log[at], path)
  {
    forall j: nat | at < j < |log| && LastToReplace(log, j, path) :: log[j].op.text == log[at].op.text
  }

  lemma FoldFrom(first: Option<Text>, log: seq<Commit>, at: nat, path: Path)
    requires at < |log| && Overwrites(log[at], path)
    ensures Fold(first, log, path) == Fold(Some(log[at].op.text), log[at + 1..], path)
  {
    FoldSplit(first, log, at + 1, path);
    assert log[..at + 1] == log[..at] + [log[at]];
    FoldOne(first, log[..at], log[at], path);
  }

  lemma RestoredIn(s: State, first: map<Path, Text>, p: Pid, path: Path)
    requires Inv(s, first) && p in s.procs && path in s.procs[p].replaced
    ensures var at := s.procs[p].replaced[path];
            var log := s.disk.log;
            && at < |log| && log[at].pid == p && Overwrites(log[at], path)
            && Lookup(s.disk.files, path) == Fold(Some(log[at].op.text), log[at + 1..], path)
            && Lookup(s.disk.files, path) == Fold(Some(log[at].op.text), Others(log[at + 1..], p), path)
  {
    hide MutexOk, FlockOk, PrintsOk, LogOk, AnswersOk, ProcsOk, ThreadsOk, SavedOk, NamesOk;
    var at := s.procs[p].replaced[path];
    var log := s.disk.log;
    assert LastWord(log, p, path, at);
    hide Fold;
    FoldFrom(Lookup(first, path), log, at, path);
    FoldOthers(Some(log[at].op.text), log[at + 1..], p, path);
    LogIs(s, first, path);
  }

  lemma LastWins(log: seq<Commit>, at: nat, path: Path)
    requires at < |log| && Overwrites(log[at], path) && path != Local
    ensures var text := Some(log[at].op.text); Fold(text, log[at + 1..], path) == text <==> SameTextSince(log, at, path)
  {
    hide Fold;
    var since := log[at + 1..];
    var n := FoldLast(Some(log[at].op.text), since, path);
    forall k: nat | at < k < |log| && Overwrites(log[k], path)
      ensures k - at - 1 <= n < |since|
    {
      assert since[k - at - 1] == log[k];
    }
    if n < |since| {
      assert since[n] == log[at + 1 + n];
      assert LastToReplace(log, at + 1 + n, path);
    }
  }

  /** What a restore put in place is changed by the other processes alone: the file is what their later changes,
      one after the other, make of it. io.xml and rules.xml are still as restored if and only if whoever replaced
      them last since then wrote the same. */
  lemma RestoredExactly(first: map<Path, Text>, states: seq<State>, events: seq<Event>, i: nat, p: Pid, path: Path)
    requires Run(first, states, events) && i <= |events| && p in states[i].procs && path in states[i].procs[p].replaced
    ensures var at := states[i].procs[p].replaced[path];
            var log := states[i].disk.log;
            var file := Lookup(states[i].disk.files, path);
            && at < |log| && log[at].pid == p && Overwrites(log[at], path)
            && file == Fold(Some(log[at].op.text), Others(log[at + 1..], p), path)
            && (path != Local ==> (file == Some(log[at].op.text) <==> SameTextSince(log, at, path)))
  {
    hide Inv, Fold, Others, SameTextSince, Lookup, StepAt;
    RunInv(first, states, events, i);
    hide Run;
    RestoredIn(states[i], first, p, path);
    if path != Local {
      LastWins(states[i].disk.log, states[i].procs[p].replaced[path], path);
    }
  }

  lemma QuietSince(s: State, first: map<Path, Text>, p: Pid, path: Path)
    requires Inv(s, first) && p in s.procs && path in s.procs[p].replaced
    requires forall j: nat | s.procs[p].replaced[path] < j < |s.disk.log| && s.disk.log[j].pid != p ::
               PathOf(s.disk.log[j].op) != path
    ensures var at := s.procs[p].replaced[path];
            && at < |s.disk.log| && Overwrites(s.disk.log[at], path)
            && Fold(Some(s.disk.log[at].op.text), s.disk.log[at + 1..], path) == Some(s.disk.log[at].op.text)
  {
    hide MutexOk, FlockOk, PrintsOk, LogOk, AnswersOk, ProcsOk, ThreadsOk, SavedOk, NamesOk;
    var at, log := s.procs[p].replaced[path], s.disk.log;
    assert LastWord(log, p, path, at);
    FoldQuiet(Some(log[at].op.text), log[at + 1..], 0, path);
  }

  /** What a restore put in place stays, unless another process writes there. */
  lemma RestoredStays(first: map<Path, Text>, states: seq<State>, events: seq<Event>, i: nat, p: Pid, path: Path)
    requires Run(first, states, events) && i <= |events| && p in states[i].procs && path in states[i].procs[p].replaced
    requires var at := states[i].procs[p].replaced[path];
             forall j: nat | at < j < |states[i].disk.log| && states[i].disk.log[j].pid != p ::
               PathOf(states[i].disk.log[j].op) != path
    ensures var at := states[i].procs[p].replaced[path];
            var log := states[i].disk.log;
            && at < |log| && log[at].pid == p && log[at].op.Replace? && log[at].op.path == path
            && Lookup(states[i].disk.files, path) == Some(log[at].op.text)
  {
    hide Inv, Fold, Others, Lookup, StepAt;
    RunInv(first, states, events, i);
    hide Run;
    RestoredIn(states[i], first, p, path);
    QuietSince(states[i], first, p, path);
  }

  // ----- what a restore writes -----

  /** What the restore and the saves of a process put in place since the log had `base` entries. */
  function ReplacedBy(log: seq<Commit>, base: nat, p: Pid): seq<Op>
    decreases |log|
  {
    if |log| <= base then []
    else
      var c := log[|log| - 1];
      ReplacedBy(log[..|log| - 1], base, p) + (if c.pid == p && c.op.Replace? then [c.op] else [])
  }

  lemma ReplacedPush(log: seq<Commit>, base: nat, p: Pid, c: Commit)
    requires base <= |log|
    ensures ReplacedBy(log + [c], base, p)
         == ReplacedBy(log, base, p) + (if c.pid == p && c.op.Replace? then [c.op] else [])
  {
    assert (log + [c])[..|log|] == log;
  }

  function PathsOf(ops: seq<Op>): set<Path> { set op | op in ops :: PathOf(op) }

  /** The call of a restore that is under way is for the nth file, and those before it are in place. */
  ghost predicate During(s: State, base: nat, p: Pid, wanted: seq<Op>, n: nat) {
    && p in s.procs && s.procs[p].main.Restoring? && n < |wanted| && s.procs[p].main.rest == wanted[n + 1..]
    && s.procs[p].frozen
    && CallFor(s.threads, s.procs[p].main.t, p, wanted[n])
    && InPlace(s.disk.log, s.procs[p], base, p,
               wanted[..if Succeeded(s.threads[s.procs[p].main.t].pc) then n + 1 else n])
  }

  predicate CallFor(threads: map<Tid, Thread>, u: Tid, p: Pid, op: Op) {
    u in threads && threads[u].pid == p && threads[u].op == op
  }

  predicate InPlace(log: seq<Commit>, x: Proc, base: nat, p: Pid, done: seq<Op>) {
    base <= |log| && ReplacedBy(log, base, p) == done && x.replaced.Keys == PathsOf(done)
  }

  /** The restore is over, with n files in place. */
  ghost predicate Over(s: State, base: nat, p: Pid, wanted: seq<Op>, n: nat) {
    && p in s.procs && s.procs[p].main.Idle? && n <= |wanted|
    && InPlace(s.disk.log, s.procs[p], base, p, wanted[..n])
  }

  /** A step that is not of the log, nor of this restore's own. */
  predicate Beside(e: Event, p: Pid) { !e.Rename? && !e.Load? && e != Crash(p) && !(e.Resume? && e.pid == p) }

  lemma BesideProc(s: State, e: Event, p: Pid)
    requires Enabled(s, e) && Beside(e, p) && p in s.procs && s.procs[p].main.Restoring? && p in s.names.boots
    ensures Next(s, e).disk.log == s.disk.log && p in Next(s, e).procs && Next(s, e).procs[p] == s.procs[p]
  {
    hide Parse, Print, Apply, Done;
  }

  lemma BesideCall(s: State, e: Event, p: Pid, u: Tid)
    requires Enabled(s, e) && Beside(e, p)
    requires u in s.threads && s.threads[u].pid == p && s.threads[u].op.Replace? && u in s.names.calls
    ensures var t := Next(s, e);
            && u in t.threads && t.threads[u].pid == p && t.threads[u].op == s.threads[u].op
            && (Succeeded(t.threads[u].pc) <==> Succeeded(s.threads[u].pc))
  {
    hide Parse, Print, Apply, Done;
  }

  lemma BesideStep(s: State, first: map<Path, Text>, e: Event, p: Pid)
    requires Inv(s, first) && Enabled(s, e) && Beside(e, p) && p in s.procs && s.procs[p].main.Restoring?
    requires var u := s.procs[p].main.t;
             u in s.threads && s.threads[u].pid == p && s.threads[u].op.Replace?
    ensures var t, u := Next(s, e), s.procs[p].main.t;
            && t.disk.log == s.disk.log && p in t.procs && t.procs[p] == s.procs[p]
            && u in t.threads && t.threads[u].pid == p && t.threads[u].op == s.threads[u].op
            && (Succeeded(t.threads[u].pc) <==> Succeeded(s.threads[u].pc))
  {
    hide Enabled, Next, Succeeded;
    BesideProc(s, e, p);
    BesideCall(s, e, p, s.procs[p].main.t);
  }

  lemma LoadCommits(s: State, e: Event, p: Pid, u: Tid)
    requires Enabled(s, e) && e.Load? && p in s.procs && u in s.threads && u != e.t
    ensures var t := Next(s, e);
            && p in t.procs && t.procs[p] == s.procs[p] && u in t.threads && t.threads[u] == s.threads[u]
            && (t.disk.log == s.disk.log || t.disk.log == Committed(s, e.t)) && s.threads[e.t].op.Update?
  {
    hide Parse, Print, Apply, Done, Committed;
  }

  lemma RenameCommits(s: State, e: Event, p: Pid, u: Tid)
    requires Enabled(s, e) && e.Rename? && p in s.procs && u in s.threads && u != e.t
    requires s.procs[p].main.Restoring? && s.procs[p].main.t == u
    ensures var t := Next(s, e);
            && p in t.procs && t.procs[p] == s.procs[p] && u in t.threads && t.threads[u] == s.threads[u]
            && t.disk.log == Committed(s, e.t)
  {
    hide Committed;
  }

  /** A commit that is not of this restore. */
  lemma OthersCommit(s: State, first: map<Path, Text>, e: Event, p: Pid)
    requires Inv(s, first) && Enabled(s, e) && (e.Rename? || e.Load?) && p in s.procs && s.procs[p].main.Restoring?
    requires var u := s.procs[p].main.t; e.t != u && u in s.threads
    ensures var t, u := Next(s, e), s.procs[p].main.t;
            && p in t.procs && t.procs[p] == s.procs[p]
            && u in t.threads && t.threads[u] == s.threads[u]
            && (t.disk.log == s.disk.log
                || (t.disk.log == Committed(s, e.t) && !(s.threads[e.t].pid == p && s.threads[e.t].op.Replace?)))
  {
    assert ThreadOk(s.threads[e.t], e.t, s.procs);
    hide Inv;
    if e.Load? {
      LoadCommits(s, e, p, s.procs[p].main.t);
    } else {
      RenameCommits(s, e, p, s.procs[p].main.t);
    }
    hide Next, Committed;
  }

  lemma OwnCommit(s: State, first: map<Path, Text>, p: Pid)
    requires Inv(s, first) && p in s.procs && s.procs[p].main.Restoring? && Enabled(s, Rename(s.procs[p].main.t))
    requires s.threads[s.procs[p].main.t].pid == p && s.threads[s.procs[p].main.t].op.Replace?
    ensures var t, u := Next(s, Rename(s.procs[p].main.t)), s.procs[p].main.t;
            var op := s.threads[u].op;
            && t.disk.log == s.disk.log + [Commit(u, p, op)]
            && p in t.procs && t.procs[p] == s.procs[p].(replaced := s.procs[p].replaced[op.path := |s.disk.log|])
            && u in t.threads && t.threads[u] == s.threads[u].(pc := Leaving(true, None))
  {
    hide Inv, Parse, Print, Apply, Done;
  }

  lemma PathsPush(ops: seq<Op>, op: Op)
    ensures PathsOf(ops + [op]) == PathsOf(ops) + {PathOf(op)}
  {
    forall path <- PathsOf(ops) + {PathOf(op)}
      ensures path in PathsOf(ops + [op])
    {
      if path == PathOf(op) {
        assert op in ops + [op];
      } else {
        var o :| o in ops && PathOf(o) == path;
        assert o in ops + [op];
      }
    }
  }

  lemma TakeNext<T>(s: seq<T>, n: nat)
    requires n < |s|
    ensures s[..n] + [s[n]] == s[..n + 1]
  {
  }

  lemma SameDuring(s: State, t: State, base: nat, p: Pid, wanted: seq<Op>, n: nat)
    requires During(s, base, p, wanted, n)
    requires base <= |t.disk.log| && ReplacedBy(t.disk.log, base, p) == ReplacedBy(s.disk.log, base, p)
    requires p in t.procs && t.procs[p] == s.procs[p] && s.procs[p].main.t in t.threads
    requires var x, y := s.threads[s.procs[p].main.t], t.threads[s.procs[p].main.t];
             y.pid == x.pid && y.op == x.op && (Succeeded(y.pc) <==> Succeeded(x.pc))
    ensures During(t, base, p, wanted, n) && ReplacedBy(t.disk.log, base, p) <= wanted
  {
    hide ReplacedBy, PathsOf, Succeeded;
  }

  lemma GrownDuring(s: State, t: State, base: nat, p: Pid, wanted: seq<Op>, n: nat)
    requires During(s, base, p, wanted, n) && !Succeeded(s.threads[s.procs[p].main.t].pc)
    requires t.disk.log == s.disk.log + [Commit(s.procs[p].main.t, p, wanted[n])] && wanted[n].Replace?
    requires p in t.procs
             && t.procs[p] == s.procs[p].(replaced := s.procs[p].replaced[wanted[n].path := |s.disk.log|])
    requires s.procs[p].main.t in t.threads
    requires t.threads[s.procs[p].main.t] == s.threads[s.procs[p].main.t].(pc := Leaving(true, None))
    ensures During(t, base, p, wanted, n) && ReplacedBy(t.disk.log, base, p) <= wanted
  {
    hide ReplacedBy, PathsOf;
    ReplacedPush(s.disk.log, base, p, Commit(s.procs[p].main.t, p, wanted[n]));
    PathsPush(wanted[..n], wanted[n]);
    TakeNext(wanted, n);
  }

  lemma CrashKeepsLog(s: State, p: Pid)
    requires Enabled(s, Crash(p))
    ensures Next(s, Crash(p)).disk == s.disk && p !in Next(s, Crash(p)).procs
  {
  }

  /** The two ends of a call of the restore, and what comes next. */
  lemma ResumeIs(s: State, e: Event, p: Pid)
    requires Enabled(s, e) && e.Resume? && e.pid == p && p in s.procs && s.procs[p].main.Restoring?
    requires s.procs[p].main.rest != [] ==> s.procs[p].main.rest[0].Replace?
    ensures var t, x := Next(s, e), s.procs[p];
            var ok := s.threads[x.main.t].pc.ok;
            && t.disk == s.disk && p in t.procs && s.threads[x.main.t].pc.Returned?
            && if ok && x.main.rest != [] then
                 && t.procs[p] == x.(main := Restoring(e.t, x.main.rest[1..]), restarting := true)
                 && e.t in t.threads && t.threads[e.t] == Thread(p, x.main.rest[0], Calling)
               else t.procs[p].main.Idle? && t.procs[p].replaced == x.replaced
  {
    hide Parse, Print, Apply, Done;
  }

  lemma NextDuring(s: State, t: State, base: nat, p: Pid, wanted: seq<Op>, n: nat, u: Tid)
    requires During(s, base, p, wanted, n) && Succeeded(s.threads[s.procs[p].main.t].pc) && n + 1 < |wanted|
    requires t.disk == s.disk && p in t.procs
    requires t.procs[p] == s.procs[p].(main := Restoring(u, wanted[n + 1..][1..]), restarting := true)
    requires u in t.threads && t.threads[u] == Thread(p, wanted[n + 1], Calling)
    ensures During(t, base, p, wanted, n + 1) && ReplacedBy(t.disk.log, base, p) <= wanted
  {
    assert wanted[n + 1..][1..] == wanted[n + 2..];
    hide ReplacedBy, PathsOf;
  }

  lemma EndsDuring(s: State, t: State, base: nat, p: Pid, wanted: seq<Op>, n: nat, m: nat)
    requires During(s, base, p, wanted, n)
    requires m == if Succeeded(s.threads[s.procs[p].main.t].pc) then n + 1 else n
    requires t.disk == s.disk && p in t.procs && t.procs[p].main.Idle? && t.procs[p].replaced == s.procs[p].replaced
    ensures Over(t, base, p, wanted, m) && ReplacedBy(t.disk.log, base, p) <= wanted
  {
    hide ReplacedBy, PathsOf;
  }

  lemma ResumeDuring(s: State, e: Event, base: nat, p: Pid, wanted: seq<Op>, n: nat) returns (m: nat)
    requires Enabled(s, e) && During(s, base, p, wanted, n) && e.Resume? && e.pid == p
    requires forall op <- wanted :: op.Replace?
    ensures var t := Next(s, e);
            && m <= |wanted| && ReplacedBy(t.disk.log, base, p) <= wanted && p in t.procs
            && if t.procs[p].main.Idle? then
                 Over(t, base, p, wanted, m) && (m < |wanted| <==> Failed(s, s.procs[p].main.t))
               else During(t, base, p, wanted, m)
  {
    var x, t := s.threads[s.procs[p].main.t], Next(s, e);
    assert s.procs[p].main.rest == wanted[n + 1..];
    assert forall op <- wanted[n + 1..] :: op in wanted;
    hide Enabled, Next, ReplacedBy, PathsOf, During, Over;
    ResumeIs(s, e, p);
    if x.pc.ok && n + 1 < |wanted| {
      m := n + 1;
      NextDuring(s, t, base, p, wanted, n, e.t);
    } else {
      m := if x.pc.ok then n + 1 else n;
      EndsDuring(s, t, base, p, wanted, n, m);
    }
  }

  lemma BaseIs(s: State, base: nat, p: Pid, wanted: seq<Op>, n: nat)
    requires During(s, base, p, wanted, n)
    ensures base <= |s.disk.log|
  {
  }

  lemma RenamesOnce(s: State, u: Tid)
    requires Enabled(s, Rename(u))
    ensures !Succeeded(s.threads[u].pc)
  {
  }

  /** One step of anybody: the restore stays where it is, goes on, or ends; when it ends before the last file, the
      last call failed. */
  lemma StepDuring(s: State, first: map<Path, Text>, e: Event, base: nat, p: Pid, wanted: seq<Op>, n: nat)
      returns (m: nat)
    requires Inv(s, first) && Enabled(s, e) && During(s, base, p, wanted, n)
    requires forall op <- wanted :: op.Replace?
    ensures var t := Next(s, e);
            && m <= |wanted| && ReplacedBy(t.disk.log, base, p) <= wanted
            && (p in t.procs ==>
                  if t.procs[p].main.Idle? then
                    Over(t, base, p, wanted, m) && (m < |wanted| <==> Failed(s, s.procs[p].main.t))
                  else During(t, base, p, wanted, m))
  {
    var u, t := s.procs[p].main.t, Next(s, e);
    var x := s.threads[u];
    assert x.pid == p && x.op == wanted[n] && wanted[n] in wanted;
    assert s.procs[p].main.rest == wanted[n + 1..] && ReplacedBy(s.disk.log, base, p) <= wanted;
    m := n;
    hide Inv, Enabled, Next, ReplacedBy, PathsOf, During, Over;
    if Beside(e, p) {
      BesideStep(s, first, e, p);
      BaseIs(s, base, p, wanted, n);
      SameDuring(s, t, base, p, wanted, n);
    } else if e == Rename(u) {
      OwnCommit(s, first, p);
      RenamesOnce(s, u);
      GrownDuring(s, t, base, p, wanted, n);
    } else if e.Rename? || e.Load? {
      OthersCommit(s, first, e, p);
      BaseIs(s, base, p, wanted, n);
      ReplacedPush(s.disk.log, base, p, Commit(e.t, s.threads[e.t].pid, s.threads[e.t].op));
      SameDuring(s, t, base, p, wanted, n);
    } else if e == Crash(p) {
      CrashKeepsLog(s, p);
    } else {
      m := ResumeDuring(s, e, base, p, wanted, n);
    }
  }

  /** The beginning of a list. */
  lemma StartDuring(s: State, p: Pid, t: Tid, plan: Plan)
    requires Enabled(s, StartRestore(p, t, plan, true)) && !s.procs[p].frozen && s.procs[p].replaced == map[]
    ensures During(Next(s, StartRestore(p, t, plan, true)), |s.disk.log|, p, plan.Writes(), 0)
    ensures ReplacedBy(s.disk.log, |s.disk.log|, p) == []
  {
  }

  /** What a restore has put in place, as the backup has it: io.xml, rules.xml and the options, in this order. */
  predicate FromPlan(done: seq<Op>, plan: Plan) {
    && |done| <= (if plan.local.Some? then 3 else 2)
    && (|done| > 0 ==> done[0] == Replace(Io, plan.io))
    && (|done| > 1 ==> done[1] == Replace(Rules, plan.rules))
    && (|done| > 2 ==> done[2] == Replace(Local, plan.local.value))
  }

  predicate CallFailed(s: State, p: Pid) {
    p in s.procs && s.procs[p].main.Restoring? && Failed(s, s.procs[p].main.t)
  }

  /** After a step from `before` the restore is under way for its nth file, or over with n of them, or the process is
      dead. */
  ghost predicate Restores(before: State, s: State, base: nat, p: Pid, wanted: seq<Op>, n: nat) {
    && n <= |wanted| && ReplacedBy(s.disk.log, base, p) <= wanted
    && (p in s.procs ==>
          if s.procs[p].main.Idle? then Over(s, base, p, wanted, n) && (n < |wanted| <==> CallFailed(before, p))
          else During(s, base, p, wanted, n))
  }

  lemma AllReplace(plan: Plan)
    ensures forall op <- plan.Writes() :: op.Replace?
  {
  }

  lemma NotReplaced(s: State, first: map<Path, Text>, p: Pid)
    requires Inv(s, first) && p in s.procs && s.procs[p].main.Idle? && !s.procs[p].frozen
    ensures s.procs[p].replaced == map[]
  {
    hide MutexOk, FlockOk, PrintsOk, LogOk, AnswersOk, ThreadsOk, KeepOk, SavedOk, NamesOk;
    assert ProcOk(s.procs[p], p, s.threads);
  }

  lemma RestoreFirst(s: State, first: map<Path, Text>, p: Pid, t: Tid, plan: Plan)
    requires Inv(s, first) && Enabled(s, StartRestore(p, t, plan, true)) && !s.procs[p].frozen
    ensures Restores(s, Next(s, StartRestore(p, t, plan, true)), |s.disk.log|, p, plan.Writes(), 0)
  {
    NotReplaced(s, first, p);
    StartDuring(s, p, t, plan);
    hide Inv, ReplacedBy, During, Over, Parse, Print, Apply, Done;
  }

  lemma RestoreStep(before: State, s: State, first: map<Path, Text>, e: Event, base: nat, p: Pid, wanted: seq<Op>,
                    n: nat)
      returns (m: nat)
    requires Inv(s, first) && Enabled(s, e) && p in s.procs && s.procs[p].main.Restoring?
    requires Restores(before, s, base, p, wanted, n) && forall op <- wanted :: op.Replace?
    ensures Restores(s, Next(s, e), base, p, wanted, m)
  {
    hide Inv, Enabled, Next, ReplacedBy, During, Over, Failed;
    m := StepDuring(s, first, e, base, p, wanted, n);
  }

  lemma {:induction false} RestoreRun(first: map<Path, Text>, states: seq<State>, events: seq<Event>, k: nat, m: nat,
                                      p: Pid, t: Tid, plan: Plan)
      returns (n: nat)
    requires Run(first, states, events) && k < m <= |events| && events[k] == StartRestore(p, t, plan, true)
    requires p in states[k].procs && !states[k].procs[p].frozen
    requires forall x: nat | k < x < m :: p in states[x].procs && states[x].procs[p].main.Restoring?
    ensures Restores(states[m - 1], states[m], |states[k].disk.log|, p, plan.Writes(), n)
    decreases m
  {
    hide Enabled, Next, Inv, Plan.Writes, Restores, StepAt, Leads;
    RunStep(first, states, events, m - 1);
    RunInv(first, states, events, m - 1);
    if m == k + 1 {
      n := 0;
      RestoreFirst(states[k], first, p, t, plan);
    } else {
      n := RestoreRun(first, states, events, k, m - 1, p, t, plan);
      AllReplace(plan);
      hide Run;
      n := RestoreStep(states[m - 2], states[m - 1], first, events[m - 1], |states[k].disk.log|, p, plan.Writes(), n);
    }
  }

  lemma PlanWrites(plan: Plan, done: seq<Op>)
    requires done <= plan.Writes()
    ensures FromPlan(done, plan)
    ensures |plan.Writes()| == if plan.local.Some? then 3 else 2
  {
  }

  /** A restore writes the plan it was given: at any time from its start until it ends, or its process dies, what it
      has put in place is io.xml, then rules.xml, then the options when the plan has them, each with its own text of
      the plan, or the beginning of that. When it ends it has all of it, unless its last call failed; it remembers
      exactly those files, and is frozen if there are any. */
  lemma RestoreWritesThePlan(first: map<Path, Text>, states: seq<State>, events: seq<Event>, k: nat, m: nat, p: Pid,
                             t: Tid, plan: Plan)
    requires Run(first, states, events) && k < m <= |events| && events[k] == StartRestore(p, t, plan, true)
    requires p in states[k].procs && !states[k].procs[p].frozen
    requires forall x: nat | k < x < m :: p in states[x].procs && states[x].procs[p].main.Restoring?
    ensures FromPlan(ReplacedBy(states[m].disk.log, |states[k].disk.log|, p), plan)
    ensures p in states[m].procs && states[m].procs[p].main.Idle? ==>
              var done, x := ReplacedBy(states[m].disk.log, |states[k].disk.log|, p), states[m].procs[p];
              && x.replaced.Keys == PathsOf(done) && (x.frozen <==> done != [])
              && (|done| == (if plan.local.Some? then 3 else 2) <==> !CallFailed(states[m - 1], p))
  {
    hide Enabled, Next, Inv, Plan.Writes, FromPlan, CallFailed, During, StepAt, Leads, ReplacedBy;
    var n := RestoreRun(first, states, events, k, m, p, t, plan);
    var done := ReplacedBy(states[m].disk.log, |states[k].disk.log|, p);
    PlanWrites(plan, done);
    if p in states[m].procs && states[m].procs[p].main.Idle? {
      FrozenIffReplaced(first, states, events, m, p);
      hide Run;
      assert done == plan.Writes()[..n];
      assert done != [] ==> PathOf(done[0]) in PathsOf(done);
      assert done == [] ==> PathsOf(done) == {};
    }
  }

  // ----- a run in which it does not stay -----

  lemma Push(first: map<Path, Text>, states: seq<State>, events: seq<Event>, e: Event, next: State)
      returns (states': seq<State>, events': seq<Event>)
    requires Run(first, states, events) && Leads(states[|events|], e, next)
    ensures Run(first, states', events') && states' == states + [next] && events' == events + [e]
    ensures |states'| == |events'| + 1 && states'[|events'|] == next
  {
    hide Leads;
    states', events' := states + [next], events + [e];
    forall i: nat | i < |events'| ensures StepAt(states', events', i) {
      assert i < |events| ==> StepAt(states, events, i);
    }
  }

  /** A writer that is called while nobody else is at work. */
  predicate Ready(s: State, t: Tid) {
    && t in s.threads && s.threads[t].pc.Calling? && !s.threads[t].op.Read?
    && s.threads[t].pid !in s.locks.mutex && s.locks.writer.None? && s.locks.readers == {}
  }

  /** It has printed n pieces. */
  function AtWork(s: State, t: Tid, text: Text, n: nat): State
    requires t in s.threads && n <= |text|
  {
    var x := s.threads[t];
    State(s.disk.(temps := s.disk.temps[TempOf(t, x.op) := text[..n]]),
          Locks(s.locks.mutex[x.pid := t], Some(t), s.locks.readers),
          s.threads[t := x.(pc := Printing(text, n))], s.procs, s.names)
  }

  /** It has returned. */
  function Written(s: State, t: Tid, text: Text): State
    requires t in s.threads
  {
    var x := s.threads[t];
    State(Disk(s.disk.files[PathOf(x.op) := text], s.disk.temps - {TempOf(t, x.op)}, Committed(s, t)), s.locks,
          s.threads[t := x.(pc := Returned(true, None))],
          Replaced(s.procs, x.pid, t, PathOf(x.op), |s.disk.log|), s.names)
  }

  lemma BeginReplace(s: State, t: Tid) returns (s1: State, s2: State)
    requires Ready(s, t) && s.threads[t].op.Replace?
    ensures Leads(s, TakeMutex(t), s1) && Leads(s1, TakeFlock(t), s2)
    ensures Leads(s2, CreateTemp(t), AtWork(s, t, s.threads[t].op.text, 0))
  {
    s1 := Next(s, TakeMutex(t));
    s2 := Next(s1, TakeFlock(t));
    assert s.threads[t].op.text[..0] == [];
    assert Next(s2, CreateTemp(t)).threads == AtWork(s, t, s.threads[t].op.text, 0).threads;
  }

  /** An update that has something to write. */
  ghost predicate Changes(s: State, t: Tid) {
    && t in s.threads && s.threads[t].op.Update? && s.threads[t].pid in s.procs && !s.procs[s.threads[t].pid].frozen
    && Readable(Lookup(s.disk.files, Local)) && !Done(Parse(s.disk.files[Local]).value, s.threads[t].op.batch)
  }

  lemma BeginUpdate(s: State, t: Tid) returns (s1: State, s2: State, s3: State)
    requires Ready(s, t) && Changes(s, t)
    ensures Leads(s, TakeMutex(t), s1) && Leads(s1, TakeFlock(t), s2) && Leads(s2, CheckFrozen(t), s3)
    ensures Leads(s3, Load(t), AtWork(s, t, Effect(Some(s.disk.files[Local]), s.threads[t].op).value, 0))
  {
    hide Parse, Print, Apply, Done;
    s1 := Next(s, TakeMutex(t));
    s2 := Next(s1, TakeFlock(t));
    s3 := Next(s2, CheckFrozen(t));
    var text := Effect(Some(s.disk.files[Local]), s.threads[t].op).value;
    assert text[..0] == [];
    assert Next(s3, Load(t)).threads == AtWork(s, t, text, 0).threads;
  }

  lemma PrintOne(s: State, t: Tid, text: Text, n: nat)
    requires t in s.threads && n < |text|
    ensures Leads(AtWork(s, t, text, n), PrintPiece(t), AtWork(s, t, text, n + 1))
  {
    assert text[..n] + [text[n]] == text[..n + 1];
    var u, v := Next(AtWork(s, t, text, n), PrintPiece(t)), AtWork(s, t, text, n + 1);
    assert u.disk.temps == v.disk.temps && u.threads == v.threads;
  }

  lemma End(s: State, t: Tid, text: Text) returns (u: State)
    requires Ready(s, t)
    ensures Leads(AtWork(s, t, text, |text|), Rename(t), u) && Leads(u, Leave(t), Written(s, t, text))
  {
    assert text[..|text|] == text;
    u := Next(AtWork(s, t, text, |text|), Rename(t));
    var v, w := Next(u, Leave(t)), Written(s, t, text);
    assert v.disk == w.disk;
    assert v.locks.mutex == w.locks.mutex;
    assert v.threads == w.threads;
  }

  lemma {:induction false} PrintRun(first: map<Path, Text>, states: seq<State>, events: seq<Event>, s: State, t: Tid,
                                    text: Text, n: nat)
      returns (states': seq<State>, events': seq<Event>)
    requires Run(first, states, events) && Ready(s, t) && n <= |text| && states[|events|] == AtWork(s, t, text, n)
    ensures Run(first, states', events') && states'[|events'|] == Written(s, t, text)
    decreases |text| - n
  {
    assert t in s.threads;
    hide Run, Enabled, Next, Ready, Written, AtWork, Leads;
    if n < |text| {
      PrintOne(s, t, text, n);
      states', events' := Push(first, states, events, PrintPiece(t), AtWork(s, t, text, n + 1));
      states', events' := PrintRun(first, states', events', s, t, text, n + 1);
    } else {
      var u := End(s, t, text);
      states', events' := Push(first, states, events, Rename(t), u);
      states', events' := Push(first, states', events', Leave(t), Written(s, t, text));
    }
  }

  lemma ReplaceRun(first: map<Path, Text>, states: seq<State>, events: seq<Event>, t: Tid)
      returns (states': seq<State>, events': seq<Event>)
    requires Run(first, states, events) && Ready(states[|events|], t) && states[|events|].threads[t].op.Replace?
    ensures Run(first, states', events')
    ensures states'[|events'|] == Written(states[|events|], t, states[|events|].threads[t].op.text)
  {
    var s := states[|events|];
    var s1, s2 := BeginReplace(s, t);
    var text := s.threads[t].op.text;
    hide Run, Enabled, Next, Written, AtWork, Leads;
    states', events' := Push(first, states, events, TakeMutex(t), s1);
    states', events' := Push(first, states', events', TakeFlock(t), s2);
    states', events' := Push(first, states', events', CreateTemp(t), AtWork(s, t, text, 0));
    states', events' := PrintRun(first, states', events', s, t, text, 0);
  }

  lemma UpdateRun(first: map<Path, Text>, states: seq<State>, events: seq<Event>, t: Tid)
      returns (states': seq<State>, events': seq<Event>)
    requires Run(first, states, events) && Ready(states[|events|], t) && Changes(states[|events|], t)
    ensures var s := states[|events|];
            Run(first, states', events')
            && states'[|events'|] == Written(s, t, Effect(Some(s.disk.files[Local]), s.threads[t].op).value)
  {
    var s := states[|events|];
    var s1, s2, s3 := BeginUpdate(s, t);
    var text := Effect(Some(s.disk.files[Local]), s.threads[t].op).value;
    hide Run, Enabled, Next, Written, AtWork, Leads, Effect;
    states', events' := Push(first, states, events, TakeMutex(t), s1);
    states', events' := Push(first, states', events', TakeFlock(t), s2);
    states', events' := Push(first, states', events', CheckFrozen(t), s3);
    states', events' := Push(first, states', events', Load(t), AtWork(s, t, text, 0));
    states', events' := PrintRun(first, states', events', s, t, text, 0);
  }

  const BACKUP: Plan := Plan([Close], [Open], Some([Open, Close]))

  /** One file of the backup after the other: process 0 has restored io.xml. */
  lemma RestoredOne() returns (states: seq<State>, events: seq<Event>)
    ensures Run(map[], states, events)
    ensures var s := states[|events|];
            && s.procs == map[0 := Proc(true, {}, Restoring(0, BACKUP.Writes()[1..]), false, map[Io := 0])]
            && s.threads == map[0 := Thread(0, Replace(Io, [Close]), Returned(true, None))]
            && s.disk.log == [Commit(0, 0, Replace(Io, [Close]))]
            && s.locks == Locks(map[], None, {}) && s.names == Names({0}, {0})
  {
    var s0 := Initial(map[]);
    var s1 := Next(s0, Boot(0, {}));
    var s2 := Next(s1, StartRestore(0, 0, BACKUP, true));
    assert s2.procs == map[0 := Proc(true, {}, Restoring(0, BACKUP.Writes()[1..]), false, map[])];
    assert s2.threads == map[0 := Thread(0, Replace(Io, [Close]), Calling)];
    assert Ready(s2, 0);
    states, events := [s0], [];
    states, events := Push(map[], states, events, Boot(0, {}), s1);
    states, events := Push(map[], states, events, StartRestore(0, 0, BACKUP, true), s2);
    hide Run;
    states, events := ReplaceRun(map[], states, events, 0);
  }

  /** The restore goes on with its next file. */
  lemma RestoreNext(states: seq<State>, events: seq<Event>, u: Tid, t: Tid)
      returns (states': seq<State>, events': seq<Event>)
    requires Run(map[], states, events)
    requires var s := states[|events|];
             && 0 in s.procs && s.procs[0].main.Restoring? && s.procs[0].main.t == u && s.procs[0].main.rest != []
             && s.procs[0].main.rest[0].Replace? && u in s.threads && s.threads[u].pc == Returned(true, None)
             && t !in s.names.calls && s.locks == Locks(map[], None, {})
    ensures var s := states[|events|];
            var op, x := s.procs[0].main.rest[0], s.procs[0];
            Run(map[], states', events')
            && states'[|events'|]
            == State(Disk(s.disk.files[op.path := op.text], s.disk.temps - {Suffixed(op.path)},
                          s.disk.log + [Commit(t, 0, op)]),
                     s.locks, s.threads[t := Thread(0, op, Returned(true, None))],
                     s.procs[0 := x.(main := Restoring(t, x.main.rest[1..]), restarting := true,
                                     replaced := x.replaced[op.path := |s.disk.log|])],
                     s.names.(calls := s.names.calls + {t}))
  {
    var s := states[|events|];
    var s1 := Next(s, Resume(0, t));
    assert Ready(s1, t);
    states', events' := Push(map[], states, events, Resume(0, t), s1);
    hide Run, Ready;
    states', events' := ReplaceRun(map[], states', events', t);
    var op := s.procs[0].main.rest[0];
    var v := Written(s1, t, op.text);
    assert v.threads == s.threads[t := Thread(0, op, Returned(true, None))];
  }

  lemma RestoreEnds(s: State)
    requires 0 in s.procs && s.procs[0].main == Restoring(2, []) && 2 in s.threads && 3 !in s.names.calls
    requires s.threads[2].pc == Returned(true, None)
    ensures Enabled(s, Resume(0, 3))
    ensures Next(s, Resume(0, 3)) == s.(procs := s.procs[0 := s.procs[0].(main := Idle, restarting := true)])
  {
  }

  /** Process 0 has restored all three and waits for its restart. */
  lemma Restored() returns (states: seq<State>, events: seq<Event>)
    ensures Run(map[], states, events)
    ensures var s := states[|events|];
            && s.procs == map[0 := Proc(true, {}, Idle, true, map[Io := 0, Rules := 1, Local := 2])]
            && s.disk.log == [Commit(0, 0, Replace(Io, [Close])), Commit(1, 0, Replace(Rules, [Open])),
                              Commit(2, 0, Replace(Local, [Open, Close]))]
            && Lookup(s.disk.files, Local) == Some([Open, Close])
            && s.locks == Locks(map[], None, {}) && s.names == Names({0, 1, 2}, {0})
  {
    var rest := BACKUP.Writes();
    assert rest[1..] == [Replace(Rules, [Open]), Replace(Local, [Open, Close])];
    assert rest[1..][1..] == [Replace(Local, [Open, Close])] && rest[1..][1..][1..] == [];
    hide Plan.Writes;
    states, events := RestoredOne();
    hide Run;
    states, events := RestoreNext(states, events, 0, 1);
    states, events := RestoreNext(states, events, 1, 2);
    var s := states[|events|];
    RestoreEnds(s);
    hide Next, Enabled;
    states, events := Push(map[], states, events, Resume(0, 3), Next(s, Resume(0, 3)));
  }

  /** A process that restores and waits for its restart, and another one that has io.xml loaded and saves it: what
      was restored is gone, although the process that restored it is frozen. */
  lemma RestoredIsOverwritten() returns (states: seq<State>, events: seq<Event>)
    ensures Run(map[], states, events)
    ensures var s := states[|events|];
            && Frozen(s, 0) && Io in s.procs[0].replaced && s.procs[0].replaced[Io] == 0
            && |s.disk.log| == 4 && s.disk.log[0] == Commit(0, 0, Replace(Io, [Close]))
            && Lookup(s.disk.files, Io) == Some([Open])
  {
    states, events := Restored();
    var s := states[|events|];
    var s1 := Next(s, Boot(1, {Io}));
    var s2 := Next(s1, StartSave(1, 3, Io, [Open]));
    assert Leads(s, Boot(1, {Io}), s1) && Leads(s1, StartSave(1, 3, Io, [Open]), s2);
    assert Ready(s2, 3);
    states, events := Push(map[], states, events, Boot(1, {Io}), s1);
    states, events := Push(map[], states, events, StartSave(1, 3, Io, [Open]), s2);
    assert s2.procs[0] == s.procs[0] && s2.procs[1].main.Saving?;
    assert Written(s2, 3, [Open]).disk.log[0] == s.disk.log[0];
    hide Run;
    states, events := ReplaceRun(map[], states, events, 3);
  }

  /** Or one that sets an option: it adds to the restored options. */
  lemma RestoredIsUpdated(b: Batch) returns (states: seq<State>, events: seq<Event>)
    requires b.toSet != []
    ensures Run(map[], states, events)
    ensures var s := states[|events|];
            && Frozen(s, 0) && Local in s.procs[0].replaced && s.procs[0].replaced[Local] == 2
            && |s.disk.log| == 4 && s.disk.log[2] == Commit(2, 0, Replace(Local, Print([])))
            && Lookup(s.disk.files, Local) == Some(Print(Apply([], b)))
  {
    states, events := Restored();
    var s := states[|events|];
    assert Print([]) == [Open, Close] && Parse([Open, Close]) == Some([]) by {
      assert [Open, Close][1..] == [Close];
    }
    var s1 := Next(s, Boot(1, {}));
    var s2 := Next(s1, Call(1, 3, Update(b)));
    assert Leads(s, Boot(1, {}), s1) && Leads(s1, Call(1, 3, Update(b)), s2);
    assert !Done([], b) by {
      assert b.toSet[0] in b.toSet;
    }
    assert Ready(s2, 3) && Changes(s2, 3);
    states, events := Push(map[], states, events, Boot(1, {}), s1);
    states, events := Push(map[], states, events, Call(1, 3, Update(b)), s2);
    assert s2.procs[0] == s.procs[0] && s2.procs[1].main.Idle?;
    hide Run, Parse, Print, Apply, Done;
    var text := Effect(Some(s2.disk.files[Local]), Update(b)).value;
    assert Written(s2, 3, text).disk.log[2] == s.disk.log[2];
    states, events := UpdateRun(map[], states, events, 3);
  }

  lemma FrozenStep(s: State, first: map<Path, Text>, e: Event, p: Pid)
    requires Inv(s, first) && Enabled(s, e) && Frozen(s, p) && p in Next(s, e).procs
    ensures Next(s, e).procs[p] == s.procs[p]
  {
    hide MutexOk, FlockOk, PrintsOk, LogOk, AnswersOk, ProcsOk, ThreadsOk, KeepOk, SavedOk, Parse, Print, Apply, Done;
  }

  lemma GoneStep(s: State, first: map<Path, Text>, e: Event, p: Pid)
    requires Inv(s, first) && Enabled(s, e) && p in s.names.boots && p !in s.procs
    ensures p in Next(s, e).names.boots && p !in Next(s, e).procs
  {
    hide MutexOk, FlockOk, PrintsOk, LogOk, AnswersOk, ProcsOk, ThreadsOk, KeepOk, SavedOk, Parse, Print, Apply, Done;
  }

  lemma {:induction false} GoneForGood(first: map<Path, Text>, states: seq<State>, events: seq<Event>, i: nat, j: nat,
                                       p: Pid)
    requires Run(first, states, events) && i <= j <= |events| && p in states[i].names.boots && p !in states[i].procs
    ensures p in states[j].names.boots && p !in states[j].procs
    decreases j
  {
    if i < j {
      hide Inv, Next, Enabled, Leads, StepAt;
      GoneForGood(first, states, events, i, j - 1, p);
      RunInv(first, states, events, j - 1);
      RunStep(first, states, events, j - 1);
      GoneStep(states[j - 1], first, events[j - 1], p);
    }
  }

  /** Once a restore ended with the process frozen, the process stays so until it restarts: it replaces
      nothing more, and forgets nothing of what it replaced. */
  lemma {:induction false} FrozenUntilRestart(first: map<Path, Text>, states: seq<State>, events: seq<Event>,
                                              i: nat, j: nat, p: Pid)
    requires Run(first, states, events) && i <= j <= |events| && Frozen(states[i], p) && p in states[j].procs
    ensures states[j].procs[p] == states[i].procs[p]
    decreases j
  {
    if i < j {
      hide Inv, Next, Enabled, Frozen, Leads, StepAt;
      RunInv(first, states, events, j - 1);
      if p !in states[j - 1].procs {
        KnownProcess(first, states, events, i, p);
        GoneLater(first, states, events, i, j - 1, p);
        GoneForGood(first, states, events, j - 1, j, p);
      }
      FrozenUntilRestart(first, states, events, i, j - 1, p);
      RunStep(first, states, events, j - 1);
      assert Frozen(states[j - 1], p) by {
        SameFrozen(states[i], states[j - 1], p);
      }
      FrozenStep(states[j - 1], first, events[j - 1], p);
    }
  }

  lemma SameFrozen(s: State, t: State, p: Pid)
    requires Frozen(s, p) && p in t.procs && t.procs[p] == s.procs[p]
    ensures Frozen(t, p)
  {
  }

  lemma KnownProcess(first: map<Path, Text>, states: seq<State>, events: seq<Event>, i: nat, p: Pid)
    requires Run(first, states, events) && i <= |events| && Frozen(states[i], p)
    ensures p in states[i].names.boots
  {
    RunInv(first, states, events, i);
  }

  lemma {:induction false} GoneLater(first: map<Path, Text>, states: seq<State>, events: seq<Event>, i: nat, j: nat,
                                     p: Pid)
    requires Run(first, states, events) && i <= j <= |events| && p in states[i].names.boots
    ensures p in states[j].names.boots
    decreases j
  {
    if i < j {
      GoneLater(first, states, events, i, j - 1, p);
      RunStep(first, states, events, j - 1);
      hide Parse, Print, Apply, Done;
    }
  }

  /** Frozen, the process changes no file any more: its saves and restores are refused before they start, its
      option writers once they have the locks. */
  lemma FrozenRefuses(s: State, first: map<Path, Text>, p: Pid, e: Event)
    requires Inv(s, first) && Frozen(s, p) && Enabled(s, e)
    ensures (e.StartSave? || e.StartRestore?) && e.pid == p ==> Next(s, e) == s
    ensures e.CheckFrozen? && s.threads[e.t].pid == p ==> Next(s, e).threads[e.t].pc == Leaving(false, None)
    ensures e.Load? || e.Rename? ==> s.threads[e.t].pid != p
  {
    hide MutexOk, FlockOk, LogOk, AnswersOk, KeepOk, SavedOk, NamesOk, Parse, Print, Apply, Done, Effect;
    assert ProcOk(s.procs[p], p, s.threads);
    if e.Rename? || e.Load? {
      assert ThreadOk(s.threads[e.t], e.t, s.procs);
      assert PrintOk(s.threads[e.t], e.t, s.disk.files, s.disk.temps);
    }
  }

  /** A file that a process could not load is never written by its saves: whoever commits it is its restore, which
      writes it down at once, and nothing else of the process replaces it afterwards. */
  lemma UnloadedIsNeverSaved(first: map<Path, Text>, states: seq<State>, events: seq<Event>, i: nat, k: nat)
    requires Run(first, states, events) && i <= |events|
    requires var log := states[i].disk.log;
             k < |log| && log[k].op.Replace? && log[k].pid in states[i].procs
             && log[k].op.path !in states[i].procs[log[k].pid].loaded
    ensures var c := states[i].disk.log[k];
            var replaced := states[i].procs[c.pid].replaced;
            c.op.path in replaced && k <= replaced[c.op.path]
            && (k == |states[i].disk.log| - 1 ==> replaced[c.op.path] == k)
  {
    RunInv(first, states, events, i);
    var c := states[i].disk.log[k];
    hide Run, MutexOk, FlockOk, PrintsOk, LogOk, AnswersOk, ProcsOk, ThreadsOk, NamesOk;
    var replaced := states[i].procs[c.pid].replaced;
    assert LastWord(states[i].disk.log, c.pid, c.op.path, replaced[c.op.path]);
  }
}
