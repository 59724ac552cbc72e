/**
 lab9/ex1: the same register under a reader-writer lock, as an interleaved step system.

 Any number of calls may contend; only those holding the lock have a state of their own. A read
 section remembers how many versions there were when it took the lock.
 */
module RwlockCell {
  import opened Options
  import opened SharedRegister

  datatype Reader =
    | Locked(since: nat)
    | Holding(since: nat, cell: nat, seen: seq<Option<nat>>)
    | SawNull(since: nat)

  /** The holder of the write lock: a write, or the module exit. */
  datatype Writer =
    | Entered(arg: nat)
    | Allocated(cell: nat)
    | Captured(cell: nat, prior: Option<nat>)
    | Assigned(prior: Option<nat>)
    | Done
    | Exiting
    | ExitFreed

  datatype State = State(
    current: Option<nat>,
    heap: map<nat, nat>,
    freed: multiset<nat>,
    nextCell: nat,
    readers: map<nat, Reader>,
    writer: Option<Writer>,
    exited: bool,
    history: History)

  datatype Step =
    | ReadLock(r: nat)
    | LoadPointer(r: nat)
    | ReadCell(r: nat)
    | ReadUnlock(r: nat)
    | WriteLock(arg: nat)
    | Allocate
    | Capture
    | Assign
    | FreePrior
    | ExitLock
    | ExitFree
    | ExitClear
    | WriteUnlock

  const INIT := State(Some(0), map[0 := 0], multiset{}, 1, map[], None, false, [Some(0)])

  predicate Enabled(s: State, l: Step) {
    match l
    case ReadLock(r) => r !in s.readers && s.writer.None?
    case LoadPointer(r) => r in s.readers && s.readers[r].Locked?
    case ReadCell(r) => r in s.readers && s.readers[r].Holding? && |s.readers[r].seen| < 2
    case ReadUnlock(r) =>
      r in s.readers && (s.readers[r].SawNull? || (s.readers[r].Holding? && |s.readers[r].seen| == 2))
    case WriteLock(_) => s.writer.None? && s.readers == map[]
    case Allocate => s.writer.Some? && s.writer.value.Entered?
    case Capture => s.writer.Some? && s.writer.value.Allocated?
    case Assign => s.writer.Some? && s.writer.value.Captured?
    case FreePrior => s.writer.Some? && s.writer.value.Assigned?
    case ExitLock => s.writer.None? && s.readers == map[]
    case ExitFree => s.writer.Some? && s.writer.value.Exiting?
    case ExitClear => s.writer.Some? && s.writer.value.ExitFreed?
    case WriteUnlock => s.writer.Some? && s.writer.value.Done?
  }

  function Lookup(heap: map<nat, nat>, c: nat): Option<nat> {
    if c in heap then Some(heap[c]) else None
  }

  function Free(s: State, c: Option<nat>): State {
    if c.None? then s else s.(heap := s.heap - {c.value}, freed := s.freed + multiset{c.value})
  }

  function Apply(s: State, l: Step): State
    requires Enabled(s, l)
  {
    match l
    case ReadLock(r) => s.(readers := s.readers[r := Locked(|s.history|)])
    case LoadPointer(r) =>
      var since := s.readers[r].since;
      s.(readers := s.readers[r := if s.current.Some? then Holding(since, s.current.value, []) else SawNull(since)])
    case ReadCell(r) =>
      var h := s.readers[r];
      s.(readers := s.readers[r := h.(seen := h.seen + [Lookup(s.heap, h.cell)])])
    case ReadUnlock(r) => s.(readers := s.readers - {r})
    case WriteLock(arg) => s.(writer := Some(Entered(arg)))
    case Allocate =>
      s.(heap := s.heap[s.nextCell := s.writer.value.arg], nextCell := s.nextCell + 1,
         writer := Some(Allocated(s.nextCell)))
    case Capture => s.(writer := Some(Captured(s.writer.value.cell, s.current)))
    case Assign =>
      var w := s.writer.value;
      s.(current := Some(w.cell), history := s.history + [Lookup(s.heap, w.cell)], writer := Some(Assigned(w.prior)))
    case FreePrior => Free(s, s.writer.value.prior).(writer := Some(Done))
    case ExitLock => s.(writer := Some(Exiting))
    case ExitFree =>
      if s.current.Some? then Free(s, s.current).(writer := Some(ExitFreed))
      else s.(exited := true, writer := Some(Done))
    case ExitClear => s.(current := None, exited := true, history := s.history + [None], writer := Some(Done))
    case WriteUnlock => s.(writer := None)
  }

  predicate Legal(s: State, run: seq<Step>)
    decreases |run|
  {
    run == [] || (Enabled(s, run[0]) && Legal(Apply(s, run[0]), run[1..]))
  }

  function After(s: State, run: seq<Step>): State
    requires Legal(s, run)
    decreases |run|
  {
    if run == [] then s else After(Apply(s, run[0]), run[1..])
  }

  function Cells(c: Option<nat>): set<nat> {
    if c.Some? then {c.value} else {}
  }

  /** Exactly which cells are live at each point of the exclusive section. */
  ghost predicate LiveCells(s: State) {
    match s.writer
    case None => s.heap.Keys == Cells(s.current)
    case Some(Entered(_)) => s.heap.Keys == Cells(s.current)
    case Some(Allocated(n)) => s.heap.Keys == Cells(s.current) + {n} && n !in Cells(s.current)
    case Some(Captured(n, o)) => s.heap.Keys == Cells(s.current) + {n} && n !in Cells(s.current) && o == s.current
    case Some(Assigned(o)) =>
      s.current.Some? && s.heap.Keys == Cells(s.current) + Cells(o) && s.current.value !in Cells(o)
    case Some(Done) => s.heap.Keys == Cells(s.current)
    case Some(Exiting) => s.heap.Keys == Cells(s.current)
    case Some(ExitFreed) => s.heap == map[]
  }

  ghost predicate Ledger(s: State) {
    && (forall c :: c in s.heap ==> c < s.nextCell)
    && (forall c: nat :: s.freed[c] == if c < s.nextCell && c !in s.heap then 1 else 0)
    && (s.current.Some? ==> s.current.value < s.nextCell)
  }

  function Value(s: State): Option<nat> {
    if s.current.Some? then Lookup(s.heap, s.current.value) else None
  }

  /** The latest version is the published value, except in the instant between free and clear at exit. */
  ghost predicate Versioned(s: State) {
    && |s.history| > 0
    && (s.writer != Some(ExitFreed) ==> s.history[|s.history| - 1] == Value(s))
    && (!s.exited ==> s.current.Some?)
  }

  /** A section started at the latest version and everything it saw is that version's value. */
  predicate Exact(h: History, r: Reader) {
    && r.since == |h| && |h| > 0
    && (r.Holding? ==> forall v :: v in r.seen ==> v == h[|h| - 1])
    && (r.SawNull? ==> h[|h| - 1] == None)
  }

  ghost predicate Sections(s: State) {
    && (s.writer.Some? ==> s.readers == map[])
    && (forall r :: r in s.readers ==> Exact(s.history, s.readers[r]))
    && (forall r :: r in s.readers && s.readers[r].Holding? ==> s.current == Some(s.readers[r].cell))
  }

  ghost predicate Inv(s: State) {
    LiveCells(s) && Ledger(s) && Versioned(s) && Sections(s)
  }

  lemma InvKept(s: State, l: Step)
    requires Inv(s) && Enabled(s, l)
    ensures Inv(Apply(s, l))
  {
    LiveCellsKept(s, l);
    LedgerKept(s, l);
    VersionedKept(s, l);
    SectionsKept(s, l);
  }

  lemma LiveCellsKept(s: State, l: Step)
    requires LiveCells(s) && Ledger(s) && Enabled(s, l)
    ensures LiveCells(Apply(s, l))
  {}

  lemma LedgerKept(s: State, l: Step)
    requires LiveCells(s) && Ledger(s) && Enabled(s, l)
    ensures Ledger(Apply(s, l))
  {}

  lemma VersionedKept(s: State, l: Step)
    requires LiveCells(s) && Ledger(s) && Versioned(s) && Enabled(s, l)
    ensures Versioned(Apply(s, l))
  {}

  lemma SectionsKept(s: State, l: Step)
    requires LiveCells(s) && Versioned(s) && Sections(s) && Enabled(s, l)
    ensures Sections(Apply(s, l))
  {}

  lemma {:induction false} InvAlong(s: State, run: seq<Step>)
    requires Inv(s) && Legal(s, run)
    ensures Inv(After(s, run))
    decreases |run|
  {
    if run != [] {
      InvKept(s, run[0]);
      InvAlong(Apply(s, run[0]), run[1..]);
    }
  }

  /**
   With unrestricted readers and writers: every section runs within one version and sees its
   value, no cell is freed twice, the pointer is valid outside the exclusive section, and then
   the published cell is the only live one.
   */
  lemma ReadersAreExact(run: seq<Step>)
    requires Legal(INIT, run)
    ensures var s := After(INIT, run);
      && (forall r :: r in s.readers ==> s.writer.None? && Exact(s.history, s.readers[r]))
      && (forall c :: s.freed[c] <= 1)
      && (!s.exited ==> s.current.Some? && (s.writer != Some(ExitFreed) ==> s.current.value in s.heap))
      && (s.writer.None? ==> s.heap.Keys == Cells(s.current))
  {
    InvAlong(INIT, run);
  }

  function Observe(s: State, l: Step): Event
    requires Enabled(s, l)
  {
    match l
    case ReadLock(r) => Began(r)
    case LoadPointer(r) => if s.current.None? then Saw(r, Before(s.readers[r].since), None) else Silent
    case ReadCell(r) => Saw(r, Before(s.readers[r].since), Lookup(s.heap, s.readers[r].cell))
    case Assign => if s.writer.value.cell in s.heap then Wrote(s.heap[s.writer.value.cell]) else Cleared
    case ExitClear => Cleared
    case _ => Silent
  }

  /** The latest version when a section with this many versions behind it took the lock. */
  function Before(since: nat): nat { if since == 0 then 0 else since - 1 }

  function Trace(s: State, run: seq<Step>): seq<Event>
    requires Legal(s, run)
    decreases |run|
  {
    if run == [] then [] else [Observe(s, run[0])] + Trace(Apply(s, run[0]), run[1..])
  }

  ghost predicate Linked(s: State, g: Register) {
    && g.history == s.history
    && forall r :: r in s.readers ==> r in g.sections && Within(g.sections[r], Before(s.readers[r].since))
  }

  lemma ObservationAllowed(s: State, g: Register, l: Step)
    requires Inv(s) && Linked(s, g) && Enabled(s, l)
    ensures Allowed(g, Observe(s, l), 0)
    ensures Linked(Apply(s, l), Record(g, Observe(s, l)))
  {
    assert Observe(s, l).Saw? ==> s.history[|s.history| - 1] == Observe(s, l).seen;
  }

  lemma {:induction false} TraceAccepted(s: State, g: Register, run: seq<Step>)
    requires Inv(s) && Linked(s, g) && Legal(s, run)
    ensures Accepts(g, Trace(s, run), 0)
    decreases |run|
  {
    if run != [] {
      ObservationAllowed(s, g, run[0]);
      InvKept(s, run[0]);
      TraceAccepted(Apply(s, run[0]), Record(g, Observe(s, run[0])), run[1..]);
    }
  }

  /** The driver refines the same register as the RCU one, with staleness 0 and no hypothesis on writers. */
  lemma RefinesRegister(run: seq<Step>)
    requires Legal(INIT, run)
    ensures Accepts(START, Trace(INIT, run), 0)
  {
    TraceAccepted(INIT, START, run);
  }

  // ---------- What is published is what the write was called with ----------

  /** The argument of the latest write. */
  function Arg(arg: nat, run: seq<Step>): nat
    decreases |run|
  {
    if run == [] then arg else Arg(NextArg(arg, run[0]), run[1..])
  }

  function NextArg(arg: nat, l: Step): nat {
    if l.WriteLock? then l.arg else arg
  }

  /** Until it publishes, the writer has its argument or a live cell that holds it; then the pointer shows it. */
  ghost predicate ArgKept(s: State, arg: nat) {
    match s.writer
    case Some(Entered(a)) => a == arg
    case Some(Allocated(n)) => Lookup(s.heap, n) == Some(arg)
    case Some(Captured(n, _)) => Lookup(s.heap, n) == Some(arg)
    case Some(ExitFreed) => true
    case _ => s.current.Some? ==> Value(s) == Some(arg)
  }

  lemma ArgStep(s: State, l: Step, arg: nat)
    requires Inv(s) && ArgKept(s, arg) && Enabled(s, l)
    ensures ArgKept(Apply(s, l), NextArg(arg, l))
  {}

  lemma {:induction false} ArgAlong(s: State, run: seq<Step>, arg: nat)
    requires Inv(s) && ArgKept(s, arg) && Legal(s, run)
    ensures Inv(After(s, run)) && ArgKept(After(s, run), Arg(arg, run))
    decreases |run|
  {
    if run != [] {
      InvKept(s, run[0]);
      ArgStep(s, run[0], arg);
      ArgAlong(Apply(s, run[0]), run[1..], NextArg(arg, run[0]));
    }
  }

  /** The assignment makes the argument of the write the latest version, in a live cell. */
  lemma PublishesTheArgument(run: seq<Step>)
    requires Legal(INIT, run) && Enabled(After(INIT, run), Assign)
    ensures var s, t := After(INIT, run), Apply(After(INIT, run), Assign);
      t.history == s.history + [Some(Arg(0, run))] && Value(t) == Some(Arg(0, run))
  {
    ArgAlong(INIT, run, 0);
  }

  /** Every read gives, and shows to the observer, the argument of the latest write, or 0 before any. */
  lemma ReadsTheLatestArgument(run: seq<Step>, r: nat)
    requires Legal(INIT, run) && Enabled(After(INIT, run), ReadCell(r))
    ensures var s, t := After(INIT, run), Apply(After(INIT, run), ReadCell(r));
      && t.readers[r].seen == s.readers[r].seen + [Some(Arg(0, run))]
      && Observe(s, ReadCell(r)) == Saw(r, Latest(s.history), Some(Arg(0, run)))
  {
    ArgAlong(INIT, run, 0);
  }

  // ---------- Nothing gets stuck ----------

  lemma {:induction false} Extend(s: State, run: seq<Step>, l: Step)
    requires Legal(s, run) && Enabled(After(s, run), l)
    ensures Legal(s, run + [l]) && After(s, run + [l]) == Apply(After(s, run), l)
    decreases |run|
  {
    if run == [] {
      assert [l][1..] == [];
    } else {
      Extend(Apply(s, run[0]), run[1..], l);
      assert (run + [l])[1..] == run[1..] + [l];
    }
  }

  /** Whoever has the lock goes on; nobody takes it. */
  predicate Winding(run: seq<Step>) {
    forall i :: 0 <= i < |run| ==> !run[i].ReadLock? && !run[i].WriteLock? && !run[i].ExitLock?
  }

  lemma Wind(s: State, run: seq<Step>, l: Step) returns (more: seq<Step>)
    requires Legal(s, run) && Winding(run) && Enabled(After(s, run), l) && Winding([l])
    ensures Legal(s, more) && Winding(more) && After(s, more) == Apply(After(s, run), l)
  {
    Extend(s, run, l);
    more := run + [l];
    assert [l][0] == l;
  }

  function ReaderLeft(c: Reader): nat {
    if c.Locked? then 3 else if c.Holding? && |c.seen| < 2 then 2 - |c.seen| else 0
  }

  ghost predicate ShortReads(s: State) {
    forall r :: r in s.readers && s.readers[r].Holding? ==> |s.readers[r].seen| <= 2
  }

  lemma {:induction false} ReadsStayShort(s: State, run: seq<Step>)
    requires ShortReads(s) && Legal(s, run)
    ensures ShortReads(After(s, run))
    decreases |run|
  {
    if run != [] { ReadsStayShort(Apply(s, run[0]), run[1..]); }
  }

  lemma {:induction false} FinishReader(s: State, run: seq<Step>, r: nat) returns (more: seq<Step>)
    requires Legal(s, run) && Winding(run) && ShortReads(After(s, run)) && r in After(s, run).readers
    ensures Legal(s, more) && Winding(more)
    ensures After(s, more) == After(s, run).(readers := After(s, run).readers - {r})
    decreases ReaderLeft(After(s, run).readers[r])
  {
    var t := After(s, run);
    if Enabled(t, ReadUnlock(r)) {
      more := Wind(s, run, ReadUnlock(r));
    } else {
      more := Wind(s, run, if t.readers[r].Locked? then LoadPointer(r) else ReadCell(r));
      more := FinishReader(s, more, r);
      assert After(s, more).readers == t.readers - {r};
    }
  }

  lemma {:induction false} FinishReaders(s: State, run: seq<Step>) returns (more: seq<Step>)
    requires Legal(s, run) && Winding(run) && ShortReads(After(s, run))
    ensures Legal(s, more) && Winding(more) && After(s, more) == After(s, run).(readers := map[])
    decreases |After(s, run).readers|
  {
    var t := After(s, run);
    more := run;
    if t.readers != map[] {
      var r :| r in t.readers;
      more := FinishReader(s, run, r);
      assert (t.readers - {r}).Keys == t.readers.Keys - {r} && |(t.readers - {r}).Keys| < |t.readers.Keys|;
      more := FinishReaders(s, more);
    }
  }

  function WriterLeft(c: Writer): nat {
    match c
    case Entered(_) => 5
    case Allocated(_) => 4
    case Captured(_, _) => 3
    case Assigned(_) => 2
    case Exiting => 2
    case ExitFreed => 1
    case Done => 0
  }

  function WriterNext(c: Writer): Step {
    match c
    case Entered(_) => Allocate
    case Allocated(_) => Capture
    case Captured(_, _) => Assign
    case Assigned(_) => FreePrior
    case Exiting => ExitFree
    case ExitFreed => ExitClear
    case Done => WriteUnlock
  }

  /** The versions that the holder of the write lock has still to publish. */
  function Outstanding(s: State, arg: nat): History {
    match s.writer
    case Some(Entered(_)) => [Some(arg)]
    case Some(Allocated(_)) => [Some(arg)]
    case Some(Captured(_, _)) => [Some(arg)]
    case Some(Exiting) => if s.current.Some? then [None] else []
    case Some(ExitFreed) => [None]
    case _ => []
  }

  lemma WriterAdvances(s: State, arg: nat)
    requires Inv(s) && ArgKept(s, arg) && s.writer.Some?
    ensures var l := WriterNext(s.writer.value);
      Enabled(s, l) && Winding([l]) &&
      var t := Apply(s, l);
      && Inv(t) && ArgKept(t, arg) && t.readers == s.readers
      && t.history + Outstanding(t, arg) == s.history + Outstanding(s, arg)
      && (t.writer.Some? ==> WriterLeft(t.writer.value) < WriterLeft(s.writer.value))
  {
    var l := WriterNext(s.writer.value);
    InvKept(s, l);
    ArgStep(s, l, arg);
  }

  lemma {:induction false} FinishWriter(s: State, run: seq<Step>, arg: nat) returns (more: seq<Step>)
    requires Legal(s, run) && Winding(run) && Inv(After(s, run)) && ArgKept(After(s, run), arg)
    ensures Legal(s, more) && Winding(more)
    ensures var t, u := After(s, run), After(s, more);
      u.writer.None? && u.readers == t.readers && u.history == t.history + Outstanding(t, arg)
    decreases if After(s, run).writer.Some? then 1 + WriterLeft(After(s, run).writer.value) else 0
  {
    var t := After(s, run);
    more := run;
    if t.writer.Some? {
      WriterAdvances(t, arg);
      more := Wind(s, run, WriterNext(t.writer.value));
      more := FinishWriter(s, more, arg);
    }
  }

  /**
   From every reachable state whoever has the lock can finish and leave it free, and a write under
   way has then published its argument, an exit NULL.
   */
  lemma CanAlwaysUnlock(run: seq<Step>) returns (more: seq<Step>)
    requires Legal(INIT, run)
    ensures var s := After(INIT, run);
      Legal(s, more) && Winding(more) &&
      var t := After(s, more);
      t.readers == map[] && t.writer.None? && t.history == s.history + Outstanding(s, Arg(0, run))
  {
    var s := After(INIT, run);
    ReadsStayShort(INIT, run);
    ArgAlong(INIT, run, 0);
    more := FinishReaders(s, []);
    more := FinishWriter(s, more, Arg(0, run));
  }

  /** With the lock free a write can begin, and a section after it, beside another one, reads its argument twice. */
  lemma WriteThenRead(s: State, arg: nat, r: nat, q: nat) returns (more: seq<Step>)
    requires Inv(s) && s.writer.None? && s.readers == map[] && q != r
    ensures Legal(s, more)
    ensures var t := After(s, more);
      r in t.readers && t.readers[r].Holding? && t.readers[r].seen == [Some(arg), Some(arg)] && q in t.readers
  {
    Extend(s, [], WriteLock(arg));
    var t := Apply(s, WriteLock(arg));
    InvKept(s, WriteLock(arg));
    var write := FinishWriter(t, [], arg);
    InvAlong(t, write);
    ArgStays(t, write, arg);
    var read := ReadTwice(After(t, write), arg, r, q);
    more := Joined(t, write, read);
    more := Joined(s, [] + [WriteLock(arg)], more);
  }

  lemma {:induction false} ArgStays(s: State, run: seq<Step>, arg: nat)
    requires Inv(s) && ArgKept(s, arg) && Legal(s, run) && Winding(run)
    ensures ArgKept(After(s, run), arg)
    decreases |run|
  {
    if run != [] {
      InvKept(s, run[0]);
      ArgStep(s, run[0], arg);
      assert !run[0].WriteLock?;
      ArgStays(Apply(s, run[0]), run[1..], arg);
    }
  }

  lemma ReadTwice(s: State, arg: nat, r: nat, q: nat) returns (more: seq<Step>)
    requires s.writer.None? && s.readers == map[] && q != r && s.current.Some? && Value(s) == Some(arg)
    ensures Legal(s, more)
    ensures var t := After(s, more);
      r in t.readers && t.readers[r].Holding? && t.readers[r].seen == [Some(arg), Some(arg)] && q in t.readers
  {
    Extend(s, [], ReadLock(q));
    more := [] + [ReadLock(q)];
    Extend(s, more, ReadLock(r));
    more := more + [ReadLock(r)];
    Extend(s, more, LoadPointer(r));
    more := more + [LoadPointer(r)];
    Extend(s, more, ReadCell(r));
    more := more + [ReadCell(r)];
    Extend(s, more, ReadCell(r));
    more := more + [ReadCell(r)];
  }

  lemma {:induction false} Joined(s: State, run: seq<Step>, rest: seq<Step>) returns (more: seq<Step>)
    requires Legal(s, run) && Legal(After(s, run), rest)
    ensures Legal(s, more) && After(s, more) == After(After(s, run), rest)
    decreases |rest|
  {
    more := run;
    if rest != [] {
      Extend(s, run, rest[0]);
      more := Joined(s, run + [rest[0]], rest[1..]);
    }
  }

  /** An exit clears the pointer, and frees the cell if there is one; nothing stays live. */
  lemma ExitClears(s: State) returns (more: seq<Step>)
    requires Inv(s) && s.writer.None? && s.readers == map[]
    ensures Legal(s, more)
    ensures var t := After(s, more);
      && t.current.None? && t.heap == map[] && t.exited && t.writer.None?
      && forall c :: 0 <= c < t.nextCell ==> t.freed[c] == 1
  {
    Extend(s, [], ExitLock);
    more := [] + [ExitLock];
    Extend(s, more, ExitFree);
    more := more + [ExitFree];
    if s.current.Some? {
      Extend(s, more, ExitClear);
      more := more + [ExitClear];
    }
    Extend(s, more, WriteUnlock);
    more := more + [WriteUnlock];
    InvAlong(s, more);
    assert After(s, more).heap.Keys == {};
  }

  // ---------- Every call runs its statements in the order of the source ----------

  /** The steps under the write lock since it was last taken. */
  function Tenure(held: seq<Step>, run: seq<Step>): seq<Step>
    decreases |run|
  {
    if run == [] then held else Tenure(NextTenure(held, run[0]), run[1..])
  }

  predicate Reads(l: Step) { l.ReadLock? || l.LoadPointer? || l.ReadCell? || l.ReadUnlock? }

  function NextTenure(held: seq<Step>, l: Step): seq<Step> {
    if l.WriteLock? || l.ExitLock? then [l] else if Reads(l) then held else held + [l]
  }

  /** A whole write, or a whole exit with or without a cell to free. */
  predicate Whole(held: seq<Step>) {
    || held == []
    || (held != [] && held[0].WriteLock? && held[1..] == [Allocate, Capture, Assign, FreePrior, WriteUnlock])
    || held == [ExitLock, ExitFree, ExitClear, WriteUnlock]
    || held == [ExitLock, ExitFree, WriteUnlock]
  }

  /** What the holder of the write lock has still to do, completed, makes a whole tenure. */
  ghost predicate OnTrack(s: State, held: seq<Step>) {
    match s.writer
    case None => Whole(held)
    case Some(Entered(_)) => |held| == 1 && held[0].WriteLock?
    case Some(Allocated(_)) => held != [] && held[0].WriteLock? && held[1..] == [Allocate]
    case Some(Captured(_, _)) => held != [] && held[0].WriteLock? && held[1..] == [Allocate, Capture]
    case Some(Assigned(_)) => held != [] && held[0].WriteLock? && held[1..] == [Allocate, Capture, Assign]
    case Some(Exiting) => held == [ExitLock]
    case Some(ExitFreed) => held == [ExitLock, ExitFree]
    case Some(Done) => Whole(held + [WriteUnlock]) && held != []
  }

  lemma OnTrackStep(s: State, l: Step, held: seq<Step>)
    requires OnTrack(s, held) && Enabled(s, l)
    ensures OnTrack(Apply(s, l), NextTenure(held, l))
  {
    if held != [] && !Reads(l) {
      assert (held + [l])[1..] == held[1..] + [l];
      assert (held + [l] + [WriteUnlock])[1..] == held[1..] + [l] + [WriteUnlock];
    }
  }

  lemma {:induction false} OnTrackAlong(s: State, run: seq<Step>, held: seq<Step>)
    requires OnTrack(s, held) && Legal(s, run)
    ensures OnTrack(After(s, run), Tenure(held, run))
    decreases |run|
  {
    if run != [] {
      OnTrackStep(s, run[0], held);
      OnTrackAlong(Apply(s, run[0]), run[1..], NextTenure(held, run[0]));
    }
  }

  /** Whenever the write lock is free, its last holder has run every statement of a write or an exit, in order. */
  lemma TenuresAreWhole(run: seq<Step>)
    requires Legal(INIT, run) && After(INIT, run).writer.None?
    ensures Whole(Tenure([], run))
  {
    OnTrackAlong(INIT, run, []);
  }

  /** The steps of each section since it took the lock. */
  function Trails(trails: map<nat, seq<Step>>, run: seq<Step>): map<nat, seq<Step>>
    decreases |run|
  {
    if run == [] then trails else Trails(NextTrails(trails, run[0]), run[1..])
  }

  function NextTrails(trails: map<nat, seq<Step>>, l: Step): map<nat, seq<Step>> {
    if l.ReadLock? then trails[l.r := [l]]
    else if Reads(l) then trails[l.r := (if l.r in trails then trails[l.r] else []) + [l]]
    else trails
  }

  predicate ReadTrail(r: nat, c: Reader, trail: seq<Step>) {
    match c
    case Locked(_) => trail == [ReadLock(r)]
    case Holding(_, _, seen) =>
      |seen| <= 2 && trail == [ReadLock(r), LoadPointer(r), ReadCell(r), ReadCell(r)][..2 + |seen|]
    case SawNull(_) => trail == [ReadLock(r), LoadPointer(r)]
  }

  ghost predicate ReadsInOrder(s: State, trails: map<nat, seq<Step>>) {
    forall r :: r in s.readers ==> r in trails && ReadTrail(r, s.readers[r], trails[r])
  }

  lemma ReadTrailKept(s: State, l: Step, trails: map<nat, seq<Step>>, r: nat)
    requires ReadsInOrder(s, trails) && Enabled(s, l) && r in Apply(s, l).readers
    ensures r in NextTrails(trails, l) && ReadTrail(r, Apply(s, l).readers[r], NextTrails(trails, l)[r])
  {
    var whole := [ReadLock(r), LoadPointer(r), ReadCell(r), ReadCell(r)];
    assert whole[..2] == [ReadLock(r)] + [LoadPointer(r)];
    assert whole[..3] == whole[..2] + [ReadCell(r)] && whole[..4] == whole[..3] + [ReadCell(r)];
  }

  lemma {:induction false} ReadsInOrderAlong(s: State, run: seq<Step>, trails: map<nat, seq<Step>>)
    requires ReadsInOrder(s, trails) && Legal(s, run)
    ensures ReadsInOrder(After(s, run), Trails(trails, run))
    decreases |run|
  {
    if run != [] {
      var t := Apply(s, run[0]);
      forall r | r in t.readers
        ensures r in NextTrails(trails, run[0]) && ReadTrail(r, t.readers[r], NextTrails(trails, run[0])[r])
      {
        ReadTrailKept(s, run[0], trails, r);
      }
      ReadsInOrderAlong(t, run[1..], NextTrails(trails, run[0]));
    }
  }

  /** A section that leaves has loaded the pointer once and then read twice, or found NULL and read nothing. */
  lemma SectionsRunWhole(run: seq<Step>, r: nat)
    requires Legal(INIT, run) && Enabled(After(INIT, run), ReadUnlock(r))
    ensures var h := Trails(map[], run);
      r in h &&
      (if After(INIT, run).readers[r].SawNull? then h[r] == [ReadLock(r), LoadPointer(r)]
       else h[r] == [ReadLock(r), LoadPointer(r), ReadCell(r), ReadCell(r)])
  {
    ReadsInOrderAlong(INIT, run, map[]);
  }
}
