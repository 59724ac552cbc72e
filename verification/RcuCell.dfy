/**
 lab9/ex2: a cell published through RCU, as an interleaved step system.

 Readers are read-side sections with their own ids, so a grace period can name the sections it
 waits for. Writers are calls of `IOCTL_WRITE`; the driver takes no lock between them, so any
 number may run at once. The exit takes no lock and waits for nobody, and whoever has the device
 open can go on calling. Cells are allocated with fresh ids and freed into a multiset, so a second
 free is visible.
 */
module RcuCell {
  import opened Options
  import opened SharedRegister

  datatype Reader =
    | Entered                                                     // after rcu_read_lock
      // after rcu_dereference: the cell, the version it holds, and the values read so far
    | Holding(cell: nat, version: nat, seen: seq<Option<nat>>)
    | SawNull(version: nat)

  datatype Writer =
    | Called(arg: nat)
    | Fresh(cell: nat)                           // allocated and filled, pointer not yet read
    | Captured(cell: nat, prior: Option<nat>)    // the old pointer read, the new one not yet published
      // published; `replaced` is the version that its own superseded
    | Published(prior: Option<nat>, replaced: nat)
    | Waiting(prior: Option<nat>, replaced: nat, sections: set<nat>)   // inside synchronize_rcu
    | Reclaiming(prior: Option<nat>, replaced: nat)

  datatype Exit =
    | Loaded
    | Freeing(cell: Option<nat>)   // between kfree of this cell and clearing the pointer
    | Returned

  datatype State = State(
    exit: Exit,
    current: Option<nat>,          // my_data
    heap: map<nat, nat>,           // live cells
    freed: multiset<nat>,
    nextCell: nat,
    readers: map<nat, Reader>,     // active sections
    nextSection: nat,
    writers: map<nat, Writer>,
    history: History)

  datatype Step =
    | BeginRead
    | Deref(r: nat)
    | ReadCell(r: nat)
    | EndRead(r: nat)
    | BeginWrite(w: nat, arg: nat)
    | Allocate(w: nat)
    | Capture(w: nat)
    | Publish(w: nat)
    | SyncBegin(w: nat)
    | SyncEnd(w: nat)
    | Reclaim(w: nat)
    | ExitFree                     // cdev_del, then kfree(my_data)
    | ExitClear                    // my_data = NULL

  const INIT := State(Loaded, Some(0), map[0 := 0], multiset{}, 1, map[], 0, map[], [Some(0)])

  predicate Enabled(s: State, l: Step) {
    match l
    case BeginRead => true
    case Deref(r) => r in s.readers && s.readers[r].Entered?
    case ReadCell(r) => r in s.readers && s.readers[r].Holding? && |s.readers[r].seen| < 2
    case EndRead(r) => r in s.readers && (s.readers[r].SawNull? || (s.readers[r].Holding? && |s.readers[r].seen| == 2))
    case BeginWrite(w, _) => w !in s.writers
    case Allocate(w) => w in s.writers && s.writers[w].Called?
    case Capture(w) => w in s.writers && s.writers[w].Fresh?
    case Publish(w) => w in s.writers && s.writers[w].Captured?
    case SyncBegin(w) => w in s.writers && s.writers[w].Published?
    case SyncEnd(w) => w in s.writers && s.writers[w].Waiting? && s.writers[w].sections !! s.readers.Keys
    case Reclaim(w) => w in s.writers && s.writers[w].Reclaiming?
    case ExitFree => s.exit.Loaded?
    case ExitClear => s.exit.Freeing?
  }

  function Lookup(heap: map<nat, nat>, c: nat): Option<nat> {
    if c in heap then Some(heap[c]) else None
  }

  function NextReaders(s: State, l: Step): map<nat, Reader>
    requires Enabled(s, l)
  {
    match l
    case BeginRead => s.readers[s.nextSection := Entered]
    case Deref(r) =>
      var v := Latest(s.history);
      s.readers[r := if s.current.Some? then Holding(s.current.value, v, []) else SawNull(v)]
    case ReadCell(r) =>
      s.readers[r := s.readers[r].(seen := s.readers[r].seen + [Lookup(s.heap, s.readers[r].cell)])]
    case EndRead(r) => s.readers - {r}
    case _ => s.readers
  }

  predicate Writes(l: Step) {
    l.BeginWrite? || l.Allocate? || l.Capture? || l.Publish? || l.SyncBegin? || l.SyncEnd? || l.Reclaim?
  }

  /** Where the stepping writer goes next; `None` when its call returns. */
  function NextWriter(s: State, l: Step): Option<Writer>
    requires Enabled(s, l) && Writes(l)
  {
    match l
    case BeginWrite(_, arg) => Some(Called(arg))
    case Allocate(_) => Some(Fresh(s.nextCell))
    case Capture(w) => Some(Captured(s.writers[w].cell, s.current))
    case Publish(w) => Some(Published(s.writers[w].prior, Latest(s.history)))
    case SyncBegin(w) => Some(Waiting(s.writers[w].prior, s.writers[w].replaced, s.readers.Keys))
    case SyncEnd(w) => Some(Reclaiming(s.writers[w].prior, s.writers[w].replaced))
    case Reclaim(_) => None
  }

  function NextWriters(s: State, l: Step): map<nat, Writer>
    requires Enabled(s, l)
  {
    if !Writes(l) then s.writers
    else match NextWriter(s, l) case Some(c) => s.writers[l.w := c] case None => s.writers - {l.w}
  }

  function NextCurrent(s: State, l: Step): Option<nat>
    requires Enabled(s, l)
  {
    if l.Publish? then Some(s.writers[l.w].cell) else if l.ExitClear? then None else s.current
  }

  /** The cell the step gives to kfree. */
  function FreedBy(s: State, l: Step): Option<nat>
    requires Enabled(s, l)
  {
    if l.Reclaim? then s.writers[l.w].prior else if l.ExitFree? then s.current else None
  }

  /** Freeing a cell that is already gone changes nothing here; the free is counted all the same. */
  function NextHeap(s: State, l: Step): map<nat, nat>
    requires Enabled(s, l)
  {
    var c := FreedBy(s, l);
    if l.Allocate? then s.heap[s.nextCell := s.writers[l.w].arg]
    else if c.Some? then s.heap - {c.value}
    else s.heap
  }

  function NextFreed(s: State, l: Step): multiset<nat>
    requires Enabled(s, l)
  {
    var c := FreedBy(s, l);
    if c.Some? then s.freed + multiset{c.value} else s.freed
  }

  function NextHistory(s: State, l: Step): History
    requires Enabled(s, l)
  {
    if l.Publish? then s.history + [Lookup(s.heap, s.writers[l.w].cell)]
    else if l.ExitClear? then s.history + [None]
    else s.history
  }

  function NextExit(s: State, l: Step): Exit {
    if l.ExitFree? then Freeing(s.current) else if l.ExitClear? then Returned else s.exit
  }

  function Apply(s: State, l: Step): State
    requires Enabled(s, l)
  {
    State(NextExit(s, l), NextCurrent(s, l), NextHeap(s, l), NextFreed(s, l),
          if l.Allocate? then s.nextCell + 1 else s.nextCell,
          NextReaders(s, l), if l.BeginRead? then s.nextSection + 1 else s.nextSection,
          NextWriters(s, l), NextHistory(s, l))
  }

  predicate Legal(s: State, run: seq<Step>)
    decreases |run|
  {
    run == [] || (Enabled(s, run[0]) && Legal(Apply(s, run[0]), run[1..]))
  }

  function After(s: State, run: seq<Step>): State
    requires Legal(s, run)
    decreases |run|
  {
    if run == [] then s else After(Apply(s, run[0]), run[1..])
  }

  // ---------- Hypotheses on runs ----------

  /** The pointer still shows the cell that the exit has freed. */
  predicate Dangling(s: State) {
    s.exit.Freeing? && s.current.Some? && s.exit.cell == s.current
  }

  /** The exit frees a cell that a section holds, or a section takes the pointer before it is cleared. */
  predicate Harms(s: State, l: Step) {
    || (l.ExitFree? && exists r <- s.readers :: s.readers[r].Holding? && s.current == Some(s.readers[r].cell))
    || (l.Deref? && Dangling(s))
  }

  predicate HarmlessExit(s: State, run: seq<Step>)
    requires Legal(s, run)
    decreases |run|
  {
    run == [] || (!Harms(s, run[0]) && HarmlessExit(Apply(s, run[0]), run[1..]))
  }

  /** Some other writer has read the present pointer and not yet published its own. */
  predicate Taken(s: State, others: set<nat>) {
    exists w <- others :: w in s.writers && s.writers[w].Captured? && s.writers[w].prior == s.current
  }

  /**
   The step takes the published cell in order to free it while somebody else has taken it: a
   writer that has read the pointer and not yet replaced it, or the exit between free and clear.
   */
  predicate Overlaps(s: State, l: Step) {
    && s.current.Some?
    && ((l.Capture? && (Dangling(s) || Taken(s, s.writers.Keys - {l.w}))) ||
        (l.ExitFree? && Taken(s, s.writers.Keys)))
  }

  predicate Disjoint(s: State, run: seq<Step>)
    requires Legal(s, run)
    decreases |run|
  {
    run == [] || (!Overlaps(s, run[0]) && Disjoint(Apply(s, run[0]), run[1..]))
  }

  /** At most `k` writes are in progress at any time; 1 means that whole writes are serialised. */
  predicate Limited(s: State, run: seq<Step>, k: nat)
    requires Legal(s, run)
    decreases |run|
  {
    run == [] || ((run[0].BeginWrite? ==> |s.writers| < k) && Limited(Apply(s, run[0]), run[1..], k))
  }

  // ---------- What holds in every run ----------

  /** The cell a writer has allocated and not yet published. */
  function NewCell(w: Writer): Option<nat> {
    if w.Fresh? || w.Captured? then Some(w.cell) else None
  }

  /** The cell a writer has captured and is bound to free. */
  function Prior(w: Writer): Option<nat> {
    if w.Captured? || Retires(w) then w.prior else None
  }

  predicate Retires(w: Writer) {
    w.Published? || w.Waiting? || w.Reclaiming?
  }

  /** The writer will not free anything before section `r` has ended. */
  predicate Shields(w: Writer, r: nat) {
    w.Published? || (w.Waiting? && r in w.sections)
  }

  /** Cell ids in use have been allocated. */
  ghost predicate Allocated(s: State) {
    && (s.current.Some? ==> s.current.value < s.nextCell)
    && (forall w :: w in s.writers && Prior(s.writers[w]).Some? ==> Prior(s.writers[w]).value < s.nextCell)
    && (forall r :: r in s.readers && s.readers[r].Holding? ==> s.readers[r].cell < s.nextCell)
    && (forall c :: c in s.heap ==> c < s.nextCell)
  }

  /** An allocated cell is live exactly until it is first freed. */
  ghost predicate Ledger(s: State) {
    && (forall c :: c in s.freed ==> c < s.nextCell)
    && (forall c :: 0 <= c < s.nextCell ==> (c in s.heap <==> s.freed[c] == 0))
  }

  /** An unpublished cell is live and not published. */
  ghost predicate NewLive(s: State) {
    forall w :: w in s.writers && NewCell(s.writers[w]).Some? ==>
      NewCell(s.writers[w]).value in s.heap && NewCell(s.writers[w]) != s.current
  }

  /** Nobody but its one writer knows it: no other writer, no writer as a prior, and no section. */
  ghost predicate NewDistinct(s: State) {
    forall w, x :: w in s.writers && x in s.writers && w != x && NewCell(s.writers[w]).Some? ==>
      NewCell(s.writers[w]) != NewCell(s.writers[x])
  }

  ghost predicate NewNotPrior(s: State) {
    forall w, x :: w in s.writers && x in s.writers && NewCell(s.writers[w]).Some? ==>
      NewCell(s.writers[w]) != Prior(s.writers[x])
  }

  ghost predicate NewNotHeld(s: State) {
    forall w, r :: w in s.writers && r in s.readers && s.readers[r].Holding? ==>
      NewCell(s.writers[w]) != Some(s.readers[r].cell)
  }

  ghost predicate Private(s: State) {
    NewLive(s) && NewDistinct(s) && NewNotPrior(s) && NewNotHeld(s)
  }

  /** A cell replaced by a writer is never published again. */
  ghost predicate NeverBack(s: State) {
    forall w :: w in s.writers && Retires(s.writers[w]) && s.writers[w].prior.Some? ==> s.writers[w].prior != s.current
  }

  ghost predicate Cells(s: State) {
    Allocated(s) && Ledger(s) && Private(s) && NeverBack(s)
  }

  lemma AllocatedKept(s: State, l: Step)
    requires Allocated(s) && NewLive(s) && Enabled(s, l)
    ensures Allocated(Apply(s, l))
  {}

  lemma LedgerKept(s: State, l: Step)
    requires Allocated(s) && Ledger(s) && Enabled(s, l)
    ensures Ledger(Apply(s, l))
  {}

  lemma NewLiveKept(s: State, l: Step)
    requires Allocated(s) && NewLive(s) && NewDistinct(s) && NewNotPrior(s) && Enabled(s, l)
    ensures NewLive(Apply(s, l))
  {}

  lemma NewDistinctKept(s: State, l: Step)
    requires Allocated(s) && NewLive(s) && NewDistinct(s) && Enabled(s, l)
    ensures NewDistinct(Apply(s, l))
  {}

  lemma NewNotPriorKept(s: State, l: Step)
    requires Allocated(s) && NewLive(s) && NewNotPrior(s) && Enabled(s, l)
    ensures NewNotPrior(Apply(s, l))
  {}

  lemma NewNotHeldKept(s: State, l: Step)
    requires Allocated(s) && NewLive(s) && NewNotHeld(s) && Enabled(s, l)
    ensures NewNotHeld(Apply(s, l))
  {}

  lemma NeverBackKept(s: State, l: Step)
    requires NewNotPrior(s) && NeverBack(s) && Enabled(s, l)
    ensures NeverBack(Apply(s, l))
  {}

  lemma CellsKept(s: State, l: Step)
    requires Cells(s) && Enabled(s, l)
    ensures Cells(Apply(s, l))
  {
    AllocatedKept(s, l);
    LedgerKept(s, l);
    NewLiveKept(s, l);
    NewDistinctKept(s, l);
    NewNotPriorKept(s, l);
    NewNotHeldKept(s, l);
    NeverBackKept(s, l);
  }

  // ---------- Sections are safe whatever the writers do ----------

  /** What a section relies on: its cell is live, all it read is that cell's one value, NULL comes from the exit. */
  ghost predicate Safe(s: State) {
    && (forall r :: r in s.readers && s.readers[r].Holding? ==> s.readers[r].cell in s.heap)
    && (forall r, v :: r in s.readers && s.readers[r].Holding? && v in s.readers[r].seen ==>
          v == Lookup(s.heap, s.readers[r].cell))
    && (forall r :: r in s.readers && s.readers[r].SawNull? ==> s.exit.Returned?)
  }

  ghost predicate AlwaysSafe(s: State, run: seq<Step>)
    requires Legal(s, run)
    decreases |run|
  {
    Safe(s) && (run == [] || AlwaysSafe(Apply(s, run[0]), run[1..]))
  }

  /** The pointer shows the latest version: NULL, or a live cell unless the exit has just freed it. */
  ghost predicate Current(s: State) {
    && s.history != []
    && (!Dangling(s) ==> s.history[|s.history| - 1] == Value(s))
    && (!Dangling(s) && s.current.Some? ==> s.current.value in s.heap)
    && (!s.exit.Returned? ==> s.current.Some?)
  }

  function Value(s: State): Option<nat> {
    if s.current.Some? then Lookup(s.heap, s.current.value) else None
  }

  ghost predicate ExitCell(s: State) {
    s.exit.Freeing? && s.exit.cell.Some? ==> s.exit.cell.value < s.nextCell && s.exit.cell.value !in s.heap
  }

  /** A section's cell is live and holds the section's version. */
  ghost predicate SectionCells(s: State) {
    forall r :: r in s.readers && s.readers[r].Holding? ==>
      s.readers[r].cell in s.heap && s.readers[r].version < |s.history| &&
      s.history[s.readers[r].version] == Some(s.heap[s.readers[r].cell])
  }

  ghost predicate SectionNulls(s: State) {
    forall r :: r in s.readers && s.readers[r].SawNull? ==>
      s.exit.Returned? && s.readers[r].version < |s.history| && s.history[s.readers[r].version] == None
  }

  ghost predicate SectionIds(s: State) {
    forall r :: r in s.readers ==> r < s.nextSection
  }

  ghost predicate SectionReads(s: State) {
    forall r, v :: r in s.readers && s.readers[r].Holding? && v in s.readers[r].seen ==>
      v == Lookup(s.heap, s.readers[r].cell)
  }

  /** Every writer that will free a section's cell waits for the section. */
  ghost predicate SectionShields(s: State) {
    forall r, w :: r in s.readers && s.readers[r].Holding? && w in s.writers && Retires(s.writers[w]) ==>
      s.writers[w].prior == Some(s.readers[r].cell) ==> Shields(s.writers[w], r)
  }

  ghost predicate Base(s: State) {
    && Cells(s) && ExitCell(s) && Current(s)
    && SectionIds(s) && SectionCells(s) && SectionNulls(s) && SectionReads(s) && SectionShields(s)
  }

  lemma CurrentKept(s: State, l: Step)
    requires Cells(s) && ExitCell(s) && Current(s) && Enabled(s, l)
    ensures Current(Apply(s, l)) && ExitCell(Apply(s, l))
  {}

  /** No harmless step frees or changes the cell a section holds: its freer would have to wait for the section. */
  lemma HeldCellStays(s: State, l: Step, r: nat)
    requires Allocated(s) && SectionCells(s) && SectionShields(s) && Enabled(s, l) && !Harms(s, l)
    requires r in s.readers && s.readers[r].Holding?
    ensures s.readers[r].cell in Apply(s, l).heap && Apply(s, l).heap[s.readers[r].cell] == s.heap[s.readers[r].cell]
  {}

  lemma SectionCellKept(s: State, l: Step, r: nat)
    requires Allocated(s) && SectionCells(s) && SectionShields(s) && Current(s) && Enabled(s, l) && !Harms(s, l)
    requires r in Apply(s, l).readers && Apply(s, l).readers[r].Holding?
    ensures var t := Apply(s, l);
            t.readers[r].cell in t.heap && t.readers[r].version < |t.history| &&
            t.history[t.readers[r].version] == Some(t.heap[t.readers[r].cell])
  {
    if r in s.readers && s.readers[r].Holding? {
      HeldCellStays(s, l, r);
    } else {
      assert l == Deref(r);
    }
  }

  lemma SectionCellsKept(s: State, l: Step)
    requires Allocated(s) && SectionCells(s) && SectionShields(s) && Current(s) && Enabled(s, l) && !Harms(s, l)
    ensures SectionCells(Apply(s, l))
  {
    var t := Apply(s, l);
    forall r | r in t.readers && t.readers[r].Holding?
      ensures t.readers[r].cell in t.heap && t.readers[r].version < |t.history| &&
              t.history[t.readers[r].version] == Some(t.heap[t.readers[r].cell])
    {
      SectionCellKept(s, l, r);
    }
  }

  lemma SectionIdsKept(s: State, l: Step)
    requires SectionIds(s) && Enabled(s, l)
    ensures SectionIds(Apply(s, l))
  {}

  lemma SectionNullsKept(s: State, l: Step)
    requires SectionNulls(s) && Current(s) && Enabled(s, l)
    ensures SectionNulls(Apply(s, l))
  {}

  lemma SectionReadsKept(s: State, l: Step)
    requires Allocated(s) && SectionCells(s) && SectionReads(s) && SectionShields(s)
    requires Enabled(s, l) && !Harms(s, l)
    ensures SectionReads(Apply(s, l))
  {
    var t := Apply(s, l);
    forall r | r in s.readers && s.readers[r].Holding?
      ensures s.readers[r].cell in t.heap && t.heap[s.readers[r].cell] == s.heap[s.readers[r].cell]
    {
      HeldCellStays(s, l, r);
    }
  }

  lemma SectionShieldsKept(s: State, l: Step)
    requires NeverBack(s) && SectionIds(s) && SectionShields(s) && Enabled(s, l)
    ensures SectionShields(Apply(s, l))
  {}

  lemma BaseKept(s: State, l: Step)
    requires Base(s) && Enabled(s, l) && !Harms(s, l)
    ensures Base(Apply(s, l))
  {
    CellsKept(s, l);
    CurrentKept(s, l);
    SectionIdsKept(s, l);
    SectionCellsKept(s, l);
    SectionNullsKept(s, l);
    SectionReadsKept(s, l);
    SectionShieldsKept(s, l);
  }

  lemma {:induction false} BaseAlong(s: State, run: seq<Step>)
    requires Base(s) && Legal(s, run) && HarmlessExit(s, run)
    ensures Base(After(s, run))
    decreases |run|
  {
    if run != [] {
      BaseKept(s, run[0]);
      BaseAlong(Apply(s, run[0]), run[1..]);
    }
  }

  lemma BaseFromInit(run: seq<Step>)
    requires Legal(INIT, run) && HarmlessExit(INIT, run)
    ensures Base(After(INIT, run))
  {
    assert Cells(INIT);
    BaseAlong(INIT, run);
  }

  lemma HarmIsSeen(s: State, l: Step)
    requires Base(s) && Enabled(s, l) && Harms(s, l)
    ensures !Safe(Apply(s, l))
  {
    var t := Apply(s, l);
    if l.Deref? {
      assert t.readers[l.r].Holding? && t.readers[l.r].cell !in t.heap;
    } else {
      var r :| r in s.readers && s.readers[r].Holding? && s.current == Some(s.readers[r].cell);
      assert t.readers[r].Holding? && t.readers[r].cell !in t.heap;
    }
  }

  lemma {:induction false} SafeExactlyWhenHarmless(s: State, run: seq<Step>)
    requires Base(s) && Legal(s, run)
    ensures AlwaysSafe(s, run) <==> HarmlessExit(s, run)
    decreases |run|
  {
    if run != [] {
      if Harms(s, run[0]) {
        HarmIsSeen(s, run[0]);
      } else {
        BaseKept(s, run[0]);
        SafeExactlyWhenHarmless(Apply(s, run[0]), run[1..]);
      }
    }
  }

  /**
   In every run, with any readers and any writers, overlapping or not: no section ever holds a
   freed cell, all its reads give its cell's one value, and it sees NULL only once the exit has
   returned, if and only if the exit harms no section.
   */
  lemma ReadersAreSafe(run: seq<Step>)
    requires Legal(INIT, run)
    ensures AlwaysSafe(INIT, run) <==> HarmlessExit(INIT, run)
  {
    BaseFromInit([]);
    SafeExactlyWhenHarmless(INIT, run);
  }

  lemma {:induction false} LoadedMeansNoExit(s: State, run: seq<Step>)
    requires Legal(s, run) && After(s, run).exit.Loaded?
    ensures s.exit.Loaded? && HarmlessExit(s, run)
    decreases |run|
  {
    if run != [] { LoadedMeansNoExit(Apply(s, run[0]), run[1..]); }
  }

  lemma {:induction false} AlwaysSafeEndsSafe(s: State, run: seq<Step>)
    requires Legal(s, run) && AlwaysSafe(s, run)
    ensures Safe(After(s, run))
    decreases |run|
  {
    if run != [] { AlwaysSafeEndsSafe(Apply(s, run[0]), run[1..]); }
  }

  /** Until the exit, sections are safe without any condition, and the pointer's cell is live. */
  lemma LoadedIsSafe(run: seq<Step>)
    requires Legal(INIT, run) && After(INIT, run).exit.Loaded?
    ensures var s := After(INIT, run);
            Safe(s) && s.current.Some? && s.current.value in s.heap
  {
    LoadedMeansNoExit(INIT, run);
    BaseFromInit(run);
  }

  /** No section begins between the exit's free and its clear. */
  predicate NoneBegins(s: State, run: seq<Step>)
    requires Legal(s, run)
    decreases |run|
  {
    run == [] || (!(run[0].BeginRead? && s.exit.Freeing?) && NoneBegins(Apply(s, run[0]), run[1..]))
  }

  /** No continuation of `s`, in which none begins in that window, takes a section to a freed cell. */
  ghost predicate StaysSafe(s: State) {
    forall more :: Legal(s, more) && NoneBegins(s, more) ==> Safe(After(s, more))
  }

  lemma {:induction false} NobodyLeftToDeref(s: State, run: seq<Step>)
    requires Legal(s, run) && NoneBegins(s, run) && !s.exit.Loaded?
    requires s.exit.Freeing? ==> forall r :: r in s.readers ==> !s.readers[r].Entered?
    ensures HarmlessExit(s, run)
    decreases |run|
  {
    if run != [] { NobodyLeftToDeref(Apply(s, run[0]), run[1..]); }
  }

  lemma HarmlessExitStaysSafe(s: State)
    requires Base(s) && s.exit.Loaded?
    requires forall r :: r in s.readers ==> s.readers[r].Holding? && s.current != Some(s.readers[r].cell)
    ensures StaysSafe(Apply(s, ExitFree))
  {
    var t := Apply(s, ExitFree);
    BaseKept(s, ExitFree);
    forall more | Legal(t, more) && NoneBegins(t, more)
      ensures Safe(After(t, more))
    {
      NobodyLeftToDeref(t, more);
      BaseAlong(t, more);
    }
  }

  /** A section that can still take the pointer takes the freed cell. */
  lemma DerefGoesWrong(t: State, r: nat)
    requires Dangling(t) && t.current.value !in t.heap && r in t.readers && t.readers[r].Entered?
    ensures Legal(t, [Deref(r)]) && NoneBegins(t, [Deref(r)]) && !Safe(After(t, [Deref(r)]))
  {
    var u := Apply(t, Deref(r));
    assert Legal(u, []) && [Deref(r)][1..] == [];
    assert Legal(t, [Deref(r)]) && After(t, [Deref(r)]) == u;
    assert u.readers[r].cell !in u.heap;
  }

  lemma HarmfulExitGoesWrong(s: State, r: nat)
    requires Base(s) && s.exit.Loaded? && r in s.readers
    requires !(s.readers[r].Holding? && s.current != Some(s.readers[r].cell))
    ensures !StaysSafe(Apply(s, ExitFree))
  {
    var t := Apply(s, ExitFree);
    if s.readers[r].Entered? {
      DerefGoesWrong(t, r);
    } else {
      assert Legal(t, []) && After(t, []) == t;
    }
  }

  /**
   The exit waits for nobody. Its free leaves all sections safe if and only if each active one
   has already dereferenced the pointer, and to a cell that a writer has since replaced, provided
   that none begins until the pointer is cleared.
   */
  lemma ExitSafeExactlyWhenHarmless(run: seq<Step>)
    requires Legal(INIT, run) && After(INIT, run).exit.Loaded?
    ensures var s := After(INIT, run);
            StaysSafe(Apply(s, ExitFree)) <==>
            forall r <- s.readers :: s.readers[r].Holding? && s.current != Some(s.readers[r].cell)
  {
    var s := After(INIT, run);
    LoadedMeansNoExit(INIT, run);
    BaseFromInit(run);
    if r :| r in s.readers && !(s.readers[r].Holding? && s.current != Some(s.readers[r].cell)) {
      HarmfulExitGoesWrong(s, r);
    } else {
      HarmlessExitStaysSafe(s);
    }
  }

  /** Nothing keeps a section from beginning in that window, and then the free is never safe. */
  lemma ExitUnsafeForNewSections(run: seq<Step>) returns (more: seq<Step>)
    requires Legal(INIT, run) && After(INIT, run).exit.Loaded?
    ensures var t := Apply(After(INIT, run), ExitFree);
            Legal(t, more) && !Safe(After(t, more))
  {
    LoadedIsSafe(run);
    var t := Apply(After(INIT, run), ExitFree);
    var u := Apply(t, BeginRead);
    var r := t.nextSection;
    DerefGoesWrong(u, r);
    more := [BeginRead, Deref(r)];
    assert more[1..] == [Deref(r)];
  }

  // ---------- Runs extended at the end ----------

  lemma {:induction false} Extend(s: State, run: seq<Step>, l: Step)
    requires Legal(s, run) && Enabled(After(s, run), l)
    ensures Legal(s, run + [l]) && After(s, run + [l]) == Apply(After(s, run), l)
    ensures HarmlessExit(s, run) && !Harms(After(s, run), l) ==> HarmlessExit(s, run + [l])
    ensures Disjoint(s, run) && !Overlaps(After(s, run), l) ==> Disjoint(s, run + [l])
    decreases |run|
  {
    if run == [] {
      assert [l][1..] == [];
    } else {
      Extend(Apply(s, run[0]), run[1..], l);
      assert (run + [l])[1..] == run[1..] + [l];
    }
  }

  lemma {:induction false} ExtendLimited(s: State, run: seq<Step>, l: Step, k: nat)
    requires Legal(s, run) && Limited(s, run, k) && Enabled(After(s, run), l)
    requires l.BeginWrite? ==> |After(s, run).writers| < k
    ensures Legal(s, run + [l]) && Limited(s, run + [l], k)
    decreases |run|
  {
    Extend(s, run, l);
    if run == [] {
      assert [l][1..] == [];
    } else {
      ExtendLimited(Apply(s, run[0]), run[1..], l, k);
      assert (run + [l])[1..] == run[1..] + [l];
    }
  }

  lemma {:induction false} SubsetSize(a: set<nat>, b: set<nat>)
    requires a <= b
    ensures |a| <= |b|
  {
    if a != {} {
      var x :| x in a;
      SubsetSize(a - {x}, b - {x});
    }
  }

  lemma WriterIds(s: State, l: Step)
    requires Enabled(s, l)
    ensures var ids := Apply(s, l).writers.Keys;
            if l.BeginWrite? then ids == s.writers.Keys + {l.w} else ids <= s.writers.Keys
  {}

  lemma FewWriters(s: State, l: Step, k: nat)
    requires Enabled(s, l) && |s.writers| <= k && (l.BeginWrite? ==> |s.writers| < k)
    ensures |Apply(s, l).writers| <= k
  {
    var ids, t := s.writers.Keys, Apply(s, l);
    WriterIds(s, l);
    if l.BeginWrite? {
      assert |t.writers.Keys| == |ids| + 1;
    } else {
      SubsetSize(t.writers.Keys, ids);
      assert |t.writers.Keys| <= |ids|;
    }
  }

  /** No harm by the exit, and at most `k` writes at once. */
  ghost predicate Orderly(run: seq<Step>, k: nat) {
    Legal(INIT, run) && HarmlessExit(INIT, run) && Limited(INIT, run, k)
  }

  lemma ExtendOrderly(run: seq<Step>, l: Step, k: nat)
    requires Orderly(run, k) && Enabled(After(INIT, run), l) && !Harms(After(INIT, run), l)
    requires l.BeginWrite? ==> |After(INIT, run).writers| < k
    ensures Orderly(run + [l], k) && After(INIT, run + [l]) == Apply(After(INIT, run), l)
  {
    Extend(INIT, run, l);
    ExtendLimited(INIT, run, l, k);
  }

  lemma Then(before: seq<Step>, l: Step, k: nat) returns (run: seq<Step>)
    requires Orderly(before, k) && Enabled(After(INIT, before), l) && !Harms(After(INIT, before), l)
    requires l.BeginWrite? ==> |After(INIT, before).writers| < k
    ensures Orderly(run, k) && After(INIT, run) == Apply(After(INIT, before), l)
  {
    ExtendOrderly(before, l, k);
    run := before + [l];
  }

  lemma Start(k: nat) returns (run: seq<Step>)
    ensures Orderly(run, k) && After(INIT, run) == INIT
  {
    run := [];
  }
}
