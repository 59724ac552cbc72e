/** How many cells of lab9/ex2 are live at once, and which are left over after the exit. */
module RcuMemory {
  import opened Options
  import opened RcuCell
  import opened RcuFrees

  /** The cell only this writer knows: its new one until it publishes, then the one it will free. */
  function Owned(w: Writer): Option<nat> {
    if w.Fresh? || w.Captured? then Some(w.cell) else if Retires(w) then w.prior else None
  }

  predicate Owns(s: State, w: nat, c: nat) {
    w in s.writers && Owned(s.writers[w]) == Some(c)
  }

  /** Every live cell is published or owned by a writer, unless a write has published after the exit. */
  ghost predicate NoOrphans(s: State) {
    !s.exit.Returned? || s.current.None? ==>
      forall c :: c in s.heap && s.current != Some(c) ==> exists w :: Owns(s, w, c)
  }

  lemma OwnerStays(s: State, l: Step, w: nat, c: nat)
    requires Windows(s) && Enabled(s, l) && Owns(s, w, c) && c in Apply(s, l).heap && Apply(s, l).current != Some(c)
    ensures Owns(Apply(s, l), w, c)
  {}

  lemma OwnerFound(s: State, l: Step, c: nat)
    requires OneHolder(s) && Windows(s) && FreedOnce(s) && Ledger(s) && Allocated(s) && Enabled(s, l) && !Overlaps(s, l)
    requires c in Apply(s, l).heap && Apply(s, l).current != Some(c) && (c !in s.heap || s.current == Some(c))
    requires !Apply(s, l).exit.Returned? || Apply(s, l).current.None?
    ensures Owns(Apply(s, l), l.w, c)
  {}

  lemma NoOrphansKept(s: State, l: Step)
    requires Single(s) && NoOrphans(s) && Enabled(s, l) && !Overlaps(s, l)
    ensures NoOrphans(Apply(s, l))
  {
    var t := Apply(s, l);
    if !t.exit.Returned? || t.current.None? {
      forall c | c in t.heap && t.current != Some(c)
        ensures exists w :: Owns(t, w, c)
      {
        if c in s.heap && s.current != Some(c) {
          var w :| Owns(s, w, c);
          OwnerStays(s, l, w, c);
        } else {
          OwnerFound(s, l, c);
        }
      }
    }
  }

  lemma {:induction false} NoOrphansAlong(s: State, run: seq<Step>)
    requires Single(s) && NoOrphans(s) && Legal(s, run) && Disjoint(s, run)
    ensures Single(After(s, run)) && NoOrphans(After(s, run))
    decreases |run|
  {
    if run != [] {
      SingleKept(s, run[0]);
      NoOrphansKept(s, run[0]);
      NoOrphansAlong(Apply(s, run[0]), run[1..]);
    }
  }

  lemma NoOrphansFromInit(run: seq<Step>)
    requires Legal(INIT, run) && Disjoint(INIT, run)
    ensures Single(After(INIT, run)) && NoOrphans(After(INIT, run))
  {
    BaseFromInit([]);
    NoOrphansAlong(INIT, run);
  }

  lemma {:induction false} LimitedWriters(s: State, run: seq<Step>, k: nat)
    requires Legal(s, run) && |s.writers| <= k && Limited(s, run, k)
    ensures |After(s, run).writers| <= k
    decreases |run|
  {
    if run != [] {
      FewWriters(s, run[0], k);
      LimitedWriters(Apply(s, run[0]), run[1..], k);
    }
  }

  lemma {:induction false} OneCellEach(cells: set<nat>, writers: map<nat, Writer>)
    requires forall c :: c in cells ==> exists w :: w in writers && Owned(writers[w]) == Some(c)
    ensures |cells| <= |writers|
    decreases |writers|
  {
    if writers != map[] {
      var w :| w in writers;
      var rest := if Owned(writers[w]).Some? then cells - {Owned(writers[w]).value} else cells;
      assert (writers - {w}).Keys == writers.Keys - {w};
      forall c | c in rest
        ensures exists x :: x in writers - {w} && Owned((writers - {w})[x]) == Some(c)
      {
        var x :| x in writers && Owned(writers[x]) == Some(c);
        assert x in writers - {w};
      }
      OneCellEach(rest, writers - {w});
    }
  }

  /** One cell is published, and each writer owns at most one. */
  lemma LiveCellsOf(s: State)
    requires Windows(s) && NoOrphans(s) && !s.exit.Returned?
    ensures |s.heap| <= 1 + |s.writers|
  {
    var others := s.heap.Keys - {s.current.value};
    forall c | c in others
      ensures exists w :: w in s.writers && Owned(s.writers[w]) == Some(c)
    {
      var w :| Owns(s, w, c);
    }
    OneCellEach(others, s.writers);
    SubsetSize(s.heap.Keys, others + {s.current.value});
  }

  /** Without an overlap, until the exit returns, one cell is live, and at most one more for each write. */
  lemma LiveCellsBounded(run: seq<Step>, k: nat)
    requires Legal(INIT, run) && Disjoint(INIT, run) && Limited(INIT, run, k) && !After(INIT, run).exit.Returned?
    ensures |After(INIT, run).heap| <= 1 + |After(INIT, run).writers| <= 1 + k
  {
    NoOrphansFromInit(run);
    LimitedWriters(INIT, run, k);
    LiveCellsOf(After(INIT, run));
  }

  /** Until the exit returns, no overlap, and at most `k` writes at once. */
  ghost predicate Tidy(run: seq<Step>, k: nat) {
    Legal(INIT, run) && Disjoint(INIT, run) && Limited(INIT, run, k) && !After(INIT, run).exit.Returned?
  }

  /** Writers below `n` are in progress, and besides the published cell `cells` others are live. */
  ghost predicate Hoarding(s: State, n: nat, cells: nat) {
    && s.exit.Loaded? && Allocated(s) && |s.heap| == cells + 1
    && |s.writers| == n && forall w :: w in s.writers ==> w < n
  }

  lemma HoardBegins(s: State, n: nat)
    requires Hoarding(s, n, n) && NewLive(s)
    ensures Hoarding(Apply(s, BeginWrite(n, 0)), n + 1, n)
  {
    WriterIds(s, BeginWrite(n, 0));
    var t := Apply(s, BeginWrite(n, 0));
    assert |t.writers.Keys| == n + 1 && t.heap == s.heap;
    AllocatedKept(s, BeginWrite(n, 0));
  }

  lemma HoardGrows(s: State, n: nat)
    requires Hoarding(s, n + 1, n) && Enabled(s, Allocate(n)) && NewLive(s)
    ensures Hoarding(Apply(s, Allocate(n)), n + 1, n + 1)
  {
    var t := Apply(s, Allocate(n));
    AllocatedKept(s, Allocate(n));
    assert t.writers.Keys == s.writers.Keys && |t.writers.Keys| == n + 1;
    assert t.heap.Keys == s.heap.Keys + {s.nextCell} && |t.heap.Keys| == n + 2;
  }

  /** Each writer in turn allocates its cell and goes no further. */
  lemma {:induction false} LiveCellsReached(n: nat, k: nat) returns (run: seq<Step>)
    requires n <= k
    ensures Tidy(run, k) && Hoarding(After(INIT, run), n, n)
    decreases n
  {
    run := [];
    if n > 0 {
      run := LiveCellsReached(n - 1, k);
      SingleFromInit(run);
      HoardBegins(After(INIT, run), n - 1);
      Extend(INIT, run, BeginWrite(n - 1, 0));
      ExtendLimited(INIT, run, BeginWrite(n - 1, 0), k);
      run := run + [BeginWrite(n - 1, 0)];
      SingleFromInit(run);
      HoardGrows(After(INIT, run), n - 1);
      Extend(INIT, run, Allocate(n - 1));
      ExtendLimited(INIT, run, Allocate(n - 1), k);
      run := run + [Allocate(n - 1)];
    }
  }

  /** The live cells of all tidy runs keep within a bound exactly when it is at least `k + 1`. */
  lemma LiveCellsExact(k: nat, bound: nat)
    ensures (forall run :: Tidy(run, k) ==> |After(INIT, run).heap| <= bound) <==> k + 1 <= bound
  {
    if k + 1 <= bound {
      forall run | Tidy(run, k)
        ensures |After(INIT, run).heap| <= bound
      {
        LiveCellsBounded(run, k);
      }
    } else {
      var run := LiveCellsReached(k, k);
    }
  }

  // ---------- Serialised writes ----------

  lemma OneWriter(s: State, w: nat, x: nat)
    requires |s.writers| <= 1 && w in s.writers && x in s.writers
    ensures w == x
  {
    if w != x { SubsetSize({w, x}, s.writers.Keys); }
  }

  /** With one writer, whatever the exit does: besides published and owned cells at most one, which the exit lost. */
  ghost predicate Serial(s: State, lost: Option<nat>) {
    && |s.writers| <= 1
    && (!s.exit.Returned? ==> lost.None?)
    && (forall w :: w in s.writers && s.writers[w].Captured? ==> s.writers[w].prior == s.current || s.current.None?)
    && (forall c :: c in s.heap && s.current != Some(c) && lost != Some(c) ==> exists w :: Owns(s, w, c))
  }

  function NextLost(s: State, l: Step, lost: Option<nat>): Option<nat> {
    if l.ExitClear? && s.current.Some? && s.current.value in s.heap then s.current else lost
  }

  lemma SerialOwnerStays(s: State, l: Step, lost: Option<nat>, w: nat, c: nat)
    requires Serial(s, lost) && Enabled(s, l) && Owns(s, w, c)
    requires c in Apply(s, l).heap && Apply(s, l).current != Some(c)
    ensures Owns(Apply(s, l), w, c)
  {
    if Writes(l) && l.w in s.writers { OneWriter(s, w, l.w); }
  }

  lemma SerialOwnerFound(s: State, l: Step, lost: Option<nat>, c: nat)
    requires Serial(s, lost) && Enabled(s, l) && (c !in s.heap || s.current == Some(c))
    requires c in Apply(s, l).heap && Apply(s, l).current != Some(c) && NextLost(s, l, lost) != Some(c)
    ensures Owns(Apply(s, l), l.w, c)
  {}

  lemma SerialKept(s: State, l: Step, lost: Option<nat>)
    requires Serial(s, lost) && Enabled(s, l) && (l.BeginWrite? ==> s.writers == map[])
    ensures Serial(Apply(s, l), NextLost(s, l, lost))
  {
    var t := Apply(s, l);
    FewWriters(s, l, 1);
    forall w | w in t.writers && t.writers[w].Captured?
      ensures t.writers[w].prior == t.current || t.current.None?
    {
      if Writes(l) && l.w in s.writers && w in s.writers { OneWriter(s, w, l.w); }
    }
    forall c | c in t.heap && t.current != Some(c) && NextLost(s, l, lost) != Some(c)
      ensures exists w :: Owns(t, w, c)
    {
      if c in s.heap && s.current != Some(c) && lost != Some(c) {
        var w :| Owns(s, w, c);
        SerialOwnerStays(s, l, lost, w, c);
      } else if lost != Some(c) {
        SerialOwnerFound(s, l, lost, c);
      }
    }
  }

  /** The exit loses a cell only if a write has replaced the cell that it had freed. */
  lemma NothingLost(s: State, l: Step)
    requires Single(s) && Enabled(s, l)
    ensures NextLost(s, l, None) == None
  {}

  lemma {:induction false} SerialAlong(s: State, run: seq<Step>, lost: Option<nat>) returns (last: Option<nat>)
    requires Serial(s, lost) && Legal(s, run) && Limited(s, run, 1)
    ensures Serial(After(s, run), last)
    ensures Single(s) && lost.None? && Disjoint(s, run) ==> last.None?
    decreases |run|
  {
    last := lost;
    if run != [] {
      var l := run[0];
      SerialKept(s, l, lost);
      if Single(s) && !Overlaps(s, l) {
        SingleKept(s, l);
        NothingLost(s, l);
      }
      last := SerialAlong(Apply(s, l), run[1..], NextLost(s, l, lost));
    }
  }

  lemma SerialSize(s: State, lost: Option<nat>)
    requires Serial(s, lost)
    ensures |s.heap| <= if lost.None? then 2 else 3
  {
    var others := s.heap.Keys - Cell(s.current) - Cell(lost);
    forall c | c in others
      ensures exists w :: w in s.writers && Owned(s.writers[w]) == Some(c)
    {
      var w :| Owns(s, w, c);
    }
    OneCellEach(others, s.writers);
    SubsetSize(s.heap.Keys, others + Cell(s.current) + Cell(lost));
  }

  function Cell(c: Option<nat>): set<nat> {
    if c.Some? then {c.value} else {}
  }

  /** While the module is loaded, serialised writes do not overlap. */
  lemma {:induction false} SerialIsDisjoint(s: State, run: seq<Step>)
    requires |s.writers| <= 1 && Legal(s, run) && Limited(s, run, 1) && After(s, run).exit.Loaded?
    ensures s.exit.Loaded? && Disjoint(s, run)
    decreases |run|
  {
    if run != [] {
      FewWriters(s, run[0], 1);
      SerialIsDisjoint(Apply(s, run[0]), run[1..]);
      if Overlaps(s, run[0]) {
        var x :| x in s.writers && x != run[0].w;
        OneWriter(s, x, run[0].w);
      }
    }
  }

  lemma SerialLiveCellsFrom(s: State, run: seq<Step>)
    requires Serial(s, None) && Single(s) && Legal(s, run) && Limited(s, run, 1)
    ensures |After(s, run).heap| <= if Disjoint(s, run) then 2 else 3
    ensures After(s, run).exit.Loaded? ==> Disjoint(s, run)
  {
    var lost := SerialAlong(s, run, None);
    SerialSize(After(s, run), lost);
    if After(s, run).exit.Loaded? { SerialIsDisjoint(s, run); }
  }

  /**
   With serialised writes, and an exit at any moment that new writes may follow: at most two cells
   are ever live, or three if the exit has overlapped a write. Until the exit nothing overlaps.
   */
  lemma SerialLiveCells(run: seq<Step>)
    requires Legal(INIT, run) && Limited(INIT, run, 1)
    ensures |After(INIT, run).heap| <= if Disjoint(INIT, run) then 2 else 3
    ensures After(INIT, run).exit.Loaded? ==> Disjoint(INIT, run)
  {
    SingleFromInit([]);
    SerialLiveCellsFrom(INIT, run);
  }

  // ---------- What is left over after the exit ----------

  lemma FreedIsNotLive(s: State, c: nat)
    requires Single(s) && c < s.nextCell
    ensures s.freed[c] == if c in s.heap then 0 else 1
  {}

  /** Once the exit has returned and nobody writes, what is live is what is published. */
  lemma LeftOverIsPublished(s: State)
    requires Single(s) && NoOrphans(s) && s.exit.Returned? && s.writers == map[]
    ensures s.heap == map[] <==> s.current.None?
  {
    if s.current.None? {
      assert forall w, c :: !Owns(s, w, c);
      assert forall c :: c !in s.heap;
    } else {
      assert s.current.value in s.heap;
    }
  }

  lemma {:induction false} PointerAfter(s: State, more: seq<Step>)
    requires Legal(s, more) && s.exit.Returned?
    ensures After(s, more).exit.Returned?
    ensures After(s, more).current.None? <==> s.current.None? && forall l :: l in more ==> !l.Publish?
    decreases |more|
  {
    if more != [] {
      PointerAfter(Apply(s, more[0]), more[1..]);
      assert forall l :: l in more <==> l == more[0] || l in more[1..];
    }
  }

  /** The exit has returned, the pointer is NULL, and nobody has overlapped. */
  ghost predicate Cleared(run: seq<Step>) {
    && Legal(INIT, run) && Disjoint(INIT, run)
    && After(INIT, run).exit.Returned? && After(INIT, run).current.None?
  }

  /**
   From the moment the exit has returned, let calls go on and new ones begin, without an overlap:
   when no write is in progress any more, every cell ever allocated is live or freed exactly once,
   and none is live if and only if no write has published since the exit.
   */
  lemma UnloadFreesEverything(run: seq<Step>, more: seq<Step>)
    requires Cleared(run) && Legal(After(INIT, run), more) && Disjoint(After(INIT, run), more)
    requires After(After(INIT, run), more).writers == map[]
    ensures var s := After(After(INIT, run), more);
      && (forall c :: 0 <= c < s.nextCell ==> s.freed[c] == if c in s.heap then 0 else 1)
      && (s.heap == map[] <==> forall l :: l in more ==> !l.Publish?)
  {
    var s := After(INIT, run);
    var t := After(s, more);
    NoOrphansFromInit(run);
    NoOrphansAlong(s, more);
    PointerAfter(s, more);
    LeftOverIsPublished(t);
    forall c | 0 <= c < t.nextCell
      ensures t.freed[c] == if c in t.heap then 0 else 1
    {
      FreedIsNotLive(t, c);
    }
  }

  // ---------- The same, seen when the exit returns ----------

  predicate Unpublished(w: Writer) {
    w.Called? || w.Fresh? || w.Captured?
  }

  /** Calls in progress go on; none begins. */
  predicate Closing(run: seq<Step>) {
    forall l :: l in run ==> !l.BeginRead? && !l.BeginWrite?
  }

  lemma {:induction false} NothingToPublish(s: State, run: seq<Step>)
    requires Legal(s, run) && Closing(run) && forall w :: w in s.writers ==> !Unpublished(s.writers[w])
    ensures forall l :: l in run ==> !l.Publish?
    decreases |run|
  {
    if run != [] {
      var t := Apply(s, run[0]);
      assert forall w :: w in t.writers ==> !Unpublished(t.writers[w]);
      NothingToPublish(t, run[1..]);
      assert forall l :: l in run <==> l == run[0] || l in run[1..];
    }
  }

  /** The exit has returned, no section is active, and nobody but `w` has captured the published cell. */
  ghost predicate Alone(s: State, w: nat) {
    && s.exit.Returned? && s.readers == map[] && Cells(s)
    && (s.current.Some? ==>
          forall x :: x in s.writers && x != w && s.writers[x].Captured? ==> s.writers[x].prior != s.current)
  }

  lemma AdvanceStaysAlone(s: State, w: nat)
    requires Alone(s, w) && w in s.writers
    ensures Enabled(s, Advance(s, w)) && !Overlaps(s, Advance(s, w)) && Alone(Apply(s, Advance(s, w)), w)
  {
    CellsKept(s, Advance(s, w));
  }

  lemma AdvanceWriter(s: State, w: nat)
    requires s.exit.Returned? && w in s.writers && Enabled(s, Advance(s, w))
    ensures var t := Apply(s, Advance(s, w));
      && t.writers - {w} == s.writers - {w}
      && (w in t.writers <==> !s.writers[w].Reclaiming?)
      && (w in t.writers ==> StepsLeft(t.writers[w]) < StepsLeft(s.writers[w]))
      && (s.current.Some? || s.writers[w].Captured? ==> t.current.Some?)
      && (Unpublished(s.writers[w]) && !s.writers[w].Captured? ==> Unpublished(t.writers[w]))
  {}

  /** What finishing calls have done so far from `s`. */
  ghost predicate Closed(s: State, more: seq<Step>) {
    Legal(s, more) && Closing(more) && Disjoint(s, more)
  }

  /** A writer runs to its end alone. */
  lemma {:induction false} FinishAlone(s: State, before: seq<Step>, w: nat) returns (more: seq<Step>)
    requires Closed(s, before) && Alone(After(s, before), w) && w in After(s, before).writers
    ensures Closed(s, more)
    ensures var t, u := After(s, before), After(s, more);
      && Alone(u, w) && u.writers == t.writers - {w}
      && (t.current.Some? || Unpublished(t.writers[w]) ==> u.current.Some?)
    decreases StepsLeft(After(s, before).writers[w])
  {
    var t := After(s, before);
    var l := Advance(t, w);
    AdvanceStaysAlone(t, w);
    AdvanceWriter(t, w);
    Extend(s, before, l);
    more := before + [l];
    if !t.writers[w].Reclaiming? {
      more := FinishAlone(s, more, w);
    } else {
      assert After(s, more).writers == After(s, more).writers - {w};
    }
  }

  lemma {:induction false} FinishWriters(s: State, before: seq<Step>) returns (more: seq<Step>)
    requires Closed(s, before) && forall w :: Alone(After(s, before), w)
    ensures Closed(s, more) && After(s, more).writers == map[]
    ensures PublishesOrHas(After(s, before)) ==> After(s, more).current.Some?
    decreases |After(s, before).writers|
  {
    var t := After(s, before);
    more := before;
    if t.writers != map[] {
      var w :| w in t.writers;
      more := FinishAlone(s, before, w);
      OneFewer(t, After(s, more), w);
      more := FinishWriters(s, more);
    }
  }

  /** The pointer is not NULL, or a writer has still to publish. */
  ghost predicate PublishesOrHas(s: State) {
    s.current.Some? || exists w :: w in s.writers && Unpublished(s.writers[w])
  }

  lemma OneFewer(t: State, u: State, w: nat)
    requires w in t.writers && Alone(u, w) && u.writers == t.writers - {w}
    requires t.current.Some? || Unpublished(t.writers[w]) ==> u.current.Some?
    ensures |u.writers| < |t.writers|
    ensures forall x :: Alone(u, x)
    ensures PublishesOrHas(t) ==> PublishesOrHas(u)
  {
    assert u.writers.Keys == t.writers.Keys - {w} && |u.writers.Keys| < |t.writers.Keys|;
    if PublishesOrHas(t) && u.current.None? {
      var x :| x in t.writers && Unpublished(t.writers[x]);
      assert x in u.writers && Unpublished(u.writers[x]);
    }
  }

  lemma FinishingIsClosed(s: State, more: seq<Step>)
    requires Legal(s, more) && Finishing(more)
    ensures Closed(s, more)
  {
    FinishingStaysDisjoint(s, more);
  }

  lemma WithoutSections(s: State)
    requires Cells(s) && s.exit.Returned? && s.current.None?
    ensures forall w :: Alone(s.(readers := map[]), w)
  {}

  /** The sections finish first, then the writers. */
  lemma CanFinish(s: State) returns (more: seq<Step>)
    requires Cells(s) && ShortReads(s) && s.exit.Returned? && s.current.None?
    ensures Closed(s, more) && After(s, more).writers == map[]
    ensures PublishesOrHas(s) ==> After(s, more).current.Some?
  {
    more := FinishSections(s, []);
    FinishingIsClosed(s, more);
    WithoutSections(s);
    more := FinishWriters(s, more);
  }

  /** However the calls in progress finish, without an overlap, they leave nothing live. */
  ghost predicate LeavesNothing(s: State) {
    forall more :: Closed(s, more) && After(s, more).writers == map[] ==> After(s, more).heap == map[]
  }

  /**
   At the moment the exit has returned and the pointer is NULL: the calls in progress leave nothing
   live if and only if each write among them has already published.
   */
  lemma NothingLeftExactlyWhenPublished(run: seq<Step>)
    requires Cleared(run)
    ensures var s := After(INIT, run);
            LeavesNothing(s) <==> forall w <- s.writers :: !Unpublished(s.writers[w])
  {
    var s := After(INIT, run);
    if w :| w in s.writers && Unpublished(s.writers[w]) {
      ReadsStayShort(INIT, run);
      SingleFromInit(run);
      var more := CanFinish(s);
      PointerAfter(s, more);
      UnloadFreesEverything(run, more);
    } else {
      forall more | Closed(s, more) && After(s, more).writers == map[]
        ensures After(s, more).heap == map[]
      {
        NothingToPublish(s, more);
        UnloadFreesEverything(run, more);
      }
    }
  }

  /** Nothing keeps a write from beginning then, and one that does can always leave a cell behind. */
  lemma LateWriteLeavesACell(run: seq<Step>, w: nat) returns (more: seq<Step>)
    requires Cleared(run) && w !in After(INIT, run).writers
    ensures var s := Apply(After(INIT, run), BeginWrite(w, 0));
            Closed(s, more) && After(s, more).writers == map[] && After(s, more).heap != map[]
  {
    var s, t := After(INIT, run), Apply(After(INIT, run), BeginWrite(w, 0));
    ReadsStayShort(INIT, run);
    NoOrphansFromInit(run);
    SingleKept(s, BeginWrite(w, 0));
    NoOrphansKept(s, BeginWrite(w, 0));
    assert Unpublished(t.writers[w]);
    more := CanFinish(t);
    NoOrphansAlong(t, more);
    PointerAfter(t, more);
    LeftOverIsPublished(After(t, more));
  }
}
