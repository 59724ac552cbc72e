/** Exactly when the writers and the exit of lab9/ex2 free a cell twice. */
module RcuFrees {
  import opened Options
  import opened RcuCell

  predicate Holds(w: Writer, c: nat) {
    Prior(w) == Some(c)
  }

  /** At most one writer is bound to free a cell. */
  ghost predicate OneHolder(s: State) {
    forall w, x, c :: w in s.writers && x in s.writers && Holds(s.writers[w], c) && Holds(s.writers[x], c) ==> w == x
  }

  /** A cell is freed once, and nobody is bound to free it then; the published one is not freed, save by the exit. */
  ghost predicate FreedOnce(s: State) {
    (forall c :: s.freed[c] <= 1) && HeldNotFreed(s) && PublishedNotFreed(s)
  }

  ghost predicate HeldNotFreed(s: State) {
    forall w, c :: w in s.writers && Holds(s.writers[w], c) ==> s.freed[c] == 0
  }

  ghost predicate PublishedNotFreed(s: State) {
    s.current.Some? ==> s.freed[s.current.value] == if s.exit.Freeing? then 1 else 0
  }

  /** Until the exit has returned the pointer is not NULL, and only it has been captured, and before the exit's free. */
  ghost predicate Windows(s: State) {
    && (!s.exit.Returned? ==> s.current.Some?)
    && (s.exit.Freeing? ==> s.exit.cell == s.current)
    && (forall w :: !s.exit.Returned? && w in s.writers && s.writers[w].Captured? ==>
          s.exit.Loaded? && s.writers[w].prior == s.current)
  }

  ghost predicate Single(s: State) {
    Cells(s) && OneHolder(s) && FreedOnce(s) && Windows(s)
  }

  /** Capturing a cell that no writer has captured makes its one holder; every other cell keeps its own. */
  lemma OneHolderKept(s: State, l: Step)
    requires Single(s) && Enabled(s, l) && !Overlaps(s, l)
    ensures OneHolder(Apply(s, l))
  {}

  lemma FreedOnceKept(s: State, l: Step)
    requires Single(s) && Enabled(s, l) && !Overlaps(s, l)
    ensures FreedOnce(Apply(s, l))
  {
    HeldNotFreedKept(s, l);
    PublishedNotFreedKept(s, l);
  }

  lemma HeldNotFreedKept(s: State, l: Step)
    requires OneHolder(s) && NeverBack(s) && FreedOnce(s) && Windows(s) && Enabled(s, l) && !Overlaps(s, l)
    ensures HeldNotFreed(Apply(s, l))
  {}

  lemma PublishedNotFreedKept(s: State, l: Step)
    requires Ledger(s) && Allocated(s) && NewLive(s) && NeverBack(s) && FreedOnce(s) && Windows(s)
    requires Enabled(s, l) && !Overlaps(s, l)
    ensures PublishedNotFreed(Apply(s, l))
  {}

  lemma WindowsKept(s: State, l: Step)
    requires OneHolder(s) && Windows(s) && Enabled(s, l) && !Overlaps(s, l)
    ensures Windows(Apply(s, l))
  {
    var t := Apply(s, l);
    assert l.ExitFree? ==> forall w :: w in s.writers.Keys ==> !s.writers[w].Captured?;
    forall w | !t.exit.Returned? && w in t.writers && t.writers[w].Captured?
      ensures t.exit.Loaded? && t.writers[w].prior == t.current
    {
      assert l.Publish? ==> !Holds(s.writers[w], s.current.value);
    }
  }

  lemma SingleKept(s: State, l: Step)
    requires Single(s) && Enabled(s, l) && !Overlaps(s, l)
    ensures Single(Apply(s, l))
  {
    CellsKept(s, l);
    OneHolderKept(s, l);
    FreedOnceKept(s, l);
    WindowsKept(s, l);
  }

  lemma {:induction false} SingleAlong(s: State, run: seq<Step>)
    requires Single(s) && Legal(s, run) && Disjoint(s, run)
    ensures Single(After(s, run))
    decreases |run|
  {
    if run != [] {
      SingleKept(s, run[0]);
      SingleAlong(Apply(s, run[0]), run[1..]);
    }
  }

  lemma SingleFromInit(run: seq<Step>)
    requires Legal(INIT, run) && Disjoint(INIT, run)
    ensures Single(After(INIT, run))
  {
    BaseFromInit([]);
    SingleAlong(INIT, run);
  }

  /** Frees of `c` already made and writers still bound to free it come to at least two. */
  ghost predicate Doomed(s: State, c: nat) {
    || s.freed[c] >= 2
    || (s.freed[c] >= 1 && exists w :: w in s.writers && Holds(s.writers[w], c))
    || (exists w, x :: w in s.writers && x in s.writers && w != x && Holds(s.writers[w], c) && Holds(s.writers[x], c))
  }

  /** A step of another process leaves a writer's obligation; its own last step discharges it by freeing. */
  lemma ObligationKept(s: State, l: Step, w: nat, c: nat)
    requires Enabled(s, l) && w in s.writers && Holds(s.writers[w], c)
    ensures var t := Apply(s, l);
            if l == Reclaim(w) then t.freed[c] == s.freed[c] + 1
            else w in t.writers && Holds(t.writers[w], c)
  {}

  lemma FreesOnlyGrow(s: State, l: Step, c: nat)
    requires Enabled(s, l)
    ensures Apply(s, l).freed[c] >= s.freed[c]
  {}

  lemma DoomedKept(s: State, l: Step, c: nat, t: State)
    requires Doomed(s, c) && Enabled(s, l) && t == Apply(s, l)
    ensures Doomed(t, c)
  {
    FreesOnlyGrow(s, l, c);
    if s.freed[c] >= 2 {
    } else if s.freed[c] >= 1 && exists w :: w in s.writers && Holds(s.writers[w], c) {
      var w :| w in s.writers && Holds(s.writers[w], c);
      ObligationKept(s, l, w, c);
    } else {
      var w, x :| w in s.writers && x in s.writers && w != x && Holds(s.writers[w], c) && Holds(s.writers[x], c);
      ObligationKept(s, l, w, c);
      ObligationKept(s, l, x, c);
    }
  }

  lemma {:induction false} DoomedAlong(s: State, run: seq<Step>, c: nat)
    requires Doomed(s, c) && Legal(s, run)
    ensures Doomed(After(s, run), c)
    decreases |run|
  {
    if run != [] {
      DoomedKept(s, run[0], c, Apply(s, run[0]));
      DoomedAlong(Apply(s, run[0]), run[1..], c);
    }
  }

  /** The first overlap leaves the published cell with two who are bound to free it, or have. */
  lemma OverlapDooms(s: State, l: Step)
    requires Single(s) && Enabled(s, l) && Overlaps(s, l)
    ensures Doomed(Apply(s, l), s.current.value)
  {
    var c, t := s.current.value, Apply(s, l);
    if l.ExitFree? {
      var x :| x in s.writers && s.writers[x].Captured? && s.writers[x].prior == s.current;
      assert x in t.writers && Holds(t.writers[x], c);
      assert t.freed[c] >= 1;
      assert Doomed(t, c);
    } else {
      assert l.w in t.writers && Holds(t.writers[l.w], c);
      if Taken(s, s.writers.Keys - {l.w}) {
        var x :| x in s.writers && x != l.w && s.writers[x].Captured? && s.writers[x].prior == s.current;
        assert x in t.writers && Holds(t.writers[x], c);
        assert Doomed(t, c);
      } else {
        assert t.freed[c] >= 1;
        assert Doomed(t, c);
      }
    }
  }

  lemma {:induction false} OverlapDoomsRun(s: State, run: seq<Step>) returns (c: nat)
    requires Single(s) && Legal(s, run) && !Disjoint(s, run)
    ensures Doomed(After(s, run), c)
    decreases |run|
  {
    var t := Apply(s, run[0]);
    if Overlaps(s, run[0]) {
      c := s.current.value;
      OverlapDooms(s, run[0]);
      DoomedAlong(t, run[1..], c);
    } else {
      SingleKept(s, run[0]);
      c := OverlapDoomsRun(t, run[1..]);
    }
  }

  /** Steps that only finish what has begun: no call begins, nobody captures the pointer, the exit does not start. */
  predicate Finishing(run: seq<Step>) {
    forall i :: 0 <= i < |run| ==>
      !run[i].BeginRead? && !run[i].BeginWrite? && !run[i].Capture? && !run[i].ExitFree?
  }

  lemma {:induction false} FinishingStaysDisjoint(s: State, run: seq<Step>)
    requires Legal(s, run) && Finishing(run)
    ensures Disjoint(s, run)
    decreases |run|
  {
    if run != [] { FinishingStaysDisjoint(Apply(s, run[0]), run[1..]); }
  }

  lemma FinishingStep(s: State, run: seq<Step>, l: Step) returns (more: seq<Step>)
    requires Legal(s, run) && Finishing(run) && Enabled(After(s, run), l) && Finishing([l])
    ensures Legal(s, more) && Finishing(more) && After(s, more) == Apply(After(s, run), l)
  {
    Extend(s, run, l);
    more := run + [l];
    assert [l][0] == l;
  }

  ghost predicate ShortReads(s: State) {
    forall r :: r in s.readers && s.readers[r].Holding? ==> |s.readers[r].seen| <= 2
  }

  function ReadsLeft(r: Reader): nat {
    if r.Entered? then 4 else if r.Holding? && |r.seen| <= 3 then 3 - |r.seen| else 0
  }

  lemma SectionAdvances(s: State, r: nat, l: Step)
    requires ShortReads(s) && r in s.readers
    requires l == if s.readers[r].Entered? then Deref(r) else ReadCell(r)
    ensures !Enabled(s, l) ==> Enabled(s, EndRead(r)) && Apply(s, EndRead(r)) == s.(readers := s.readers - {r})
    ensures Enabled(s, l) ==>
              var t := Apply(s, l);
              && r in t.readers && ShortReads(t) && ReadsLeft(t.readers[r]) < ReadsLeft(s.readers[r])
              && t.(readers := t.readers - {r}) == s.(readers := s.readers - {r})
  {
    if Enabled(s, l) {
      assert Apply(s, l).readers - {r} == s.readers - {r};
    }
  }

  /** Any section can finish, whatever the writers do. */
  lemma {:induction false} FinishSection(s: State, run: seq<Step>, r: nat) returns (more: seq<Step>)
    requires Legal(s, run) && Finishing(run) && r in After(s, run).readers && ShortReads(After(s, run))
    ensures Legal(s, more) && Finishing(more)
    ensures After(s, more) == After(s, run).(readers := After(s, run).readers - {r})
    decreases ReadsLeft(After(s, run).readers[r])
  {
    var t := After(s, run);
    var l := if t.readers[r].Entered? then Deref(r) else ReadCell(r);
    SectionAdvances(t, r, l);
    if Enabled(t, l) {
      more := FinishingStep(s, run, l);
      more := FinishSection(s, more, r);
    } else {
      more := FinishingStep(s, run, EndRead(r));
    }
  }

  lemma {:induction false} FinishSections(s: State, run: seq<Step>) returns (more: seq<Step>)
    requires Legal(s, run) && Finishing(run) && ShortReads(After(s, run))
    ensures Legal(s, more) && Finishing(more) && After(s, more) == After(s, run).(readers := map[])
    decreases |After(s, run).readers|
  {
    var t := After(s, run);
    more := run;
    if t.readers != map[] {
      var r :| r in t.readers;
      more := FinishSection(s, run, r);
      assert (t.readers - {r}).Keys == t.readers.Keys - {r};
      assert |(t.readers - {r}).Keys| < |t.readers.Keys|;
      more := FinishSections(s, more);
    }
  }

  /** The writer's next step. */
  function Advance(s: State, w: nat): Step
    requires w in s.writers
  {
    match s.writers[w]
    case Called(_) => Allocate(w)
    case Fresh(_) => Capture(w)
    case Captured(_, _) => Publish(w)
    case Published(_, _) => SyncBegin(w)
    case Waiting(_, _, _) => SyncEnd(w)
    case Reclaiming(_, _) => Reclaim(w)
  }

  function StepsLeft(w: Writer): nat {
    match w
    case Called(_) => 5
    case Fresh(_) => 4
    case Captured(_, _) => 3
    case Published(_, _) => 2
    case Waiting(_, _, _) => 1
    case Reclaiming(_, _) => 0
  }

  lemma WriterAdvances(s: State, w: nat, c: nat)
    requires s.readers == map[] && w in s.writers && Holds(s.writers[w], c) && !s.writers[w].Reclaiming?
    ensures Enabled(s, Advance(s, w))
    ensures var t := Apply(s, Advance(s, w));
            && t.readers == map[] && t.freed == s.freed && t.writers - {w} == s.writers - {w}
            && w in t.writers && Holds(t.writers[w], c) && StepsLeft(t.writers[w]) < StepsLeft(s.writers[w])
  {}

  lemma ReclaimFrees(s: State, w: nat, c: nat)
    requires w in s.writers && Holds(s.writers[w], c) && s.writers[w].Reclaiming?
    ensures var t := Apply(s, Reclaim(w));
            t.readers == s.readers && t.freed[c] == s.freed[c] + 1 && t.writers == s.writers - {w}
  {}

  /** With no section active a writer past its capture can run to its end and frees what it captured. */
  lemma {:induction false} FinishWriter(s: State, run: seq<Step>, w: nat, c: nat) returns (more: seq<Step>)
    requires Legal(s, run) && Finishing(run) && After(s, run).readers == map[]
    requires w in After(s, run).writers && Holds(After(s, run).writers[w], c)
    ensures Legal(s, more) && Finishing(more)
    ensures var t, u := After(s, run), After(s, more);
            u.readers == map[] && u.freed[c] == t.freed[c] + 1 && u.writers == t.writers - {w}
    decreases StepsLeft(After(s, run).writers[w])
  {
    var t := After(s, run);
    if t.writers[w].Reclaiming? {
      ReclaimFrees(t, w, c);
      more := FinishingStep(s, run, Reclaim(w));
    } else {
      WriterAdvances(t, w, c);
      more := FinishingStep(s, run, Advance(t, w));
      more := FinishWriter(s, more, w, c);
    }
  }

  /** A doomed cell can be freed twice by letting everyone who has captured it finish. */
  lemma DoomRealised(s: State, c: nat) returns (run: seq<Step>)
    requires Doomed(s, c) && ShortReads(s)
    ensures Legal(s, run) && Finishing(run) && After(s, run).freed[c] >= 2
  {
    run := FinishSections(s, []);
    if s.freed[c] == 1 {
      var w :| w in s.writers && Holds(s.writers[w], c);
      run := FinishWriter(s, run, w, c);
    } else if s.freed[c] == 0 {
      var w, x :| w in s.writers && x in s.writers && w != x && Holds(s.writers[w], c) && Holds(s.writers[x], c);
      run := FinishWriter(s, run, w, c);
      run := FinishWriter(s, run, x, c);
    }
  }

  lemma {:induction false} ReadsStayShort(s: State, run: seq<Step>)
    requires ShortReads(s) && Legal(s, run)
    ensures ShortReads(After(s, run))
    decreases |run|
  {
    if run != [] { ReadsStayShort(Apply(s, run[0]), run[1..]); }
  }

  /** Letting the processes of `s` finish, without any new capture, can free some cell twice. */
  ghost predicate CanDoubleFree(s: State) {
    exists more, c :: Legal(s, more) && Finishing(more) && After(s, more).freed[c] >= 2
  }

  /** After any run, a double free is on its way if and only if two have overlapped. */
  lemma DoubleFreeExactlyOnOverlap(run: seq<Step>)
    requires Legal(INIT, run)
    ensures CanDoubleFree(After(INIT, run)) <==> !Disjoint(INIT, run)
  {
    var s := After(INIT, run);
    BaseFromInit([]);
    if Disjoint(INIT, run) {
      SingleFromInit(run);
      forall more, c | Legal(s, more) && Finishing(more)
        ensures After(s, more).freed[c] <= 1
      {
        FinishingStaysDisjoint(s, more);
        SingleAlong(s, more);
      }
    } else {
      var c := OverlapDoomsRun(INIT, run);
      ReadsStayShort(INIT, run);
      var more := DoomRealised(s, c);
    }
  }

  /** Once no write is in progress, some cell has been freed twice if and only if two have overlapped. */
  lemma FreedTwiceExactlyOnOverlap(run: seq<Step>)
    requires Legal(INIT, run) && After(INIT, run).writers == map[]
    ensures (forall c :: After(INIT, run).freed[c] <= 1) <==> Disjoint(INIT, run)
  {
    if Disjoint(INIT, run) {
      SingleFromInit(run);
    } else {
      BaseFromInit([]);
      var c := OverlapDoomsRun(INIT, run);
    }
  }

  lemma SharedCapture(run: seq<Step>)
    requires Legal(INIT, run)
    requires var s := After(INIT, run);
             && 0 in s.writers && Holds(s.writers[0], 0) && 1 in s.writers && Holds(s.writers[1], 0)
    ensures !Disjoint(INIT, run) && CanDoubleFree(After(INIT, run))
  {
    if Disjoint(INIT, run) {
      SingleFromInit(run);
    }
    DoubleFreeExactlyOnOverlap(run);
  }

  /** Two writers, and the first cell still published. */
  ghost predicate Pair(s: State) {
    s.exit.Loaded? && s.current == Some(0) && 0 in s.writers && 1 in s.writers
  }

  lemma PairAdvances(before: seq<Step>, l: Step) returns (run: seq<Step>)
    requires Orderly(before, 2) && Pair(After(INIT, before)) && Enabled(After(INIT, before), l)
    requires l in [Allocate(0), Allocate(1), Capture(0), Capture(1)]
    ensures Orderly(run, 2) && Pair(After(INIT, run))
    ensures var s, t := After(INIT, before), After(INIT, run);
      && t.writers[1 - l.w] == s.writers[1 - l.w]
      && if l.Allocate? then t.writers[l.w].Fresh? else Holds(t.writers[l.w], 0)
  {
    run := Then(before, l, 2);
  }

  lemma PairBegins() returns (run: seq<Step>)
    ensures Orderly(run, 2) && Pair(After(INIT, run))
    ensures After(INIT, run).writers[0].Called? && After(INIT, run).writers[1].Called?
  {
    run := Start(2);
    run := Then(run, BeginWrite(0, 1), 2);
    run := Then(run, BeginWrite(1, 2), 2);
  }

  /** Two writers that capture the same cell, built step by step: the hypothesis is needed. */
  lemma OverlappingWriters() returns (run: seq<Step>)
    ensures Orderly(run, 2) && !Disjoint(INIT, run) && CanDoubleFree(After(INIT, run))
  {
    run := PairBegins();
    run := PairAdvances(run, Allocate(0));
    run := PairAdvances(run, Allocate(1));
    run := PairAdvances(run, Capture(0));
    run := PairAdvances(run, Capture(1));
    SharedCapture(run);
  }
}
