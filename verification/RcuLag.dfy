/**
 How far the sections of lab9/ex2 lag behind its writers: the driver refines the register of
 `SharedRegister`, with exactly as much staleness as writes may be in progress.
 */
module RcuLag {
  import opened Options
  import opened SharedRegister
  import opened RcuCell

  // ---------- Every version a section has missed has a writer that waits for it ----------

  ghost predicate ReplacedBy(s: State, w: nat, v: nat, r: nat) {
    w in s.writers && Retires(s.writers[w]) && s.writers[w].replaced == v && Shields(s.writers[w], r)
  }

  /** Only the exit publishes NULL, and once. */
  ghost predicate ClearedOnce(s: State) {
    && s.history != []
    && (forall i :: 0 <= i < |s.history| && s.history[i].None? ==> s.exit.Returned?)
    && (forall i, j :: 0 <= i < j < |s.history| && s.history[i].None? ==> s.history[j].Some?)
  }

  /** Version `v` is the one section `r` took or a later one, and a write has replaced it. */
  predicate Missed(s: State, r: nat, v: nat) {
    && r in s.readers && s.readers[r].Holding?
    && s.readers[r].version <= v && v + 1 < |s.history| && s.history[v + 1].Some?
  }

  /** For every such version, the writer that replaced it still waits for the section. */
  ghost predicate Lag(s: State) {
    forall r, v :: Missed(s, r, v) ==> exists w :: ReplacedBy(s, w, v, r)
  }

  lemma ClearedOnceKept(s: State, l: Step)
    requires ClearedOnce(s) && NewLive(s) && Enabled(s, l)
    ensures ClearedOnce(Apply(s, l))
  {}

  lemma WriterStillWaits(s: State, l: Step, w: nat, v: nat, r: nat)
    requires Enabled(s, l) && ReplacedBy(s, w, v, r) && r in s.readers
    ensures ReplacedBy(Apply(s, l), w, v, r)
  {}

  lemma LagKept(s: State, l: Step)
    requires ClearedOnce(s) && Lag(s) && SectionIds(s) && SectionCells(s) && Enabled(s, l)
    ensures Lag(Apply(s, l))
  {
    var t := Apply(s, l);
    forall r, v: nat | Missed(t, r, v)
      ensures exists w :: ReplacedBy(t, w, v, r)
    {
      if v + 1 < |s.history| {
        assert Missed(s, r, v);
        var w :| ReplacedBy(s, w, v, r);
        WriterStillWaits(s, l, w, v, r);
      } else {
        assert ReplacedBy(t, l.w, v, r);
      }
    }
  }

  /** The writers that replaced version `v` or a later one. */
  ghost function Replacers(s: State, v: nat): set<nat> {
    set w | w in s.writers && Retires(s.writers[w]) && s.writers[w].replaced >= v
  }

  /** The exit's NULL among the versions after `v`. */
  function Clears(h: History, v: nat): nat {
    if exists i :: v < i < |h| && h[i].None? then 1 else 0
  }

  lemma {:induction false} ReplacersCount(s: State, r: nat, v: nat)
    requires ClearedOnce(s) && Lag(s) && r in s.readers && s.readers[r].Holding?
    requires s.readers[r].version <= v < |s.history|
    ensures |Replacers(s, v)| + Clears(s.history, v) >= |s.history| - 1 - v
    decreases |s.history| - v
  {
    if v + 1 < |s.history| {
      ReplacersCount(s, r, v + 1);
      if s.history[v + 1].Some? {
        assert Missed(s, r, v);
        var w :| ReplacedBy(s, w, v, r);
        SubsetSize(Replacers(s, v + 1) + {w}, Replacers(s, v));
      } else {
        SubsetSize(Replacers(s, v + 1), Replacers(s, v));
      }
    }
  }

  ghost predicate Lagging(s: State) {
    Base(s) && Lag(s) && ClearedOnce(s)
  }

  /** A section lags behind by at most one version for each write in progress, and one if the exit has overtaken it. */
  lemma LagBounded(s: State, r: nat)
    requires Lagging(s) && r in s.readers && s.readers[r].Holding?
    ensures var c := s.readers[r];
            Recent(s.history, c.version, Lookup(s.heap, c.cell), |s.writers| + Clears(s.history, c.version))
  {
    var v := s.readers[r].version;
    ReplacersCount(s, r, v);
    SubsetSize(Replacers(s, v), s.writers.Keys);
  }

  lemma LaggingKept(s: State, l: Step)
    requires Lagging(s) && Enabled(s, l) && !Harms(s, l)
    ensures Lagging(Apply(s, l))
  {
    BaseKept(s, l);
    LagKept(s, l);
    ClearedOnceKept(s, l);
  }

  // ---------- Sections the exit overtakes ----------

  /** The exit clears the pointer while a section holds a cell. */
  predicate Overtakes(s: State, l: Step) {
    l.ExitClear? && exists r <- s.readers :: s.readers[r].Holding?
  }

  predicate NotOvertaken(s: State, run: seq<Step>)
    requires Legal(s, run)
    decreases |run|
  {
    run == [] || (!Overtakes(s, run[0]) && NotOvertaken(Apply(s, run[0]), run[1..]))
  }

  ghost predicate NoneBehindExit(s: State) {
    forall r :: r in s.readers && s.readers[r].Holding? ==> Clears(s.history, s.readers[r].version) == 0
  }

  lemma NoneBehindExitKept(s: State, l: Step)
    requires NoneBehindExit(s) && NewLive(s) && SectionIds(s) && Enabled(s, l) && !Overtakes(s, l)
    ensures NoneBehindExit(Apply(s, l))
  {
    var t := Apply(s, l);
    forall r, i | r in t.readers && t.readers[r].Holding? && t.readers[r].version < i < |t.history|
      ensures t.history[i].Some?
    {
      assert r in s.readers && s.readers[r].Holding? ==> Clears(s.history, s.readers[r].version) == 0;
    }
  }

  // ---------- The driver refines the register ----------

  /** What a step shows to an observer of the register. */
  function Observe(s: State, l: Step): Event
    requires Enabled(s, l)
  {
    match l
    case BeginRead => Began(s.nextSection)
    case Deref(r) => if s.current.None? then Saw(r, Latest(s.history), None) else Silent
    case ReadCell(r) => Saw(r, s.readers[r].version, Lookup(s.heap, s.readers[r].cell))
    case Publish(w) => if s.writers[w].cell in s.heap then Wrote(s.heap[s.writers[w].cell]) else Cleared
    case ExitClear => Cleared
    case _ => Silent
  }

  function Trace(s: State, run: seq<Step>): seq<Event>
    requires Legal(s, run)
    decreases |run|
  {
    if run == [] then [] else [Observe(s, run[0])] + Trace(Apply(s, run[0]), run[1..])
  }

  /** The register's view of a section: it may see what the section has taken or can still take. */
  predicate Agrees(c: Reader, x: Section, h: History) {
    match c
    case Entered => x.Open? && x.since <= Latest(h)
    case Holding(_, v, _) => Within(x, v)
    case SawNull(_) => true
  }

  ghost predicate Linked(s: State, g: Register) {
    && g.history == s.history
    && forall r :: r in s.readers ==> r in g.sections && Agrees(s.readers[r], g.sections[r], s.history)
  }

  lemma LinkedKept(s: State, g: Register, l: Step)
    requires Linked(s, g) && SectionIds(s) && s.history != [] && Enabled(s, l)
    ensures Linked(Apply(s, l), Record(g, Observe(s, l)))
  {}

  lemma ObservationAllowed(s: State, g: Register, l: Step, k: nat)
    requires Lagging(s) && Linked(s, g) && |s.writers| <= k && Enabled(s, l)
    ensures Allowed(g, Observe(s, l), k + 1)
    ensures NoneBehindExit(s) ==> Allowed(g, Observe(s, l), k)
  {
    if l.ReadCell? { LagBounded(s, l.r); }
  }

  lemma {:induction false} TraceAccepted(s: State, g: Register, run: seq<Step>, k: nat)
    requires Lagging(s) && Linked(s, g) && |s.writers| <= k
    requires Legal(s, run) && HarmlessExit(s, run) && Limited(s, run, k)
    ensures Accepts(g, Trace(s, run), k + 1)
    ensures NoneBehindExit(s) && NotOvertaken(s, run) ==> Accepts(g, Trace(s, run), k)
    decreases |run|
  {
    if run != [] {
      var l := run[0];
      ObservationAllowed(s, g, l, k);
      LinkedKept(s, g, l);
      FewWriters(s, l, k);
      LaggingKept(s, l);
      if NoneBehindExit(s) && !Overtakes(s, l) { NoneBehindExitKept(s, l); }
      TraceAccepted(Apply(s, l), Record(g, Observe(s, l)), run[1..], k);
    }
  }

  lemma LaggingAtInit()
    ensures Lagging(INIT) && NoneBehindExit(INIT) && Linked(INIT, START)
  {
    BaseFromInit([]);
  }

  /**
   With at most `k` writes in progress the driver is a register whose sections lag at most `k`
   versions, and at most one more if the exit overtakes one without harm.
   */
  lemma RefinesRegister(run: seq<Step>, k: nat)
    requires Legal(INIT, run) && HarmlessExit(INIT, run) && Limited(INIT, run, k)
    ensures Accepts(START, Trace(INIT, run), k + 1)
    ensures NotOvertaken(INIT, run) ==> Accepts(START, Trace(INIT, run), k)
  {
    LaggingAtInit();
    TraceAccepted(INIT, START, run, k);
  }

  /** The observer sees every read: what the step adds to the section's values. */
  lemma ReadsAreObserved(s: State, r: nat)
    requires Enabled(s, ReadCell(r))
    ensures var t, e := Apply(s, ReadCell(r)), Observe(s, ReadCell(r));
      e.Saw? && e.r == r && t.readers[r].seen == s.readers[r].seen + [e.seen]
  {}

  // ---------- The lag is real ----------

  lemma {:induction false} ExtendTrace(s: State, run: seq<Step>, l: Step)
    requires Legal(s, run) && Enabled(After(s, run), l)
    ensures Legal(s, run + [l])
    ensures Trace(s, run + [l]) == Trace(s, run) + [Observe(After(s, run), l)]
    ensures NotOvertaken(s, run) && !Overtakes(After(s, run), l) ==> NotOvertaken(s, run + [l])
    decreases |run|
  {
    Extend(s, run, l);
    if run == [] {
      assert [l][1..] == [];
    } else {
      ExtendTrace(Apply(s, run[0]), run[1..], l);
      assert (run + [l])[1..] == run[1..] + [l];
    }
  }

  /** An orderly run in which the exit overtakes no section. */
  ghost predicate Timely(run: seq<Step>, k: nat) {
    Orderly(run, k) && NotOvertaken(INIT, run)
  }

  lemma ExtendTimely(run: seq<Step>, l: Step, k: nat)
    requires Timely(run, k) && Enabled(After(INIT, run), l)
    requires !Harms(After(INIT, run), l) && !Overtakes(After(INIT, run), l)
    requires l.BeginWrite? ==> |After(INIT, run).writers| < k
    ensures Timely(run + [l], k) && After(INIT, run + [l]) == Apply(After(INIT, run), l)
  {
    ExtendOrderly(run, l, k);
    ExtendTrace(INIT, run, l);
  }

  /** `n` writers are in progress, `versions` versions were published, a section still holds the first cell. */
  ghost predicate Behind(s: State, n: nat, versions: nat) {
    && s.exit.Loaded? && s.readers == map[0 := Holding(0, 0, [])] && |s.history| == versions + 1
    && (versions > 0 ==> s.current != Some(0))
    && |s.writers| == n && forall w :: w in s.writers ==> w < n
  }

  lemma BehindStep(s: State, n: nat, l: Step)
    requires Behind(s, n + 1, n) && NewNotHeld(s)
    requires Enabled(s, l) && (l == Allocate(n) || l == Capture(n) || l == Publish(n))
    ensures Behind(Apply(s, l), n + 1, if l.Publish? then n + 1 else n)
  {
    assert Apply(s, l).writers.Keys == s.writers.Keys;
    assert |Apply(s, l).writers.Keys| == n + 1;
    assert s.readers[0].Holding?;
  }

  lemma BehindBegins(s: State, n: nat, arg: nat)
    requires Behind(s, n, n)
    ensures Enabled(s, BeginWrite(n, arg)) && Behind(Apply(s, BeginWrite(n, arg)), n + 1, n)
  {
    assert Apply(s, BeginWrite(n, arg)).writers.Keys == s.writers.Keys + {n};
    assert |Apply(s, BeginWrite(n, arg)).writers.Keys| == n + 1;
  }

  /** The next step of the latest writer, towards its publication. */
  lemma BehindAdvances(before: seq<Step>, n: nat, l: Step, k: nat) returns (run: seq<Step>)
    requires n < k && Timely(before, k) && Behind(After(INIT, before), n + 1, n)
    requires Enabled(After(INIT, before), l) && (l == Allocate(n) || l == Capture(n) || l == Publish(n))
    ensures Timely(run, k) && After(INIT, run) == Apply(After(INIT, before), l)
    ensures Behind(After(INIT, run), n + 1, if l.Publish? then n + 1 else n)
  {
    BaseFromInit(before);
    BehindStep(After(INIT, before), n, l);
    ExtendTimely(before, l, k);
    run := before + [l];
  }

  /** One more writer publishes, and does not come to its grace period. */
  lemma OneMoreBehind(before: seq<Step>, n: nat, k: nat) returns (run: seq<Step>)
    requires n < k && Timely(before, k) && Behind(After(INIT, before), n, n)
    ensures Timely(run, k) && Behind(After(INIT, run), n + 1, n + 1)
  {
    BehindBegins(After(INIT, before), n, n + 1);
    ExtendTimely(before, BeginWrite(n, n + 1), k);
    run := before + [BeginWrite(n, n + 1)];
    run := BehindAdvances(run, n, Allocate(n), k);
    run := BehindAdvances(run, n, Capture(n), k);
    run := BehindAdvances(run, n, Publish(n), k);
  }

  lemma {:induction false} LagReached(n: nat, k: nat) returns (run: seq<Step>)
    requires n <= k
    ensures Timely(run, k) && Behind(After(INIT, run), n, n)
    decreases n
  {
    if n > 0 {
      var before := LagReached(n - 1, k);
      run := OneMoreBehind(before, n - 1, k);
    } else {
      run := [];
      ExtendTimely(run, BeginRead, k);
      run := [BeginRead];
      assert [] + [BeginRead] == run;
      ExtendTimely(run, Deref(0), k);
      run := run + [Deref(0)];
    }
  }

  lemma {:induction false} TraceRecords(s: State, g: Register, run: seq<Step>)
    requires Legal(s, run) && g.history == s.history
    ensures After(s, run).history == RecordAll(g, Trace(s, run)).history
    decreases |run|
  {
    if run != [] {
      TraceRecords(Apply(s, run[0]), Record(g, Observe(s, run[0])), run[1..]);
      assert Trace(s, run)[1..] == Trace(Apply(s, run[0]), run[1..]);
    }
  }

  /** A read of section 0, now, shows its lag. */
  lemma LagSeen(before: seq<Step>, k: nat, bound: nat) returns (run: seq<Step>)
    requires Orderly(before, k) && Enabled(After(INIT, before), ReadCell(0))
    requires After(INIT, before).readers[0].version + 1 + bound < |After(INIT, before).history|
    ensures Orderly(run, k) && (Timely(before, k) ==> Timely(run, k))
    ensures !Accepts(START, Trace(INIT, run), bound)
  {
    var s := After(INIT, before);
    ExtendTrace(INIT, before, ReadCell(0));
    ExtendOrderly(before, ReadCell(0), k);
    if Timely(before, k) { ExtendTimely(before, ReadCell(0), k); }
    run := before + [ReadCell(0)];
    if Accepts(START, Trace(INIT, run), bound) {
      LastAllowed(START, Trace(INIT, before), Observe(s, ReadCell(0)), bound);
      TraceRecords(INIT, START, before);
    }
  }

  /** Orderly runs in which the exit overtakes nobody keep within a lag exactly when it is at least `k`. */
  lemma LagIsNumberOfWriters(k: nat, bound: nat)
    ensures (forall run :: Timely(run, k) ==> Accepts(START, Trace(INIT, run), bound)) <==> k <= bound
  {
    if k <= bound {
      forall run | Timely(run, k)
        ensures Accepts(START, Trace(INIT, run), bound)
      {
        RefinesRegister(run, k);
        AcceptsLooser(START, Trace(INIT, run), k, bound);
      }
    } else {
      var before := LagReached(k, k);
      var run := LagSeen(before, k, bound);
    }
  }

  /** The exit overtakes a section that is already as far behind as writers can leave it. */
  lemma OvertakenReached(k: nat) returns (run: seq<Step>)
    requires k > 0
    ensures Orderly(run, k) && Enabled(After(INIT, run), ReadCell(0))
    ensures After(INIT, run).readers[0].version == 0 && |After(INIT, run).history| == k + 2
  {
    var before := LagReached(k, k);
    ExtendOrderly(before, ExitFree, k);
    run := before + [ExitFree];
    ExtendOrderly(run, ExitClear, k);
    run := run + [ExitClear];
  }

  /** Without writes every section holds the one cell, so a harmless exit finds no section holding any. */
  ghost predicate Unwritten(s: State) {
    && s.writers == map[] && (!s.exit.Returned? ==> s.current.Some?)
    && (s.exit.Loaded? ==>
          forall r :: r in s.readers && s.readers[r].Holding? ==> s.current == Some(s.readers[r].cell))
    && (s.exit.Freeing? ==> s.exit.cell == s.current && forall r :: r in s.readers ==> !s.readers[r].Holding?)
  }

  lemma {:induction false} UnwrittenIsNotOvertaken(s: State, run: seq<Step>)
    requires Unwritten(s) && Legal(s, run) && HarmlessExit(s, run) && Limited(s, run, 0)
    ensures NotOvertaken(s, run)
    decreases |run|
  {
    if run != [] {
      assert Unwritten(Apply(s, run[0]));
      UnwrittenIsNotOvertaken(Apply(s, run[0]), run[1..]);
    }
  }

  lemma LagBoundWithExit(run: seq<Step>, k: nat)
    requires Orderly(run, k)
    ensures Accepts(START, Trace(INIT, run), if k == 0 then 0 else k + 1)
  {
    if k == 0 { UnwrittenIsNotOvertaken(INIT, run); }
    RefinesRegister(run, k);
  }

  /** All orderly runs keep within a lag exactly when it is at least `k + 1`, or 0 if there are no writes at all. */
  lemma LagWithExit(k: nat, bound: nat)
    ensures (forall run :: Orderly(run, k) ==> Accepts(START, Trace(INIT, run), bound)) <==>
            (if k == 0 then 0 else k + 1) <= bound
  {
    var least := if k == 0 then 0 else k + 1;
    if least <= bound {
      forall run | Orderly(run, k)
        ensures Accepts(START, Trace(INIT, run), bound)
      {
        LagBoundWithExit(run, k);
        AcceptsLooser(START, Trace(INIT, run), least, bound);
      }
    } else {
      var before := OvertakenReached(k);
      var run := LagSeen(before, k, bound);
    }
  }
}
