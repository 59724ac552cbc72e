/**
 The calls of lab5/ch4 as whole runs: what can always happen next, how a call ends, and that each
 runs its statements in the order of the source.
 */
module QueueCalls {
  import opened Options
  import opened MessageQueue

  // ---------- Two readers do reach it ----------

  /** `t` is `s` after the step `l`, which leaves its process in phase `c`. */
  predicate Moved(s: State, l: Step, c: Phase, t: State)
    requires Enabled(s, l) && !l.Exit?
  {
    && t.procs == s.procs[l.p := c] && t.loaded == s.loaded
    && t.holder == NextHolder(s, l) && t.queue == NextQueue(s, l)
    && t.added == NextAdded(s, l) && t.taken == NextTaken(s, l)
  }

  lemma Proceed(before: seq<Step>, l: Step, c: Phase) returns (run: seq<Step>)
    requires Legal(INIT, before) && Enabled(After(INIT, before), l) && !l.Exit? && !l.WakeUp?
    requires NextPhase(After(INIT, before), l) == Some(c)
    ensures Legal(INIT, run) && Moved(After(INIT, before), l, c, After(INIT, run))
  {
    ExtendBy(INIT, before, l);
    run := before + [l];
  }

  lemma {:induction false} ExtendBy(s: State, run: seq<Step>, l: Step)
    requires Legal(s, run) && Enabled(After(s, run), l)
    ensures Legal(s, run + [l]) && After(s, run + [l]) == Apply(After(s, run), l)
    decreases |run|
  {
    var all := run + [l];
    if run == [] {
      assert all == [l] && all[1..] == [];
    } else {
      var t := Apply(s, run[0]);
      ExtendBy(t, run[1..], l);
      assert all[0] == run[0] && all[1..] == run[1..] + [l];
      assert Legal(t, all[1..]) && After(t, all[1..]) == Apply(After(t, run[1..]), l);
    }
  }

  /** What a writer does not touch until it links: everybody else, the lock, the list and the record. */
  datatype Scene = Scene(others: map<nat, Phase>, holder: Option<nat>, queue: seq<Entry>, added: seq<Msg>,
                         taken: seq<Taken>)

  function SceneOf(s: State): Scene {
    Scene(s.procs, s.holder, s.queue, s.added, s.taken)
  }

  /** In that scene process `p`, which had no part in it, is in phase `c`. */
  ghost predicate Enters(s: State, p: nat, c: Phase, x: Scene) {
    && s.loaded && p !in x.others && s.procs == x.others[p := c]
    && s.holder == x.holder && s.queue == x.queue && s.added == x.added && s.taken == x.taken
  }

  function SceneAfter(x: Scene, l: Step, c: Phase): Scene {
    if l.Acquire? then x.(holder := Some(l.p))
    else if l.Release? then x.(holder := None)
    else if l.AddTail? && c.WLocked? then x.(queue := x.queue + [c.entry], added := x.added + [c.input])
    else x
  }

  lemma SceneKept(s: State, l: Step, c: Phase, d: Phase, x: Scene, t: State)
    requires Enabled(s, l) && !l.Exit? && !l.WakeUp? && !l.Recheck? && !l.CopyToUser? && Enters(s, l.p, c, x)
    requires Moved(s, l, d, t)
    ensures Enters(t, l.p, d, SceneAfter(x, l, c))
  {
    assert x.others[l.p := c][l.p := d] == x.others[l.p := d];
  }

  lemma WriterAdvances(before: seq<Step>, l: Step, c: Phase, d: Phase, x: Scene) returns (run: seq<Step>)
    requires Legal(INIT, before) && !l.Exit? && Enters(After(INIT, before), l.p, c, x)
    requires Enabled(After(INIT, before), l) && !l.WakeUp? && !l.Recheck? && !l.CopyToUser?
    requires NextPhase(After(INIT, before), l) == Some(d)
    ensures Legal(INIT, run) && Enters(After(INIT, run), l.p, d, SceneAfter(x, l, c))
  {
    run := Proceed(before, l, d);
    SceneKept(After(INIT, before), l, c, d, x, After(INIT, run));
  }

  lemma WriterAllocates(before: seq<Step>, q: nat, m: Msg) returns (run: seq<Step>, a: nat)
    requires Legal(INIT, before) && After(INIT, before).loaded && q !in After(INIT, before).procs
    ensures Legal(INIT, run) && Enters(After(INIT, run), q, WNode(m, a), SceneOf(After(INIT, before)))
  {
    var x := SceneOf(After(INIT, before));
    run := Proceed(before, CallWrite(q, m), WStart(m));
    a := After(INIT, run).nextBlock;
    run := WriterAdvances(run, KmallocNode(q, true), WStart(m), WNode(m, a), x);
  }

  lemma WriterFills(before: seq<Step>, q: nat, m: Msg) returns (run: seq<Step>, e: Entry)
    requires Legal(INIT, before) && After(INIT, before).loaded && q !in After(INIT, before).procs
    ensures Legal(INIT, run) && Enters(After(INIT, run), q, WReady(m, e), SceneOf(After(INIT, before)))
  {
    var x := SceneOf(After(INIT, before));
    var a;
    run, a := WriterAllocates(before, q, m);
    e := Entry(a, After(INIT, run).nextBlock);
    run := WriterAdvances(run, KmallocMsg(q, true), WNode(m, a), WBoth(m, e), x);
    run := WriterAdvances(run, CopyFromUser(q, true), WBoth(m, e), WReady(m, e), x);
  }

  /** A whole write up to its wake-up: the message is at the end of the list, and the lock is free. */
  lemma WriterLinks(before: seq<Step>, q: nat, m: Msg) returns (run: seq<Step>, e: Entry)
    requires Legal(INIT, before) && After(INIT, before).loaded && q !in After(INIT, before).procs
    requires After(INIT, before).holder.None?
    ensures Legal(INIT, run)
    ensures var s := After(INIT, before);
      Enters(After(INIT, run), q, WWaking, SceneOf(s).(queue := s.queue + [e], added := s.added + [m]))
  {
    var x := SceneOf(After(INIT, before));
    run, e := WriterFills(before, q, m);
    run := WriterAdvances(run, Acquire(q), WReady(m, e), WLocked(m, e), x);
    x := x.(holder := Some(q));
    run := WriterAdvances(run, AddTail(q), WLocked(m, e), WLinked, x);
    x := x.(queue := x.queue + [e], added := x.added + [m]);
    run := WriterAdvances(run, Release(q), WLinked, WWaking, x);
  }

  /** A reader enters and finds the message without the lock. */
  lemma ReaderPasses(before: seq<Step>, p: nat) returns (run: seq<Step>)
    requires Legal(INIT, before)
    requires var s := After(INIT, before); s.loaded && s.queue != [] && p !in s.procs
    ensures Legal(INIT, run)
    ensures var s, t := After(INIT, before), After(INIT, run);
      && t.loaded && t.holder == s.holder && t.queue == s.queue
      && t.procs.Keys == s.procs.Keys + {p} && t.procs[p].RPassed?
      && forall q :: q in s.procs ==> t.procs[q] == s.procs[q]
  {
    run := Proceed(before, CallRead(p), RFirst);
    run := Proceed(run, TestFirst(p), RPassed(|After(INIT, run).taken|));
  }

  /** A reader takes the lock and looks again. */
  lemma ReaderLooksAgain(before: seq<Step>, p: nat) returns (run: seq<Step>)
    requires Legal(INIT, before)
    requires var s := After(INIT, before); s.holder.None? && p in s.procs && s.procs[p].RPassed?
    ensures Legal(INIT, run)
    ensures var s, t := After(INIT, before), After(INIT, run);
      && t.holder == Some(p) && p in t.procs && t.queue == (if s.queue == [] then [] else s.queue[1..])
      && (if s.queue == [] then t.procs[p].REmpty? else t.procs[p].RTaken?)
      && forall q :: q in s.procs && q != p ==> q in t.procs && t.procs[q] == s.procs[q]
  {
    var s := After(INIT, before);
    run := Proceed(before, Acquire(p), RLocked(s.procs[p].seen));
    var u := After(INIT, run);
    run := Proceed(run, Recheck(p), NextPhase(u, Recheck(p)).value);
  }

  lemma ReaderReleases(before: seq<Step>, p: nat) returns (run: seq<Step>)
    requires Legal(INIT, before) && p in After(INIT, before).procs && After(INIT, before).procs[p].RTaken?
    ensures Legal(INIT, run)
    ensures var s, t := After(INIT, before), After(INIT, run);
      && t.holder.None? && t.queue == s.queue
      && forall q :: q in s.procs && q != p ==> q in t.procs && t.procs[q] == s.procs[q]
  {
    var c := After(INIT, before).procs[p];
    run := Proceed(before, Release(p), RCopying(c.entry, c.copy, c.ticket));
  }

  lemma OneReaderPasses(m: Msg) returns (run: seq<Step>)
    ensures Legal(INIT, run)
    ensures var s := After(INIT, run);
      s.loaded && s.holder.None? && |s.queue| == 1 && 1 in s.procs && 2 !in s.procs && s.procs[1].RPassed?
  {
    var e;
    run, e := WriterLinks([], 0, m);
    run := ReaderPasses(run, 1);
  }

  /** Two readers have passed the wait for the one message. */
  lemma TwoReadersPass(m: Msg) returns (run: seq<Step>)
    ensures Legal(INIT, run)
    ensures var s := After(INIT, run);
      && s.holder.None? && |s.queue| == 1 && 1 in s.procs && 2 in s.procs
      && s.procs[1].RPassed? && s.procs[2].RPassed?
  {
    run := OneReaderPasses(m);
    run := ReaderPasses(run, 2);
  }

  /** The first of them takes it and releases the lock. */
  lemma FirstReaderTakes(m: Msg) returns (run: seq<Step>)
    ensures Legal(INIT, run)
    ensures var s := After(INIT, run);
      s.holder.None? && s.queue == [] && 2 in s.procs && s.procs[2].RPassed?
  {
    run := TwoReadersPass(m);
    run := ReaderLooksAgain(run, 1);
    run := ReaderReleases(run, 1);
  }

  /** With two readers the -EFAULT exit of the re-check is reached: the second finds the list empty. */
  lemma TwoReadersReachEmpty(m: Msg) returns (run: seq<Step>)
    ensures Legal(INIT, run) && 2 in After(INIT, run).procs && After(INIT, run).procs[2].REmpty?
  {
    run := FirstReaderTakes(m);
    run := ReaderLooksAgain(run, 2);
  }

  // ---------- A read blocks until there is a message, or a signal ----------

  /** On an empty list a reader goes to sleep on the wait queue. */
  lemma ReaderSleeps(before: seq<Step>, p: nat) returns (run: seq<Step>)
    requires Legal(INIT, before)
    requires var s := After(INIT, before); s.loaded && s.queue == [] && p !in s.procs
    ensures Legal(INIT, run)
    ensures Enters(After(INIT, run), p, RAsleep(true), SceneOf(After(INIT, before)))
  {
    var x := SceneOf(After(INIT, before));
    run := Proceed(before, CallRead(p), RFirst);
    run := WriterAdvances(run, TestFirst(p), RFirst, RPrepare(false), x);
    run := WriterAdvances(run, Prepare(p, false), RPrepare(false), RRetest(true, false), x);
    run := WriterAdvances(run, TestAgain(p), RRetest(true, false), RAsleep(true), x);
  }

  /** The wake-up at the end of a write rouses the sleeper. */
  lemma WriterWakes(before: seq<Step>, q: nat, p: nat) returns (run: seq<Step>)
    requires Legal(INIT, before) && Enabled(After(INIT, before), WakeUp(q))
    requires AsleepUnwoken(After(INIT, before), p)
    ensures Legal(INIT, run)
    ensures var s, t := After(INIT, before), After(INIT, run);
      && t.loaded == s.loaded && t.holder == s.holder && t.queue == s.queue && t.added == s.added && t.taken == s.taken
      && p in t.procs && t.procs[p] == RAsleep(false)
  {
    ExtendBy(INIT, before, WakeUp(q));
    run := before + [WakeUp(q)];
    OthersKept(After(INIT, before), WakeUp(q), p);
  }

  /** A roused reader that finds a message passes the wait. */
  lemma ReaderWakes(before: seq<Step>, p: nat) returns (run: seq<Step>)
    requires Legal(INIT, before) && p in After(INIT, before).procs
    requires After(INIT, before).procs[p] == RAsleep(false) && After(INIT, before).queue != []
    ensures Legal(INIT, run)
    ensures var s, t := After(INIT, before), After(INIT, run);
      && t.holder == s.holder && t.queue == s.queue && t.added == s.added && t.taken == s.taken
      && p in t.procs && t.procs[p].RPassed?
  {
    run := Proceed(before, Resume(p, false), RPrepare(false));
    run := Proceed(run, Prepare(p, false), RRetest(true, false));
    run := Proceed(run, TestAgain(p), RPassed(|After(INIT, run).taken|));
  }

  lemma ReaderUnlinks(before: seq<Step>, p: nat) returns (run: seq<Step>)
    requires Legal(INIT, before) && p in After(INIT, before).procs
    requires var s := After(INIT, before); s.procs[p].RLocked? && s.queue != []
    ensures Legal(INIT, run)
    ensures var s, t := After(INIT, before), After(INIT, run);
      && t.added == s.added && |t.taken| == |s.taken| + 1
      && p in t.procs && t.procs[p].RTaken? && t.procs[p].ticket == |s.taken|
  {
    var s := After(INIT, before);
    run := Proceed(before, Recheck(p), RTaken(s.queue[0], Fetch(s.memory, s.queue[0].msg), |s.taken|));
  }

  lemma ReaderLocks(before: seq<Step>, p: nat) returns (run: seq<Step>)
    requires Legal(INIT, before) && p in After(INIT, before).procs
    requires After(INIT, before).procs[p].RPassed? && After(INIT, before).holder.None?
    ensures Legal(INIT, run)
    ensures var s, t := After(INIT, before), After(INIT, run);
      t.queue == s.queue && t.added == s.added && t.taken == s.taken && p in t.procs && t.procs[p].RLocked?
  {
    run := Proceed(before, Acquire(p), RLocked(After(INIT, before).procs[p].seen));
  }

  lemma ReaderUnlocks(before: seq<Step>, p: nat) returns (run: seq<Step>)
    requires Legal(INIT, before) && p in After(INIT, before).procs && After(INIT, before).procs[p].RTaken?
    ensures Legal(INIT, run)
    ensures var s, t := After(INIT, before), After(INIT, run);
      && t.added == s.added && t.taken == s.taken
      && p in t.procs && t.procs[p].RCopying? && t.procs[p].ticket == s.procs[p].ticket
  {
    var c := After(INIT, before).procs[p];
    run := Proceed(before, Release(p), RCopying(c.entry, c.copy, c.ticket));
  }

  lemma ReaderTakes(before: seq<Step>, p: nat) returns (run: seq<Step>)
    requires Legal(INIT, before) && p in After(INIT, before).procs
    requires var s := After(INIT, before); s.procs[p].RPassed? && s.holder.None? && s.queue != []
    ensures Legal(INIT, run)
    ensures var s, t := After(INIT, before), After(INIT, run);
      && t.added == s.added && |t.taken| == |s.taken| + 1
      && p in t.procs && t.procs[p].RCopying? && t.procs[p].ticket == |s.taken|
  {
    run := ReaderLocks(before, p);
    run := ReaderUnlinks(run, p);
    run := ReaderUnlocks(run, p);
  }

  /** A successful copy of the message taken last delivers the one linked last, if they are as many. */
  lemma ReaderDelivers(before: seq<Step>, p: nat) returns (run: seq<Step>)
    requires Legal(INIT, before) && p in After(INIT, before).procs
    requires var s := After(INIT, before);
      s.procs[p].RCopying? && |s.taken| > 0 && s.procs[p].ticket == |s.taken| - 1 && |s.added| == |s.taken|
    ensures Legal(INIT, run)
    ensures var s, t := After(INIT, before), After(INIT, run);
      |t.taken| > 0 && t.taken[|t.taken| - 1] == Taken(p, s.added[|s.added| - 1], Delivered(s.added[|s.added| - 1]))
  {
    CopySettles(before, p, true);
    ExtendBy(INIT, before, CopyToUser(p, true));
    run := before + [CopyToUser(p, true)];
  }

  /**
   What the driver is for: from every reachable state with an empty list and the lock free, a reader
   sleeps, the next write of `m` wakes it, and its user gets `m`.
   */
  lemma SleeperIsServed(before: seq<Step>, p: nat, q: nat, m: Msg) returns (asleep: seq<Step>, run: seq<Step>)
    requires Legal(INIT, before) && p != q
    requires var s := After(INIT, before); s.loaded && s.queue == [] && s.holder.None? && p !in s.procs && q !in s.procs
    ensures Legal(INIT, asleep) && AsleepUnwoken(After(INIT, asleep), p)
    ensures Legal(INIT, run)
    ensures var t := After(INIT, run); |t.taken| > 0 && t.taken[|t.taken| - 1] == Taken(p, m, Delivered(m))
  {
    asleep := ReaderSleeps(before, p);
    InvFromInit(asleep);
    var e;
    run, e := WriterLinks(asleep, q, m);
    run := WriterWakes(run, q, p);
    run := ReaderWakes(run, p);
    run := ReaderTakes(run, p);
    run := ReaderDelivers(run, p);
  }

  // ---------- Every call runs its statements in the order of the source ----------

  /** The latest step of each process. */
  function Latest(last: map<nat, Step>, run: seq<Step>): map<nat, Step>
    decreases |run|
  {
    if run == [] then last else Latest(NextLatest(last, run[0]), run[1..])
  }

  function NextLatest(last: map<nat, Step>, l: Step): map<nat, Step> {
    if l.Exit? then last else last[l.p := l]
  }

  /** The statement before the stepping one, in the same call; a kmalloc or copy that failed leads to the frees. */
  predicate Follows(last: map<nat, Step>, l: Step) {
    l.Exit? || l.CallWrite? || l.CallRead? ||
    (l.p in last &&
     var prev := last[l.p];
     match l
     case KmallocNode(_, _) => prev.CallWrite?
     case KmallocMsg(_, _) => prev.KmallocNode? && prev.ok
     case CopyFromUser(_, _) => prev.KmallocMsg? && prev.ok
     case Acquire(_) => (prev.CopyFromUser? && prev.ok) || prev.TestFirst? || prev.TestAgain?
     case AddTail(_) => prev.Acquire?
     case Release(_) => prev.AddTail? || prev.Recheck?
     case WakeUp(_) => prev.Release?
     case TestFirst(_) => prev.CallRead?
     case Prepare(_, _) => prev.TestFirst? || prev.Resume?
     case TestAgain(_) => prev.Prepare?
     case Resume(_, _) => prev.TestAgain?
     case Recheck(_) => prev.Acquire?
     case CopyToUser(_, _) => prev.Release?
     case KfreeMsg(_) => prev.CopyToUser? || (prev.CopyFromUser? && !prev.ok)
     case KfreeNode(_) => prev.KfreeMsg? || (prev.KmallocMsg? && !prev.ok))
  }

  predicate StandsAfter(c: Phase, prev: Step) {
    match c
    case WStart(_) => prev.CallWrite?
    case WNode(_, _) => prev.KmallocNode? && prev.ok
    case WBoth(_, _) => prev.KmallocMsg? && prev.ok
    case WReady(_, _) => prev.CopyFromUser? && prev.ok
    case WLocked(_, _) => prev.Acquire?
    case WLinked => prev.AddTail?
    case WWaking => prev.Release?
    case RFirst => prev.CallRead?
    case RPrepare(_) => prev.TestFirst? || prev.Resume?
    case RRetest(_, signalled) => prev.Prepare? && prev.signal == signalled
    case RAsleep(_) => prev.TestAgain?
    case RPassed(_) => prev.TestFirst? || prev.TestAgain?
    case RLocked(_) => prev.Acquire?
    case REmpty(_) => prev.Recheck?
    case RTaken(_, _, _) => prev.Recheck?
    case RCopying(_, _, _) => prev.Release?
    case Freeing(_) => prev.CopyToUser? || (prev.CopyFromUser? && !prev.ok)
    case FreeingNode(_) => prev.KfreeMsg? || (prev.KmallocMsg? && !prev.ok)
  }

  ghost predicate InOrder(s: State, last: map<nat, Step>) {
    forall p :: p in s.procs ==> p in last && !last[p].Exit? && last[p].p == p && StandsAfter(s.procs[p], last[p])
  }

  lemma InOrderStep(s: State, l: Step, last: map<nat, Step>)
    requires InOrder(s, last) && Enabled(s, l)
    ensures InOrder(Apply(s, l), NextLatest(last, l))
  {
    var t := Apply(s, l);
    forall p | p in t.procs
      ensures var n := NextLatest(last, l); p in n && !n[p].Exit? && n[p].p == p && StandsAfter(t.procs[p], n[p])
    {
      if !l.Exit? && p != l.p { OthersKept(s, l, p); }
    }
  }

  lemma {:induction false} InOrderAlong(s: State, run: seq<Step>, last: map<nat, Step>)
    requires InOrder(s, last) && Legal(s, run)
    ensures InOrder(After(s, run), Latest(last, run))
    decreases |run|
  {
    if run != [] {
      InOrderStep(s, run[0], last);
      InOrderAlong(Apply(s, run[0]), run[1..], NextLatest(last, run[0]));
    }
  }

  /** In every run a process steps from one statement of its call to a next one. */
  lemma ProgramOrder(run: seq<Step>, l: Step)
    requires Legal(INIT, run) && Enabled(After(INIT, run), l)
    ensures Follows(Latest(map[], run), l)
  {
    InOrderAlong(INIT, run, map[]);
  }

  /**
   How a call ends: a write after its wake-up or a failed allocation or copy, a read after its frees,
   after finding the list empty under the lock, or on a signal while the list is empty.
   */
  lemma OnlySignalsInterrupt(run: seq<Step>, l: Step)
    requires Legal(INIT, run) && Enabled(After(INIT, run), l) && !l.Exit?
    requires l.p in After(INIT, run).procs && l.p !in Apply(After(INIT, run), l).procs
    ensures var s, last := After(INIT, run), Latest(map[], run);
      || l.WakeUp? || l.KfreeNode? || (l.KmallocNode? && !l.ok)
      || (l.Release? && s.procs[l.p].REmpty?)
      || (l.TestAgain? && s.queue == [] && l.p in last && last[l.p] == Prepare(l.p, true))
  {
    InOrderAlong(INIT, run, map[]);
  }

  // ---------- Nothing gets stuck ----------

  /** No new call and no exit. */
  predicate Winding(run: seq<Step>) {
    forall i :: 0 <= i < |run| ==> Continues(run[i])
  }

  predicate Continues(l: Step) {
    !l.CallWrite? && !l.CallRead? && !l.Exit?
  }

  lemma Wind(s: State, run: seq<Step>, l: Step) returns (more: seq<Step>)
    requires Legal(s, run) && Winding(run) && Enabled(After(s, run), l) && Continues(l)
    ensures Legal(s, more) && Winding(more) && After(s, more) == Apply(After(s, run), l)
  {
    ExtendBy(s, run, l);
    more := run + [l];
  }

  function StepsLeft(c: Phase): nat {
    match c
    case WStart(_) => 7
    case WNode(_, _) => 6
    case WBoth(_, _) => 5
    case WReady(_, _) => 4
    case WLocked(_, _) => 3
    case WLinked => 2
    case WWaking => 1
    case RFirst => 9
    case RPrepare(_) => 8
    case RRetest(_, signalled) => if signalled then 7 else 10
    case RAsleep(_) => 9
    case RPassed(_) => 6
    case RLocked(_) => 5
    case REmpty(_) => 1
    case RTaken(_, _, _) => 4
    case RCopying(_, _, _) => 3
    case Freeing(_) => 2
    case FreeingNode(_) => 1
  }

  /** The next step of a call when every allocation and copy succeeds and a signal is pending. */
  function NextOf(p: nat, c: Phase): Step {
    match c
    case WStart(_) => KmallocNode(p, true)
    case WNode(_, _) => KmallocMsg(p, true)
    case WBoth(_, _) => CopyFromUser(p, true)
    case WReady(_, _) => Acquire(p)
    case WLocked(_, _) => AddTail(p)
    case WLinked => Release(p)
    case WWaking => WakeUp(p)
    case RFirst => TestFirst(p)
    case RPrepare(_) => Prepare(p, true)
    case RRetest(_, _) => TestAgain(p)
    case RAsleep(_) => Resume(p, true)
    case RPassed(_) => Acquire(p)
    case RLocked(_) => Recheck(p)
    case REmpty(_) => Release(p)
    case RTaken(_, _, _) => Release(p)
    case RCopying(_, _, _) => CopyToUser(p, true)
    case Freeing(_) => KfreeMsg(p)
    case FreeingNode(_) => KfreeNode(p)
  }

  lemma CallEnabled(s: State, p: nat)
    requires p in s.procs && (s.holder.None? || s.holder == Some(p))
    requires s.procs[p].WReady? || s.procs[p].RPassed? ==> s.holder.None?
    ensures Enabled(s, NextOf(p, s.procs[p])) && Continues(NextOf(p, s.procs[p]))
  {}

  lemma CallShorter(s: State, p: nat)
    requires p in s.procs && Enabled(s, NextOf(p, s.procs[p]))
    ensures var c := NextPhase(s, NextOf(p, s.procs[p])); c.Some? ==> StepsLeft(c.value) < StepsLeft(s.procs[p])
  {}

  lemma CallMoves(s: State, l: Step)
    requires Enabled(s, l) && !l.Exit? && (s.holder.None? || s.holder == Some(l.p))
    ensures var t := Apply(s, l);
      && t.loaded == s.loaded && (t.holder.None? || t.holder == Some(l.p))
      && t.procs.Keys - {l.p} == s.procs.Keys - {l.p}
      && (l.p in t.procs <==> NextPhase(s, l).Some?)
      && (l.p in t.procs ==> Some(t.procs[l.p]) == NextPhase(s, l))
  {}

  /** `u` is `t` after a step of the call `p`, which has the lock or leaves it free. */
  ghost predicate Closer(t: State, u: State, p: nat) {
    && u.loaded == t.loaded && Mutex(u) && (u.holder.None? || u.holder == Some(p))
    && u.procs.Keys - {p} == t.procs.Keys - {p}
    && (p in t.procs && p in u.procs ==> StepsLeft(u.procs[p]) < StepsLeft(t.procs[p]))
  }

  lemma CallStep(s: State, p: nat)
    requires Mutex(s) && p in s.procs && (s.holder.None? || s.holder == Some(p))
    ensures var l := NextOf(p, s.procs[p]);
      Enabled(s, l) && Continues(l) && Closer(s, Apply(s, l), p)
  {
    assert s.procs[p].WReady? || s.procs[p].RPassed? ==> !Critical(s.procs[p]);
    CallEnabled(s, p);
    CallShorter(s, p);
    CallMoves(s, NextOf(p, s.procs[p]));
    MutexKept(s, NextOf(p, s.procs[p]), Apply(s, NextOf(p, s.procs[p])));
  }

  /** It returns and leaves the lock free. */
  lemma {:induction false} FinishCall(s: State, run: seq<Step>, p: nat) returns (more: seq<Step>)
    requires Legal(s, run) && Winding(run) && Mutex(After(s, run)) && p in After(s, run).procs
    requires After(s, run).holder.None? || After(s, run).holder == Some(p)
    ensures Legal(s, more) && Winding(more) && Mutex(After(s, more))
    ensures var t, u := After(s, run), After(s, more);
      u.holder.None? && u.procs.Keys == t.procs.Keys - {p} && u.loaded == t.loaded
    decreases StepsLeft(After(s, run).procs[p])
  {
    CallStep(After(s, run), p);
    more := Wind(s, run, NextOf(p, After(s, run).procs[p]));
    if p in After(s, more).procs {
      more := FinishCall(s, more, p);
    }
  }

  /** All calls return, the one with the lock first. */
  lemma {:induction false} FinishCalls(s: State, run: seq<Step>) returns (more: seq<Step>)
    requires Legal(s, run) && Winding(run) && Mutex(After(s, run))
    ensures Legal(s, more) && Winding(more)
    ensures After(s, more).procs == map[] && After(s, more).loaded == After(s, run).loaded
    decreases |After(s, run).procs.Keys|
  {
    var t := After(s, run);
    more := run;
    if t.procs != map[] {
      var p :| p in t.procs && (t.holder.Some? ==> t.holder == Some(p));
      more := FinishCall(s, run, p);
      more := FinishCalls(s, more);
    }
  }

  lemma {:induction false} Joined(s: State, run: seq<Step>, rest: seq<Step>) returns (more: seq<Step>)
    requires Legal(s, run) && Legal(After(s, run), rest)
    ensures Legal(s, more) && After(s, more) == After(After(s, run), rest)
    decreases |rest|
  {
    more := run;
    if rest != [] {
      ExtendBy(s, run, rest[0]);
      more := Joined(s, run + [rest[0]], rest[1..]);
    }
  }

  /**
   From every reachable state all calls in progress can return, without any new one: a signal gets
   every sleeper out.
   */
  lemma CallsCanReturn(run: seq<Step>) returns (more: seq<Step>)
    requires Legal(INIT, run) && After(INIT, run).loaded
    ensures Legal(INIT, more) && After(INIT, more).procs == map[] && After(INIT, more).loaded
  {
    InvFromInit(run);
    var rest := FinishCalls(After(INIT, run), []);
    more := Joined(INIT, run, rest);
  }

  /** Then the module can be unloaded, and has freed every block once. */
  lemma CanAlwaysUnload(run: seq<Step>) returns (more: seq<Step>)
    requires Legal(INIT, run) && After(INIT, run).loaded
    ensures Legal(INIT, more) && !After(INIT, more).loaded
    ensures forall b: nat :: b < After(INIT, more).nextBlock ==> After(INIT, more).freed[b] == 1
  {
    var rest := CallsCanReturn(run);
    ExtendBy(INIT, rest, Exit);
    more := rest + [Exit];
    forall b: nat | b < After(INIT, more).nextBlock
      ensures After(INIT, more).freed[b] == 1
    {
      ExitFreesEverything(more, b);
    }
  }
}
