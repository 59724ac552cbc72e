/**
 The counting wait-queue drivers of lab5 (ex1 and ex2) as one interleaved step system.

 A call is a process. Each unlocked test, each wait-queue operation, each locked update of
 `my_data` and each wake-up is one step, so a run is a sequence of steps of any processes.
 ex1 uses the plain, interruptible and timed waits with `wake_up`; ex2 the interruptible and
 exclusive waits with `wake_up_interruptible` and `wake_up_interruptible_all`.

 Kernel behaviour assumed: a wait tests, queues itself, tests again and only then sleeps or
 reports a signal; exclusive waiters queue at the tail, and a wake-up rouses every
 non-exclusive waiter and the first exclusive one.
 */
module WaitCounter {
  import opened Sums

  datatype Kind = Plain | Interruptible | Timed | Exclusive

  /** Where a waiting call stands inside the wait macro. */
  datatype Point = First | Prepare | Retest | Asleep

  datatype Proc =
    | Idle
      // `queued`: on the wait queue and eligible for a wake-up; `ticket`: order of queueing;
      // `woken`: roused by a wake-up and not yet past a test
    | Waiting(kind: Kind, at: Point, queued: bool, ticket: nat, woken: bool, signalled: bool, expired: bool)
    | Passed                              // past the wait, before the locked decrement
    | Producing(all: bool, amount: int)   // before the locked addition
    | Waking(all: bool, amount: int)      // between the addition and the wake-up

  datatype State = State(data: int, procs: seq<Proc>, nextTicket: nat,
                         produced: int, consumed: nat, timeouts: nat)

  datatype Cause = Roused | Signal | Timeout

  datatype Step =
    | CallWait(p: nat, kind: Kind)
    | CallWake(p: nat, all: bool, amount: int)
    | TestFirst(p: nat)
    | Enqueue(p: nat, signal: bool)
    | TestAgain(p: nat)
    | Resume(p: nat, cause: Cause)
    | Consume(p: nat)
    | Produce(p: nat)
    | WakeUp(p: nat, chosen: nat)

  function Init(n: nat): State {
    State(0, seq(n, _ => Idle), 0, 0, 0, 0)
  }

  predicate QueuedExclusive(c: Proc) {
    c.Waiting? && c.queued && c.kind == Exclusive
  }

  /** `c` heads the line of exclusive waiters, if there is one. */
  predicate Heads(procs: seq<Proc>, c: nat) {
    forall i :: 0 <= i < |procs| && QueuedExclusive(procs[i]) ==>
      c < |procs| && QueuedExclusive(procs[c]) && procs[c].ticket <= procs[i].ticket
  }

  predicate IsRoused(c: Proc, i: nat, all: bool, chosen: nat) {
    c.Waiting? && c.queued && (all || c.kind != Exclusive || i == chosen)
  }

  function Rouse(procs: seq<Proc>, all: bool, chosen: nat): (r: seq<Proc>)
    ensures |r| == |procs|
  {
    seq(|procs|, i requires 0 <= i < |procs| =>
      if IsRoused(procs[i], i, all, chosen) then procs[i].(queued := false, woken := true) else procs[i])
  }

  predicate Enabled(s: State, l: Step) {
    l.p < |s.procs| &&
    var c := s.procs[l.p];
    match l
    case CallWait(_, _) => c.Idle?
    case CallWake(_, _, _) => c.Idle?
    case TestFirst(_) => c.Waiting? && c.at == First
    case Enqueue(_, signal) => c.Waiting? && c.at == Prepare && (c.signalled ==> signal) && (signal ==> c.kind != Plain)
    case TestAgain(_) => c.Waiting? && c.at == Retest
    case Resume(_, Roused) => c.Waiting? && c.at == Asleep && !c.queued
    case Resume(_, Signal) => c.Waiting? && c.at == Asleep && c.kind != Plain
    case Resume(_, Timeout) => c.Waiting? && c.at == Asleep && c.kind == Timed
    case Consume(_) => c.Passed?
    case Produce(_) => c.Producing?
    case WakeUp(_, chosen) => c.Waking? && (c.all || Heads(s.procs, chosen))
  }

  function Apply(s: State, l: Step): (r: State)
    requires Enabled(s, l)
    ensures |r.procs| == |s.procs|
  {
    var p := l.p;
    var c := s.procs[p];
    match l
    case CallWait(_, kind) => s.(procs := s.procs[p := Waiting(kind, First, false, 0, false, false, false)])
    case CallWake(_, all, amount) => s.(procs := s.procs[p := Producing(all, amount)])
    case TestFirst(_) =>
      s.(procs := s.procs[p := if s.data > 0 then Passed else c.(at := Prepare)])
    case Enqueue(_, signal) =>
      if signal then s.(procs := s.procs[p := c.(at := Retest, queued := false, signalled := true)])
      else s.(procs := s.procs[p := c.(at := Retest, queued := true, ticket := s.nextTicket)],
              nextTicket := s.nextTicket + 1)
    case TestAgain(_) =>
      if s.data > 0 then s.(procs := s.procs[p := Passed])
      else if c.expired then s.(procs := s.procs[p := Passed], timeouts := s.timeouts + 1)
      else if c.signalled then s.(procs := s.procs[p := Idle])
      else s.(procs := s.procs[p := c.(at := Asleep, woken := false)])
    case Resume(_, cause) =>
      s.(procs := s.procs[p := c.(at := Prepare, queued := false,
                                  signalled := c.signalled || cause == Signal,
                                  expired := c.expired || cause == Timeout)])
    case Consume(_) => s.(data := s.data - 1, consumed := s.consumed + 1, procs := s.procs[p := Idle])
    case Produce(_) =>
      s.(data := s.data + c.amount, produced := s.produced + c.amount, procs := s.procs[p := Waking(c.all, c.amount)])
    case WakeUp(_, chosen) => s.(procs := Rouse(s.procs, c.all, chosen)[p := Idle])
  }

  predicate Legal(s: State, run: seq<Step>)
    decreases |run|
  {
    run == [] || (Enabled(s, run[0]) && Legal(Apply(s, run[0]), run[1..]))
  }

  function After(s: State, run: seq<Step>): State
    requires Legal(s, run)
    decreases |run|
  {
    if run == [] then s else After(Apply(s, run[0]), run[1..])
  }

  // ---------- No exclusive sleeper is stranded ----------

  /** An exclusive waiter asleep on the queue that no wake-up has reached. */
  predicate Sleeper(s: State, y: int) {
    0 <= y < |s.procs| && QueuedExclusive(s.procs[y]) && s.procs[y].at == Asleep
  }

  /** Every wake-one call adds at most `k`; wake-all calls are unrestricted. */
  predicate WakeOneAtMost(run: seq<Step>, k: int) {
    forall i :: 0 <= i < |run| && run[i].CallWake? && !run[i].all ==> run[i].amount <= k
  }

  function PendingWeight(c: Proc): nat {
    if c.Waking? then (if c.all then (if c.amount > 0 then c.amount else 0) else 1) else 0
  }
  function PassedWeight(c: Proc): nat { if c.Passed? then 1 else 0 }
  function UncheckedWeight(c: Proc): nat { if c.Waiting? && c.woken then 1 else 0 }

  function PendingWeights(s: State): seq<int> {
    seq(|s.procs|, i requires 0 <= i < |s.procs| => PendingWeight(s.procs[i]))
  }
  function PassedWeights(s: State): seq<int> {
    seq(|s.procs|, i requires 0 <= i < |s.procs| => PassedWeight(s.procs[i]))
  }
  function UncheckedWeights(s: State): seq<int> {
    seq(|s.procs|, i requires 0 <= i < |s.procs| => UncheckedWeight(s.procs[i]))
  }

  /** Units announced by writers that have added but not yet woken: one, or the amount of a wake-all. */
  function Pending(s: State): int { Sum(PendingWeights(s)) }

  /** Consumers past the check that have not decremented yet. */
  function PastCheck(s: State): int { Sum(PassedWeights(s)) }

  /** Woken processes that have not tested again yet. */
  function WokenUnchecked(s: State): int { Sum(UncheckedWeights(s)) }

  /**
   What process `c` can still do for a sleeper with ticket `t`. A woken process that has
   queued again ahead of the sleeper counts for nothing: it may absorb one more wake-up.
   */
  function Weight(c: Proc, t: nat): int {
    if QueuedExclusive(c) && c.ticket < t then 0
    else PendingWeight(c) + PassedWeight(c) + UncheckedWeight(c)
  }

  function Weights(procs: seq<Proc>, t: nat): (r: seq<int>) {
    seq(|procs|, i requires 0 <= i < |procs| => Weight(procs[i], t))
  }

  ghost predicate TicketsOrdered(s: State) {
    && (forall i :: 0 <= i < |s.procs| && QueuedExclusive(s.procs[i]) ==> s.procs[i].ticket < s.nextTicket)
    && (forall i, j :: 0 <= i < j < |s.procs| && QueuedExclusive(s.procs[i]) && QueuedExclusive(s.procs[j]) ==>
          s.procs[i].ticket != s.procs[j].ticket)
  }

  ghost predicate WakeOneSmall(s: State) {
    forall i :: 0 <= i < |s.procs| && s.procs[i].Producing? && !s.procs[i].all ==> s.procs[i].amount <= 1
  }

  ghost predicate QueuedLate(s: State) {
    forall i :: 0 <= i < |s.procs| && s.procs[i].Waiting? && s.procs[i].at in {First, Prepare} ==> !s.procs[i].queued
  }

  ghost predicate TicketsOk(s: State) {
    TicketsOrdered(s) && WakeOneSmall(s) && QueuedLate(s)
  }

  ghost predicate Served(s: State) {
    forall y :: Sleeper(s, y) ==> s.data <= Sum(Weights(s.procs, s.procs[y].ticket))
  }

  lemma TicketsOrderedKept(s: State, l: Step)
    requires TicketsOrdered(s) && Enabled(s, l)
    ensures TicketsOrdered(Apply(s, l))
  {}

  lemma TicketsKept(s: State, l: Step)
    requires TicketsOk(s) && Enabled(s, l) && WakeOneAtMost([l], 1)
    ensures TicketsOk(Apply(s, l))
  {
    assert l == [l][0];
    TicketsOrderedKept(s, l);
  }

  /** A step of one process never leaves more data than its own weight accounts for. */
  lemma WeightCovers(s: State, l: Step, t: nat)
    requires TicketsOk(s) && Enabled(s, l) && !l.WakeUp? && t < s.nextTicket && Apply(s, l).data > 0
    ensures Apply(s, l).data - Weight(Apply(s, l).procs[l.p], t) <= s.data - Weight(s.procs[l.p], t)
    ensures Apply(s, l).procs == s.procs[l.p := Apply(s, l).procs[l.p]]
    ensures !(QueuedExclusive(Apply(s, l).procs[l.p]) && Apply(s, l).procs[l.p].at == Asleep)
  {}

  lemma WeightsNonNegative(procs: seq<Proc>, t: nat)
    ensures Sum(Weights(procs, t)) >= 0
  {
    var ws := Weights(procs, t);
    SumZero(seq(|ws|, _ => 0));
    SumMono(seq(|ws|, _ => 0), ws);
  }

  /** Steps that change one process: the sleeper's balance moves with that one weight. */
  lemma ServedByOneStep(s: State, l: Step, y: nat)
    requires TicketsOk(s) && Served(s) && Enabled(s, l) && !l.WakeUp?
    requires Sleeper(Apply(s, l), y)
    ensures var r := Apply(s, l); r.data <= Sum(Weights(r.procs, r.procs[y].ticket))
  {
    var r := Apply(s, l);
    var t := r.procs[y].ticket;
    WeightsNonNegative(r.procs, t);
    if r.data > 0 {
      TicketsOrderedKept(s, l);
      SleeperWasThere(s, l, y);
      WeightCovers(s, l, t);
      SumPoint(Weights(s.procs, t), Weights(r.procs, t), l.p);
    }
  }

  /** Nobody falls asleep while there is data. */
  lemma SleeperWasThere(s: State, l: Step, y: nat)
    requires QueuedLate(s) && Enabled(s, l) && !l.WakeUp? && Apply(s, l).data > 0 && Sleeper(Apply(s, l), y)
    ensures Sleeper(s, y) && y != l.p && Apply(s, l).procs[y] == s.procs[y]
  {}

  /** A wake-up spends one pending weight and either rouses everyone or the head of the line. */
  lemma ServedByWakeUp(s: State, l: Step, y: nat)
    requires TicketsOk(s) && Served(s) && Enabled(s, l) && l.WakeUp?
    requires Sleeper(Apply(s, l), y)
    ensures var r := Apply(s, l); r.data <= Sum(Weights(r.procs, r.procs[y].ticket))
  {
    var r := Apply(s, l);
    var t := r.procs[y].ticket;
    assert Sleeper(s, y) && r.procs[y] == s.procs[y];
    var before, after := Weights(s.procs, t), Weights(r.procs, t);
    var c := l.chosen;
    assert !s.procs[l.p].all && c != y && c != l.p && QueuedExclusive(s.procs[c]) && s.procs[c].ticket < t;
    var mid := before[l.p := before[l.p] - 1];
    SumPoint(before, mid, l.p);
    SumBump(mid, after, c, 1);
  }

  lemma ServedKept(s: State, l: Step)
    requires TicketsOk(s) && Served(s) && Enabled(s, l)
    ensures Served(Apply(s, l))
  {
    forall y | Sleeper(Apply(s, l), y)
      ensures Apply(s, l).data <= Sum(Weights(Apply(s, l).procs, Apply(s, l).procs[y].ticket))
    {
      if l.WakeUp? { ServedByWakeUp(s, l, y); } else { ServedByOneStep(s, l, y); }
    }
  }

  lemma {:induction false} ServedAlong(s: State, run: seq<Step>)
    requires TicketsOk(s) && Served(s) && Legal(s, run) && WakeOneAtMost(run, 1)
    ensures TicketsOk(After(s, run)) && Served(After(s, run))
    decreases |run|
  {
    if run != [] {
      assert WakeOneAtMost([run[0]], 1) by { assert run[0] == [run[0]][0]; }
      TicketsKept(s, run[0]);
      ServedKept(s, run[0]);
      ServedAlong(Apply(s, run[0]), run[1..]);
    }
  }

  /**
   In every reachable state with an un-woken exclusive sleeper, what is left of `my_data`
   after the consumers past the check is covered by woken processes that have not tested yet
   and by writers that have not issued their wake-up yet.
   */
  lemma NoSleeperStranded(n: nat, run: seq<Step>, y: nat)
    requires Legal(Init(n), run) && WakeOneAtMost(run, 1)
    requires Sleeper(After(Init(n), run), y)
    ensures var s := After(Init(n), run); s.data - PastCheck(s) <= WokenUnchecked(s) + Pending(s)
  {
    ServedAlong(Init(n), run);
    var s := After(Init(n), run);
    SumSplit(Weights(s.procs, s.procs[y].ticket), PendingWeights(s), PassedWeights(s), UncheckedWeights(s));
  }

  /** Nobody is running: every process is outside the driver or asleep on the queue. */
  predicate Quiescent(s: State) {
    forall i :: 0 <= i < |s.procs| ==>
      s.procs[i].Idle? || (s.procs[i].Waiting? && s.procs[i].at == Asleep && s.procs[i].queued)
  }

  ghost predicate Stranded(s: State) {
    Quiescent(s) && s.data > 0 && exists y :: Sleeper(s, y)
  }

  lemma NotStrandedAtRest(n: nat, run: seq<Step>)
    requires Legal(Init(n), run) && WakeOneAtMost(run, 1)
    ensures !Stranded(After(Init(n), run))
  {
    var s := After(Init(n), run);
    if Stranded(s) {
      var y :| Sleeper(s, y);
      ServedAlong(Init(n), run);
      SleepersNeverWoken(Init(n), run);
      SumZero(Weights(s.procs, s.procs[y].ticket));
    }
  }

  ghost predicate SleepUnwoken(s: State) {
    forall i :: 0 <= i < |s.procs| && s.procs[i].Waiting? && s.procs[i].at == Asleep && s.procs[i].queued ==>
      !s.procs[i].woken
  }

  lemma {:induction false} SleepersNeverWoken(s: State, run: seq<Step>)
    requires SleepUnwoken(s) && Legal(s, run)
    ensures SleepUnwoken(After(s, run))
    decreases |run|
  {
    if run != [] {
      SleepersNeverWoken(Apply(s, run[0]), run[1..]);
    }
  }

  // ---------- Non-exclusive waiters, for any amounts ----------

  /** A plain, interruptible or timed waiter asleep on the queue that no wake-up has reached. */
  predicate SharedSleeper(s: State, y: int) {
    0 <= y < |s.procs| && s.procs[y].Waiting? && s.procs[y].kind != Exclusive &&
    s.procs[y].queued && s.procs[y].at == Asleep
  }

  predicate AboutToWake(s: State, w: int) {
    0 <= w < |s.procs| && s.procs[w].Waking?
  }

  /** Beside data a non-exclusive sleeper has a writer that has added and not yet issued its wake-up. */
  ghost predicate SharedServed(s: State) {
    s.data > 0 ==> forall y :: SharedSleeper(s, y) ==> exists w :: AboutToWake(s, w)
  }

  lemma SharedServedKept(s: State, l: Step)
    requires QueuedLate(s) && SharedServed(s) && Enabled(s, l)
    ensures SharedServed(Apply(s, l)) && QueuedLate(Apply(s, l))
  {
    var t := Apply(s, l);
    forall y | t.data > 0 && SharedSleeper(t, y)
      ensures exists w :: AboutToWake(t, w)
    {
      if l.Produce? {
        assert AboutToWake(t, l.p);
      } else {
        assert SharedSleeper(s, y);
        var w :| AboutToWake(s, w);
        assert AboutToWake(t, w);
      }
    }
  }

  lemma {:induction false} SharedServedAlong(s: State, run: seq<Step>)
    requires QueuedLate(s) && SharedServed(s) && Legal(s, run)
    ensures SharedServed(After(s, run))
    decreases |run|
  {
    if run != [] {
      SharedServedKept(s, run[0]);
      SharedServedAlong(Apply(s, run[0]), run[1..]);
    }
  }

  /** Whatever the amounts: a non-exclusive sleeper beside data is about to be woken. */
  lemma NoSharedSleeperStranded(n: nat, run: seq<Step>, y: nat)
    requires Legal(Init(n), run) && SharedSleeper(After(Init(n), run), y) && After(Init(n), run).data > 0
    ensures exists w :: AboutToWake(After(Init(n), run), w)
  {
    SharedServedAlong(Init(n), run);
  }

  /** Hence at rest beside data only exclusive waiters can be asleep. */
  lemma SharedNotStrandedAtRest(n: nat, run: seq<Step>)
    requires Legal(Init(n), run) && Quiescent(After(Init(n), run)) && After(Init(n), run).data > 0
    ensures forall y :: !SharedSleeper(After(Init(n), run), y)
  {
    SharedServedAlong(Init(n), run);
    assert forall w :: !AboutToWake(After(Init(n), run), w);
  }

  // ---------- Calls do what they were called for ----------

  datatype Call = Wait(kind: Kind) | Wake(all: bool, amount: int)

  /** The latest call of each process. */
  function Calls(calls: map<nat, Call>, run: seq<Step>): map<nat, Call>
    decreases |run|
  {
    if run == [] then calls else Calls(Noted(calls, run[0]), run[1..])
  }

  function Noted(calls: map<nat, Call>, l: Step): map<nat, Call> {
    match l
    case CallWait(p, kind) => calls[p := Wait(kind)]
    case CallWake(p, all, amount) => calls[p := Wake(all, amount)]
    case _ => calls
  }

  /** A process in the driver still has the arguments it was called with. */
  predicate Remembers(c: Proc, call: Call) {
    match c
    case Waiting(kind, _, _, _, _, _, _) => call == Wait(kind)
    case Producing(all, amount) => call == Wake(all, amount)
    case Waking(all, amount) => call == Wake(all, amount)
    case Passed => call.Wait?
    case Idle => true
  }

  ghost predicate CallsKept(s: State, calls: map<nat, Call>) {
    forall p :: 0 <= p < |s.procs| && !s.procs[p].Idle? ==> p in calls && Remembers(s.procs[p], calls[p])
  }

  lemma CallsStep(s: State, l: Step, calls: map<nat, Call>)
    requires CallsKept(s, calls) && Enabled(s, l)
    ensures CallsKept(Apply(s, l), Noted(calls, l))
  {}

  lemma {:induction false} CallsAlong(s: State, run: seq<Step>, calls: map<nat, Call>)
    requires CallsKept(s, calls) && Legal(s, run)
    ensures CallsKept(After(s, run), Calls(calls, run))
    decreases |run|
  {
    if run != [] {
      CallsStep(s, run[0], calls);
      CallsAlong(Apply(s, run[0]), run[1..], Noted(calls, run[0]));
    }
  }

  /** The locked addition adds the argument of the call. */
  lemma AddsTheArgument(n: nat, run: seq<Step>, p: nat)
    requires Legal(Init(n), run) && Enabled(After(Init(n), run), Produce(p))
    ensures var s, calls := After(Init(n), run), Calls(map[], run);
      p in calls && calls[p].Wake? && Apply(s, Produce(p)).data == s.data + calls[p].amount
  {
    CallsAlong(Init(n), run, map[]);
  }

  /** Is `i` on the wait queue? */
  predicate Queued(s: State, i: int) {
    0 <= i < |s.procs| && s.procs[i].Waiting? && s.procs[i].queued
  }

  /**
   Whom a wake-up takes off the wait queue: all of it if the call was a wake-all one, else every
   non-exclusive waiter and, of the exclusive ones, the one that queued first.
   */
  lemma WakesWhomItShould(n: nat, run: seq<Step>, p: nat, chosen: nat, i: int)
    requires Legal(Init(n), run) && Enabled(After(Init(n), run), WakeUp(p, chosen)) && Queued(After(Init(n), run), i)
    ensures var s, calls := After(Init(n), run), Calls(map[], run);
      var t := Apply(s, WakeUp(p, chosen));
      p in calls && i in calls && calls[p].Wake? && calls[i].Wait? &&
      (Queued(t, i) <==>
        !calls[p].all && calls[i].kind == Exclusive &&
        exists c :: Queued(s, c) && s.procs[c].kind == Exclusive && s.procs[c].ticket < s.procs[i].ticket)
  {
    var s := After(Init(n), run);
    CallsAlong(Init(n), run, map[]);
    OrderedAlong(Init(n), run);
    if QueuedExclusive(s.procs[i]) && i != chosen && !s.procs[p].all {
      assert Queued(s, chosen) && s.procs[chosen].kind == Exclusive;
    }
  }

  /** Nobody else is touched: off the queue nothing changes, and a waiter taken off it only loses its place. */
  lemma WakesNobodyElse(s: State, p: nat, chosen: nat, i: nat)
    requires Enabled(s, WakeUp(p, chosen)) && i < |s.procs| && i != p
    ensures var t := Apply(s, WakeUp(p, chosen));
      t.procs[i] == if Queued(s, i) && !Queued(t, i) then s.procs[i].(queued := false, woken := true) else s.procs[i]
  {}

  ghost predicate NobodyWoken(s: State) {
    forall i :: 0 <= i < |s.procs| && s.procs[i].Waiting? ==> !s.procs[i].woken
  }

  /** Without a wake-up nobody counts as woken. */
  lemma {:induction false} WokenByWakeUps(s: State, run: seq<Step>)
    requires NobodyWoken(s) && Legal(s, run) && forall k :: 0 <= k < |run| ==> !run[k].WakeUp?
    ensures NobodyWoken(After(s, run))
    decreases |run|
  {
    if run != [] {
      assert !run[0].WakeUp?;
      WokenByWakeUps(Apply(s, run[0]), run[1..]);
    }
  }

  lemma {:induction false} OrderedAlong(s: State, run: seq<Step>)
    requires TicketsOrdered(s) && Legal(s, run)
    ensures TicketsOrdered(After(s, run))
    decreases |run|
  {
    if run != [] {
      TicketsOrderedKept(s, run[0]);
      OrderedAlong(Apply(s, run[0]), run[1..]);
    }
  }

  // ---------- One step at a time, at the end of a run ----------

  lemma {:induction false} Extend(s: State, run: seq<Step>, l: Step)
    requires Legal(s, run) && Enabled(After(s, run), l)
    ensures Legal(s, run + [l]) && After(s, run + [l]) == Apply(After(s, run), l)
    decreases |run|
  {
    if run == [] {
      assert [l][1..] == [];
    } else {
      Extend(Apply(s, run[0]), run[1..], l);
      assert (run + [l])[1..] == run[1..] + [l];
    }
  }

  /** The same for a whole continuation. */
  lemma {:induction false} ExtendAll(s: State, run: seq<Step>, more: seq<Step>)
    requires Legal(s, run) && Legal(After(s, run), more)
    ensures Legal(s, run + more) && After(s, run + more) == After(After(s, run), more)
    decreases |more|
  {
    if more == [] {
      assert run + more == run;
    } else {
      Extend(s, run, more[0]);
      ExtendAll(s, run + [more[0]], more[1..]);
      assert run + more == run + [more[0]] + more[1..];
    }
  }

  // ---------- Every call runs its statements in the order of the source ----------

  /** The latest step of each process. */
  function Latest(last: map<nat, Step>, run: seq<Step>): map<nat, Step>
    decreases |run|
  {
    if run == [] then last else Latest(last[run[0].p := run[0]], run[1..])
  }

  /** Which steps a process may take after `prev`; no `prev` before its first call. */
  predicate Follows(last: map<nat, Step>, l: Step) {
    if l.p !in last then l.CallWait? || l.CallWake?
    else
      var prev := last[l.p];
      match l
      case CallWait(_, _) => prev.Consume? || prev.TestAgain? || prev.WakeUp?
      case CallWake(_, _, _) => prev.Consume? || prev.TestAgain? || prev.WakeUp?
      case TestFirst(_) => prev.CallWait?
      case Enqueue(_, _) => prev.TestFirst? || prev.Resume?
      case TestAgain(_) => prev.Enqueue?
      case Resume(_, _) => prev.TestAgain?
      case Consume(_) => prev.TestFirst? || prev.TestAgain?
      case Produce(_) => prev.CallWake?
      case WakeUp(_, _) => prev.Produce?
  }

  predicate StandsAfter(c: Proc, prev: Step) {
    match c
    case Idle => prev.Consume? || prev.TestAgain? || prev.WakeUp?
    case Passed => prev.TestFirst? || prev.TestAgain?
    case Producing(_, _) => prev.CallWake?
    case Waking(_, _) => prev.Produce?
    case Waiting(_, at, _, _, _, _, _) =>
      match at
      case First => prev.CallWait?
      case Prepare => prev.TestFirst? || prev.Resume?
      case Retest => prev.Enqueue?
      case Asleep => prev.TestAgain?
  }

  ghost predicate InOrder(s: State, last: map<nat, Step>) {
    forall p :: 0 <= p < |s.procs| ==> if p in last then StandsAfter(s.procs[p], last[p]) else s.procs[p].Idle?
  }

  lemma {:induction false} InOrderAlong(s: State, run: seq<Step>, last: map<nat, Step>)
    requires InOrder(s, last) && Legal(s, run)
    ensures InOrder(After(s, run), Latest(last, run))
    decreases |run|
  {
    if run != [] {
      assert InOrder(Apply(s, run[0]), last[run[0].p := run[0]]);
      InOrderAlong(Apply(s, run[0]), run[1..], last[run[0].p := run[0]]);
    }
  }

  /** In every run a process steps from one statement of its call to a next one. */
  lemma ProgramOrder(n: nat, run: seq<Step>, l: Step)
    requires Legal(Init(n), run) && Enabled(After(Init(n), run), l)
    ensures Follows(Latest(map[], run), l)
  {
    InOrderAlong(Init(n), run, map[]);
  }

  // ---------- Nothing gets stuck ----------

  /** A signal while asleep, and no data: the call returns and has taken nothing. */
  lemma SignalGetsOut(s: State, p: nat) returns (run: seq<Step>)
    requires p < |s.procs| && s.data <= 0
    requires var c := s.procs[p]; c.Waiting? && c.at == Asleep && c.kind != Plain && !c.expired
    ensures Legal(s, run) && After(s, run) == s.(procs := s.procs[p := Idle])
  {
    Extend(s, [], Resume(p, Signal));
    run := [] + [Resume(p, Signal)];
    Extend(s, run, Enqueue(p, true));
    run := run + [Enqueue(p, true)];
    Extend(s, run, TestAgain(p));
    run := run + [TestAgain(p)];
    assert After(s, run).procs == s.procs[p := Idle];
  }

  /** A signal already pending when the call is made has the same effect. */
  lemma PendingSignalGetsOut(s: State, p: nat, kind: Kind) returns (run: seq<Step>)
    requires p < |s.procs| && s.data <= 0 && s.procs[p].Idle? && kind != Plain
    ensures Legal(s, run) && After(s, run) == s
  {
    Extend(s, [], CallWait(p, kind));
    run := [] + [CallWait(p, kind)];
    Extend(s, run, TestFirst(p));
    run := run + [TestFirst(p)];
    Extend(s, run, Enqueue(p, true));
    run := run + [Enqueue(p, true)];
    Extend(s, run, TestAgain(p));
    run := run + [TestAgain(p)];
    assert After(s, run).procs == s.procs;
  }

  /** No new call. */
  predicate Winding(run: seq<Step>) {
    forall i :: 0 <= i < |run| ==> Continues(run[i])
  }

  predicate Continues(l: Step) {
    !l.CallWait? && !l.CallWake?
  }

  lemma Wind(s: State, run: seq<Step>, l: Step) returns (more: seq<Step>)
    requires Legal(s, run) && Winding(run) && Enabled(After(s, run), l) && Continues(l)
    ensures Legal(s, more) && Winding(more) && After(s, more) == Apply(After(s, run), l)
  {
    Extend(s, run, l);
    more := run + [l];
  }

  /** A wake-one call always finds whom to choose. */
  lemma {:induction false} SomebodyHeads(procs: seq<Proc>) returns (c: nat)
    ensures Heads(procs, c)
    decreases |procs|
  {
    c := 0;
    if procs != [] {
      var n := |procs| - 1;
      var d := SomebodyHeads(procs[..n]);
      if !(d < n && QueuedExclusive(procs[d])) {
        c := n;
        assert forall i :: 0 <= i < n && QueuedExclusive(procs[..n][i]) ==> false;
      } else if QueuedExclusive(procs[n]) && procs[n].ticket < procs[d].ticket {
        c := n;
      } else {
        c := d;
      }
      assert forall i :: 0 <= i < n ==> procs[..n][i] == procs[i];
    }
  }

  function WakeLeft(c: Proc): nat {
    if c.Producing? then 2 else if c.Waking? then 1 else 0
  }

  function WakeLefts(s: State): seq<int> {
    seq(|s.procs|, i requires 0 <= i < |s.procs| => WakeLeft(s.procs[i]))
  }

  /** Nobody can be stopped by a signal that its wait does not take. */
  ghost predicate PlainUnsignalled(s: State) {
    forall i :: 0 <= i < |s.procs| && s.procs[i].Waiting? && s.procs[i].kind == Plain ==> !s.procs[i].signalled
  }

  ghost predicate Sane(s: State) {
    QueuedLate(s) && SharedServed(s) && PlainUnsignalled(s)
  }

  lemma SaneKept(s: State, l: Step)
    requires Sane(s) && Enabled(s, l)
    ensures Sane(Apply(s, l))
  {
    SharedServedKept(s, l);
  }

  lemma {:induction false} SaneAlong(s: State, run: seq<Step>)
    requires Sane(s) && Legal(s, run)
    ensures Sane(After(s, run))
    decreases |run|
  {
    if run != [] {
      SaneKept(s, run[0]);
      SaneAlong(Apply(s, run[0]), run[1..]);
    }
  }

  lemma WakeAdvances(s: State, p: nat, l: Step)
    requires p < |s.procs| && WakeLeft(s.procs[p]) > 0 && Enabled(s, l) && l.p == p
    ensures var t := Apply(s, l);
      |t.procs| == |s.procs| && 0 <= Sum(WakeLefts(t)) < Sum(WakeLefts(s))
  {
    var t := Apply(s, l);
    SumPoint(WakeLefts(s), WakeLefts(t), p);
    SumZero(seq(|t.procs|, _ => 0));
    SumMono(seq(|t.procs|, _ => 0), WakeLefts(t));
  }

  /** All calls that add and wake finish. */
  lemma {:induction false} FinishWakers(s: State, run: seq<Step>) returns (more: seq<Step>)
    requires Legal(s, run) && Winding(run) && Sane(After(s, run))
    ensures Legal(s, more) && Winding(more) && Sane(After(s, more))
    ensures var t := After(s, more);
      |t.procs| == |After(s, run).procs| && forall i: nat :: i < |t.procs| ==> WakeLeft(t.procs[i]) == 0
    decreases Sum(WakeLefts(After(s, run)))
  {
    var t := After(s, run);
    more := run;
    if exists q: nat :: q < |t.procs| && WakeLeft(t.procs[q]) > 0 {
      var p: nat :| p < |t.procs| && WakeLeft(t.procs[p]) > 0;
      var chosen := SomebodyHeads(t.procs);
      var l := if t.procs[p].Producing? then Produce(p) else WakeUp(p, chosen);
      WakeAdvances(t, p, l);
      SaneKept(t, l);
      more := Wind(s, run, l);
      more := FinishWakers(s, more);
    }
  }

  /** Idle, or a plain waiter asleep on the queue without data. */
  predicate Rests(s: State, p: int) {
    0 <= p < |s.procs| &&
    var c := s.procs[p];
    c.Idle? || (c.Waiting? && c.kind == Plain && c.queued && c.at == Asleep && s.data <= 0)
  }

  function WaitLeft(c: Proc): nat {
    match c
    case Passed => 1
    case Waiting(kind, at, queued, _, _, signalled, _) =>
      (match at
       case First => 7
       case Prepare => 3
       case Retest => if signalled || (kind == Plain && queued) then 2 else 5
       case Asleep => if kind == Plain && queued then 0 else 4)
    case _ => 0
  }

  function WaitNext(p: nat, c: Proc): Step {
    match c
    case Waiting(kind, at, queued, _, _, _, _) =>
      (match at
       case First => TestFirst(p)
       case Prepare => Enqueue(p, kind != Plain)
       case Retest => TestAgain(p)
       case Asleep => if queued then Resume(p, Signal) else Resume(p, Roused))
    case _ => Consume(p)
  }

  /** `t` after one step of the waiter `p`. */
  lemma WaitAdvances(s: State, p: nat)
    requires Sane(s) && p < |s.procs| && (s.procs[p].Waiting? || s.procs[p].Passed?) && !Rests(s, p)
    requires forall i :: 0 <= i < |s.procs| ==> WakeLeft(s.procs[i]) == 0
    ensures var l := WaitNext(p, s.procs[p]);
      Enabled(s, l) && Continues(l) &&
      var t := Apply(s, l);
      && |t.procs| == |s.procs| && (forall i :: 0 <= i < |s.procs| && i != p ==> t.procs[i] == s.procs[i])
      && WakeLeft(t.procs[p]) == 0 && t.data <= s.data
      && (Rests(t, p) || WaitLeft(t.procs[p]) < WaitLeft(s.procs[p]))
  {
    assert forall w :: 0 <= w < |s.procs| ==> !AboutToWake(s, w);
    assert !(SharedSleeper(s, p) && s.data > 0);
  }

  /** A waiter leaves, by a signal if nothing else, or is a plain one that sleeps without data. */
  lemma {:induction false} FinishWaiter(s: State, run: seq<Step>, p: nat) returns (more: seq<Step>)
    requires Legal(s, run) && Winding(run) && Sane(After(s, run)) && p < |After(s, run).procs|
    requires forall i :: 0 <= i < |After(s, run).procs| ==> WakeLeft(After(s, run).procs[i]) == 0
    ensures Legal(s, more) && Winding(more) && Sane(After(s, more))
    ensures var t, u := After(s, run), After(s, more);
      && |u.procs| == |t.procs| && (forall i :: 0 <= i < |t.procs| && i != p ==> u.procs[i] == t.procs[i])
      && (forall i :: 0 <= i < |u.procs| ==> WakeLeft(u.procs[i]) == 0)
      && u.data <= t.data && Rests(u, p)
    decreases WaitLeft(After(s, run).procs[p])
  {
    var t := After(s, run);
    more := run;
    if !Rests(t, p) {
      assert WakeLeft(t.procs[p]) == 0;
      var l := WaitNext(p, t.procs[p]);
      WaitAdvances(t, p);
      SaneKept(t, l);
      more := Wind(s, run, l);
      if !Rests(After(s, more), p) {
        more := FinishWaiter(s, more, p);
      }
    }
  }

  /** The first `k` processes come to rest, one after the other. */
  lemma {:induction false} FinishWaiters(s: State, run: seq<Step>, k: nat) returns (more: seq<Step>)
    requires Legal(s, run) && Winding(run) && Sane(After(s, run)) && k <= |After(s, run).procs|
    requires forall i :: 0 <= i < |After(s, run).procs| ==> WakeLeft(After(s, run).procs[i]) == 0
    ensures Legal(s, more) && Winding(more) && Sane(After(s, more))
    ensures |After(s, more).procs| == |After(s, run).procs|
    ensures forall i :: 0 <= i < |After(s, more).procs| ==> WakeLeft(After(s, more).procs[i]) == 0
    ensures forall i :: 0 <= i < k ==> Rests(After(s, more), i)
    decreases k
  {
    more := run;
    if k > 0 {
      var before := FinishWaiters(s, run, k - 1);
      more := FinishWaiter(s, before, k - 1);
      var t := After(s, before);
      assert forall i :: 0 <= i < k - 1 ==> Rests(t, i) && After(s, more).procs[i] == t.procs[i];
    }
  }

  /**
   From every reachable state, without any new call, every process can come out of the driver,
   signals being sent where needed, but for plain waiters asleep without data.
   */
  lemma CanAlwaysRest(n: nat, run: seq<Step>) returns (more: seq<Step>)
    requires Legal(Init(n), run)
    ensures var s := After(Init(n), run);
      Legal(s, more) && Winding(more) && |After(s, more).procs| == n &&
      forall p :: 0 <= p < n ==> Rests(After(s, more), p)
  {
    var s := After(Init(n), run);
    SaneAlong(Init(n), run);
    ProcessCountFixed(Init(n), run);
    more := FinishWakers(s, []);
    more := FinishWaiters(s, more, n);
  }

  // ---------- The bound on wake-one amounts is exact ----------

  /** One exclusive call that finds nothing and goes to sleep. */
  lemma FallAsleep(s: State, p: nat) returns (run: seq<Step>)
    requires p < |s.procs| && s.procs[p].Idle? && s.data <= 0
    ensures Legal(s, run) && WakeOneAtMost(run, 0)
    ensures var c := Waiting(Exclusive, Asleep, true, s.nextTicket, false, false, false);
            After(s, run) == s.(nextTicket := s.nextTicket + 1, procs := s.procs[p := c])
  {
    run := [];
    Extend(s, run, CallWait(p, Exclusive));
    run := run + [CallWait(p, Exclusive)];
    Extend(s, run, TestFirst(p));
    run := run + [TestFirst(p)];
    Extend(s, run, Enqueue(p, false));
    run := run + [Enqueue(p, false)];
    Extend(s, run, TestAgain(p));
    run := run + [TestAgain(p)];
    assert After(s, run).procs == s.procs[p := Waiting(Exclusive, Asleep, true, s.nextTicket, false, false, false)];
  }

  function AsleepWith(t: nat, queued: bool, woken: bool): Proc {
    Waiting(Exclusive, Asleep, queued, t, woken, false, false)
  }

  lemma TwoFallAsleep() returns (run: seq<Step>)
    ensures Legal(Init(3), run) && WakeOneAtMost(run, 0)
    ensures After(Init(3), run) == State(0, [AsleepWith(0, true, false), AsleepWith(1, true, false), Idle], 2, 0, 0, 0)
  {
    var a := FallAsleep(Init(3), 0);
    var s := After(Init(3), a);
    var b := FallAsleep(s, 1);
    ExtendAll(Init(3), a, b);
    run := a + b;
    assert After(s, b).procs == [AsleepWith(0, true, false), AsleepWith(1, true, false), Idle];
  }

  /** A wake-one call adding `k` rouses the first of two sleepers only. */
  lemma WakeFirst(k: int) returns (run: seq<Step>)
    ensures var s := State(0, [AsleepWith(0, true, false), AsleepWith(1, true, false), Idle], 2, 0, 0, 0);
            && Legal(s, run) && WakeOneAtMost(run, k)
            && After(s, run) == State(k, [AsleepWith(0, false, true), AsleepWith(1, true, false), Idle], 2, k, 0, 0)
  {
    var s := State(0, [AsleepWith(0, true, false), AsleepWith(1, true, false), Idle], 2, 0, 0, 0);
    run := [CallWake(2, false, k)];
    Extend(s, [], CallWake(2, false, k));
    Extend(s, run, Produce(2));
    run := run + [Produce(2)];
    Extend(s, run, WakeUp(2, 0));
    run := run + [WakeUp(2, 0)];
    assert After(s, run).procs == [AsleepWith(0, false, true), AsleepWith(1, true, false), Idle];
  }

  /** The roused waiter takes one unit and leaves. */
  lemma RousedConsumes(s: State) returns (run: seq<Step>)
    requires |s.procs| == 3 && s.procs[0] == AsleepWith(0, false, true) && s.data > 0
    ensures Legal(s, run) && WakeOneAtMost(run, 0)
    ensures After(s, run) == s.(data := s.data - 1, consumed := s.consumed + 1, nextTicket := s.nextTicket + 1,
                                procs := s.procs[0 := Idle])
  {
    run := [Resume(0, Roused)];
    Extend(s, [], Resume(0, Roused));
    Extend(s, run, Enqueue(0, false));
    run := run + [Enqueue(0, false)];
    Extend(s, run, TestAgain(0));
    run := run + [TestAgain(0)];
    Extend(s, run, Consume(0));
    run := run + [Consume(0)];
    assert After(s, run).procs == s.procs[0 := Idle];
  }

  /** Two sleepers and one wake-one call adding `k >= 2`: one sleeper stays although `k - 1` is left. */
  lemma StrandingRun(k: int) returns (run: seq<Step>)
    requires k >= 2
    ensures Legal(Init(3), run) && WakeOneAtMost(run, k) && Stranded(After(Init(3), run))
  {
    var a := TwoFallAsleep();
    var b := WakeFirst(k);
    ExtendAll(Init(3), a, b);
    var c := RousedConsumes(After(Init(3), a + b));
    ExtendAll(Init(3), a + b, c);
    run := a + b + c;
    assert Sleeper(After(Init(3), run), 1);
  }

  /** No run strands a sleeper if and only if wake-one calls add at most one. */
  lemma StrandingExactlyAboveOne(k: int)
    ensures (forall n: nat, run :: Legal(Init(n), run) && WakeOneAtMost(run, k) ==> !Stranded(After(Init(n), run)))
            <==> k <= 1
  {
    if k <= 1 {
      forall n: nat, run | Legal(Init(n), run) && WakeOneAtMost(run, k)
        ensures !Stranded(After(Init(n), run))
      {
        assert WakeOneAtMost(run, 1);
        NotStrandedAtRest(n, run);
      }
    } else {
      var run := StrandingRun(k);
      assert Legal(Init(3), run);
    }
  }

  // ---------- How far below zero the counter can go ----------

  predicate NonNegativeAmounts(run: seq<Step>) {
    forall i :: 0 <= i < |run| && run[i].CallWake? ==> run[i].amount >= 0
  }

  ghost predicate Bounded(s: State) {
    && s.data == s.produced - s.consumed
    && s.data >= 1 - |s.procs| - s.timeouts + PastCheck(s)
    && (forall i :: 0 <= i < |s.procs| && s.procs[i].Producing? ==> s.procs[i].amount >= 0)
  }

  lemma BoundedKept(s: State, l: Step)
    requires Bounded(s) && Enabled(s, l) && NonNegativeAmounts([l])
    ensures Bounded(Apply(s, l))
  {
    assert l == [l][0];
    var r := Apply(s, l);
    var before, after := PassedWeights(s), PassedWeights(r);
    SumPoint(before, after, l.p);
    SumAtMostLength(after);
  }

  /**
   With N processes and T timed-out waits, `my_data` is what was produced minus what was
   consumed and never falls below 1 - N - T, even counting the consumers past the check.
   */
  lemma {:induction false} CounterBound(s: State, run: seq<Step>)
    requires Bounded(s) && Legal(s, run) && NonNegativeAmounts(run)
    ensures Bounded(After(s, run))
    decreases |run|
  {
    if run != [] {
      assert NonNegativeAmounts([run[0]]) by { assert run[0] == [run[0]][0]; }
      BoundedKept(s, run[0]);
      CounterBound(Apply(s, run[0]), run[1..]);
    }
  }

  lemma CounterBoundFromInit(n: nat, run: seq<Step>)
    requires n >= 1 && Legal(Init(n), run) && NonNegativeAmounts(run)
    ensures var s := After(Init(n), run);
            s.data == s.produced - s.consumed && s.data >= 1 - n - s.timeouts + PastCheck(s)
  {
    SumZero(PassedWeights(Init(n)));
    CounterBound(Init(n), run);
    ProcessCountFixed(Init(n), run);
  }

  lemma {:induction false} ProcessCountFixed(s: State, run: seq<Step>)
    requires Legal(s, run)
    ensures |After(s, run).procs| == |s.procs|
    decreases |run|
  {
    if run != [] { ProcessCountFixed(Apply(s, run[0]), run[1..]); }
  }

  /** The first `k` processes are past the check and the rest are idle. */
  function FirstPassed(n: nat, k: nat): seq<Proc> {
    seq(n, i => if i < k then Passed else Idle)
  }

  /** One produced unit lets all `n` processes past the check: each tests before any decrements. */
  lemma AllPass(n: nat) returns (run: seq<Step>)
    requires n >= 1
    ensures Legal(Init(n), run) && NonNegativeAmounts(run)
    ensures After(Init(n), run) == State(1, FirstPassed(n, n), 0, 1, 0, 0)
  {
    var s := Init(n);
    run := [];
    Extend(s, run, CallWake(0, false, 1));
    run := run + [CallWake(0, false, 1)];
    Extend(s, run, Produce(0));
    run := run + [Produce(0)];
    Extend(s, run, WakeUp(0, 0));
    run := run + [WakeUp(0, 0)];
    assert After(s, run).procs == FirstPassed(n, 0);
    for k := 0 to n
      invariant Legal(s, run) && NonNegativeAmounts(run)
      invariant After(s, run) == State(1, FirstPassed(n, k), 0, 1, 0, 0)
    {
      Extend(s, run, CallWait(k, Interruptible));
      run := run + [CallWait(k, Interruptible)];
      Extend(s, run, TestFirst(k));
      run := run + [TestFirst(k)];
      assert After(s, run).procs == FirstPassed(n, k + 1);
    }
  }

  /** The bound 1 - N is reached for every N. */
  lemma CounterBoundReached(n: nat) returns (run: seq<Step>)
    requires n >= 1
    ensures Legal(Init(n), run) && NonNegativeAmounts(run)
    ensures After(Init(n), run).data == 1 - n && After(Init(n), run).timeouts == 0
    ensures After(Init(n), run).procs == FirstPassed(n, 0)
  {
    var s := Init(n);
    run := AllPass(n);
    for k := n downto 0
      invariant Legal(s, run) && NonNegativeAmounts(run)
      invariant After(s, run) == State(1 - (n - k), FirstPassed(n, k), 0, 1, n - k, 0)
    {
      Extend(s, run, Consume(k));
      run := run + [Consume(k)];
      assert After(s, run).procs == FirstPassed(n, k);
    }
  }

  /** An idle process makes a timed wait that finds nothing, times out, and decrements all the same. */
  lemma TimedOutWait(s: State, p: nat) returns (run: seq<Step>)
    requires p < |s.procs| && s.procs[p].Idle? && s.data <= 0
    ensures Legal(s, run) && NonNegativeAmounts(run)
    ensures After(s, run) == s.(data := s.data - 1, consumed := s.consumed + 1, timeouts := s.timeouts + 1,
                                nextTicket := s.nextTicket + 2)
  {
    run := [CallWait(p, Timed)];
    Extend(s, [], CallWait(p, Timed));
    Extend(s, run, TestFirst(p));
    run := run + [TestFirst(p)];
    Extend(s, run, Enqueue(p, false));
    run := run + [Enqueue(p, false)];
    Extend(s, run, TestAgain(p));
    run := run + [TestAgain(p)];
    Extend(s, run, Resume(p, Timeout));
    run := run + [Resume(p, Timeout)];
    var expired := ExpiredWait(After(s, run), p);
    ExtendAll(s, run, expired);
    run := run + expired;
    assert After(s, run).procs == s.procs;
  }

  /** The second half: the expired waiter tests once more, passes without data and decrements. */
  lemma ExpiredWait(s: State, p: nat) returns (run: seq<Step>)
    requires p < |s.procs| && s.data <= 0
    requires var c := s.procs[p]; c.Waiting? && c.at == Prepare && c.expired && !c.signalled
    ensures Legal(s, run) && NonNegativeAmounts(run)
    ensures After(s, run) == s.(data := s.data - 1, consumed := s.consumed + 1, timeouts := s.timeouts + 1,
                                nextTicket := s.nextTicket + 1, procs := s.procs[p := Idle])
  {
    run := [Enqueue(p, false)];
    Extend(s, [], Enqueue(p, false));
    Extend(s, run, TestAgain(p));
    run := run + [TestAgain(p)];
    Extend(s, run, Consume(p));
    run := run + [Consume(p)];
    assert After(s, run).procs == s.procs[p := Idle];
  }

  /** Every timed-out wait lowers the counter by one more: 1 - N - T is reached for every N and T. */
  lemma CounterBoundReachedWithTimeouts(n: nat, t: nat) returns (run: seq<Step>)
    requires n >= 1
    ensures Legal(Init(n), run) && NonNegativeAmounts(run)
    ensures After(Init(n), run).data == 1 - n - t && After(Init(n), run).timeouts == t
  {
    var s := Init(n);
    run := CounterBoundReached(n);
    for k := 0 to t
      invariant Legal(s, run) && NonNegativeAmounts(run)
      invariant After(s, run).data == 1 - n - k && After(s, run).timeouts == k
      invariant |After(s, run).procs| == n && After(s, run).procs[0].Idle?
    {
      var more := TimedOutWait(After(s, run), 0);
      ExtendAll(s, run, more);
      run := run + more;
    }
  }

  /** Of all lower bounds for N processes and at most T timed-out waits, 1 - N - T is the largest that holds. */
  lemma CounterBoundExact(n: nat, t: nat, b: int)
    requires n >= 1
    ensures (forall run :: Legal(Init(n), run) && NonNegativeAmounts(run) && After(Init(n), run).timeouts <= t ==>
               After(Init(n), run).data >= b)
            <==> b <= 1 - n - t
  {
    if b <= 1 - n - t {
      forall run | Legal(Init(n), run) && NonNegativeAmounts(run) && After(Init(n), run).timeouts <= t
        ensures After(Init(n), run).data >= b
      {
        CounterBoundFromInit(n, run);
        PastCheckNonNegative(After(Init(n), run));
      }
    } else {
      var run := CounterBoundReachedWithTimeouts(n, t);
      assert After(Init(n), run).data < b;
    }
  }

  lemma PastCheckNonNegative(s: State)
    ensures PastCheck(s) >= 0
  {
    SumAtMostLength(PassedWeights(s));
  }
}
