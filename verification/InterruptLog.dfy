/**
 lab8/ex3: interrupt times logged while the device is open.

 The step system interleaves handlers, opens and releases. `disable_irq` first raises the disable
 depth and then waits for running handlers; `enable_irq` at depth 0 only warns. The state starts
 after the init function has disabled the line; what was logged before that is given.
 */
module InterruptLog {
  import opened Options
  import opened LinkedList

  datatype Isr = Entered | Locked | Stamped(time: int) | Linked

  datatype State = State(
    depth: nat,                // disable depth of the interrupt line
    opens: nat,                // opened and not yet released
    closing: nat,              // releases waiting for running handlers
    peak: nat,                 // most opens there have been at once
    isrs: map<nat, Isr>,
    holder: Option<nat>,       // spinlock
    now: int,
    log: seq<int>)

  datatype Step =
    | Tick(d: nat)             // the clock does not run backwards
    | Open
    | ReleaseBegin
    | ReleaseEnd
    | IsrEnter(i: nat)
    | IsrLock(i: nat)
    | IsrStamp(i: nat)
    | IsrAppend(i: nat)
    | IsrUnlock(i: nat)

  function Init(now: int, log: seq<int>): State {
    State(1, 0, 0, 0, map[], None, now, log)
  }

  predicate Enabled(s: State, l: Step) {
    match l
    case Tick(_) => true
    case Open => true
    case ReleaseBegin => s.opens > 0
    case ReleaseEnd => s.closing > 0 && s.isrs == map[]
    case IsrEnter(i) => s.depth == 0 && i !in s.isrs
    case IsrLock(i) => i in s.isrs && s.isrs[i].Entered? && s.holder.None?
    case IsrStamp(i) => i in s.isrs && s.isrs[i].Locked?
    case IsrAppend(i) => i in s.isrs && s.isrs[i].Stamped?
    case IsrUnlock(i) => i in s.isrs && s.isrs[i].Linked?
  }

  function Max(a: nat, b: nat): nat { if a < b then b else a }

  function Apply(s: State, l: Step): State
    requires Enabled(s, l)
  {
    match l
    case Tick(d) => s.(now := s.now + d)
    case Open =>
      s.(depth := if s.depth > 0 then s.depth - 1 else 0, opens := s.opens + 1, peak := Max(s.peak, s.opens + 1))
    case ReleaseBegin => s.(depth := s.depth + 1, opens := s.opens - 1, closing := s.closing + 1)
    case ReleaseEnd => s.(closing := s.closing - 1)
    case IsrEnter(i) => s.(isrs := s.isrs[i := Entered])
    case IsrLock(i) => s.(isrs := s.isrs[i := Locked], holder := Some(i))
    case IsrStamp(i) => s.(isrs := s.isrs[i := Stamped(s.now)])
    case IsrAppend(i) => s.(isrs := s.isrs[i := Linked], log := s.log + [s.isrs[i].time])
    case IsrUnlock(i) => s.(isrs := s.isrs - {i}, holder := None)
  }

  predicate Legal(s: State, run: seq<Step>)
    decreases |run|
  {
    run == [] || (Enabled(s, run[0]) && Legal(Apply(s, run[0]), run[1..]))
  }

  function After(s: State, run: seq<Step>): State
    requires Legal(s, run)
    decreases |run|
  {
    if run == [] then s else After(Apply(s, run[0]), run[1..])
  }

  /** The log is in order and not from the future. */
  ghost predicate Sorted(log: seq<int>, now: int) {
    && (forall i, j :: 0 <= i < j < |log| ==> log[i] <= log[j])
    && (forall i :: 0 <= i < |log| ==> log[i] <= now)
  }

  /** Opening at depth 0 is not counted by the kernel, so depth and opens sum to the peak. */
  ghost predicate Depths(s: State) {
    s.depth + s.opens == Max(1, s.peak) && s.opens <= s.peak
  }

  ghost predicate Stamps(s: State) {
    && (forall i :: i in s.isrs && !s.isrs[i].Entered? ==> s.holder == Some(i))
    && (forall i :: i in s.isrs && s.isrs[i].Stamped? ==>
          s.isrs[i].time <= s.now && forall k :: 0 <= k < |s.log| ==> s.log[k] <= s.isrs[i].time)
    && (s.holder.Some? ==> s.holder.value in s.isrs && !s.isrs[s.holder.value].Entered?)
  }

  ghost predicate Inv(s: State) {
    && Depths(s) && Sorted(s.log, s.now) && Stamps(s)
    && (s.opens == 0 && s.closing == 0 ==> s.isrs == map[])
  }

  lemma InvKept(s: State, l: Step)
    requires Inv(s) && Enabled(s, l)
    ensures Inv(Apply(s, l))
  {}

  lemma {:induction false} InvAlong(s: State, run: seq<Step>)
    requires Inv(s) && Legal(s, run)
    ensures Inv(After(s, run))
    decreases |run|
  {
    if run != [] {
      InvKept(s, run[0]);
      InvAlong(Apply(s, run[0]), run[1..]);
    }
  }

  /** Every interleaving keeps the log sorted: the stamp is taken and linked under one lock. */
  lemma LogStaysSorted(now: int, log: seq<int>, run: seq<Step>)
    requires Sorted(log, now) && Legal(Init(now, log), run)
    ensures Sorted(After(Init(now, log), run).log, After(Init(now, log), run).now)
  {
    InvAlong(Init(now, log), run);
  }

  /** The clock after a run. */
  function Clock(now: int, run: seq<Step>): int {
    if run == [] then now else Clock(now, run[..|run| - 1]) + Ticks(run[|run| - 1])
  }

  function Ticks(l: Step): nat {
    if l.Tick? then l.d else 0
  }

  /** The times at which the handlers of a run read the clock, in that order. */
  function Readings(now: int, run: seq<Step>): seq<int> {
    if run == [] then []
    else
      var before := run[..|run| - 1];
      Readings(now, before) + (if run[|run| - 1].IsrStamp? then [Clock(now, before)] else [])
  }

  /** The time that the handler with the lock has read and not yet linked. */
  function Unlinked(s: State): seq<int> {
    if s.holder.Some? && s.holder.value in s.isrs && s.isrs[s.holder.value].Stamped? then [s.isrs[s.holder.value].time]
    else []
  }

  lemma {:induction false} LegalPrefix(s: State, run: seq<Step>, l: Step)
    requires Legal(s, run + [l])
    ensures Legal(s, run) && Enabled(After(s, run), l) && After(s, run + [l]) == Apply(After(s, run), l)
    decreases |run|
  {
    var all := run + [l];
    if run == [] {
      assert all[1..] == [];
    } else {
      assert all[1..] == run[1..] + [l];
      LegalPrefix(Apply(s, run[0]), run[1..], l);
    }
  }

  /** Nothing is lost, invented or reordered: the log is the old one and then every reading of the clock. */
  lemma {:induction false} LogIsReadings(now: int, log: seq<int>, run: seq<Step>)
    requires Sorted(log, now) && Legal(Init(now, log), run)
    ensures var s := After(Init(now, log), run);
      s.now == Clock(now, run) && s.log + Unlinked(s) == log + Readings(now, run)
  {
    if run != [] {
      var n := |run| - 1;
      assert run == run[..n] + [run[n]];
      LegalPrefix(Init(now, log), run[..n], run[n]);
      LogIsReadings(now, log, run[..n]);
      InvAlong(Init(now, log), run[..n]);
      UnlinkedAfter(After(Init(now, log), run[..n]), run[n]);
    }
  }

  lemma UnlinkedAfter(s: State, l: Step)
    requires Inv(s) && Enabled(s, l)
    ensures var t := Apply(s, l);
      t.log + Unlinked(t) == s.log + Unlinked(s) + (if l.IsrStamp? then [s.now] else [])
  {}

  /**
   For every sequence of opens and releases: the line is enabled exactly while as many opens are
   held as ever were at once. With opens that never overlap that means exactly while open; after
   any overlap a single open no longer enables it.
   */
  lemma EnabledExactlyAtPeak(now: int, log: seq<int>, run: seq<Step>)
    requires Sorted(log, now) && Legal(Init(now, log), run)
    ensures var s := After(Init(now, log), run);
      && s.depth + s.opens >= 1
      && (s.depth == 0 <==> s.opens > 0 && s.opens == s.peak)
      && (s.peak <= 1 ==> (s.depth == 0 <==> s.opens == 1))
  {
    InvAlong(Init(now, log), run);
  }

  /** While the device is closed nothing is recorded: no handler runs and none can start. */
  lemma ClosedRecordsNothing(now: int, log: seq<int>, run: seq<Step>, l: Step)
    requires Sorted(log, now) && Legal(Init(now, log), run)
    requires var s := After(Init(now, log), run);
      s.opens == 0 && s.closing == 0 && Enabled(s, l)
    ensures var s := After(Init(now, log), run);
      Apply(s, l).log == s.log && Apply(s, l).isrs == map[]
  {
    InvAlong(Init(now, log), run);
  }

  // ---------- Nothing gets stuck ----------

  lemma {:induction false} Extend(s: State, run: seq<Step>, l: Step)
    requires Legal(s, run) && Enabled(After(s, run), l)
    ensures Legal(s, run + [l]) && After(s, run + [l]) == Apply(After(s, run), l)
    decreases |run|
  {
    if run == [] {
      assert [l][1..] == [];
    } else {
      Extend(Apply(s, run[0]), run[1..], l);
      assert (run + [l])[1..] == run[1..] + [l];
    }
  }

  /** No open and no interrupt; what has begun goes on. */
  predicate Winding(run: seq<Step>) {
    forall i :: 0 <= i < |run| ==> !run[i].Tick? && !run[i].Open? && !run[i].IsrEnter?
  }

  lemma Wind(s: State, run: seq<Step>, l: Step) returns (more: seq<Step>)
    requires Legal(s, run) && Winding(run) && Enabled(After(s, run), l) && Winding([l])
    ensures Legal(s, more) && Winding(more) && After(s, more) == Apply(After(s, run), l)
  {
    Extend(s, run, l);
    more := run + [l];
    assert [l][0] == l;
  }

  function IsrLeft(c: Isr): nat {
    match c case Entered => 4 case Locked => 3 case Stamped(_) => 2 case Linked => 1
  }

  function IsrNext(i: nat, c: Isr): Step {
    match c
    case Entered => IsrLock(i)
    case Locked => IsrStamp(i)
    case Stamped(_) => IsrAppend(i)
    case Linked => IsrUnlock(i)
  }

  /** What handler `i` still adds to the log at time `now`. */
  function Adds(c: Isr, now: int): seq<int> {
    match c case Stamped(time) => [time] case Linked => [] case _ => [now]
  }

  /** A handler that has the lock or can take it runs to its end, and links one time. */
  lemma {:induction false} FinishHandler(s: State, run: seq<Step>, i: nat) returns (more: seq<Step>)
    requires Legal(s, run) && Winding(run) && i in After(s, run).isrs
    requires var t := After(s, run); t.holder == if t.isrs[i].Entered? then None else Some(i)
    ensures Legal(s, more) && Winding(more)
    ensures var t, u := After(s, run), After(s, more);
      u == t.(isrs := t.isrs - {i}, holder := None, log := t.log + Adds(t.isrs[i], t.now))
    decreases IsrLeft(After(s, run).isrs[i])
  {
    var t := After(s, run);
    more := Wind(s, run, IsrNext(i, t.isrs[i]));
    if !t.isrs[i].Linked? {
      more := FinishHandler(s, more, i);
      assert After(s, more).isrs == t.isrs - {i};
    }
  }

  /** All handlers finish: the one with the lock first. */
  lemma {:induction false} FinishHandlers(s: State, run: seq<Step>) returns (more: seq<Step>)
    requires Legal(s, run) && Winding(run) && Stamps(After(s, run))
    ensures Legal(s, more) && Winding(more)
    ensures var t, u := After(s, run), After(s, more);
      u == t.(isrs := map[], holder := None, log := u.log) && |u.log| == |t.log| + Pending(t.isrs)
    decreases |After(s, run).isrs|
  {
    var t := After(s, run);
    more := run;
    if t.isrs != map[] {
      var i :| i in t.isrs && (t.holder.Some? ==> t.holder == Some(i));
      more := FinishHandler(s, run, i);
      assert After(s, more).isrs == t.isrs - {i};
      FewerHandlers(t.isrs, i);
      more := FinishHandlers(s, more);
    }
  }

  /** The handlers that have still to link their time. */
  function PendingIds(isrs: map<nat, Isr>): set<nat> {
    set i | i in isrs && !isrs[i].Linked?
  }

  function Pending(isrs: map<nat, Isr>): nat {
    |PendingIds(isrs)|
  }

  lemma FewerHandlers(isrs: map<nat, Isr>, i: nat)
    requires i in isrs
    ensures |isrs - {i}| < |isrs| && Pending(isrs - {i}) == Pending(isrs) - if isrs[i].Linked? then 0 else 1
  {
    var rest := isrs - {i};
    assert |rest.Keys| == |isrs.Keys - {i}| == |isrs.Keys| - 1 by { assert rest.Keys == isrs.Keys - {i}; }
    assert PendingIds(rest) == PendingIds(isrs) - {i};
  }

  lemma {:induction false} ReleaseAll(s: State, run: seq<Step>) returns (more: seq<Step>)
    requires Legal(s, run) && Winding(run) && After(s, run).isrs == map[]
    ensures Legal(s, more) && Winding(more)
    ensures var t, u := After(s, run), After(s, more);
      u == t.(opens := 0, closing := 0, depth := t.depth + t.opens)
    decreases After(s, run).opens, After(s, run).closing
  {
    var t := After(s, run);
    more := run;
    if t.opens > 0 {
      more := Wind(s, run, ReleaseBegin);
      more := ReleaseAll(s, more);
    } else if t.closing > 0 {
      more := Wind(s, run, ReleaseEnd);
      more := ReleaseAll(s, more);
    }
  }

  /**
   From every reachable state, without any new interrupt: each running handler can finish and
   links its time, once, and then every open can be released.
   */
  lemma CanAlwaysClose(now: int, log: seq<int>, run: seq<Step>) returns (more: seq<Step>)
    requires Sorted(log, now) && Legal(Init(now, log), run)
    ensures var s := After(Init(now, log), run);
      Legal(s, more) && Winding(more) &&
      var t := After(s, more);
      && t.isrs == map[] && t.holder.None? && t.opens == 0 && t.closing == 0
      && t.depth == s.depth + s.opens && t.now == s.now && |t.log| == |s.log| + Pending(s.isrs)
  {
    var s := After(Init(now, log), run);
    InvAlong(Init(now, log), run);
    more := FinishHandlers(s, []);
    more := ReleaseAll(s, more);
  }

  /** An interrupt on an enabled line, at whatever time, adds that time to the log. */
  lemma EdgeIsRecorded(s: State, d: nat, i: nat) returns (more: seq<Step>)
    requires s.depth == 0 && s.holder.None? && i !in s.isrs
    ensures Legal(s, more) && After(s, more) == s.(now := s.now + d, log := s.log + [s.now + d])
  {
    Extend(s, [], Tick(d));
    Extend(s, [] + [Tick(d)], IsrEnter(i));
    var t := After(s, [] + [Tick(d)] + [IsrEnter(i)]);
    var rest := FinishHandler(t, [], i);
    more := Joined(s, [] + [Tick(d)] + [IsrEnter(i)], rest);
    assert After(t, rest).isrs == s.isrs;
  }

  lemma {:induction false} Joined(s: State, run: seq<Step>, rest: seq<Step>) returns (more: seq<Step>)
    requires Legal(s, run) && Legal(After(s, run), rest)
    ensures Legal(s, more) && After(s, more) == After(After(s, run), rest)
    decreases |rest|
  {
    more := run;
    if rest != [] {
      Extend(s, run, rest[0]);
      more := Joined(s, run + [rest[0]], rest[1..]);
    }
  }

  /** The counterpart: two overlapping opens, one release, and the line is off although the device is open. */
  lemma OverlapDisables(now: int) returns (run: seq<Step>)
    ensures Legal(Init(now, []), run)
    ensures var s := After(Init(now, []), run); s.opens == 1 && s.depth > 0
  {
    run := [Open, Open, ReleaseBegin];
    var s := Init(now, []);
    var s1 := Apply(s, Open);
    var s2 := Apply(s1, Open);
    assert Legal(s2, [ReleaseBegin]);
    assert [Open, ReleaseBegin][1..] == [ReleaseBegin] && run[1..] == [Open, ReleaseBegin];
    assert Legal(s1, [Open, ReleaseBegin]);
  }

  /** The same driver as it runs alone, over the heap list: field updates and the two list walks. */
  class Device {
    var depth: nat
    var opens: nat
    const list: List<int>

    ghost predicate Valid()
      reads this, list, list.head, list.nodes
    {
      list.Valid() && depth + opens >= 1
    }

    constructor ()
      ensures Valid() && depth == 1 && opens == 0 && list.nodes == [] && fresh(list) && fresh(list.head)
    {
      depth, opens := 1, 0;
      list := new List(0);
    }

    method Open()
      requires Valid()
      modifies this
      ensures Valid() && opens == old(opens) + 1
      ensures depth == if old(depth) > 0 then old(depth) - 1 else 0
      ensures list.Contents() == old(list.Contents())
    {
      if depth > 0 { depth := depth - 1; }
      opens := opens + 1;
    }

    /** Prints the whole log and disables the line. */
    method Release() returns (shown: seq<int>)
      requires Valid() && opens > 0
      modifies this
      ensures Valid() && depth == old(depth) + 1 && opens == old(opens) - 1
      ensures shown == list.Contents() == old(list.Contents())
    {
      shown := [];
      var empty := list.IsEmpty();
      if !empty {
        shown := list.Show();
      }
      depth := depth + 1;
      opens := opens - 1;
    }

    /** A rising edge; nothing happens while the line is disabled. */
    method Interrupt(now: int)
      requires Valid()
      modifies list, list.head, list.nodes
      ensures Valid()
      ensures list.Contents() == if depth == 0 then old(list.Contents()) + [now] else old(list.Contents())
      ensures opens == 0 ==> list.Contents() == old(list.Contents())
    {
      if depth == 0 {
        var node := new Node(0);
        node.value := now;
        list.AddTail(node);
      }
    }

    method Exit() returns (visited: seq<Node<int>>)
      requires Valid()
      modifies list, list.head, list.nodes
      ensures Valid() && list.nodes == [] && visited == old(list.nodes)
    {
      visited := list.Drain();
    }
  }
}
