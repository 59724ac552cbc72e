/**
 lab5/ch4: the blocking message queue as an interleaved step system.

 Every call is a process that moves one atomic statement at a time; all waiters are
 non-exclusive. `kmalloc` hands out fresh block ids, and `kfree` counts into a multiset, so a
 lost or twice-freed block is visible. The list is a sequence of entries here; the circular
 doubly linked list that implements it is in `LinkedList` and `QueueDriver`.
 */
module MessageQueue {
  import opened Options
  import opened Sums

  datatype Msg = Msg(len: int, text: string)

  /** A list node and its message, by block id. */
  datatype Entry = Entry(node: nat, msg: nat)

  datatype Phase =
    // ch4_write
    | WStart(input: Msg)
    | WNode(input: Msg, node: nat)
    | WBoth(input: Msg, entry: Entry)
    | WReady(input: Msg, entry: Entry)
    | WLocked(input: Msg, entry: Entry)
    | WLinked
    | WWaking
    // ch4_read
    | RFirst
    | RPrepare(signalled: bool)
    | RRetest(queued: bool, signalled: bool)
    | RAsleep(queued: bool)
    | RPassed(seen: nat)
    | RLocked(seen: nat)
    | REmpty(seen: nat)
    | RTaken(entry: Entry, copy: Msg, ticket: nat)
    | RCopying(entry: Entry, copy: Msg, ticket: nat)
    // the frees that end both
    | Freeing(entry: Entry)
    | FreeingNode(node: nat)

  /** What became of an unlinked message: its user got `what`, or `copy_to_user` failed. */
  datatype Fate = InFlight | Delivered(what: Msg) | Lost

  datatype Taken = Taken(reader: nat, msg: Msg, fate: Fate)

  datatype State = State(
    loaded: bool,
    holder: Option<nat>,         // my_lock
    queue: seq<Entry>,           // msg_list_head
    memory: map<nat, Msg>,       // contents of filled message blocks
    nextBlock: nat,
    freed: multiset<nat>,
    procs: map<nat, Phase>,      // calls in progress
    added: seq<Msg>,             // user messages in list_add_tail order
    taken: seq<Taken>)           // messages in list_del order

  datatype Step =
    | CallWrite(p: nat, input: Msg)
    | KmallocNode(p: nat, ok: bool)
    | KmallocMsg(p: nat, ok: bool)
    | CopyFromUser(p: nat, ok: bool)
    | Acquire(p: nat)
    | AddTail(p: nat)
    | Release(p: nat)
    | WakeUp(p: nat)
    | CallRead(p: nat)
    | TestFirst(p: nat)
    | Prepare(p: nat, signal: bool)
    | TestAgain(p: nat)
    | Resume(p: nat, signal: bool)
    | Recheck(p: nat)
    | CopyToUser(p: nat, ok: bool)
    | KfreeMsg(p: nat)
    | KfreeNode(p: nat)
    | Exit

  const INIT := State(true, None, [], map[], 0, multiset{}, map[], [], [])

  predicate Enabled(s: State, l: Step) {
    match l
    case Exit => s.loaded && s.procs == map[]
    case CallWrite(p, _) => s.loaded && p !in s.procs
    case CallRead(p) => s.loaded && p !in s.procs
    case KmallocNode(p, _) => p in s.procs && s.procs[p].WStart?
    case KmallocMsg(p, _) => p in s.procs && s.procs[p].WNode?
    case CopyFromUser(p, _) => p in s.procs && s.procs[p].WBoth?
    case Acquire(p) => p in s.procs && (s.procs[p].WReady? || s.procs[p].RPassed?) && s.holder.None?
    case AddTail(p) => p in s.procs && s.procs[p].WLocked?
    case Release(p) => p in s.procs && (s.procs[p].WLinked? || s.procs[p].REmpty? || s.procs[p].RTaken?)
    case WakeUp(p) => p in s.procs && s.procs[p].WWaking?
    case TestFirst(p) => p in s.procs && s.procs[p].RFirst?
    case Prepare(p, signal) => p in s.procs && s.procs[p].RPrepare? && (s.procs[p].signalled ==> signal)
    case TestAgain(p) => p in s.procs && s.procs[p].RRetest?
    case Resume(p, signal) => p in s.procs && s.procs[p].RAsleep? && (s.procs[p].queued ==> signal)
    case Recheck(p) => p in s.procs && s.procs[p].RLocked?
    case CopyToUser(p, _) => p in s.procs && s.procs[p].RCopying?
    case KfreeMsg(p) => p in s.procs && s.procs[p].Freeing?
    case KfreeNode(p) => p in s.procs && s.procs[p].FreeingNode?
  }

  /** wake_up_interruptible: every queued waiter leaves the wait queue. */
  function Roused(c: Phase): Phase {
    if c.RRetest? || c.RAsleep? then c.(queued := false) else c
  }

  /** Reading a message block; a block without contents would give an arbitrary value. */
  function Fetch(memory: map<nat, Msg>, b: nat): Msg {
    if b in memory then memory[b] else Msg(-1, "")
  }

  function Settle(taken: seq<Taken>, k: nat, fate: Fate): seq<Taken> {
    if k < |taken| then taken[k := taken[k].(fate := fate)] else taken
  }

  /** Where the stepping process goes next; `None` when its call returns. */
  function NextPhase(s: State, l: Step): Option<Phase>
    requires Enabled(s, l) && !l.Exit?
  {
    match l
    case CallWrite(_, input) => Some(WStart(input))
    case KmallocNode(p, ok) => if ok then Some(WNode(s.procs[p].input, s.nextBlock)) else None
    case KmallocMsg(p, ok) =>
      var c := s.procs[p];
      if ok then Some(WBoth(c.input, Entry(c.node, s.nextBlock))) else Some(FreeingNode(c.node))
    case CopyFromUser(p, ok) =>
      if ok then Some(WReady(s.procs[p].input, s.procs[p].entry)) else Some(Freeing(s.procs[p].entry))
    case Acquire(p) =>
      if s.procs[p].WReady? then Some(WLocked(s.procs[p].input, s.procs[p].entry)) else Some(RLocked(s.procs[p].seen))
    case AddTail(_) => Some(WLinked)
    case Release(p) =>
      (match s.procs[p]
       case WLinked => Some(WWaking)
       case RTaken(e, m, k) => Some(RCopying(e, m, k))
       case _ => None)                                                   // -EFAULT after the empty re-check
    case WakeUp(_) => None
    case CallRead(_) => Some(RFirst)
    case TestFirst(_) => if s.queue != [] then Some(RPassed(|s.taken|)) else Some(RPrepare(false))
    case Prepare(_, signal) => Some(RRetest(!signal, signal))
    case TestAgain(p) =>
      if s.queue != [] then Some(RPassed(|s.taken|))
      else if s.procs[p].signalled then None                             // -ERESTARTSYS
      else Some(RAsleep(s.procs[p].queued))
    case Resume(_, signal) => Some(RPrepare(signal))
    case Recheck(p) =>
      if s.queue == [] then Some(REmpty(s.procs[p].seen))
      else Some(RTaken(s.queue[0], Fetch(s.memory, s.queue[0].msg), |s.taken|))
    case CopyToUser(p, _) => Some(Freeing(s.procs[p].entry))
    case KfreeMsg(p) => Some(FreeingNode(s.procs[p].entry.node))
    case KfreeNode(_) => None
  }

  function NextProcs(s: State, l: Step): map<nat, Phase>
    requires Enabled(s, l)
  {
    if l.Exit? then s.procs
    else
      var others := if l.WakeUp? then map q | q in s.procs :: Roused(s.procs[q]) else s.procs;
      match NextPhase(s, l)
      case Some(c) => others[l.p := c]
      case None => others - {l.p}
  }

  function NextHolder(s: State, l: Step): Option<nat> {
    if l.Acquire? then Some(l.p) else if l.Release? then None else s.holder
  }

  function NextQueue(s: State, l: Step): seq<Entry>
    requires Enabled(s, l)
  {
    if l.AddTail? then s.queue + [s.procs[l.p].entry]
    else if l.Recheck? && s.queue != [] then s.queue[1..]
    else if l.Exit? then []
    else s.queue
  }

  function NextMemory(s: State, l: Step): map<nat, Msg>
    requires Enabled(s, l)
  {
    if l.CopyFromUser? && l.ok then s.memory[s.procs[l.p].entry.msg := s.procs[l.p].input]
    else if l.KfreeMsg? then s.memory - {s.procs[l.p].entry.msg}
    else if l.Exit? then map[]
    else s.memory
  }

  predicate Allocates(l: Step) {
    (l.KmallocNode? || l.KmallocMsg?) && l.ok
  }

  function NextFreed(s: State, l: Step): multiset<nat>
    requires Enabled(s, l)
  {
    if l.KfreeMsg? then s.freed + multiset{s.procs[l.p].entry.msg}
    else if l.KfreeNode? then s.freed + multiset{s.procs[l.p].node}
    else if l.Exit? then s.freed + Blocks(s.queue)
    else s.freed
  }

  function NextAdded(s: State, l: Step): seq<Msg>
    requires Enabled(s, l)
  {
    if l.AddTail? then s.added + [s.procs[l.p].input] else s.added
  }

  function NextTaken(s: State, l: Step): seq<Taken>
    requires Enabled(s, l)
  {
    if l.Recheck? && s.queue != [] then s.taken + [Taken(l.p, Fetch(s.memory, s.queue[0].msg), InFlight)]
    else if l.CopyToUser? then Settle(s.taken, s.procs[l.p].ticket, if l.ok then Delivered(s.procs[l.p].copy) else Lost)
    else s.taken
  }

  function Apply(s: State, l: Step): State
    requires Enabled(s, l)
  {
    State(s.loaded && !l.Exit?, NextHolder(s, l), NextQueue(s, l), NextMemory(s, l),
          if Allocates(l) then s.nextBlock + 1 else s.nextBlock, NextFreed(s, l),
          NextProcs(s, l), NextAdded(s, l), NextTaken(s, l))
  }

  function Blocks(q: seq<Entry>): multiset<nat> {
    if q == [] then multiset{} else multiset{q[0].node, q[0].msg} + Blocks(q[1..])
  }

  predicate Legal(s: State, run: seq<Step>)
    decreases |run|
  {
    run == [] || (Enabled(s, run[0]) && Legal(Apply(s, run[0]), run[1..]))
  }

  function After(s: State, run: seq<Step>): State
    requires Legal(s, run)
    decreases |run|
  {
    if run == [] then s else After(Apply(s, run[0]), run[1..])
  }

  // ---------- The lock ----------

  predicate Critical(c: Phase) {
    c.WLocked? || c.WLinked? || c.RLocked? || c.REmpty? || c.RTaken?
  }

  ghost predicate Mutex(s: State) {
    && (forall p :: p in s.procs && Critical(s.procs[p]) ==> s.holder == Some(p))
    && (s.holder.Some? ==> s.holder.value in s.procs && Critical(s.procs[s.holder.value]))
  }

  /** A step moves one process; a wake-up also takes every other waiter off the wait queue. */
  lemma OthersKept(s: State, l: Step, q: nat)
    requires Enabled(s, l) && !l.Exit? && q != l.p
    ensures q in Apply(s, l).procs <==> q in s.procs
    ensures q in s.procs ==> Apply(s, l).procs[q] == if l.WakeUp? then Roused(s.procs[q]) else s.procs[q]
  {}

  lemma MutexKept(s: State, l: Step, t: State)
    requires Mutex(s) && Enabled(s, l) && t == Apply(s, l)
    ensures Mutex(t)
  {
    forall p | p in t.procs && Critical(t.procs[p])
      ensures t.holder == Some(p)
    {
      if !l.Exit? && p != l.p { OthersKept(s, l, p); }
    }
    if t.holder.Some? && !l.Exit? && t.holder.value != l.p { OthersKept(s, l, t.holder.value); }
  }

  // ---------- No wake-up is lost ----------

  predicate AsleepUnwoken(s: State, r: nat) {
    r in s.procs && s.procs[r] == RAsleep(true)
  }

  predicate OwesWakeUp(s: State, w: nat) {
    w in s.procs && (s.procs[w].WLinked? || s.procs[w].WWaking?)
  }

  /** A reader that sleeps un-woken beside a non-empty queue has a writer on its way to wake it. */
  ghost predicate NoLostWakeUp(s: State) {
    forall r :: AsleepUnwoken(s, r) && s.queue != [] ==> exists w :: OwesWakeUp(s, w)
  }

  lemma NoLostWakeUpKept(s: State, l: Step)
    requires NoLostWakeUp(s) && Enabled(s, l)
    ensures NoLostWakeUp(Apply(s, l))
  {
    var t := Apply(s, l);
    forall r | AsleepUnwoken(t, r) && t.queue != []
      ensures exists w :: OwesWakeUp(t, w)
    {
      if l.AddTail? {
        assert OwesWakeUp(t, l.p);
      } else {
        assert AsleepUnwoken(s, r) && s.queue != [];
        var w :| OwesWakeUp(s, w);
        assert OwesWakeUp(t, w);
      }
    }
  }

  // ---------- Blocks have one owner ----------

  predicate Holds(c: Phase, b: nat) {
    match c
    case WNode(_, n) => b == n
    case WBoth(_, e) => b == e.node || b == e.msg
    case WReady(_, e) => b == e.node || b == e.msg
    case WLocked(_, e) => b == e.node || b == e.msg
    case RTaken(e, _, _) => b == e.node || b == e.msg
    case RCopying(e, _, _) => b == e.node || b == e.msg
    case Freeing(e) => b == e.node || b == e.msg
    case FreeingNode(n) => b == n
    case _ => false
  }

  predicate HeldBy(s: State, p: nat, b: nat) {
    p in s.procs && Holds(s.procs[p], b)
  }

  predicate Linked(q: seq<Entry>, b: nat) {
    exists i :: 0 <= i < |q| && (q[i].node == b || q[i].msg == b)
  }

  /** Processes hold different blocks, none of them linked or freed. */
  ghost predicate HeldApart(s: State) {
    && (forall p: nat, b: nat :: HeldBy(s, p, b) ==> b < s.nextBlock && s.freed[b] == 0 && !Linked(s.queue, b))
    && (forall p: nat, q: nat, b: nat :: HeldBy(s, p, b) && HeldBy(s, q, b) ==> p == q)
  }

  /** A node and its message are different blocks wherever they are held together. */
  predicate Paired(c: Phase) {
    (c.WBoth? || c.WReady? || c.WLocked? || c.RTaken? || c.RCopying? || c.Freeing?) ==> c.entry.node != c.entry.msg
  }

  ghost predicate AllPaired(s: State) {
    && (forall p :: p in s.procs ==> Paired(s.procs[p]))
    && (forall i :: 0 <= i < |s.queue| ==> s.queue[i].node != s.queue[i].msg)
  }

  /** The list links every block once, and none that is freed. */
  ghost predicate LinkedOnce(s: State) {
    && Apart(s.queue)
    && (forall b: nat :: Linked(s.queue, b) ==> b < s.nextBlock && s.freed[b] == 0)
  }

  predicate Apart(q: seq<Entry>) {
    forall i, j :: 0 <= i < j < |q| ==>
      q[i].node != q[j].node && q[i].node != q[j].msg && q[i].msg != q[j].node && q[i].msg != q[j].msg
  }

  /** No block is lost and none is freed twice. */
  ghost predicate NoLeak(s: State) {
    && (forall b: nat :: s.freed[b] <= 1)
    && (forall b: nat :: b >= s.nextBlock ==> s.freed[b] == 0)
    && (forall b: nat :: b < s.nextBlock && s.freed[b] == 0 && !Linked(s.queue, b) ==> exists p: nat :: HeldBy(s, p, b))
  }

  lemma LinkedAppend(q: seq<Entry>, e: Entry, b: nat)
    ensures Linked(q + [e], b) <==> Linked(q, b) || b == e.node || b == e.msg
  {
    if Linked(q, b) {
      var i :| 0 <= i < |q| && (q[i].node == b || q[i].msg == b);
      assert (q + [e])[i] == q[i];
    }
    assert (q + [e])[|q|] == e;
  }

  lemma LinkedFirst(q: seq<Entry>, b: nat)
    requires q != []
    ensures Linked(q, b) <==> Linked(q[1..], b) || b == q[0].node || b == q[0].msg
    ensures Apart(q) && (b == q[0].node || b == q[0].msg) ==> !Linked(q[1..], b)
  {
    if Linked(q[1..], b) {
      var i :| 0 <= i < |q[1..]| && (q[1..][i].node == b || q[1..][i].msg == b);
      assert q[i + 1] == q[1..][i];
    }
    if Linked(q, b) && b != q[0].node && b != q[0].msg {
      var i :| 0 <= i < |q| && (q[i].node == b || q[i].msg == b);
      assert q[1..][i - 1] == q[i];
    }
  }

  predicate Dequeues(s: State, l: Step) {
    l.Recheck? && s.queue != []
  }

  predicate IsFirst(s: State, b: nat)
    requires s.queue != []
  {
    b == s.queue[0].node || b == s.queue[0].msg
  }

  /** What the stepping process holds afterwards. */
  lemma MoverHolds(s: State, l: Step, b: nat)
    requires Enabled(s, l) && !l.Exit?
    ensures HeldBy(Apply(s, l), l.p, b) <==>
              if Dequeues(s, l) then IsFirst(s, b)
              else if l.AddTail? then false
              else (HeldBy(s, l.p, b) && b !in FreedNow(s, l)) || (Allocates(l) && b == s.nextBlock)
                   || (l.KfreeMsg? && b == s.procs[l.p].entry.node)
  {}

  lemma OthersHold(s: State, l: Step, p: nat, b: nat)
    requires Enabled(s, l) && (l.Exit? || p != l.p)
    ensures HeldBy(Apply(s, l), p, b) <==> HeldBy(s, p, b)
  {
    if !l.Exit? { OthersKept(s, l, p); }
  }

  /** How the linked blocks change: only list_add_tail, list_del and the drain touch them. */
  lemma LinkedAfter(s: State, l: Step, b: nat)
    requires Enabled(s, l)
    ensures Linked(Apply(s, l).queue, b) <==>
              if l.AddTail? then Linked(s.queue, b) || HeldBy(s, l.p, b)
              else if Dequeues(s, l) then Linked(s.queue[1..], b)
              else !l.Exit? && Linked(s.queue, b)
  {
    if l.AddTail? { LinkedAppend(s.queue, s.procs[l.p].entry, b); }
  }

  /** What a step frees. */
  function FreedNow(s: State, l: Step): set<nat>
    requires Enabled(s, l)
  {
    if l.KfreeMsg? then {s.procs[l.p].entry.msg} else if l.KfreeNode? then {s.procs[l.p].node} else {}
  }

  lemma FreedAfter(s: State, l: Step, b: nat)
    requires Enabled(s, l) && Apart(s.queue) && AllPaired(s)
    ensures Apply(s, l).freed[b] == s.freed[b] +
              (if b in FreedNow(s, l) || (l.Exit? && Linked(s.queue, b)) then 1 else 0)
  {
    if l.Exit? { BlocksCount(s.queue, b); }
  }

  /** The drain frees every linked block once. */
  lemma {:induction false} BlocksCount(q: seq<Entry>, b: nat)
    requires Apart(q) && forall i :: 0 <= i < |q| ==> q[i].node != q[i].msg
    ensures Blocks(q)[b] == if Linked(q, b) then 1 else 0
  {
    if q != [] {
      BlocksCount(q[1..], b);
      LinkedFirst(q, b);
    }
  }

  ghost predicate Owned(s: State) {
    HeldApart(s) && AllPaired(s) && LinkedOnce(s) && NoLeak(s)
  }

  lemma AllPairedKept(s: State, l: Step)
    requires AllPaired(s) && HeldApart(s) && Enabled(s, l)
    ensures AllPaired(Apply(s, l))
  {
    var t := Apply(s, l);
    forall p | p in t.procs
      ensures Paired(t.procs[p])
    {
      if !l.Exit? && p != l.p { OthersKept(s, l, p); }
      else if l.KmallocMsg? { assert HeldBy(s, p, s.procs[p].node); }
      else if Dequeues(s, l) { assert s.queue[0].node != s.queue[0].msg; }
    }
  }

  /** A block held after a step is live and unlinked, and the step did not give it two holders. */
  lemma HeldBlockKept(s: State, l: Step, t: State, p: nat, b: nat)
    requires Owned(s) && Enabled(s, l) && t == Apply(s, l) && HeldBy(t, p, b)
    ensures b < t.nextBlock && t.freed[b] == 0 && !Linked(t.queue, b)
    ensures HeldBy(s, p, b) ||
            (!l.Exit? && p == l.p && ((Allocates(l) && b == s.nextBlock) || (Dequeues(s, l) && IsFirst(s, b))))
  {
    LinkedAfter(s, l, b);
    FreedAfter(s, l, b);
    if b in FreedNow(s, l) { FreedIsHeld(s, l, b); }
    if l.Exit? || p != l.p {
      OthersHold(s, l, p, b);
      assert !l.Exit? && !HeldBy(s, l.p, b);
      if s.queue != [] { LinkedFirst(s.queue, b); }
    } else {
      MoverHolds(s, l, b);
      if Dequeues(s, l) { LinkedFirst(s.queue, b); }
      if l.KfreeMsg? { assert Paired(s.procs[p]) && HeldBy(s, p, b); }
    }
  }

  lemma FreedIsHeld(s: State, l: Step, b: nat)
    requires Enabled(s, l) && b in FreedNow(s, l)
    ensures HeldBy(s, l.p, b)
  {}

  /** A linked block stays live, and a block is freed only from one place. */
  lemma FreesAreSound(s: State, l: Step, t: State, b: nat)
    requires Owned(s) && Enabled(s, l) && t == Apply(s, l)
    ensures Linked(t.queue, b) ==> b < t.nextBlock && t.freed[b] == 0
    ensures t.freed[b] <= 1 && (b >= t.nextBlock ==> t.freed[b] == 0)
  {
    LinkedAfter(s, l, b);
    FreedAfter(s, l, b);
    if s.queue != [] { LinkedFirst(s.queue, b); }
    if b in FreedNow(s, l) { FreedIsHeld(s, l, b); }
  }

  lemma BlockNotLost(s: State, l: Step, t: State, b: nat)
    requires Owned(s) && Enabled(s, l) && t == Apply(s, l)
    requires b < t.nextBlock && t.freed[b] == 0 && !Linked(t.queue, b)
    ensures exists p: nat :: HeldBy(t, p, b)
  {
    LinkedAfter(s, l, b);
    FreedAfter(s, l, b);
    if s.queue != [] { LinkedFirst(s.queue, b); }
    if b < s.nextBlock && !Linked(s.queue, b) {
      var p: nat :| HeldBy(s, p, b);
      if l.Exit? || p != l.p { OthersHold(s, l, p, b); } else { MoverHolds(s, l, b); }
      assert HeldBy(t, p, b);
    } else {
      MoverHolds(s, l, b);
      assert HeldBy(t, l.p, b);
    }
  }

  lemma OwnedKept(s: State, l: Step, t: State)
    requires Owned(s) && Enabled(s, l) && t == Apply(s, l)
    ensures Owned(t)
  {
    AllPairedKept(s, l);
    forall p: nat, b: nat | HeldBy(t, p, b)
      ensures b < t.nextBlock && t.freed[b] == 0 && !Linked(t.queue, b)
    {
      HeldBlockKept(s, l, t, p, b);
    }
    forall p: nat, q: nat, b: nat | HeldBy(t, p, b) && HeldBy(t, q, b)
      ensures p == q
    {
      HeldBlockKept(s, l, t, p, b);
      HeldBlockKept(s, l, t, q, b);
    }
    forall b: nat
      ensures Linked(t.queue, b) ==> b < t.nextBlock && t.freed[b] == 0
      ensures t.freed[b] <= 1 && (b >= t.nextBlock ==> t.freed[b] == 0)
    {
      FreesAreSound(s, l, t, b);
    }
    forall b: nat | b < t.nextBlock && t.freed[b] == 0 && !Linked(t.queue, b)
      ensures exists p: nat :: HeldBy(t, p, b)
    {
      BlockNotLost(s, l, t, b);
    }
    ApartKept(s, l);
  }

  lemma ApartKept(s: State, l: Step)
    requires Owned(s) && Enabled(s, l)
    ensures Apart(Apply(s, l).queue)
  {
    if l.AddTail? {
      var e := s.procs[l.p].entry;
      assert HeldBy(s, l.p, e.node) && HeldBy(s, l.p, e.msg);
      forall i | 0 <= i < |s.queue| ensures Linked(s.queue, s.queue[i].node) && Linked(s.queue, s.queue[i].msg) {}
    }
  }

  // ---------- First in, first out ----------

  predicate Writes(c: Phase) { c.WReady? || c.WLocked? }
  predicate Carries(c: Phase) { c.RTaken? || c.RCopying? }

  /** Filled message blocks hold what the writer's user supplied. */
  ghost predicate Filled(s: State) {
    && (forall p :: p in s.procs && Writes(s.procs[p]) ==>
          s.procs[p].entry.msg in s.memory && s.memory[s.procs[p].entry.msg] == s.procs[p].input)
    && (!s.loaded ==> s.procs == map[] && s.queue == [])
  }

  /** Messages in list_add_tail order are the messages in list_del order followed by the queue. */
  ghost predicate Fifo(s: State) {
    && |s.taken| + |s.queue| <= |s.added|
    && (s.loaded ==> |s.taken| + |s.queue| == |s.added|)
    && (forall i :: 0 <= i < |s.taken| ==> s.taken[i].msg == s.added[i])
    && (forall i :: 0 <= i < |s.queue| ==>
          s.queue[i].msg in s.memory && s.memory[s.queue[i].msg] == s.added[|s.taken| + i])
  }

  /** A reader carries the message it took, unsettled. */
  ghost predicate Carried(s: State) {
    forall p :: p in s.procs && Carries(s.procs[p]) ==>
      s.procs[p].ticket < |s.taken| && s.taken[s.procs[p].ticket] == Taken(p, s.procs[p].copy, InFlight)
  }

  /** What a user received is what its reader took, and what is in flight some reader carries. */
  ghost predicate Accounted(s: State) {
    && (forall i :: 0 <= i < |s.taken| && s.taken[i].fate.Delivered? ==> s.taken[i].fate.what == s.taken[i].msg)
    && (forall i :: 0 <= i < |s.taken| && s.taken[i].fate.InFlight? ==>
          CarriedBy(s, s.taken[i].reader, i))
  }

  predicate CarriedBy(s: State, p: nat, i: nat) {
    p in s.procs && Carries(s.procs[p]) && s.procs[p].ticket == i
  }

  /** A block in another process's hands, or in the list, keeps its contents. */
  lemma MemoryKept(s: State, l: Step, b: nat)
    requires Owned(s) && Enabled(s, l) && !l.Exit? && !HeldBy(s, l.p, b)
    ensures Apply(s, l).memory.Keys * {b} == s.memory.Keys * {b}
    ensures b in s.memory ==> b in Apply(s, l).memory && Apply(s, l).memory[b] == s.memory[b]
  {}

  lemma FilledKept(s: State, l: Step, t: State)
    requires Owned(s) && Filled(s) && Enabled(s, l) && t == Apply(s, l)
    ensures Filled(t)
  {
    forall p | p in t.procs && Writes(t.procs[p])
      ensures t.procs[p].entry.msg in t.memory && t.memory[t.procs[p].entry.msg] == t.procs[p].input
    {
      if p != l.p {
        OthersKept(s, l, p);
        assert HeldBy(s, p, s.procs[p].entry.msg);
        MemoryKept(s, l, s.procs[p].entry.msg);
      }
    }
  }

  lemma QueueMemoryKept(s: State, l: Step, i: nat)
    requires Owned(s) && Enabled(s, l) && !l.Exit? && i < |s.queue| && s.queue[i].msg in s.memory
    ensures s.queue[i].msg in Apply(s, l).memory && Apply(s, l).memory[s.queue[i].msg] == s.memory[s.queue[i].msg]
  {
    assert Linked(s.queue, s.queue[i].msg);
    MemoryKept(s, l, s.queue[i].msg);
  }

  lemma TakenAfter(s: State, l: Step)
    requires Enabled(s, l)
    ensures var t := Apply(s, l);
            && |t.taken| == |s.taken| + (if Dequeues(s, l) then 1 else 0)
            && (forall i :: 0 <= i < |s.taken| ==>
                  t.taken[i].msg == s.taken[i].msg && t.taken[i].reader == s.taken[i].reader &&
                  (t.taken[i] == s.taken[i] || (l.CopyToUser? && i == s.procs[l.p].ticket)))
            && (Dequeues(s, l) ==> t.taken[|s.taken|] == Taken(l.p, Fetch(s.memory, s.queue[0].msg), InFlight))
  {}

  /** Each entry of the new list was in the old one with the same contents, or has just been linked. */
  lemma QueuedMessage(s: State, l: Step, t: State, i: nat)
    requires Owned(s) && Filled(s) && Fifo(s) && Enabled(s, l) && t == Apply(s, l) && i < |t.queue|
    ensures |t.taken| + i < |t.added|
    ensures t.queue[i].msg in t.memory && t.memory[t.queue[i].msg] == t.added[|t.taken| + i]
  {
    TakenAfter(s, l);
    var j := if Dequeues(s, l) then i + 1 else i;
    if j < |s.queue| { QueueMemoryKept(s, l, j); }
  }

  lemma FifoKept(s: State, l: Step, t: State)
    requires Owned(s) && Filled(s) && Fifo(s) && Enabled(s, l) && t == Apply(s, l)
    ensures Fifo(t)
  {
    TakenAfter(s, l);
    forall i | 0 <= i < |t.queue|
      ensures |t.taken| + i < |t.added|
      ensures t.queue[i].msg in t.memory && t.memory[t.queue[i].msg] == t.added[|t.taken| + i]
    {
      QueuedMessage(s, l, t, i);
    }
  }

  /** Who carries a message after a step: the others as before, and the stepping process in two cases. */
  lemma CarriesAfter(s: State, l: Step, p: nat)
    requires Enabled(s, l) && !l.Exit? && p != l.p
    ensures p in s.procs && Carries(s.procs[p]) <==> p in Apply(s, l).procs && Carries(Apply(s, l).procs[p])
  {
    OthersKept(s, l, p);
  }

  lemma MoverCarries(s: State, l: Step)
    requires Enabled(s, l) && !l.Exit?
    ensures l.p in Apply(s, l).procs && Carries(Apply(s, l).procs[l.p]) <==>
            Dequeues(s, l) || (l.Release? && s.procs[l.p].RTaken?)
  {}

  /** Whoever goes on carrying a message carries the same one. */
  lemma CarriesSame(s: State, l: Step, p: nat)
    requires Enabled(s, l) && !l.Exit? && !(p == l.p && Dequeues(s, l))
    requires p in Apply(s, l).procs && Carries(Apply(s, l).procs[p])
    ensures p in s.procs && Carries(s.procs[p])
    ensures var c, d := s.procs[p], Apply(s, l).procs[p]; d.ticket == c.ticket && d.copy == c.copy
  {
    if p != l.p { OthersKept(s, l, p); }
  }

  lemma CarriesFirst(s: State, l: Step)
    requires Enabled(s, l) && Dequeues(s, l)
    ensures var t := Apply(s, l);
            && l.p in t.procs && Carries(t.procs[l.p])
            && t.procs[l.p].ticket == |s.taken| && t.procs[l.p].copy == Fetch(s.memory, s.queue[0].msg)
  {}

  lemma CarriedKept(s: State, l: Step, t: State)
    requires Carried(s) && Enabled(s, l) && t == Apply(s, l)
    ensures Carried(t)
  {
    forall p | p in t.procs && Carries(t.procs[p])
      ensures t.procs[p].ticket < |t.taken| && t.taken[t.procs[p].ticket] == Taken(p, t.procs[p].copy, InFlight)
    {
      TakenAfter(s, l);
      if !l.Exit? {
        if p == l.p && Dequeues(s, l) { CarriesFirst(s, l); } else { CarriesSame(s, l, p); }
      }
      if l.CopyToUser? { assert Carries(s.procs[l.p]); }
    }
  }

  lemma InFlightIsCarried(s: State, l: Step, t: State, i: nat)
    requires Carried(s) && Accounted(s) && Enabled(s, l) && t == Apply(s, l)
    requires i < |t.taken| && t.taken[i].fate.InFlight?
    ensures CarriedBy(t, t.taken[i].reader, i)
  {
    TakenAfter(s, l);
    if !l.Exit? {
      if l.CopyToUser? { assert Carries(s.procs[l.p]); }
      if i < |s.taken| {
        if s.taken[i].reader == l.p { MoverCarries(s, l); } else { CarriesAfter(s, l, s.taken[i].reader); }
        CarriesSame(s, l, s.taken[i].reader);
      } else {
        CarriesFirst(s, l);
      }
    }
  }

  lemma AccountedKept(s: State, l: Step, t: State)
    requires Carried(s) && Accounted(s) && Enabled(s, l) && t == Apply(s, l)
    ensures Accounted(t)
  {
    TakenAfter(s, l);
    if l.CopyToUser? { assert Carries(s.procs[l.p]); }
    forall i | 0 <= i < |t.taken| && t.taken[i].fate.InFlight?
      ensures CarriedBy(t, t.taken[i].reader, i)
    {
      InFlightIsCarried(s, l, t, i);
    }
  }

  // ---------- The empty re-check ----------

  predicate PastWait(c: Phase) { c.RPassed? || c.RLocked? || c.REmpty? }

  /** Since it passed the wait, `p` itself has not dequeued, and there was something to dequeue. */
  ghost predicate Rival(s: State) {
    forall p :: p in s.procs && PastWait(s.procs[p]) ==> PassedBefore(s, p, s.procs[p])
  }

  ghost predicate PassedBefore(s: State, p: nat, c: Phase)
    requires PastWait(c)
  {
    && c.seen < (if c.REmpty? then |s.taken| else |s.added|)
    && forall i :: c.seen <= i < |s.taken| ==> s.taken[i].reader != p
  }

  lemma RivalKept(s: State, l: Step, t: State)
    requires Filled(s) && Fifo(s) && Rival(s) && Enabled(s, l) && t == Apply(s, l)
    ensures Rival(t)
  {
    TakenAfter(s, l);
    forall p | p in t.procs && PastWait(t.procs[p])
      ensures PassedBefore(t, p, t.procs[p])
    {
      if p != l.p { OthersKept(s, l, p); }
    }
  }

  // ---------- All of it, over every run ----------

  ghost predicate Inv(s: State) {
    Mutex(s) && NoLostWakeUp(s) && Owned(s) && Filled(s) && Fifo(s) && Carried(s) && Accounted(s) && Rival(s)
  }

  lemma InvKept(s: State, l: Step, t: State)
    requires Inv(s) && Enabled(s, l) && t == Apply(s, l)
    ensures Inv(t)
  {
    MutexKept(s, l, t);
    NoLostWakeUpKept(s, l);
    OwnedKept(s, l, t);
    FilledKept(s, l, t);
    FifoKept(s, l, t);
    CarriedKept(s, l, t);
    AccountedKept(s, l, t);
    RivalKept(s, l, t);
  }

  lemma {:induction false} InvAlong(s: State, run: seq<Step>)
    requires Inv(s) && Legal(s, run)
    ensures Inv(After(s, run))
    decreases |run|
  {
    if run != [] {
      InvKept(s, run[0], Apply(s, run[0]));
      InvAlong(Apply(s, run[0]), run[1..]);
    }
  }

  lemma InitInv()
    ensures Inv(INIT)
  {}

  lemma InvFromInit(run: seq<Step>)
    requires Legal(INIT, run)
    ensures Inv(After(INIT, run))
  {
    InitInv();
    InvAlong(INIT, run);
  }

  // ---------- What every run guarantees ----------

  /**
   In every interleaving the messages unlinked so far, in order, and then the contents of the
   linked message blocks are exactly the user messages in the order they were linked.
   */
  lemma FifoUnderAllInterleavings(run: seq<Step>)
    requires Legal(INIT, run) && After(INIT, run).loaded
    ensures var s := After(INIT, run); s.added == TakenMsgs(s) + QueueMsgs(s)
  {
    InvFromInit(run);
    QueueIsTail(After(INIT, run));
  }

  /** A user that is handed a message gets the one its reader unlinked, and nothing else is kept in flight. */
  lemma DeliveredAsTaken(run: seq<Step>, i: nat)
    requires Legal(INIT, run) && i < |After(INIT, run).taken|
    ensures var s := After(INIT, run);
      i < |s.added| &&
      match s.taken[i].fate
      case Delivered(what) => what == s.added[i]
      case InFlight => CarriedBy(s, s.taken[i].reader, i) && s.procs[s.taken[i].reader].copy == s.added[i]
      case Lost => true
  {
    InvFromInit(run);
  }

  /** A successful copy delivers the message to the user of the reader that took it, a failed one loses it. */
  lemma CopySettles(run: seq<Step>, p: nat, ok: bool)
    requires Legal(INIT, run) && Enabled(After(INIT, run), CopyToUser(p, ok))
    ensures var s := After(INIT, run);
      var k := s.procs[p].ticket;
      && k < |s.taken| && k < |s.added| && s.taken[k] == Taken(p, s.added[k], InFlight)
      && Apply(s, CopyToUser(p, ok)).taken ==
         s.taken[k := Taken(p, s.added[k], if ok then Delivered(s.added[k]) else Lost)]
  {
    InvFromInit(run);
    assert Carries(After(INIT, run).procs[p]);
  }

  /** How many copies of a run succeed, or fail. */
  function Copies(run: seq<Step>, ok: bool): nat
    decreases |run|
  {
    if run == [] then 0
    else (if run[0].CopyToUser? && run[0].ok == ok then 1 else 0) + Copies(run[1..], ok)
  }

  predicate Settled(x: Taken, ok: bool) {
    if ok then x.fate.Delivered? else x.fate.Lost?
  }

  /** The messages delivered, or lost, as weights. */
  function Settlements(taken: seq<Taken>, ok: bool): seq<int> {
    seq(|taken|, i requires 0 <= i < |taken| => if Settled(taken[i], ok) then 1 else 0)
  }

  function Outcome(ok: bool, m: Msg): Fate {
    if ok then Delivered(m) else Lost
  }

  lemma TakenChange(s: State, l: Step)
    requires Carried(s) && Enabled(s, l)
    ensures l.CopyToUser? ==>
              var k := s.procs[l.p].ticket;
              && k < |s.taken| && s.taken[k].fate.InFlight?
              && Apply(s, l).taken == s.taken[k := s.taken[k].(fate := Outcome(l.ok, s.procs[l.p].copy))]
    ensures Dequeues(s, l) ==> |Apply(s, l).taken| == |s.taken| + 1 && s.taken <= Apply(s, l).taken &&
                               Apply(s, l).taken[|s.taken|].fate.InFlight?
    ensures !l.CopyToUser? && !Dequeues(s, l) ==> Apply(s, l).taken == s.taken
  {
    if l.CopyToUser? { assert Carries(s.procs[l.p]); }
  }

  lemma SettlementsUpdate(taken: seq<Taken>, k: nat, fate: Fate, ok: bool)
    requires k < |taken| && taken[k].fate.InFlight?
    ensures var after := taken[k := taken[k].(fate := fate)];
      Sum(Settlements(after, ok)) ==
      Sum(Settlements(taken, ok)) + if Settled(taken[k].(fate := fate), ok) then 1 else 0
  {
    SumPoint(Settlements(taken, ok), Settlements(taken[k := taken[k].(fate := fate)], ok), k);
  }

  lemma SettlementsAppend(taken: seq<Taken>, after: seq<Taken>, ok: bool)
    requires |after| == |taken| + 1 && taken <= after && after[|taken|].fate.InFlight?
    ensures Sum(Settlements(after, ok)) == Sum(Settlements(taken, ok))
  {
    assert Settlements(after, ok)[..|taken|] == Settlements(taken, ok);
  }

  lemma SettlementsAfter(s: State, l: Step, ok: bool)
    requires Carried(s) && Enabled(s, l)
    ensures Sum(Settlements(Apply(s, l).taken, ok)) ==
            Sum(Settlements(s.taken, ok)) + if l.CopyToUser? && l.ok == ok then 1 else 0
  {
    TakenChange(s, l);
    if l.CopyToUser? {
      SettlementsUpdate(s.taken, s.procs[l.p].ticket, Outcome(l.ok, s.procs[l.p].copy), ok);
    } else if Dequeues(s, l) {
      SettlementsAppend(s.taken, Apply(s, l).taken, ok);
    }
  }

  lemma {:induction false} SettlementsAlong(s: State, run: seq<Step>, ok: bool)
    requires Inv(s) && Legal(s, run)
    ensures Sum(Settlements(After(s, run).taken, ok)) == Sum(Settlements(s.taken, ok)) + Copies(run, ok)
    decreases |run|
  {
    if run != [] {
      var t := Apply(s, run[0]);
      SettlementsAfter(s, run[0], ok);
      InvKept(s, run[0], t);
      SettlementsAlong(t, run[1..], ok);
    }
  }

  /** As many messages have been delivered, and lost, as copies to a user have succeeded, and failed. */
  lemma EveryCopyCounts(run: seq<Step>, ok: bool)
    requires Legal(INIT, run)
    ensures Sum(Settlements(After(INIT, run).taken, ok)) == Copies(run, ok)
  {
    InitInv();
    SettlementsAlong(INIT, run, ok);
  }

  // ---------- What is linked is what the user supplied ----------

  /** The argument of each process's latest write call. */
  function Inputs(inputs: map<nat, Msg>, run: seq<Step>): map<nat, Msg>
    decreases |run|
  {
    if run == [] then inputs
    else Inputs(if run[0].CallWrite? then inputs[run[0].p := run[0].input] else inputs, run[1..])
  }

  predicate HasInput(c: Phase) { c.WStart? || c.WNode? || c.WBoth? || c.WReady? || c.WLocked? }

  ghost predicate InputsKept(s: State, inputs: map<nat, Msg>) {
    forall p :: p in s.procs && HasInput(s.procs[p]) ==> p in inputs && s.procs[p].input == inputs[p]
  }

  lemma InputKept(s: State, l: Step, p: nat)
    requires Enabled(s, l) && p in Apply(s, l).procs && HasInput(Apply(s, l).procs[p]) && !(l.CallWrite? && l.p == p)
    ensures p in s.procs && HasInput(s.procs[p]) && Apply(s, l).procs[p].input == s.procs[p].input
  {
    if !l.Exit? && p != l.p { OthersKept(s, l, p); }
  }

  lemma InputsStep(s: State, l: Step, inputs: map<nat, Msg>)
    requires InputsKept(s, inputs) && Enabled(s, l)
    ensures InputsKept(Apply(s, l), if l.CallWrite? then inputs[l.p := l.input] else inputs)
  {
    var t := Apply(s, l);
    forall p | p in t.procs && HasInput(t.procs[p]) && !(l.CallWrite? && l.p == p)
      ensures p in s.procs && HasInput(s.procs[p]) && t.procs[p].input == s.procs[p].input
    {
      InputKept(s, l, p);
    }
  }

  lemma {:induction false} InputsAlong(s: State, run: seq<Step>, inputs: map<nat, Msg>)
    requires InputsKept(s, inputs) && Legal(s, run)
    ensures InputsKept(After(s, run), Inputs(inputs, run))
    decreases |run|
  {
    if run != [] {
      InputsStep(s, run[0], inputs);
      InputsAlong(Apply(s, run[0]), run[1..], if run[0].CallWrite? then inputs[run[0].p := run[0].input] else inputs);
    }
  }

  /** `list_add_tail` links a block that holds the argument of its process's call, at the end of the list. */
  lemma LinksTheInput(run: seq<Step>, p: nat)
    requires Legal(INIT, run) && Enabled(After(INIT, run), AddTail(p))
    ensures var s, t := After(INIT, run), Apply(After(INIT, run), AddTail(p));
      && p in Inputs(map[], run) && t.added == s.added + [Inputs(map[], run)[p]]
      && QueueMsgs(t) == QueueMsgs(s) + [Inputs(map[], run)[p]]
  {
    InvFromInit(run);
    InputsAlong(INIT, run, map[]);
  }

  datatype Place = InProcess(p: nat) | InList | Freed

  /** Block `b` is at `place`; a freed block has been freed once and a linked one sits in one entry. */
  predicate IsAt(s: State, b: nat, place: Place) {
    match place
    case InProcess(p) => HeldBy(s, p, b)
    case InList => Linked(s.queue, b)
    case Freed => s.freed[b] >= 1
  }

  /** Every block ever allocated is in exactly one place. */
  lemma ExactlyOnePlace(run: seq<Step>, b: nat) returns (place: Place)
    requires Legal(INIT, run) && b < After(INIT, run).nextBlock
    ensures IsAt(After(INIT, run), b, place)
    ensures forall other :: IsAt(After(INIT, run), b, other) ==> other == place
  {
    InvFromInit(run);
    var s := After(INIT, run);
    if s.freed[b] == 1 {
      place := Freed;
    } else if Linked(s.queue, b) {
      place := InList;
    } else {
      var p: nat :| HeldBy(s, p, b);
      place := InProcess(p);
    }
  }

  /** And it is there once: freed at most once, linked by at most one field of one entry. */
  lemma NeverTwice(run: seq<Step>, b: nat)
    requires Legal(INIT, run)
    ensures After(INIT, run).freed[b] <= 1 && Blocks(After(INIT, run).queue)[b] <= 1
  {
    InvFromInit(run);
    BlocksCount(After(INIT, run).queue, b);
  }

  /** After the exit every block ever allocated, on whatever path, has been freed exactly once. */
  lemma ExitFreesEverything(run: seq<Step>, b: nat)
    requires Legal(INIT, run) && !After(INIT, run).loaded && b < After(INIT, run).nextBlock
    ensures After(INIT, run).freed[b] == 1
  {
    InvFromInit(run);
    var place := ExactlyOnePlace(run, b);
  }

  /**
   A reader asleep beside a non-empty queue is about to be woken: once the lock is free, some
   writer stands between its unlock and its wake-up call.
   */
  lemma NoWakeUpIsLost(run: seq<Step>, r: nat)
    requires Legal(INIT, run)
    requires AsleepUnwoken(After(INIT, run), r) && After(INIT, run).queue != []
    ensures var s := After(INIT, run);
      exists w :: w in s.procs && (s.procs[w].WWaking? || (s.procs[w].WLinked? && s.holder == Some(w)))
  {
    InvFromInit(run);
    var s := After(INIT, run);
    var w :| OwesWakeUp(s, w);
    assert s.procs[w].WWaking? || (s.procs[w].WLinked? && s.holder == Some(w));
  }

  /** When only un-woken sleepers are left in the driver, the queue is empty. */
  lemma NobodySleepsOnMessages(run: seq<Step>)
    requires Legal(INIT, run) && After(INIT, run).procs != map[]
    requires forall p :: p in After(INIT, run).procs ==> AsleepUnwoken(After(INIT, run), p)
    ensures After(INIT, run).queue == []
  {
    var s := After(INIT, run);
    if s.queue != [] {
      var p :| p in s.procs;
      NoWakeUpIsLost(run, p);
    }
  }

  /**
   A reader that finds the list empty under the lock was overtaken: `seen` counts the dequeues
   when it passed the wait, and the next dequeue was made by another process.
   */
  lemma EmptyRecheckMeansOvertaken(run: seq<Step>, p: nat)
    requires Legal(INIT, run)
    requires var s := After(INIT, run);
      p in s.procs && (s.procs[p].REmpty? || (s.procs[p].RLocked? && s.queue == []))
    ensures var s := After(INIT, run);
      s.procs[p].seen < |s.taken| && s.taken[s.procs[p].seen].reader != p
  {
    InvFromInit(run);
    var s := After(INIT, run);
    assert PassedBefore(s, p, s.procs[p]);
    assert s.loaded;
  }

  predicate IsReader(c: Phase) {
    c.RFirst? || c.RPrepare? || c.RRetest? || c.RAsleep? || PastWait(c) || Carries(c)
  }

  /** Only process `r` reads. */
  predicate OnlyReader(run: seq<Step>, r: nat) {
    forall i :: 0 <= i < |run| && run[i].CallRead? ==> run[i].p == r
  }

  ghost predicate ReadBy(s: State, r: nat) {
    && (forall p :: p in s.procs && IsReader(s.procs[p]) ==> p == r)
    && (forall i :: 0 <= i < |s.taken| ==> s.taken[i].reader == r)
  }

  lemma ReadByKept(s: State, l: Step, r: nat, t: State)
    requires ReadBy(s, r) && Enabled(s, l) && (l.CallRead? ==> l.p == r) && t == Apply(s, l)
    ensures ReadBy(t, r)
  {
    TakenAfter(s, l);
    forall p | p in t.procs && IsReader(t.procs[p])
      ensures p == r
    {
      if !l.Exit? && p != l.p { OthersKept(s, l, p); }
    }
  }

  lemma {:induction false} ReadByAlong(s: State, run: seq<Step>, r: nat)
    requires ReadBy(s, r) && Legal(s, run) && OnlyReader(run, r)
    ensures ReadBy(After(s, run), r)
    decreases |run|
  {
    if run != [] {
      ReadByKept(s, run[0], r, Apply(s, run[0]));
      ReadByAlong(Apply(s, run[0]), run[1..], r);
    }
  }

  /** With a single reading process the -EFAULT exit of the re-check is unreachable. */
  lemma SingleReaderNeverFindsEmpty(run: seq<Step>, r: nat, p: nat)
    requires Legal(INIT, run) && OnlyReader(run, r) && p in After(INIT, run).procs
    ensures var s := After(INIT, run);
      !s.procs[p].REmpty? && (s.procs[p].RLocked? ==> s.queue != [])
  {
    var s := After(INIT, run);
    ReadByAlong(INIT, run, r);
    if s.procs[p].REmpty? || (s.procs[p].RLocked? && s.queue == []) {
      EmptyRecheckMeansOvertaken(run, p);
    }
  }

  // ---------- What the lock serialises ----------

  datatype Op = Push(m: Msg) | Pop

  /** The list operation of a step, if it has one. */
  function OpOf(s: State, l: Step): seq<Op>
    requires Enabled(s, l)
  {
    if l.AddTail? then [Push(s.procs[l.p].input)] else if Dequeues(s, l) then [Pop] else []
  }

  /** The list operations of a run, in the order the lock admits them. */
  function ListOps(s: State, run: seq<Step>): seq<Op>
    requires Legal(s, run)
    decreases |run|
  {
    if run == [] then []
    else
      OpOf(s, run[0]) + ListOps(Apply(s, run[0]), run[1..])
  }

  /** The messages a sequence of operations leaves in the queue. */
  function Leaves(q: seq<Msg>, ops: seq<Op>): seq<Msg>
    decreases |ops|
  {
    if ops == [] then q
    else match ops[0]
      case Push(m) => Leaves(q + [m], ops[1..])
      case Pop => Leaves(if q == [] then [] else q[1..], ops[1..])
  }

  /** The messages it takes out, in order. */
  function Pops(q: seq<Msg>, ops: seq<Op>): seq<Msg>
    decreases |ops|
  {
    if ops == [] then []
    else match ops[0]
      case Push(m) => Pops(q + [m], ops[1..])
      case Pop => if q == [] then Pops(q, ops[1..]) else [q[0]] + Pops(q[1..], ops[1..])
  }

  function TakenMsgs(s: State): seq<Msg> {
    seq(|s.taken|, i requires 0 <= i < |s.taken| => s.taken[i].msg)
  }

  /** The messages in the linked blocks, first to last. */
  function QueueMsgs(s: State): seq<Msg> {
    seq(|s.queue|, i requires 0 <= i < |s.queue| => Fetch(s.memory, s.queue[i].msg))
  }

  /** While the module is loaded the queued messages are the added ones not yet taken. */
  lemma QueueIsTail(s: State)
    requires Fifo(s) && s.loaded
    ensures QueueMsgs(s) == s.added[|s.taken|..]
  {}

  lemma QueueMsgsAfter(s: State, l: Step, t: State)
    requires Fifo(s) && Fifo(t) && s.loaded && Enabled(s, l) && !l.Exit? && t == Apply(s, l)
    ensures QueueMsgs(t) == if l.AddTail? then QueueMsgs(s) + [s.procs[l.p].input]
                            else if Dequeues(s, l) then QueueMsgs(s)[1..] else QueueMsgs(s)
  {
    QueueIsTail(s);
    QueueIsTail(t);
    TakenAfter(s, l);
  }

  lemma TakenMsgsAfter(s: State, l: Step, t: State)
    requires Enabled(s, l) && t == Apply(s, l)
    ensures TakenMsgs(t) == if Dequeues(s, l) then TakenMsgs(s) + [QueueMsgs(s)[0]] else TakenMsgs(s)
  {
    TakenAfter(s, l);
  }

  lemma FirstOp(q: seq<Msg>, op: Op, rest: seq<Op>)
    ensures Leaves(q, [op] + rest) ==
              match op case Push(m) => Leaves(q + [m], rest) case Pop => Leaves(if q == [] then [] else q[1..], rest)
    ensures Pops(q, [op] + rest) ==
              match op case Push(m) => Pops(q + [m], rest)
                case Pop => if q == [] then Pops(q, rest) else [q[0]] + Pops(q[1..], rest)
  {
    assert ([op] + rest)[1..] == rest;
  }

  /** `q` and `taken` become `q'` and `taken'` by the at most one operation `op`. */
  predicate Effect(q: seq<Msg>, taken: seq<Msg>, op: seq<Op>, q': seq<Msg>, taken': seq<Msg>) {
    || (op == [] && q' == q && taken' == taken)
    || (|op| == 1 && op[0].Push? && q' == q + [op[0].m] && taken' == taken)
    || (op == [Pop] && q != [] && q' == q[1..] && taken' == taken + [q[0]])
  }

  lemma EffectFirst(q: seq<Msg>, taken: seq<Msg>, op: seq<Op>, q': seq<Msg>, taken': seq<Msg>, rest: seq<Op>)
    requires Effect(q, taken, op, q', taken')
    ensures Leaves(q, op + rest) == Leaves(q', rest)
    ensures taken + Pops(q, op + rest) == taken' + Pops(q', rest)
  {
    if op == [] {
      assert [] + rest == rest;
    } else {
      FirstOp(q, op[0], rest);
      assert op == [op[0]];
    }
  }

  /** One step, seen as at most one list operation. */
  lemma StepAsOp(s: State, l: Step, t: State)
    requires Fifo(s) && Fifo(t) && s.loaded && Enabled(s, l) && !l.Exit? && t == Apply(s, l)
    ensures Effect(QueueMsgs(s), TakenMsgs(s), OpOf(s, l), QueueMsgs(t), TakenMsgs(t))
  {
    QueueMsgsAfter(s, l, t);
    TakenMsgsAfter(s, l, t);
  }

  /** The list operations alone explain what a run has taken and what it leaves queued. */
  lemma {:induction false} ListOpsExplain(s: State, run: seq<Step>)
    requires Inv(s) && Legal(s, run) && After(s, run).loaded
    ensures QueueMsgs(After(s, run)) == Leaves(QueueMsgs(s), ListOps(s, run))
    ensures TakenMsgs(After(s, run)) == TakenMsgs(s) + Pops(QueueMsgs(s), ListOps(s, run))
    decreases |run|
  {
    if run != [] {
      var t := Apply(s, run[0]);
      LoadedBefore(t, run[1..]);
      InvKept(s, run[0], t);
      ListOpsExplain(t, run[1..]);
      StepAsOp(s, run[0], t);
      EffectFirst(QueueMsgs(s), TakenMsgs(s), OpOf(s, run[0]), QueueMsgs(t), TakenMsgs(t), ListOps(t, run[1..]));
    }
  }

  lemma {:induction false} LoadedBefore(s: State, run: seq<Step>)
    requires Legal(s, run) && After(s, run).loaded
    ensures s.loaded
    decreases |run|
  {
    if run != [] { LoadedBefore(Apply(s, run[0]), run[1..]); }
  }

  lemma HeapMirrorsRun(run: seq<Step>)
    requires Legal(INIT, run) && After(INIT, run).loaded
    ensures QueueMsgs(After(INIT, run)) == Leaves([], ListOps(INIT, run))
    ensures TakenMsgs(After(INIT, run)) == Pops([], ListOps(INIT, run))
  {
    InitInv();
    ListOpsExplain(INIT, run);
  }
}
