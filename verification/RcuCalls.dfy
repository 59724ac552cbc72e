/** The calls of lab9/ex2 as the source writes them: their arguments, and the order of their statements. */
module RcuCalls {
  import opened Options
  import opened SharedRegister
  import opened RcuCell

  // ---------- What is published is what the write was called with ----------

  /** The argument of the latest write with each id. */
  function Args(args: map<nat, nat>, run: seq<Step>): map<nat, nat>
    decreases |run|
  {
    if run == [] then args else Args(NextArgs(args, run[0]), run[1..])
  }

  function NextArgs(args: map<nat, nat>, l: Step): map<nat, nat> {
    if l.BeginWrite? then args[l.w := l.arg] else args
  }

  /** Until it publishes, a writer has its argument or a live cell that holds it. */
  ghost predicate ArgsKept(s: State, args: map<nat, nat>) {
    forall w :: w in s.writers ==>
      w in args && (s.writers[w].Called? ==> s.writers[w].arg == args[w]) &&
      (NewCell(s.writers[w]).Some? ==> Lookup(s.heap, NewCell(s.writers[w]).value) == Some(args[w]))
  }

  lemma ArgsStep(s: State, l: Step, args: map<nat, nat>)
    requires Allocated(s) && NewLive(s) && NewNotPrior(s) && ArgsKept(s, args) && Enabled(s, l)
    ensures ArgsKept(Apply(s, l), NextArgs(args, l))
  {}

  lemma {:induction false} ArgsAlong(s: State, run: seq<Step>, args: map<nat, nat>)
    requires Cells(s) && ArgsKept(s, args) && Legal(s, run)
    ensures Cells(After(s, run)) && ArgsKept(After(s, run), Args(args, run))
    decreases |run|
  {
    if run != [] {
      CellsKept(s, run[0]);
      ArgsStep(s, run[0], args);
      ArgsAlong(Apply(s, run[0]), run[1..], NextArgs(args, run[0]));
    }
  }

  /** Publishing makes the argument of the write the latest version, in a live cell. */
  lemma PublishesTheArgument(run: seq<Step>, w: nat)
    requires Legal(INIT, run) && Enabled(After(INIT, run), Publish(w))
    ensures var s, t, args := After(INIT, run), Apply(After(INIT, run), Publish(w)), Args(map[], run);
      w in args && t.history == s.history + [Some(args[w])] && Value(t) == Some(args[w])
  {
    BaseFromInit([]);
    ArgsAlong(INIT, run, map[]);
  }

  // ---------- Every call runs its statements in the order of the source ----------

  /** The steps of each section, and of each writer since its latest call, in order. */
  datatype Past = Past(sections: map<nat, seq<Step>>, writers: map<nat, seq<Step>>)

  function Trail(m: map<nat, seq<Step>>, k: nat): seq<Step> {
    if k in m then m[k] else []
  }

  function NextPast(h: Past, nextSection: nat, l: Step): Past {
    match l
    case BeginRead => h.(sections := h.sections[nextSection := [l]])
    case Deref(r) => h.(sections := h.sections[r := Trail(h.sections, r) + [l]])
    case ReadCell(r) => h.(sections := h.sections[r := Trail(h.sections, r) + [l]])
    case EndRead(r) => h.(sections := h.sections[r := Trail(h.sections, r) + [l]])
    case BeginWrite(w, _) => h.(writers := h.writers[w := [l]])
    case ExitFree => h
    case ExitClear => h
    case _ => h.(writers := h.writers[l.w := Trail(h.writers, l.w) + [l]])
  }

  function PastOf(s: State, run: seq<Step>, h: Past): Past
    requires Legal(s, run)
    decreases |run|
  {
    if run == [] then h else PastOf(Apply(s, run[0]), run[1..], NextPast(h, s.nextSection, run[0]))
  }

  /** A write call from its start, and how far it is. */
  predicate WriteTrail(w: nat, c: Writer, h: seq<Step>) {
    && |h| > 0 && h[0].BeginWrite? && h[0].w == w
    && h[1..] == [Allocate(w), Capture(w), Publish(w), SyncBegin(w), SyncEnd(w)][..Progress(c)]
  }

  function Progress(c: Writer): nat
    ensures Progress(c) <= 5
  {
    match c
    case Called(_) => 0
    case Fresh(_) => 1
    case Captured(_, _) => 2
    case Published(_, _) => 3
    case Waiting(_, _, _) => 4
    case Reclaiming(_, _) => 5
  }

  predicate ReadTrail(r: nat, c: Reader, h: seq<Step>) {
    match c
    case Entered => h == [BeginRead]
    case Holding(_, _, seen) => |seen| <= 2 && h == [BeginRead, Deref(r), ReadCell(r), ReadCell(r)][..2 + |seen|]
    case SawNull(_) => h == [BeginRead, Deref(r)]
  }

  ghost predicate InOrder(s: State, h: Past) {
    && SectionIds(s)
    && (forall r :: r in s.readers ==> r in h.sections && ReadTrail(r, s.readers[r], h.sections[r]))
    && (forall w :: w in s.writers ==> w in h.writers && WriteTrail(w, s.writers[w], h.writers[w]))
  }

  lemma ReadTrailKept(s: State, l: Step, h: Past, r: nat)
    requires InOrder(s, h) && Enabled(s, l) && r in Apply(s, l).readers
    ensures var n := NextPast(h, s.nextSection, l);
      r in n.sections && ReadTrail(r, Apply(s, l).readers[r], n.sections[r])
  {
    var whole := [BeginRead, Deref(r), ReadCell(r), ReadCell(r)];
    assert whole[..2] == [BeginRead] + [Deref(r)];
    assert whole[..3] == whole[..2] + [ReadCell(r)] && whole[..4] == whole[..3] + [ReadCell(r)];
  }

  lemma WriteTrailKept(s: State, l: Step, h: Past, w: nat)
    requires InOrder(s, h) && Enabled(s, l) && w in Apply(s, l).writers
    ensures var n := NextPast(h, s.nextSection, l);
      w in n.writers && WriteTrail(w, Apply(s, l).writers[w], n.writers[w])
  {
    var whole := [Allocate(w), Capture(w), Publish(w), SyncBegin(w), SyncEnd(w)];
    if Writes(l) && l.w == w && !l.BeginWrite? {
      var p, trail := Progress(s.writers[w]), h.writers[w];
      assert (trail + [l])[1..] == trail[1..] + [l];
      assert l == whole[p] && whole[..p + 1] == whole[..p] + [whole[p]];
    }
  }

  lemma {:induction false} InOrderAlong(s: State, run: seq<Step>, h: Past)
    requires InOrder(s, h) && Legal(s, run)
    ensures InOrder(After(s, run), PastOf(s, run, h))
    decreases |run|
  {
    if run != [] {
      var t, n := Apply(s, run[0]), NextPast(h, s.nextSection, run[0]);
      SectionIdsKept(s, run[0]);
      forall r | r in t.readers ensures r in n.sections && ReadTrail(r, t.readers[r], n.sections[r]) {
        ReadTrailKept(s, run[0], h, r);
      }
      forall w | w in t.writers ensures w in n.writers && WriteTrail(w, t.writers[w], n.writers[w]) {
        WriteTrailKept(s, run[0], h, w);
      }
      InOrderAlong(t, run[1..], n);
    }
  }

  /** A section that ends has dereferenced once and then read twice, or found NULL and read nothing. */
  lemma SectionsRunWhole(run: seq<Step>, r: nat)
    requires Legal(INIT, run) && Enabled(After(INIT, run), EndRead(r))
    ensures var h := PastOf(INIT, run, Past(map[], map[]));
      r in h.sections &&
      (if After(INIT, run).readers[r].SawNull? then h.sections[r] == [BeginRead, Deref(r)]
       else h.sections[r] == [BeginRead, Deref(r), ReadCell(r), ReadCell(r)])
  {
    InOrderAlong(INIT, run, Past(map[], map[]));
  }

  /** A write that frees has taken every statement of its call before, once and in order. */
  lemma WritesRunWhole(run: seq<Step>, w: nat)
    requires Legal(INIT, run) && Enabled(After(INIT, run), Reclaim(w))
    ensures var h := PastOf(INIT, run, Past(map[], map[]));
      w in h.writers && |h.writers[w]| == 6 && h.writers[w][0].BeginWrite? &&
      h.writers[w][1..] == [Allocate(w), Capture(w), Publish(w), SyncBegin(w), SyncEnd(w)]
  {
    InOrderAlong(INIT, run, Past(map[], map[]));
    assert WriteTrail(w, After(INIT, run).writers[w], PastOf(INIT, run, Past(map[], map[])).writers[w]);
  }
}
