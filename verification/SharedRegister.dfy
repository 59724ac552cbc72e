/** The register that lab9 implements twice: one published value, replaced by writers and read by sections. */
module SharedRegister {
  import opened Options

  /** All values the register has held, oldest first; `None` stands for NULL. A version is a position here. */
  type History = seq<Option<nat>>

  /** The latest version. */
  function Latest(h: History): nat { if h == [] then 0 else |h| - 1 }

  /** What one step shows: a write, an unload, a section's start, version `at` of the value seen by it, or nothing. */
  datatype Event = Silent | Wrote(v: nat) | Cleared | Began(r: nat) | Saw(r: nat, at: nat, seen: Option<nat>)

  /** A section has not read yet and may see any version from `since` on, or has seen `at` and may see no other. */
  datatype Section = Open(since: nat) | Fixed(at: nat)

  datatype Register = Register(history: History, sections: map<nat, Section>)

  const START := Register([Some(0)], map[])

  function Record(g: Register, e: Event): Register {
    match e
    case Wrote(v) => g.(history := g.history + [Some(v)])
    case Cleared => g.(history := g.history + [None])
    case Began(r) => g.(sections := g.sections[r := Open(Latest(g.history))])
    case Saw(r, at, _) => g.(sections := g.sections[r := Fixed(at)])
    case Silent => g
  }

  function RecordAll(g: Register, trace: seq<Event>): Register
    decreases |trace|
  {
    if trace == [] then g else RecordAll(Record(g, trace[0]), trace[1..])
  }

  /** The version is one that was the latest at some moment of the section, and the same for all its reads. */
  predicate Within(c: Section, at: nat) {
    match c case Open(since) => since <= at case Fixed(v) => at == v
  }

  /** `v` is the value of version `at`, which is the latest one or at most `bound` behind it. */
  predicate Recent(h: History, at: nat, v: Option<nat>, bound: nat) {
    at < |h| <= at + 1 + bound && h[at] == v
  }

  predicate Allowed(g: Register, e: Event, bound: nat) {
    e.Saw? ==> e.r in g.sections && Within(g.sections[e.r], e.at) && Recent(g.history, e.at, e.seen, bound)
  }

  /**
   The specification: each section sees one version, which was the latest at a moment between its
   start and its first read, and which lags at most `bound` behind the latest at every read.
   */
  predicate Accepts(g: Register, trace: seq<Event>, bound: nat)
    decreases |trace|
  {
    trace == [] || (Allowed(g, trace[0], bound) && Accepts(Record(g, trace[0]), trace[1..], bound))
  }

  /** A tighter staleness bound implies a looser one. */
  lemma {:induction false} AcceptsLooser(g: Register, trace: seq<Event>, bound: nat, looser: nat)
    requires Accepts(g, trace, bound) && bound <= looser
    ensures Accepts(g, trace, looser)
    decreases |trace|
  {
    if trace != [] {
      AcceptsLooser(Record(g, trace[0]), trace[1..], bound, looser);
    }
  }

  /** The last event of an accepted trace is allowed after everything before it. */
  lemma {:induction false} LastAllowed(g: Register, trace: seq<Event>, e: Event, bound: nat)
    requires Accepts(g, trace + [e], bound)
    ensures Allowed(RecordAll(g, trace), e, bound)
    decreases |trace|
  {
    if trace == [] {
      assert (trace + [e])[0] == e;
    } else {
      assert (trace + [e])[1..] == trace[1..] + [e];
      LastAllowed(Record(g, trace[0]), trace[1..], e, bound);
    }
  }
}
