/**
 team/server_pi_app.c: the occupancy server. `on_message` holds one mutex from end to end, so a
 run is a sequence of whole messages.
 */
module OccupancyServer {
  import opened Options
  import opened LedDriver

  const MAX_COUNT := 5
  const ENTRY_REQUEST := "entry/request"
  const EXIT_REQUEST := "exit/request"
  const ENTRY_RESPONSE := "entry/response"
  const EXIT_RESPONSE := "exit/response"

  /** A received message; `None` is a NULL payload pointer. */
  datatype Message = Message(topic: string, payload: Option<string>)

  datatype Request = Enter | Leave | Unknown

  datatype Response = Response(topic: string, payload: string)

  /** payload_equals: the lengths agree and memcmp finds no difference. */
  predicate PayloadEquals(m: Message, s: string) {
    m.payload.Some? && |m.payload.value| == |s| &&
    forall i :: 0 <= i < |s| ==> m.payload.value[i] == s[i]
  }

  lemma PayloadEqualsMeansEqual(m: Message, s: string)
    ensures PayloadEquals(m, s) <==> m.payload == Some(s)
  {
    if PayloadEquals(m, s) { assert m.payload.value == s; }
  }

  function Classify(m: Message): Request {
    if m.topic == EXIT_REQUEST && PayloadEquals(m, "EXIT") then Leave
    else if m.topic == ENTRY_REQUEST && PayloadEquals(m, "ENTER") then Enter
    else Unknown
  }

  function Digit(n: int): char
    requires 0 <= n <= 9
  {
    "0123456789"[n]
  }

  /** snprintf of the status; the count has one digit while it stays in range. */
  function StatusText(count: int): string
    requires 0 <= count <= 9
  {
    "count=" + [Digit(count)] + ",max=" + [Digit(MAX_COUNT)] + ",full=" + (if count >= MAX_COUNT then "1" else "0")
  }

  /** What the server has counted and published so far. */
  datatype Log = Log(count: int, responses: seq<Response>, statuses: seq<string>)

  predicate InRange(count: int) { 0 <= count <= MAX_COUNT }

  function Admit(count: int, r: Request): int {
    match r
    case Enter => if count < MAX_COUNT then count + 1 else count
    case Leave => if count > 0 then count - 1 else count
    case Unknown => count
  }

  function Answer(count: int, r: Request): seq<Response> {
    match r
    case Enter => [Response(ENTRY_RESPONSE, if count < MAX_COUNT then "ALLOW" else "DENY")]
    case Leave => [Response(EXIT_RESPONSE, if count > 0 then "ALLOW" else "DENY")]
    case Unknown => []
  }

  function Handle(g: Log, m: Message): Log
    requires InRange(g.count)
  {
    var r := Classify(m);
    var c := Admit(g.count, r);
    Log(c, g.responses + Answer(g.count, r), g.statuses + [StatusText(c)])
  }

  function HandleAll(g: Log, msgs: seq<Message>): (r: Log)
    requires InRange(g.count)
    ensures InRange(r.count)
  {
    if msgs == [] then g else Handle(HandleAll(g, msgs[..|msgs| - 1]), msgs[|msgs| - 1])
  }

  const START := Log(0, [], [])

  class Server {
    var count: int
    var responses: seq<Response>
    var statuses: seq<string>
    var ledOpen: bool
    const led: Device

    ghost function Seen(): Log reads this { Log(count, responses, statuses) }

    ghost predicate Valid()
      reads this, led
    {
      InRange(count) && led.Valid()
    }

    /** main up to the loop: the device is open and the LED has been switched off. */
    constructor (led: Device, ledOpen: bool)
      requires led.Valid() && led.ledState == 0
      ensures Valid() && Seen() == START && this.led == led && this.ledOpen == ledOpen
    {
      count, responses, statuses := 0, [], [];
      this.led := led;
      this.ledOpen := ledOpen;
    }

    method SetInsideLed(on: bool, copyOk: bool)
      requires Valid()
      modifies led
      ensures Valid()
      ensures led.ledState == if ledOpen && copyOk then (if on then 1 else 0) else old(led.ledState)
    {
      if !ledOpen {
        return;
      }
      var ret := led.Write([if on then '1' else '0'], copyOk);
    }

    method HandleEntryRequest()
      requires Valid()
      modifies this`count, this`responses
      ensures count == Admit(old(count), Enter) && responses == old(responses) + Answer(old(count), Enter)
    {
      if count < MAX_COUNT {
        count := count + 1;
        responses := responses + [Response(ENTRY_RESPONSE, "ALLOW")];
      } else {
        responses := responses + [Response(ENTRY_RESPONSE, "DENY")];
      }
    }

    method HandleExitRequest()
      requires Valid()
      modifies this`count, this`responses
      ensures count == Admit(old(count), Leave) && responses == old(responses) + Answer(old(count), Leave)
    {
      if count > 0 {
        count := count - 1;
        responses := responses + [Response(EXIT_RESPONSE, "ALLOW")];
      } else {
        responses := responses + [Response(EXIT_RESPONSE, "DENY")];
      }
    }

    /** on_message; `copyOk` says whether the write to the LED device succeeds. */
    method OnMessage(m: Message, copyOk: bool)
      requires Valid()
      modifies this`count, this`responses, this`statuses, led
      ensures Valid() && Seen() == Handle(old(Seen()), m)
      ensures led.ledState == if ledOpen && copyOk then (if count > 0 then 1 else 0) else old(led.ledState)
    {
      if m.topic == EXIT_REQUEST && PayloadEquals(m, "EXIT") {
        HandleExitRequest();
      } else if m.topic == ENTRY_REQUEST && PayloadEquals(m, "ENTER") {
        HandleEntryRequest();
      }
      SetInsideLed(count > 0, copyOk);
      statuses := statuses + [StatusText(count)];
    }

    /** Any message run with a working device: the LED shows whether anybody is inside. */
    method Serve(msgs: seq<Message>)
      requires Valid() && Seen() == START && ledOpen && led.ledState == 0
      modifies this`count, this`responses, this`statuses, led
      ensures Valid() && Seen() == HandleAll(START, msgs)
      ensures led.ledState == led.pin == (if count > 0 then 1 else 0)
    {
      for i := 0 to |msgs|
        invariant Valid() && Seen() == HandleAll(START, msgs[..i])
        invariant led.ledState == if count > 0 then 1 else 0
      {
        OnMessage(msgs[i], true);
        assert msgs[..i + 1][..i] == msgs[..i];
      }
      assert msgs[..|msgs|] == msgs;
    }
  }

  // ---------- What every message run guarantees ----------

  const ENTERED := Response(ENTRY_RESPONSE, "ALLOW")
  const LEFT := Response(EXIT_RESPONSE, "ALLOW")

  lemma AnswerCounts(g: Log, r: Request)
    ensures var more := multiset(g.responses + Answer(g.count, r));
      && more[ENTERED] == multiset(g.responses)[ENTERED] + (if r.Enter? && g.count < MAX_COUNT then 1 else 0)
      && more[LEFT] == multiset(g.responses)[LEFT] + (if r.Leave? && g.count > 0 then 1 else 0)
  {
    assert ENTRY_RESPONSE[1] != EXIT_RESPONSE[1] && "ALLOW"[0] != "DENY"[0];
  }

  /** The count is the allowed entries minus the allowed exits. */
  lemma {:induction false} CountBalances(msgs: seq<Message>)
    ensures var g := HandleAll(START, msgs);
      InRange(g.count) && g.count + multiset(g.responses)[LEFT] == multiset(g.responses)[ENTERED]
  {
    if msgs != [] {
      var g := HandleAll(START, msgs[..|msgs| - 1]);
      CountBalances(msgs[..|msgs| - 1]);
      AnswerCounts(g, Classify(msgs[|msgs| - 1]));
    }
  }

  /** The valid requests of a run, in order. */
  function Requests(msgs: seq<Message>): seq<Request> {
    if msgs == [] then []
    else
      var r := Classify(msgs[|msgs| - 1]);
      Requests(msgs[..|msgs| - 1]) + (if r.Unknown? then [] else [r])
  }

  function TopicFor(r: Request): string {
    if r.Leave? then EXIT_RESPONSE else ENTRY_RESPONSE
  }

  /** One response per valid request, in order and on its topic. */
  lemma {:induction false} OneAnswerEach(msgs: seq<Message>)
    ensures var g := HandleAll(START, msgs);
      && |g.responses| == |Requests(msgs)|
      && (forall i :: 0 <= i < |g.responses| ==> g.responses[i].topic == TopicFor(Requests(msgs)[i]))
  {
    if msgs != [] {
      OneAnswerEach(msgs[..|msgs| - 1]);
    }
  }

  lemma {:induction false} StatusCount(msgs: seq<Message>)
    ensures |HandleAll(START, msgs).statuses| == |msgs|
  {
    if msgs != [] { StatusCount(msgs[..|msgs| - 1]); }
  }

  /** One status per message, with the count at that moment. */
  lemma {:induction false} OneStatusEach(msgs: seq<Message>, k: nat)
    requires k < |msgs|
    ensures |HandleAll(START, msgs).statuses| == |msgs|
    ensures HandleAll(START, msgs).statuses[k] == StatusText(HandleAll(START, msgs[..k + 1]).count)
  {
    var n := |msgs| - 1;
    StatusCount(msgs);
    StatusCount(msgs[..n]);
    if k == n {
      assert msgs[..k + 1] == msgs;
    } else {
      OneStatusEach(msgs[..n], k);
      assert msgs[..n][..k + 1] == msgs[..k + 1];
    }
  }

  /** The flag at the end of the latest status says whether the next ENTER will be refused. */
  lemma FullPredictsDenial(msgs: seq<Message>, m: Message)
    requires msgs != [] && Classify(m).Enter?
    ensures var g := HandleAll(START, msgs);
      var text := g.statuses[|g.statuses| - 1];
      (text[|text| - 1] == '1' <==>
        Handle(g, m).responses == g.responses + [Response(ENTRY_RESPONSE, "DENY")])
  {
    OneStatusEach(msgs, |msgs| - 1);
    var g := HandleAll(START, msgs);
    assert msgs[..|msgs| - 1 + 1] == msgs;
    var a, d := [Response(ENTRY_RESPONSE, "ALLOW")], [Response(ENTRY_RESPONSE, "DENY")];
    assert (g.responses + a)[|g.responses|] == a[0] && (g.responses + d)[|g.responses|] == d[0];
    assert "ALLOW"[0] != "DENY"[0];
  }

  // ---------- The messages by their text ----------

  /** What every message leaves, told by its topic and payload alone. */
  lemma EveryMessage(g: Log, m: Message)
    requires InRange(g.count)
    ensures var h := Handle(g, m);
      if m == Message("entry/request", Some("ENTER")) then
        if g.count < 5 then h.count == g.count + 1 && h.responses == g.responses + [Response("entry/response", "ALLOW")]
        else h.count == g.count && h.responses == g.responses + [Response("entry/response", "DENY")]
      else if m == Message("exit/request", Some("EXIT")) then
        if g.count > 0 then h.count == g.count - 1 && h.responses == g.responses + [Response("exit/response", "ALLOW")]
        else h.count == g.count && h.responses == g.responses + [Response("exit/response", "DENY")]
      else h.count == g.count && h.responses == g.responses
  {
    PayloadEqualsMeansEqual(m, "EXIT");
    PayloadEqualsMeansEqual(m, "ENTER");
    assert ENTRY_REQUEST[1] != EXIT_REQUEST[1];
  }

  function Times(n: nat, m: Message): seq<Message> { seq(n, _ => m) }

  /** `n` visitors in a row from the start: the first five are let in, everybody else is turned away. */
  lemma {:induction false} FiveGetIn(n: nat)
    ensures var g := HandleAll(START, Times(n, Message("entry/request", Some("ENTER"))));
      && g.count == (if n < 5 then n else 5) && |g.responses| == n
      && forall i :: 0 <= i < n ==> g.responses[i] == Response("entry/response", if i < 5 then "ALLOW" else "DENY")
  {
    if n > 0 {
      var m := Message("entry/request", Some("ENTER"));
      FiveGetIn(n - 1);
      assert Times(n, m)[..n - 1] == Times(n - 1, m);
      EveryMessage(HandleAll(START, Times(n - 1, m)), m);
    }
  }

  /** The status text gives back the count, the limit, and whether it is reached. */
  lemma StatusSays(count: int)
    requires 0 <= count <= 9
    ensures var text := StatusText(count);
      && |text| == 20 && text[..6] == "count=" && '0' <= text[6] <= '9' && text[6] as int - '0' as int == count
      && text[7..] == ",max=5,full=" + (if count >= 5 then "1" else "0")
  {
    var text := StatusText(count);
    assert text == "count=" + ([Digit(count)] + ",max=5,full=" + (if count >= 5 then "1" else "0"));
    assert text[6] == Digit(count);
  }

  // ---------- Optimal admission ----------

  function CountAfter(start: int, rs: seq<Request>): int {
    if rs == [] then start else Admit(CountAfter(start, rs[..|rs| - 1]), rs[|rs| - 1])
  }

  function AdmittedBy(start: int, rs: seq<Request>): nat {
    if rs == [] then 0
    else
      var c := CountAfter(start, rs[..|rs| - 1]);
      AdmittedBy(start, rs[..|rs| - 1]) + (if rs[|rs| - 1].Enter? && c < MAX_COUNT then 1 else 0)
  }

  /** Any other policy: it decides each entry as it likes and treats exits as the server does. */
  function PolicyCount(rs: seq<Request>, admits: seq<bool>): int
    requires |rs| == |admits|
  {
    if rs == [] then 0
    else
      var n := |rs| - 1;
      var c := PolicyCount(rs[..n], admits[..n]);
      match rs[n]
      case Enter => if admits[n] then c + 1 else c
      case Leave => if c > 0 then c - 1 else c
      case Unknown => c
  }

  function PolicyAdmitted(rs: seq<Request>, admits: seq<bool>): nat
    requires |rs| == |admits|
  {
    if rs == [] then 0
    else
      var n := |rs| - 1;
      PolicyAdmitted(rs[..n], admits[..n]) + (if rs[n].Enter? && admits[n] then 1 else 0)
  }

  /** The policy never lets more than MAX_COUNT in. */
  ghost predicate Respects(rs: seq<Request>, admits: seq<bool>)
    requires |rs| == |admits|
  {
    forall k {:trigger rs[..k]} :: 0 <= k <= |rs| ==> PolicyCount(rs[..k], admits[..k]) <= MAX_COUNT
  }

  /**
   No policy that keeps to the limit has admitted more people, at any time: the server's lead in
   admissions is at least its lead in occupancy, which is never negative.
   */
  lemma {:induction false} AdmissionIsOptimal(rs: seq<Request>, admits: seq<bool>)
    requires |rs| == |admits| && Respects(rs, admits)
    ensures var lead := CountAfter(0, rs) - PolicyCount(rs, admits);
      AdmittedBy(0, rs) - PolicyAdmitted(rs, admits) >= lead >= 0
    ensures InRange(CountAfter(0, rs)) && PolicyCount(rs, admits) >= 0
  {
    if rs != [] {
      var n := |rs| - 1;
      assert Respects(rs[..n], admits[..n]) by {
        forall k | 0 <= k <= n
          ensures PolicyCount(rs[..n][..k], admits[..n][..k]) <= MAX_COUNT
        {
          assert rs[..n][..k] == rs[..k] && admits[..n][..k] == admits[..k];
        }
      }
      AdmissionIsOptimal(rs[..n], admits[..n]);
      assert rs[..n + 1] == rs && admits[..n + 1] == admits;
    }
  }

  lemma AppendRequest(rs: seq<Request>, r: Request)
    ensures CountAfter(0, rs + [r]) == Admit(CountAfter(0, rs), r)
    ensures AdmittedBy(0, rs + [r]) == AdmittedBy(0, rs) + (if r.Enter? && CountAfter(0, rs) < MAX_COUNT then 1 else 0)
  {
    assert (rs + [r])[..|rs|] == rs;
  }

  /** How one more message changes the number admitted, in the log and in the request run. */
  lemma AdmissionsAfter(g: Log, m: Message, rs: seq<Request>)
    requires InRange(g.count) && g.count == CountAfter(0, rs) && multiset(g.responses)[ENTERED] == AdmittedBy(0, rs)
    ensures var r := Classify(m);
      var more := rs + (if r.Unknown? then [] else [r]);
      Handle(g, m).count == CountAfter(0, more) && multiset(Handle(g, m).responses)[ENTERED] == AdmittedBy(0, more)
  {
    var r := Classify(m);
    AnswerCounts(g, r);
    AppendRequest(rs, r);
    assert rs + [] == rs;
  }

  /** The message log counts just these admissions. */
  lemma {:induction false} LogCountsAdmissions(msgs: seq<Message>)
    ensures var g := HandleAll(START, msgs);
      g.count == CountAfter(0, Requests(msgs)) && multiset(g.responses)[ENTERED] == AdmittedBy(0, Requests(msgs))
  {
    if msgs != [] {
      var n := |msgs| - 1;
      LogCountsAdmissions(msgs[..n]);
      AdmissionsAfter(HandleAll(START, msgs[..n]), msgs[n], Requests(msgs[..n]));
    }
  }

  /** After every message run, and so at every prefix, the server has sent at least as many entry permits. */
  lemma ServerIsOptimal(msgs: seq<Message>, admits: seq<bool>)
    requires |admits| == |Requests(msgs)| && Respects(Requests(msgs), admits)
    ensures multiset(HandleAll(START, msgs).responses)[ENTERED] >= PolicyAdmitted(Requests(msgs), admits)
  {
    LogCountsAdmissions(msgs);
    AdmissionIsOptimal(Requests(msgs), admits);
  }

  /** Two servers fed the same requests never drift further apart. */
  lemma {:induction false} GapNeverWidens(c: int, d: int, rs: seq<Request>)
    requires InRange(c) && c <= d && InRange(d)
    ensures 0 <= CountAfter(d, rs) - CountAfter(c, rs) <= d - c
    ensures InRange(CountAfter(c, rs)) && InRange(CountAfter(d, rs))
  {
    if rs != [] {
      GapNeverWidens(c, d, rs[..|rs| - 1]);
    }
  }
}
