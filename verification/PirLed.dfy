/**
 lab8/ch7: the PIR interrupt handler, the LED timer callback and the module exit, interleaved.

 Handler and callback take `led_lock`; the exit does not. The interrupt line does not re-enter
 its handler, and a timer callback does not overlap another run of the same timer. The timer
 may fire late but not early.
 */
module PirLed {
  import opened Options

  datatype Handler = Away | Entered | Locked | Cleared | Lit | Flagged | Armed

  /** An in-flight callback remembers which detection's timer fired it. */
  datatype Callback = Idle | Waiting(gen: nat) | Holding(gen: nat) | Dark(gen: nat) | Reset(gen: nat)

  datatype Exit = Loaded | TimerDeleted | IrqFreed | PinCleared | Unloaded

  datatype State = State(
    hz: nat,
    now: nat,                    // jiffies
    pin: bool,
    ledOn: bool,
    timer: Option<nat>,          // expiry of the pending timer
    handler: Handler,
    callback: Callback,
    exit: Exit,
    detections: nat,             // completed mod_timer calls
    lastDetect: nat,             // jiffies of the latest one
    cut: bool,                   // an overtaken callback has switched the LED off since then
    armedLate: bool)             // a detection armed the timer after its deletion

  datatype Step =
    | Tick(d: nat)
    | IrqEnter | HandlerLock | HandlerClear | HandlerLight | HandlerFlag | HandlerArm | HandlerUnlock
    | Expire | CallbackLock | CallbackDark | CallbackFlag | CallbackUnlock
    | DeleteTimer | FreeIrq | ExitPin | ExitFlag

  function Init(hz: nat): State {
    State(hz, 0, false, false, None, Away, Idle, Loaded, 0, 0, false, false)
  }

  predicate HandlerHolds(s: State) { !s.handler.Away? && !s.handler.Entered? }
  predicate CallbackHolds(s: State) { !s.callback.Idle? && !s.callback.Waiting? }
  predicate LockFree(s: State) { !HandlerHolds(s) && !CallbackHolds(s) }

  predicate Enabled(s: State, l: Step) {
    match l
    case Tick(_) => true
    case IrqEnter => s.handler.Away? && (s.exit.Loaded? || s.exit.TimerDeleted?)
    case HandlerLock => s.handler.Entered? && LockFree(s)
    case HandlerClear => s.handler.Locked?
    case HandlerLight => s.handler.Cleared?
    case HandlerFlag => s.handler.Lit?
    case HandlerArm => s.handler.Flagged?
    case HandlerUnlock => s.handler.Armed?
    case Expire => s.callback.Idle? && s.timer.Some? && s.now >= s.timer.value
    case CallbackLock => s.callback.Waiting? && LockFree(s)
    case CallbackDark => s.callback.Holding?
    case CallbackFlag => s.callback.Dark?
    case CallbackUnlock => s.callback.Reset?
    case DeleteTimer => s.exit.Loaded? && s.callback.Idle?          // del_timer_sync waits for the callback
    case FreeIrq => s.exit.TimerDeleted? && s.handler.Away?         // free_irq waits for the handler
    case ExitPin => s.exit.IrqFreed?
    case ExitFlag => s.exit.PinCleared?
  }

  /** The callback expired before the latest detection armed the timer again. */
  predicate Overtaken(s: State) {
    !s.callback.Idle? && s.callback.gen < s.detections
  }

  function Apply(s: State, l: Step): State
    requires Enabled(s, l)
  {
    match l
    case Tick(d) => s.(now := s.now + d)
    case IrqEnter => s.(handler := Entered)
    case HandlerLock => s.(handler := Locked)
    case HandlerClear => s.(handler := Cleared, pin := if s.ledOn then false else s.pin)
    case HandlerLight => s.(handler := Lit, pin := true)
    case HandlerFlag => s.(handler := Flagged, ledOn := true)
    case HandlerArm =>
      s.(handler := Armed, timer := Some(s.now + 10 * s.hz), detections := s.detections + 1, lastDetect := s.now,
         cut := false, armedLate := s.armedLate || !s.exit.Loaded?)
    case HandlerUnlock => s.(handler := Away)
    case Expire => s.(timer := None, callback := Waiting(s.detections))
    case CallbackLock => s.(callback := Holding(s.callback.gen))
    case CallbackDark => s.(callback := Dark(s.callback.gen), pin := false, cut := s.cut || Overtaken(s))
    case CallbackFlag => s.(callback := Reset(s.callback.gen), ledOn := false)
    case CallbackUnlock => s.(callback := Idle)
    case DeleteTimer => s.(exit := TimerDeleted, timer := None)
    case FreeIrq => s.(exit := IrqFreed)
    case ExitPin => s.(exit := PinCleared, pin := false)
    case ExitFlag => s.(exit := Unloaded, ledOn := false)
  }

  predicate Legal(s: State, run: seq<Step>)
    decreases |run|
  {
    run == [] || (Enabled(s, run[0]) && Legal(Apply(s, run[0]), run[1..]))
  }

  function After(s: State, run: seq<Step>): State
    requires Legal(s, run)
    decreases |run|
  {
    if run == [] then s else After(Apply(s, run[0]), run[1..])
  }

  /** Ten seconds since the latest detection are not over. */
  predicate Recent(s: State) {
    s.detections > 0 && s.now < s.lastDetect + 10 * s.hz
  }

  ghost predicate Lock(s: State) {
    && !(HandlerHolds(s) && CallbackHolds(s))
    && (s.exit in {IrqFreed, PinCleared, Unloaded} ==> s.handler.Away?)
  }

  /** Pin and flag agree whenever neither side is in the middle of its update. */
  ghost predicate Agreement(s: State) {
    match s.handler
    case Cleared => !s.pin
    case Lit => s.pin
    case Flagged => s.pin && s.ledOn
    case Armed => s.pin && s.ledOn
    case _ =>
      if s.exit.PinCleared? then !s.pin
      else match s.callback
        case Dark(_) => !s.pin
        case Reset(_) => !s.pin && !s.ledOn
        case _ => s.pin == s.ledOn
  }

  /** The pending timer belongs to the latest detection; a callback in flight fired for it or was overtaken. */
  ghost predicate Timing(s: State) {
    && (s.timer.Some? ==> s.detections > 0 && s.timer.value == s.lastDetect + 10 * s.hz)
    && s.lastDetect <= s.now
    && (!s.callback.Idle? ==> 0 < s.callback.gen <= s.detections && (s.timer.Some? <==> Overtaken(s)))
    && (!s.callback.Idle? && !Overtaken(s) ==> !Recent(s))
  }

  /** While loaded, a lit LED has someone coming to switch it off. */
  ghost predicate Covered(s: State) {
    && (s.exit.Loaded? && s.ledOn ==> s.timer.Some? || !s.callback.Idle? || s.handler.Flagged?)
    && (s.exit.Loaded? && Recent(s) ==> s.timer.Some?)
  }

  /** Within the ten seconds the pin is lit unless an overtaken callback has cut it. */
  ghost predicate Cuts(s: State) {
    s.exit.Loaded? && Recent(s) && s.handler !in {Cleared, Lit, Flagged} ==> (s.pin <==> !s.cut)
  }

  ghost predicate Late(s: State) {
    && (!s.exit.Loaded? && (s.timer.Some? || !s.callback.Idle?) ==> s.armedLate)
    && (s.armedLate ==> !s.exit.Loaded? && s.detections > 0 && (Recent(s) ==> s.timer.Some?))
  }

  ghost predicate Inv(s: State) {
    Lock(s) && Agreement(s) && Timing(s) && Covered(s) && Cuts(s) && Late(s)
  }

  lemma LockKept(s: State, l: Step)
    requires Lock(s) && Enabled(s, l)
    ensures Lock(Apply(s, l))
  {}

  lemma AgreementKept(s: State, l: Step)
    requires Lock(s) && Agreement(s) && Enabled(s, l)
    ensures Agreement(Apply(s, l))
  {}

  lemma TimingKept(s: State, l: Step)
    requires Lock(s) && Timing(s) && Covered(s) && Enabled(s, l)
    ensures Timing(Apply(s, l))
  {}

  lemma CoveredKept(s: State, l: Step)
    requires Lock(s) && Agreement(s) && Timing(s) && Covered(s) && Enabled(s, l)
    ensures Covered(Apply(s, l))
  {}

  lemma CutsKept(s: State, l: Step)
    requires Lock(s) && Agreement(s) && Timing(s) && Cuts(s) && Enabled(s, l)
    ensures Cuts(Apply(s, l))
  {}

  lemma LateKept(s: State, l: Step)
    requires Timing(s) && Late(s) && Enabled(s, l)
    ensures Late(Apply(s, l))
  {}

  lemma InvKept(s: State, l: Step)
    requires Inv(s) && Enabled(s, l)
    ensures Inv(Apply(s, l))
  {
    LockKept(s, l);
    AgreementKept(s, l);
    TimingKept(s, l);
    CoveredKept(s, l);
    CutsKept(s, l);
    LateKept(s, l);
  }

  lemma {:induction false} InvAlong(s: State, run: seq<Step>)
    requires Inv(s) && Legal(s, run)
    ensures Inv(After(s, run))
    decreases |run|
  {
    if run != [] {
      InvKept(s, run[0]);
      InvAlong(Apply(s, run[0]), run[1..]);
    }
  }

  /**
   In every interleaving: with the lock free the flag equals the pin (outside the exit's two
   unlocked writes); while loaded a set flag has a pending timer or a callback in flight; and a
   pending timer is due exactly ten seconds after the latest detection.
   */
  lemma FlagPinAndTimer(hz: nat, run: seq<Step>)
    requires Legal(Init(hz), run)
    ensures var s := After(Init(hz), run);
      && (LockFree(s) && !s.exit.PinCleared? ==> s.ledOn == s.pin)
      && (LockFree(s) && s.exit.Loaded? && s.ledOn ==> s.timer.Some? || !s.callback.Idle?)
      && (s.timer.Some? ==> s.timer.value == s.lastDetect + 10 * s.hz)
  {
    InvAlong(Init(hz), run);
  }

  /** A detection always relights a dark LED: if it was on it has just been switched off once. */
  lemma DarkBeforeRelit(hz: nat, run: seq<Step>)
    requires Legal(Init(hz), run) && After(Init(hz), run).handler.Cleared?
    ensures !After(Init(hz), run).pin
  {
    InvAlong(Init(hz), run);
  }

  /**
   The ten-second promise, exactly: while loaded and with the lock free, within ten seconds of
   the latest detection the LED is lit if and only if no callback that had expired before that
   detection has switched it off since.
   */
  lemma LitUnlessCut(hz: nat, run: seq<Step>)
    requires Legal(Init(hz), run)
    ensures var s := After(Init(hz), run);
      s.exit.Loaded? && LockFree(s) && Recent(s) ==> (s.pin <==> !s.cut)
  {
    InvAlong(Init(hz), run);
  }

  /**
   A callback about to switch the LED off finds the timer pending again if and only if a
   detection overtook it, and only then can it be early.
   */
  lemma EarlyOnlyWhenOvertaken(hz: nat, run: seq<Step>)
    requires Legal(Init(hz), run) && After(Init(hz), run).callback.Holding?
    ensures var s := After(Init(hz), run);
      (s.timer.Some? <==> Overtaken(s)) && (Recent(s) ==> Overtaken(s))
  {
    InvAlong(Init(hz), run);
  }

  /** After the timer's deletion it is pending, or its callback in flight, only because of a later detection. */
  lemma ExitLeavesNoTimer(hz: nat, run: seq<Step>)
    requires Legal(Init(hz), run) && !After(Init(hz), run).exit.Loaded?
    ensures var s := After(Init(hz), run);
      && (s.timer.Some? || !s.callback.Idle? ==> s.armedLate)
      && (Recent(s) ==> (s.timer.Some? <==> s.armedLate))
  {
    InvAlong(Init(hz), run);
  }

  // ---------- Who can cut the light: a guard seen while it is still on ----------

  /** No further detection and no module exit. */
  predicate LeftAlone(run: seq<Step>) {
    forall i :: 0 <= i < |run| ==> run[i] != IrqEnter && run[i] != DeleteTimer
  }

  /** Left alone, the system can go dark before the ten seconds of the latest detection are over. */
  ghost predicate CanGoDarkEarly(s: State) {
    exists more :: Legal(s, more) && LeftAlone(more) && !After(s, more).pin && Recent(After(s, more))
  }

  /** Nobody is on the way to switch the LED off while the ten seconds last. */
  ghost predicate Steady(s: State) {
    Inv(s) && s.exit.Loaded? && s.handler.Away? && (Recent(s) ==> s.pin && s.callback.Idle?)
  }

  lemma {:induction false} SteadyAlong(s: State, run: seq<Step>)
    requires Steady(s) && Legal(s, run) && LeftAlone(run)
    ensures Steady(After(s, run))
    decreases |run|
  {
    if run != [] {
      assert run[0] != IrqEnter && run[0] != DeleteTimer;
      InvKept(s, run[0]);
      SteadyAlong(Apply(s, run[0]), run[1..]);
    }
  }

  /**
   The exact guard of the broken promise, readable while the LED is lit after a detection: left
   alone it can go dark before its ten seconds are over if and only if somebody already waits for
   the lock, be it an expired callback or the handler of the next detection.
   */
  lemma EarlyDarkExactlyWhenWaiting(hz: nat, run: seq<Step>)
    requires Legal(Init(hz), run)
    requires var s := After(Init(hz), run); s.exit.Loaded? && LockFree(s) && Recent(s) && s.pin
    ensures var s := After(Init(hz), run);
      CanGoDarkEarly(s) <==> s.callback.Waiting? || s.handler.Entered?
  {
    InvAlong(Init(hz), run);
    var s := After(Init(hz), run);
    if s.callback.Waiting? {
      var more := RunCallback(s, []);
      assert LeftAlone(more) && !After(s, more).pin && Recent(After(s, more));
    } else if s.handler.Entered? {
      BlinkIsDark(s);
    } else {
      forall more | Legal(s, more) && LeftAlone(more)
        ensures After(s, more).pin || !Recent(After(s, more))
      {
        SteadyAlong(s, more);
      }
    }
  }

  /** The handler of the next detection puts the LED out before lighting it again. */
  lemma BlinkIsDark(s: State)
    requires Agreement(s) && LockFree(s) && s.exit.Loaded? && s.handler.Entered? && Recent(s) && s.pin
    ensures CanGoDarkEarly(s)
  {
    Extend(s, [], HandlerLock);
    Extend(s, [] + [HandlerLock], HandlerClear);
    var more := [] + [HandlerLock] + [HandlerClear];
    assert LeftAlone(more) && !After(s, more).pin && Recent(After(s, more));
  }

  // ---------- Both failures happen ----------

  lemma {:induction false} Extend(s: State, run: seq<Step>, l: Step)
    requires Legal(s, run) && Enabled(After(s, run), l)
    ensures Legal(s, run + [l]) && After(s, run + [l]) == Apply(After(s, run), l)
    decreases |run|
  {
    if run == [] {
      assert [l][1..] == [];
    } else {
      Extend(Apply(s, run[0]), run[1..], l);
      assert (run + [l])[1..] == run[1..] + [l];
    }
  }

  /** One whole detection, from the interrupt to the unlock, without time passing. */
  function Detection(s: State): State {
    s.(pin := true, ledOn := true, timer := Some(s.now + 10 * s.hz), detections := s.detections + 1,
       lastDetect := s.now, cut := false, armedLate := s.armedLate || !s.exit.Loaded?)
  }

  lemma Detect(init: State, run: seq<Step>) returns (longer: seq<Step>)
    requires Legal(init, run)
    requires var s := After(init, run);
      LockFree(s) && s.handler.Away? && (s.exit.Loaded? || s.exit.TimerDeleted?)
    ensures Legal(init, longer) && After(init, longer) == Detection(After(init, run))
  {
    Extend(init, run, IrqEnter);
    var a := run + [IrqEnter];
    Extend(init, a, HandlerLock);
    var b := a + [HandlerLock];
    longer := DetectLocked(init, b);
  }

  lemma DetectLocked(init: State, run: seq<Step>) returns (longer: seq<Step>)
    requires Legal(init, run) && After(init, run).handler.Locked?
    ensures Legal(init, longer) && After(init, longer) == Detection(After(init, run)).(handler := Away)
  {
    Extend(init, run, HandlerClear);
    var c := run + [HandlerClear];
    Extend(init, c, HandlerLight);
    var d := c + [HandlerLight];
    Extend(init, d, HandlerFlag);
    var e := d + [HandlerFlag];
    Extend(init, e, HandlerArm);
    var f := e + [HandlerArm];
    Extend(init, f, HandlerUnlock);
    longer := f + [HandlerUnlock];
  }

  /** A callback that waits for the lock while a detection re-arms the timer switches the LED off at once. */
  lemma LightCutShort(hz: nat) returns (run: seq<Step>)
    requires hz > 0
    ensures Legal(Init(hz), run)
    ensures var s := After(Init(hz), run);
      s.exit.Loaded? && LockFree(s) && s.now == s.lastDetect && Recent(s) && !s.pin && s.timer.Some?
  {
    var i := Init(hz);
    run := Detect(i, []);
    Extend(i, run, Tick(10 * hz));
    run := run + [Tick(10 * hz)];
    Extend(i, run, Expire);
    run := run + [Expire];
    run := Detect(i, run);
    run := RunCallback(i, run);
  }

  /** One whole callback, from the lock to the unlock. */
  function Expiry(s: State): State {
    s.(pin := false, ledOn := false, callback := Idle, cut := s.cut || Overtaken(s))
  }

  lemma RunCallback(init: State, run: seq<Step>) returns (longer: seq<Step>)
    requires Legal(init, run) && After(init, run).callback.Waiting? && LockFree(After(init, run))
    ensures Legal(init, longer) && After(init, longer) == Expiry(After(init, run))
    ensures longer == run + [CallbackLock, CallbackDark, CallbackFlag, CallbackUnlock]
  {
    Extend(init, run, CallbackLock);
    longer := run + [CallbackLock];
    Extend(init, longer, CallbackDark);
    longer := longer + [CallbackDark];
    Extend(init, longer, CallbackFlag);
    longer := longer + [CallbackFlag];
    Extend(init, longer, CallbackUnlock);
    longer := longer + [CallbackUnlock];
  }

  /** The whole exit after the timer has been deleted; it leaves the timer as it finds it. */
  function Unload(s: State): State {
    s.(exit := Unloaded, pin := false, ledOn := false)
  }

  lemma FinishExit(init: State, run: seq<Step>) returns (longer: seq<Step>)
    requires Legal(init, run) && After(init, run).exit.TimerDeleted? && After(init, run).handler.Away?
    ensures Legal(init, longer) && After(init, longer) == Unload(After(init, run))
  {
    Extend(init, run, FreeIrq);
    longer := run + [FreeIrq];
    Extend(init, longer, ExitPin);
    longer := longer + [ExitPin];
    Extend(init, longer, ExitFlag);
    longer := longer + [ExitFlag];
  }

  /** A detection between deleting the timer and freeing the interrupt leaves a timer pending after the unload. */
  lemma TimerOutlivesModule(hz: nat) returns (run: seq<Step>)
    ensures Legal(Init(hz), run)
    ensures After(Init(hz), run).exit.Unloaded? && After(Init(hz), run).timer.Some?
  {
    var i := Init(hz);
    Extend(i, [], DeleteTimer);
    run := Detect(i, [] + [DeleteTimer]);
    run := FinishExit(i, run);
  }

  // ---------- When the exit leaves a timer behind: a guard seen after the deletion ----------

  /** No further detection. */
  predicate Undisturbed(run: seq<Step>) {
    forall i :: 0 <= i < |run| ==> run[i] != IrqEnter
  }

  /** A timer pending, or its callback in flight, after the unload. */
  predicate Outlives(s: State) {
    s.exit.Unloaded? && (s.timer.Some? || !s.callback.Idle?)
  }

  ghost predicate CanOutlive(s: State) {
    exists more :: Legal(s, more) && Undisturbed(more) && Outlives(After(s, more))
  }

  /** Nothing is pending and nobody is on the way to `mod_timer`. */
  predicate Settled(s: State) {
    !s.exit.Loaded? && s.timer.None? && s.callback.Idle? && s.handler in {Away, Armed}
  }

  lemma {:induction false} SettledAlong(s: State, run: seq<Step>)
    requires Settled(s) && Legal(s, run) && Undisturbed(run)
    ensures Settled(After(s, run))
    decreases |run|
  {
    if run != [] {
      assert run[0] != IrqEnter;
      SettledAlong(Apply(s, run[0]), run[1..]);
    }
  }

  lemma Continue(s: State, run: seq<Step>, l: Step) returns (more: seq<Step>)
    requires Legal(s, run) && Undisturbed(run) && Enabled(After(s, run), l) && l != IrqEnter
    ensures Legal(s, more) && Undisturbed(more) && After(s, more) == Apply(After(s, run), l)
  {
    Extend(s, run, l);
    more := run + [l];
  }

  function CallbackLeft(c: Callback): nat {
    match c case Holding(_) => 2 case Dark(_) => 1 case _ => 0
  }

  /** A callback that holds the lock runs to its unlock. */
  lemma {:induction false} LeaveCallback(s: State, run: seq<Step>) returns (more: seq<Step>)
    requires Legal(s, run) && Undisturbed(run) && CallbackHolds(After(s, run))
    ensures Legal(s, more) && Undisturbed(more)
    ensures After(s, more).callback.Idle? && After(s, more).exit == After(s, run).exit
    ensures After(s, more).handler == After(s, run).handler
    decreases CallbackLeft(After(s, run).callback)
  {
    match After(s, run).callback
    case Holding(_) =>
      more := Continue(s, run, CallbackDark);
      more := LeaveCallback(s, more);
    case Dark(_) =>
      more := Continue(s, run, CallbackFlag);
      more := LeaveCallback(s, more);
    case _ =>
      more := Continue(s, run, CallbackUnlock);
  }

  function HandlerLeft(h: Handler): nat {
    match h
    case Entered => 6
    case Locked => 5
    case Cleared => 4
    case Lit => 3
    case Flagged => 2
    case Armed => 1
    case Away => 0
  }

  function HandlerNext(h: Handler): Step
    requires !h.Away?
  {
    match h
    case Entered => HandlerLock
    case Locked => HandlerClear
    case Cleared => HandlerLight
    case Lit => HandlerFlag
    case Flagged => HandlerArm
    case Armed => HandlerUnlock
  }

  /** A handler runs to its end, and has armed the timer unless it already had. */
  lemma {:induction false} LeaveHandler(s: State, run: seq<Step>) returns (more: seq<Step>)
    requires Legal(s, run) && Undisturbed(run) && !CallbackHolds(After(s, run))
    ensures Legal(s, more) && Undisturbed(more)
    ensures var t, u := After(s, run), After(s, more);
      && u.handler.Away? && u.exit == t.exit && u.callback == t.callback
      && (t.timer.Some? || t.handler !in {Away, Armed} ==> u.timer.Some?)
    decreases HandlerLeft(After(s, run).handler)
  {
    more := run;
    if !After(s, run).handler.Away? {
      more := Continue(s, run, HandlerNext(After(s, run).handler));
      more := LeaveHandler(s, more);
    }
  }

  lemma Leave(s: State, run: seq<Step>) returns (more: seq<Step>)
    requires Legal(s, run) && Undisturbed(run) && After(s, run).exit.TimerDeleted? && After(s, run).handler.Away?
    ensures Legal(s, more) && Undisturbed(more) && After(s, more) == Unload(After(s, run))
  {
    more := Continue(s, run, FreeIrq);
    more := Continue(s, more, ExitPin);
    more := Continue(s, more, ExitFlag);
  }

  /** Whoever holds the lock leaves it, the handler finishes, and the exit goes on. */
  lemma UnsettledOutlives(s: State)
    requires Lock(s) && s.exit.TimerDeleted? && !Settled(s)
    ensures CanOutlive(s)
  {
    var more := [];
    if CallbackHolds(s) && !s.handler.Away? { more := LeaveCallback(s, more); }
    if !After(s, more).handler.Away? { more := LeaveHandler(s, more); }
    more := Leave(s, more);
  }

  /**
   Between the deletion of the timer and the release of the interrupt, for every reachable state:
   without a further detection the exit can still leave a timer pending, or a callback in flight,
   if and only if one is there now or a handler stands before its `mod_timer`.
   */
  lemma OutlivesExactlyWhenUnsettled(hz: nat, run: seq<Step>)
    requires Legal(Init(hz), run) && After(Init(hz), run).exit.TimerDeleted?
    ensures var s := After(Init(hz), run);
      CanOutlive(s) <==> s.timer.Some? || !s.callback.Idle? || s.handler !in {Away, Armed}
  {
    var s := After(Init(hz), run);
    InvAlong(Init(hz), run);
    if Settled(s) {
      forall more | Legal(s, more) && Undisturbed(more)
        ensures !Outlives(After(s, more))
      {
        SettledAlong(s, more);
      }
    } else {
      UnsettledOutlives(s);
    }
  }

  // ---------- The bodies as they run, each alone ----------

  class Device {
    var pin: bool
    var ledOn: bool
    var timer: Option<nat>
    ghost var shown: seq<bool>    // every value written to the pin

    ghost predicate Shows(s: State)
      reads this
    {
      pin == s.pin && ledOn == s.ledOn && timer == s.timer
    }

    /** pir_irq_handler: the effect of the steps in `Detect`; a lit LED is first put out once. */
    method PirIrqHandler(jiffies: nat, hz: nat, ghost s: State)
      requires Shows(s) && s.now == jiffies && s.hz == hz
      modifies this
      ensures Shows(Detection(s))
      ensures shown == old(shown) + (if old(ledOn) then [false, true] else [true])
    {
      if ledOn {
        pin := false;
        shown := shown + [false];
      }
      pin := true;
      shown := shown + [true];
      ledOn := true;
      timer := Some(jiffies + 10 * hz);
    }

    /** led_timer_func: the effect of the steps in `RunCallback`. */
    method LedTimerFunc(ghost s: State)
      requires Shows(s)
      modifies this
      ensures Shows(Expiry(s))
      ensures shown == old(shown) + [false]
    {
      pin := false;
      shown := shown + [false];
      ledOn := false;
    }

    /** ch7_mod_exit with no detection on the way: the deletion and then the steps in `FinishExit`. */
    method Exit(ghost s: State)
      requires Shows(s) && Enabled(s, DeleteTimer)
      modifies this
      ensures Shows(Unload(Apply(s, DeleteTimer)))
      ensures shown == old(shown) + [false]
    {
      timer := None;
      pin := false;
      shown := shown + [false];
      ledOn := false;
    }
  }
}
