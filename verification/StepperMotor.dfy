/**
 lab10/ch9: the stepper motor driven by four pins.

 The rotor is an integer half-step position. It settles while a pattern is held for the delay:
 onto the nearest position congruent to the energised table index. Writes between two delays
 are too short to move it; they are recorded in `shown`.
 */
module StepperMotor {
  import opened Sums
  import Calculator

  const STEPS := 8
  const ONEROUND := 512
  const BLUE: seq<int> := [1, 1, 0, 0, 0, 0, 0, 1]
  const PINK: seq<int> := [0, 1, 1, 1, 0, 0, 0, 0]
  const YELLOW: seq<int> := [0, 0, 0, 1, 1, 1, 0, 0]
  const ORANGE: seq<int> := [0, 0, 0, 0, 0, 1, 1, 1]

  datatype Pins = Pins(p1: int, p2: int, p3: int, p4: int)

  const OFF := Pins(0, 0, 0, 0)

  function Pattern(j: int): Pins
    requires 0 <= j < STEPS
  {
    Pins(BLUE[j], PINK[j], YELLOW[j], ORANGE[j])
  }

  predicate InTable(p: Pins) {
    p == OFF || exists j :: 0 <= j < STEPS && p == Pattern(j)
  }

  /**
   Winding i pulls to half-step 2 * i. A pattern energises exactly the windings within one
   half-step of its index, so counting the index up turns the rotor one way and down the other.
   */
  lemma PatternPullsTo(j: int)
    requires 0 <= j < STEPS
    ensures Pattern(j) == Pins(Pull(0, j), Pull(2, j), Pull(4, j), Pull(6, j))
  {
    assert j == 0 || j == 1 || j == 2 || j == 3 || j == 4 || j == 5 || j == 6 || j == 7;
  }

  function Pull(at: int, j: int): int {
    if (at - j) % 8 == 0 || (at - j) % 8 == 1 || (at - j) % 8 == 7 then 1 else 0
  }

  // ---------- Degrees to rounds, in C's int ----------

  /** 32-bit two's complement; the kernel is built so that signed overflow wraps. */
  function Wrap32(x: int): int {
    Calculator.Wrap(x, 0x1_0000_0000)
  }

  /** C division truncates toward zero. */
  function TruncDiv(a: int, b: int): int
    requires b > 0
  {
    if a >= 0 then a / b else -((-a) / b)
  }

  /** (degree * ONEROUND) / 360 */
  function Rounds(degree: int): int {
    TruncDiv(Wrap32(degree * ONEROUND), 360)
  }

  predicate Fits(degree: int) { 0 <= degree <= 4194303 }

  /** The multiplication is exact on non-negative ints just up to 4194303 degrees. */
  lemma OverflowBound(degree: int)
    requires 0 <= degree < 0x8000_0000
    ensures Wrap32(degree * ONEROUND) == degree * ONEROUND <==> Fits(degree)
  {}

  /** Splitting a move loses at most one round. */
  lemma RoundsSuperadditive(a: int, b: int)
    requires Fits(a) && Fits(b) && Fits(a + b)
    ensures Rounds(a) + Rounds(b) <= Rounds(a + b) <= Rounds(a) + Rounds(b) + 1
  {
    OverflowBound(a);
    OverflowBound(b);
    OverflowBound(a + b);
  }

  /** A move turns exactly by the requested angle if and only if 45 divides it. */
  lemma ExactMoves(degree: int)
    requires Fits(degree)
    ensures Rounds(degree) * 360 == degree * ONEROUND <==> degree % 45 == 0
  {
    OverflowBound(degree);
    var q, r := degree / 45, degree % 45;
    assert degree * ONEROUND == 360 * (64 * q) + 512 * r;
    if r == 0 {
      assert degree * ONEROUND / 360 == 64 * q;
    }
  }

  /** The rounds of each move in a list. */
  function AllRounds(degrees: seq<int>): seq<int> {
    seq(|degrees|, i requires 0 <= i < |degrees| => Rounds(degrees[i]))
  }

  /** Over k moves less than k rounds are lost in total (in units of 1/360 round). */
  lemma {:induction false} TotalShortfall(degrees: seq<int>)
    requires forall i :: 0 <= i < |degrees| ==> Fits(degrees[i])
    ensures 0 <= Sum(degrees) * ONEROUND - Sum(AllRounds(degrees)) * 360 <= 359 * |degrees|
  {
    if degrees != [] {
      var n := |degrees| - 1;
      TotalShortfall(degrees[..n]);
      OverflowBound(degrees[n]);
      assert AllRounds(degrees)[..n] == AllRounds(degrees[..n]);
    }
  }

  // ---------- Where the rotor goes ----------

  /** The position nearest to `pos` that is congruent to `j`; opposite poles (distance 4) do not move it. */
  function Nearest(pos: int, j: int): int {
    var d := (j - pos) % STEPS;
    if d < 4 then pos + d else if d > 4 then pos + d - STEPS else pos
  }

  /** Adding whole turns does not change the phase. */
  lemma Phase(x: int, k: int)
    ensures (x + STEPS * k) % STEPS == x % STEPS
  {}

  /** `Nearest` is what its name says: congruent, less than half a turn away, and nothing else is as near. */
  lemma NearestIsNearest(pos: int, j: int, other: int)
    requires (j - pos) % STEPS != 4 && other % STEPS == j % STEPS
    ensures Nearest(pos, j) % STEPS == j % STEPS
    ensures var d := Nearest(pos, j) - pos;
            -4 < d < 4 && (other == Nearest(pos, j) || other - pos <= -4 || other - pos >= 4)
  {
    var d, q := (j - pos) % STEPS, (j - pos) / STEPS;
    var k := if d < 4 then -q else -q - 1;
    assert Nearest(pos, j) == j + STEPS * k;
    Phase(j, k);
    assert other == j + STEPS * (other / STEPS - j / STEPS);
  }

  lemma BeforeTop(base: int)
    requires (base + STEPS - 1) % STEPS == STEPS - 1
    ensures base % STEPS == 0
  {}

  /** The rotor follows one table step up or down from where the previous pattern left it. */
  lemma Follows(base: int, j: int)
    requires base % STEPS == 0
    ensures Nearest(base + j - 1, j) == base + j == Nearest(base + j + 1, j)
  {
    var k := base / STEPS;
    assert base == STEPS * k;
    Phase(1, -k);
    Phase(-1, -k);
    assert j - (base + j - 1) == 1 + STEPS * -k && j - (base + j + 1) == -1 + STEPS * -k;
  }

  datatype Direction = Forward | Backward | Neither   // 0, 1, anything else

  datatype Move = Move(degree: int, direction: Direction)

  function MoveRounds(m: Move): nat {
    var r := Rounds(m.degree);
    if r > 0 && !m.direction.Neither? then r else 0
  }

  /**
   A move makes the rounds of its degrees, rounded down: 512 to the full turn. A direction other
   than 0 and 1, or a negative angle that fits, makes none.
   */
  lemma RoundsOfMove(m: Move)
    ensures Fits(m.degree) && !m.direction.Neither? ==> 0 <= m.degree * 512 - MoveRounds(m) * 360 < 360
    ensures m.direction.Neither? || -4194304 <= m.degree < 0 ==> MoveRounds(m) == 0
  {
    if Fits(m.degree) { OverflowBound(m.degree); }
  }

  /** Degrees with the sign of the direction. */
  function SignedDegrees(m: Move): int {
    match m.direction case Forward => m.degree case Backward => -m.degree case Neither => 0
  }

  function NetDegrees(moves: seq<Move>): int {
    if moves == [] then 0 else NetDegrees(moves[..|moves| - 1]) + SignedDegrees(moves[|moves| - 1])
  }

  predicate AllFit(moves: seq<Move>) {
    forall i :: 0 <= i < |moves| ==> Fits(moves[i].degree)
  }

  /** After k moves the net rounds are less than k away from the net degrees (in units of 1/360 round). */
  lemma {:induction false} NetRoundsInDegrees(moves: seq<Move>)
    requires AllFit(moves)
    ensures -(359 * |moves|) <= NetDegrees(moves) * 512 - NetRounds(moves) * 360 <= 359 * |moves|
  {
    if moves != [] {
      NetRoundsInDegrees(moves[..|moves| - 1]);
      RoundsOfMove(moves[|moves| - 1]);
    }
  }

  /** Where the rotor stands after k moves, in units of 1/360 half-step, against where the degrees put it. */
  predicate FollowsDegrees(rotor: int, moves: seq<Move>) {
    var apart := rotor * 360 - NetDegrees(moves) * 512 * 8;
    -(8 * 359 * |moves|) - 360 <= apart <= 8 * 359 * |moves|
  }

  lemma ExpectedFollowsDegrees(moves: seq<Move>)
    requires AllFit(moves)
    ensures FollowsDegrees(Expected(moves), moves)
  {
    NetRoundsInDegrees(moves);
  }

  /** Rounds with the sign of the direction. */
  function Signed(m: Move): int {
    if m.direction.Backward? then 0 - MoveRounds(m) else MoveRounds(m)
  }

  /** Net rounds of a list of moves, forward counted positive. */
  function NetRounds(moves: seq<Move>): int {
    if moves == [] then 0
    else NetRounds(moves[..|moves| - 1]) + Signed(moves[|moves| - 1])
  }

  /** Whether the last move that turned the rotor was backward; `false` before any. */
  predicate LastBackward(moves: seq<Move>) {
    moves != [] &&
    var m := moves[|moves| - 1];
    if MoveRounds(m) == 0 then LastBackward(moves[..|moves| - 1]) else m.direction.Backward?
  }

  /** Where the rotor should be: whole rounds from the start, one half-step back after a forward move. */
  function Expected(moves: seq<Move>): int {
    STEPS * NetRounds(moves) - (if LastBackward(moves) then 0 else 1)
  }

  /** Where one move takes the rotor: it first settles on the pattern the move begins with. */
  function MoveTo(pos: int, m: Move): int {
    var r := MoveRounds(m);
    if r == 0 then pos
    else if m.direction.Forward? then Nearest(pos, 0) + STEPS * r - 1
    else Nearest(pos, STEPS - 1) - STEPS * r + 1
  }

  /** Single pin writes of a move: four per held pattern and four to switch off. */
  function PinWrites(m: Move): nat {
    4 * (STEPS * MoveRounds(m) + 1)
  }

  function AllPinWrites(moves: seq<Move>): nat {
    if moves == [] then 0 else AllPinWrites(moves[..|moves| - 1]) + PinWrites(moves[|moves| - 1])
  }

  /** The first pattern of the move is not opposite the rotor. */
  predicate Pulls(pos: int, m: Move) {
    MoveRounds(m) > 0 ==> ((if m.direction.Forward? then 0 else STEPS - 1) - pos) % STEPS != 4
  }

  /** From a rest position in phase 0 or 7 the rotor is already next to both ends of the table. */
  lemma AtPhase0(pos: int)
    requires pos % STEPS == 0
    ensures Nearest(pos, 0) == pos && Nearest(pos, STEPS - 1) == pos - 1
    ensures (0 - pos) % STEPS != 4 && (STEPS - 1 - pos) % STEPS != 4
  {}

  lemma AtPhase7(pos: int)
    requires pos % STEPS == 7
    ensures Nearest(pos, 0) == pos + 1 && Nearest(pos, STEPS - 1) == pos
    ensures (0 - pos) % STEPS != 4 && (STEPS - 1 - pos) % STEPS != 4
  {
    var q := pos / STEPS;
    assert 0 - pos == STEPS * (-q - 1) + 1;
    assert STEPS - 1 - pos == STEPS * -q;
  }

  lemma ExpectedAppend(moves: seq<Move>, m: Move)
    ensures NetRounds(moves + [m]) == NetRounds(moves) + Signed(m)
    ensures LastBackward(moves + [m]) == if MoveRounds(m) == 0 then LastBackward(moves) else m.direction.Backward?
  {
    var all := moves + [m];
    assert all[..|all| - 1] == moves && all[|all| - 1] == m;
  }

  /** From an expected position a move leads to the expected position: no error accumulates. */
  lemma MoveFromExpected(moves: seq<Move>, m: Move)
    ensures Pulls(Expected(moves), m)
    ensures MoveTo(Expected(moves), m) == Expected(moves + [m])
  {
    ExpectedAppend(moves, m);
    if LastBackward(moves) { AtPhase0(Expected(moves)); } else { AtPhase7(Expected(moves)); }
  }

  /**
   Pins written one at a time from a table neighbour (or from off) to pattern `j` pass through
   table patterns only: the table is a cyclic Gray code.
   */
  lemma GrayCode(p: Pins, j: int)
    requires 0 <= j < STEPS
    requires p == OFF || p == Pattern((j + 1) % STEPS) || p == Pattern((j + STEPS - 1) % STEPS)
    ensures var q := Pattern(j);
      InTable(Pins(q.p1, p.p2, p.p3, p.p4)) && InTable(Pins(q.p1, q.p2, p.p3, p.p4)) &&
      InTable(Pins(q.p1, q.p2, q.p3, p.p4)) && InTable(q)
  {
    assert Pattern(0) == Pins(1, 0, 0, 0) && Pattern(1) == Pins(1, 1, 0, 0) && Pattern(2) == Pins(0, 1, 0, 0);
    assert Pattern(3) == Pins(0, 1, 1, 0) && Pattern(4) == Pins(0, 0, 1, 0) && Pattern(5) == Pins(0, 0, 1, 1);
    assert Pattern(6) == Pins(0, 0, 0, 1) && Pattern(7) == Pins(1, 0, 0, 1);
  }

  /** The same on the way to all-off from the two patterns a move can end with. */
  lemma SwitchOff(p: Pins)
    requires p == OFF || p == Pattern(0) || p == Pattern(STEPS - 1)
    ensures InTable(Pins(0, p.p2, p.p3, p.p4)) && InTable(Pins(0, 0, p.p3, p.p4))
    ensures InTable(Pins(0, 0, 0, p.p4)) && InTable(OFF)
  {
    assert Pattern(6) == Pins(0, 0, 0, 1);
  }

  class Motor {
    var p1: int
    var p2: int
    var p3: int
    var p4: int
    ghost var rotor: int
    ghost var shown: seq<Pins>   // the pins after every single write

    ghost function Now(): Pins reads this { Pins(p1, p2, p3, p4) }

    /** The record has grown by `n` writes and lost none. */
    twostate predicate Wrote(n: nat)
      reads this
    {
      old(shown) <= shown && |shown| == |old(shown)| + n
    }

    ghost predicate Clean()
      reads this
    {
      forall i :: 0 <= i < |shown| ==> InTable(shown[i])
    }

    constructor ()
      ensures Now() == OFF && rotor == -1 && shown == []
    {
      p1, p2, p3, p4 := 0, 0, 0, 0;
      rotor, shown := -1, [];
    }

    /** Four single writes; between table neighbours no foreign pattern appears. */
    method SetStep(a: int, b: int, c: int, d: int)
      requires Clean()
      requires InTable(Pins(a, p2, p3, p4)) && InTable(Pins(a, b, p3, p4))
      requires InTable(Pins(a, b, c, p4)) && InTable(Pins(a, b, c, d))
      modifies this
      ensures Now() == Pins(a, b, c, d) && Clean() && rotor == old(rotor)
      ensures shown == old(shown) + [Pins(a, old(p2), old(p3), old(p4)), Pins(a, b, old(p3), old(p4)),
                                     Pins(a, b, c, old(p4)), Pins(a, b, c, d)]
    {
      p1 := a; shown := shown + [Now()];
      p2 := b; shown := shown + [Now()];
      p3 := c; shown := shown + [Now()];
      p4 := d; shown := shown + [Now()];
    }

    /** setstep and udelay inside the loops: the pattern is held and the rotor settles. */
    method Hold(j: int)
      requires Clean() && 0 <= j < STEPS
      requires Now() == OFF || Now() == Pattern((j + 1) % STEPS) || Now() == Pattern((j + STEPS - 1) % STEPS)
      modifies this
      ensures Clean() && Now() == Pattern(j) && rotor == Nearest(old(rotor), j) && Wrote(4)
    {
      GrayCode(Now(), j);
      SetStep(BLUE[j], PINK[j], YELLOW[j], ORANGE[j]);
      rotor := Nearest(rotor, j);
    }

    /** setstep(0, 0, 0, 0) after the loops. */
    method Release()
      requires Clean() && (Now() == OFF || Now() == Pattern(0) || Now() == Pattern(STEPS - 1))
      modifies this
      ensures Clean() && Now() == OFF && rotor == old(rotor) && Wrote(4)
    {
      SwitchOff(Now());
      SetStep(0, 0, 0, 0);
    }

    method ForwardRound()
      requires Clean() && (Now() == OFF || Now() == Pattern(STEPS - 1)) && (0 - rotor) % STEPS != 4
      modifies this
      ensures Clean() && Now() == Pattern(STEPS - 1)
      ensures rotor == Nearest(old(rotor), 0) + STEPS - 1 && rotor % STEPS == 7
      ensures Wrote(4 * STEPS)
    {
      ghost var base := Nearest(rotor, 0);
      NearestIsNearest(rotor, 0, 0);
      var j := 0;
      while j < STEPS
        invariant 0 <= j <= STEPS && Clean() && Wrote(4 * j)
        invariant if j == 0 then Now() == OFF || Now() == Pattern(STEPS - 1) else Now() == Pattern(j - 1)
        invariant rotor == if j == 0 then old(rotor) else base + j - 1
      {
        Follows(base, j);
        Hold(j);
        j := j + 1;
      }
    }

    method BackwardRound()
      requires Clean() && (Now() == OFF || Now() == Pattern(0)) && (STEPS - 1 - rotor) % STEPS != 4
      modifies this
      ensures Clean() && Now() == Pattern(0)
      ensures rotor == Nearest(old(rotor), STEPS - 1) - (STEPS - 1) && rotor % STEPS == 0
      ensures Wrote(4 * STEPS)
    {
      ghost var base := Nearest(rotor, STEPS - 1) - (STEPS - 1);
      NearestIsNearest(rotor, STEPS - 1, STEPS - 1);
      BeforeTop(base);
      var j := STEPS - 1;
      while j >= 0
        invariant -1 <= j < STEPS && Clean() && Wrote(4 * (STEPS - 1 - j))
        invariant if j == STEPS - 1 then Now() == OFF || Now() == Pattern(0) else Now() == Pattern(j + 1)
        invariant rotor == if j == STEPS - 1 then old(rotor) else base + j + 1
      {
        Follows(base, j);
        assert (j + 1) % STEPS == if j == STEPS - 1 then 0 else j + 1;
        Hold(j);
        j := j - 1;
      }
    }

    method MoveDegree(m: Move)
      requires Clean() && Now() == OFF && Pulls(rotor, m)
      modifies this
      ensures Clean() && Now() == OFF && rotor == MoveTo(old(rotor), m) && Wrote(PinWrites(m))
    {
      var targetRounds := Rounds(m.degree);
      var i := 0;
      while i < targetRounds
        invariant Clean() && 0 <= i && (i > 0 ==> i <= targetRounds)
        invariant Wrote(if m.direction.Neither? then 0 else 4 * STEPS * i)
        invariant m.direction.Neither? || i == 0 ==> rotor == old(rotor) && Now() == OFF
        invariant m.direction.Forward? && i > 0 ==>
          rotor == Nearest(old(rotor), 0) + STEPS * i - 1 && rotor % STEPS == 7 && Now() == Pattern(STEPS - 1)
        invariant m.direction.Backward? && i > 0 ==>
          rotor == Nearest(old(rotor), STEPS - 1) - STEPS * i + 1 && rotor % STEPS == 0 && Now() == Pattern(0)
      {
        if m.direction == Forward {
          if i > 0 { AtPhase7(rotor); }
          ForwardRound();
        } else if m.direction == Backward {
          if i > 0 { AtPhase0(rotor); }
          BackwardRound();
        }
        i := i + 1;
      }
      Release();
    }
  }

  /**
   Any list of moves from phase 7: the rotor ends a whole number of rounds away, within one round
   a move of the net degrees, and every single pin write on the way, all of them recorded, showed
   a table pattern or all-off.
   */
  method RunMoves(motor: Motor, moves: seq<Move>)
    requires motor.Clean() && motor.Now() == OFF && motor.rotor == -1
    modifies motor
    ensures motor.Clean() && motor.Now() == OFF && motor.rotor == Expected(moves)
    ensures AllFit(moves) ==> FollowsDegrees(motor.rotor, moves)
    ensures motor.Wrote(AllPinWrites(moves))
  {
    if AllFit(moves) { ExpectedFollowsDegrees(moves); }
    for k := 0 to |moves|
      invariant motor.Clean() && motor.Now() == OFF && motor.rotor == Expected(moves[..k])
      invariant motor.Wrote(AllPinWrites(moves[..k]))
    {
      MoveFromExpected(moves[..k], moves[k]);
      motor.MoveDegree(moves[k]);
      assert moves[..k + 1] == moves[..k] + [moves[k]] && moves[..k + 1][..k] == moves[..k];
    }
    assert moves[..|moves|] == moves;
  }
}
