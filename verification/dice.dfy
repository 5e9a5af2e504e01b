/**
 * `utils/dice.ts`: d20 and dX rolls and the `NdS` / `NdS+B` notations.
 *
 * `Math.random()` is not modelled as a source of randomness; each call's value is supplied
 * as the next element of a stream `draws` of reals in [0, 1), and a die shows
 * `Math.floor(u * sides) + 1` exactly as the code computes it.
 */
module Dice {
  import opened Wrappers
  import opened Text

  /** The values successive `Math.random()` calls return. */
  type Draws = nat -> real

  ghost predicate ValidDraws(draws: Draws) {
    forall i: nat :: 0.0 <= draws(i) < 1.0
  }

  /** A draw in [0, 1) scaled by a positive number stays in [0, that number). */
  lemma ScaledDraw(u: real, s: real)
    requires 0.0 <= u < 1.0 && s > 0.0
    ensures 0.0 <= u * s < s
  {
    assert s - u * s == (1.0 - u) * s;
  }

  /** The floor of a number in [0, n) lies in [0, n - 1]. */
  lemma FloorBelow(x: real, n: int)
    requires 0.0 <= x < n as real
    ensures 0 <= x.Floor < n
  {
    var f := x.Floor;
    assert f as real <= x < f as real + 1.0;
  }

  /** `Math.floor(u * sides) + 1`. */
  function DieFace(u: real, sides: int): (face: int)
    ensures 0.0 <= u < 1.0 && sides >= 1 ==> 1 <= face <= sides
  {
    var x := u * sides as real;
    assert 0.0 <= u < 1.0 && sides >= 1 ==> 0 <= x.Floor < sides by {
      if 0.0 <= u < 1.0 && sides >= 1 {
        ScaledDraw(u, sides as real);
        FloorBelow(x, sides);
      }
    }
    x.Floor + 1
  }

  /** `rollD20`: a draw turned into a d20 face. */
  function RollD20(u: real): (face: int)
    requires 0.0 <= u < 1.0
    ensures 1 <= face <= 20
  {
    DieFace(u, 20)
  }

  const SidesError := "Dice sides must be at least 1"

  /** `rollDX`: throws for fewer than one side, otherwise a face in [1, sides]. */
  function RollDX(sides: int, u: real): (r: Result<int>)
    requires 0.0 <= u < 1.0
    ensures r.Failure? <==> sides < 1
    ensures r.Failure? ==> r.error == SidesError
    ensures r.Success? ==> 1 <= r.value <= sides
  {
    if sides < 1 then Failure(SidesError) else Success(DieFace(u, sides))
  }

  /** Length of the run of decimal digits that starts at `i`. */
  function DigitRun(s: string, i: nat): (n: nat)
    requires i <= |s|
    ensures i + n <= |s|
    ensures forall k :: i <= k < i + n ==> IsDigit(s[k])
    ensures i + n == |s| || !IsDigit(s[i + n])
    decreases |s| - i
  {
    if i < |s| && IsDigit(s[i]) then 1 + DigitRun(s, i + 1) else 0
  }

  /**
   * The regular expression `(\d+)d(\d+)` matches at position `i`.  Both digit groups are
   * greedy; a shorter first group would leave a digit, not `d`, after it, so the match exists
   * exactly when the maximal run is followed by `d` and a digit.
   */
  predicate MatchesAt(s: string, i: nat) {
    i < |s| && IsDigit(s[i]) &&
    var j := i + DigitRun(s, i);
    j + 1 < |s| && s[j] == 'd' && IsDigit(s[j + 1])
  }

  /** The leftmost position at or after `i` where the notation matches: `String.prototype.match`. */
  function FirstMatch(s: string, i: nat): (r: Option<nat>)
    requires i <= |s|
    ensures r.Some? ==> i <= r.value < |s| && MatchesAt(s, r.value)
    ensures r.Some? ==> forall k :: i <= k < r.value ==> !MatchesAt(s, k)
    ensures r.None? ==> forall k :: i <= k < |s| ==> !MatchesAt(s, k)
    decreases |s| - i
  {
    if i == |s| then None
    else if MatchesAt(s, i) then Some(i)
    else FirstMatch(s, i + 1)
  }

  /** The two captured numbers of a match and the index just after it. */
  datatype DiceMatch = DiceMatch(count: nat, sides: nat, end: nat)

  function MatchAt(s: string, i: nat): (m: DiceMatch)
    requires MatchesAt(s, i)
    ensures i + 3 <= m.end <= |s|
    ensures m.end == |s| || !IsDigit(s[m.end])
  {
    var j := i + DigitRun(s, i);
    var k := j + 1 + DigitRun(s, j + 1);
    DiceMatch(DigitsValue(s[i..j]), DigitsValue(s[j + 1..k]), k)
  }

  /** `notation.match(/(\d+)d(\d+)/)`, unanchored: the first match anywhere in the string. */
  function FindDice(s: string): (r: Option<DiceMatch>)
    ensures r.None? <==> forall k :: 0 <= k < |s| ==> !MatchesAt(s, k)
  {
    match FirstMatch(s, 0)
    case None => None
    case Some(i) => Some(MatchAt(s, i))
  }

  /** The optional `(?:\+(\d+))?` after a match: a non-negative bonus, 0 when absent. */
  function PlusBonus(s: string, k: nat): (b: nat)
    requires k <= |s|
  {
    if k + 1 < |s| && s[k] == '+' && IsDigit(s[k + 1]) then
      DigitsValue(s[k + 1..k + 1 + DigitRun(s, k + 1)])
    else 0
  }

  /** The sum of `n` dice of `sides` sides thrown with the first `n` draws. */
  function SumOfFaces(draws: Draws, n: nat, sides: int): int {
    if n == 0 then 0 else SumOfFaces(draws, n - 1, sides) + DieFace(draws(n - 1), sides)
  }

  /** `n` dice show between `n` and `n * sides` in total. */
  lemma {:induction false} SumOfFacesBounds(draws: Draws, n: nat, sides: int)
    requires ValidDraws(draws) && sides >= 1
    ensures n <= SumOfFaces(draws, n, sides) <= n * sides
  {
    if n > 0 {
      SumOfFacesBounds(draws, n - 1, sides);
      assert 1 <= DieFace(draws(n - 1), sides) <= sides;
      assert (n - 1) * sides + sides == n * sides;
    }
  }

  /** What `rollDice(notation)` returns or throws, given the draws its `rollDX` calls use. */
  function RollDiceResult(notation: string, draws: Draws): Result<int> {
    match FindDice(notation)
    case None => Failure("Invalid dice notation: " + notation)
    case Some(m) =>
      if m.count > 0 && m.sides < 1 then Failure(SidesError)
      else Success(SumOfFaces(draws, m.count, m.sides))
  }

  /** What `rollDamage(notation)` returns or throws. */
  function RollDamageResult(notation: string, draws: Draws): Result<int> {
    match FirstMatch(notation, 0)
    case None => Failure("Invalid damage notation: " + notation)
    case Some(i) =>
      var m := MatchAt(notation, i);
      if m.count > 0 && m.sides < 1 then Failure(SidesError)
      else Success(PlusBonus(notation, m.end) + SumOfFaces(draws, m.count, m.sides))
  }

  /** `rollDice`: parse, then add one `rollDX` per die. */
  method RollDice(notation: string, draws: Draws) returns (r: Result<int>)
    requires ValidDraws(draws)
    ensures r == RollDiceResult(notation, draws)
  {
    var found := FindDice(notation);
    if found.None? {
      return Failure("Invalid dice notation: " + notation);
    }
    var m := found.value;
    var total := 0;
    var i := 0;
    while i < m.count
      invariant 0 <= i <= m.count
      invariant m.sides >= 1 || i == 0
      invariant total == SumOfFaces(draws, i, m.sides)
    {
      var face := RollDX(m.sides, draws(i));
      if face.Failure? {
        return face;
      }
      total := total + face.value;
      i := i + 1;
    }
    r := Success(total);
  }

  /** `rollDamage`: like `rollDice`, starting the total from the optional `+B` bonus. */
  method RollDamage(notation: string, draws: Draws) returns (r: Result<int>)
    requires ValidDraws(draws)
    ensures r == RollDamageResult(notation, draws)
  {
    var at := FirstMatch(notation, 0);
    if at.None? {
      return Failure("Invalid damage notation: " + notation);
    }
    var m := MatchAt(notation, at.value);
    var bonus := PlusBonus(notation, m.end);
    var total := bonus;
    var i := 0;
    while i < m.count
      invariant 0 <= i <= m.count
      invariant m.sides >= 1 || i == 0
      invariant total == bonus + SumOfFaces(draws, i, m.sides)
    {
      var face := RollDX(m.sides, draws(i));
      if face.Failure? {
        return face;
      }
      total := total + face.value;
      i := i + 1;
    }
    r := Success(total);
  }

  /** N dice of S sides roll between N and N * S; zero dice roll 0. */
  lemma RollDiceBounds(notation: string, draws: Draws)
    requires ValidDraws(draws)
    requires FindDice(notation).Some?
    ensures var m := FindDice(notation).value;
            RollDiceResult(notation, draws).Success? <==> (m.count == 0 || m.sides >= 1)
    ensures var m := FindDice(notation).value;
            RollDiceResult(notation, draws).Success? ==>
              m.count <= RollDiceResult(notation, draws).value <= m.count * m.sides
    ensures FindDice(notation).value.count == 0 ==> RollDiceResult(notation, draws) == Success(0)
  {
    var m := FindDice(notation).value;
    if m.sides >= 1 {
      SumOfFacesBounds(draws, m.count, m.sides);
    }
  }

  /** With bonus K, damage lies between N + K and N * S + K. */
  lemma RollDamageBounds(notation: string, draws: Draws)
    requires ValidDraws(draws)
    requires FirstMatch(notation, 0).Some?
    ensures var i := FirstMatch(notation, 0).value;
            var m := MatchAt(notation, i);
            var k := PlusBonus(notation, m.end);
            RollDamageResult(notation, draws).Success? ==>
              m.count + k <= RollDamageResult(notation, draws).value <= m.count * m.sides + k
  {
    var m := MatchAt(notation, FirstMatch(notation, 0).value);
    if m.sides >= 1 {
      SumOfFacesBounds(draws, m.count, m.sides);
    }
  }

  /** The digit run of a printed number ends where the number does. */
  lemma DigitRunOfNumeral(a: string, rest: string)
    requires a != [] && AllDigits(a)
    requires rest == [] || !IsDigit(rest[0])
    ensures DigitRun(a + rest, 0) == |a|
  {
    var s := a + rest;
    assert forall k :: 0 <= k < |a| ==> s[k] == a[k];
    assert |s| == |a| || s[|a|] == rest[0];
  }

  /** The same, for a run that starts after a prefix. */
  lemma DigitRunAfter(p: string, a: string, rest: string)
    requires a != [] && AllDigits(a)
    requires rest == [] || !IsDigit(rest[0])
    ensures DigitRun(p + a + rest, |p|) == |a|
  {
    var s := p + a + rest;
    assert forall k :: 0 <= k < |a| ==> s[|p| + k] == a[k];
    assert |s| == |p| + |a| || s[|p| + |a|] == rest[0];
  }

  /** Printing `NdS` and matching it gives back N and S, the match ending where the text does. */
  lemma {:induction false} NotationRoundTrip(n: nat, sides: nat, rest: string)
    requires rest == [] || !IsDigit(rest[0])
    ensures var s := NatToString(n) + "d" + NatToString(sides) + rest;
            FirstMatch(s, 0) == Some(0) &&
            MatchAt(s, 0) == DiceMatch(n, sides, |NatToString(n)| + 1 + |NatToString(sides)|)
  {
    NotationMatch(NatToString(n), NatToString(sides), rest);
    DigitsValueOfNatToString(n);
    DigitsValueOfNatToString(sides);
  }

  /** Matching `a + "d" + b + rest`, for numerals `a` and `b`, reads their values back. */
  lemma NotationMatch(a: string, b: string, rest: string)
    requires a != [] && AllDigits(a) && b != [] && AllDigits(b)
    requires rest == [] || !IsDigit(rest[0])
    ensures var s := a + "d" + b + rest;
            FirstMatch(s, 0) == Some(0) && MatchAt(s, 0) == DiceMatch(DigitsValue(a), DigitsValue(b), |a| + 1 + |b|)
  {
    NotationRuns(a, b, rest);
    NotationSlices(a, b, rest);
    MatchAtOf(a + "d" + b + rest, a, b);
    FirstMatchHere(a + "d" + b + rest, 0);
  }

  /** In `a + "d" + b + rest` the notation matches at 0, with digit runs `a` and `b`. */
  lemma NotationRuns(a: string, b: string, rest: string)
    requires a != [] && AllDigits(a) && b != [] && AllDigits(b)
    requires rest == [] || !IsDigit(rest[0])
    ensures DigitRun(a + "d" + b + rest, 0) == |a|
    ensures DigitRun(a + "d" + b + rest, |a| + 1) == |b|
    ensures MatchesAt(a + "d" + b + rest, 0)
  {
    NumeralFirst(a, b, rest);
    DigitRunAfter(a + "d", b, rest);
    var s := a + "d" + b + rest;
    assert s[0] == a[0] && s[|a|] == 'd' && s[|a| + 1] == b[0];
  }

  lemma NumeralFirst(a: string, b: string, rest: string)
    requires a != [] && AllDigits(a)
    ensures DigitRun(a + "d" + b + rest, 0) == |a|
  {
    assert a + "d" + b + rest == a + ("d" + b + rest);
    DigitRunOfNumeral(a, "d" + b + rest);
  }

  /** The two numerals are the slices the match reads. */
  lemma NotationSlices(a: string, b: string, rest: string)
    ensures (a + "d" + b + rest)[0..|a|] == a
    ensures (a + "d" + b + rest)[|a| + 1..|a| + 1 + |b|] == b
  {
    var s := a + "d" + b + rest;
    assert forall k :: 0 <= k < |a| ==> s[k] == a[k];
    assert forall k :: 0 <= k < |b| ==> s[|a| + 1 + k] == b[k];
  }

  /** A match whose two digit runs are `a` and `b` captures their values. */
  lemma MatchAtOf(s: string, a: string, b: string)
    requires MatchesAt(s, 0) && AllDigits(a) && AllDigits(b)
    requires DigitRun(s, 0) == |a| && DigitRun(s, |a| + 1) == |b|
    requires s[0..|a|] == a && s[|a| + 1..|a| + 1 + |b|] == b
    ensures MatchAt(s, 0) == DiceMatch(DigitsValue(a), DigitsValue(b), |a| + 1 + |b|)
  {
  }

  /** A match at `i` is the first one from `i` on. */
  lemma FirstMatchHere(s: string, i: nat)
    requires MatchesAt(s, i)
    ensures FirstMatch(s, i) == Some(i)
  {
  }

  /** `rollDamage` reads back the bonus of a printed `NdS+B`. */
  lemma {:induction false} DamageBonusRoundTrip(n: nat, sides: nat, bonus: nat)
    ensures var s := NatToString(n) + "d" + NatToString(sides) + "+" + NatToString(bonus);
            FirstMatch(s, 0) == Some(0) &&
            MatchAt(s, 0) == DiceMatch(n, sides, |NatToString(n)| + 1 + |NatToString(sides)|) &&
            PlusBonus(s, MatchAt(s, 0).end) == bonus
  {
    var a, b, c := NatToString(n), NatToString(sides), NatToString(bonus);
    BonusRegroup(a, b, c);
    NotationRoundTrip(n, sides, "+" + c);
    BonusRead(a + "d" + b + "+", c);
    DigitsValueOfNatToString(bonus);
  }

  lemma BonusRegroup(a: string, b: string, c: string)
    ensures a + "d" + b + "+" + c == a + "d" + b + ("+" + c)
  {
  }

  /** A numeral right after a `+` is read back as the bonus. */
  lemma BonusRead(p: string, c: string)
    requires p != [] && p[|p| - 1] == '+' && c != [] && AllDigits(c)
    ensures PlusBonus(p + c, |p| - 1) == DigitsValue(c)
  {
    var s := p + c;
    assert s == p + c + [];
    DigitRunAfter(p, c, []);
    assert s[|p| - 1] == '+' && s[|p|] == c[0];
    assert s[|p|..|p| + |c|] == c;
  }
}
