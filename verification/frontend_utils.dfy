/**
 * `frontend/lib/utils.ts`: the client's dice helpers, `classNames` and `storageKey`.
 * Its `getAbilityModifier` is the same formula as `Calculations.Modifier` and is not
 * repeated here.
 */
module FrontendUtils {
  import opened Wrappers
  import opened Text
  import opened Dice

  /** `{ count, sides, bonus }`. */
  datatype DiceSpec = DiceSpec(count: int, sides: int, bonus: int)

  const DefaultDice := DiceSpec(1, 6, 0)

  /** The optional `(?:\+(-?\d+))?` after a match: a signed bonus, 0 when absent. */
  function SignedBonus(s: string, k: nat): (b: int)
    requires k <= |s|
    ensures (k == |s| || s[k] != '+') ==> b == 0
  {
    if k + 1 < |s| && s[k] == '+' && IsDigit(s[k + 1]) then
      DigitsValue(s[k + 1..k + 1 + DigitRun(s, k + 1)])
    else if k + 2 < |s| && s[k] == '+' && s[k + 1] == '-' && IsDigit(s[k + 2]) then
      -(DigitsValue(s[k + 2..k + 2 + DigitRun(s, k + 2)]) as int)
    else 0
  }

  /** `parseDiceString`: the first `NdS(+B)` in the text, or `{1, 6, 0}` when there is none. */
  function ParseDiceString(s: string): (r: DiceSpec)
    ensures FindDice(s).None? ==> r == DefaultDice
    ensures FindDice(s).Some? ==> r.count == FindDice(s).value.count && r.sides == FindDice(s).value.sides
  {
    match FirstMatch(s, 0)
    case None => DefaultDice
    case Some(i) =>
      var m := MatchAt(s, i);
      DiceSpec(m.count, m.sides, SignedBonus(s, m.end))
  }

  /** A printed integer after a `+` reads back as that integer. */
  lemma SignedBonusOfNumeral(p: string, bonus: int)
    requires p != [] && p[|p| - 1] == '+'
    ensures SignedBonus(p + IntToString(bonus), |p| - 1) == bonus
  {
    var s := p + IntToString(bonus);
    var k := |p| - 1;
    if bonus >= 0 {
      var c := NatToString(bonus);
      assert s == p + c + [];
      DigitRunAfter(p, c, []);
      assert s[k + 1..k + 1 + |c|] == c;
      DigitsValueOfNatToString(bonus);
    } else {
      var d := NatToString(-bonus);
      assert s == (p + "-") + d + [];
      DigitRunAfter(p + "-", d, []);
      assert s[k + 2..k + 2 + |d|] == d;
      DigitsValueOfNatToString(-bonus);
    }
  }

  /** Printing `NdS+B` with any integer B and parsing it gives the three numbers back. */
  lemma ParseDiceStringRoundTrip(n: nat, sides: nat, bonus: int)
    ensures ParseDiceString(NatToString(n) + "d" + NatToString(sides) + "+" + IntToString(bonus))
            == DiceSpec(n, sides, bonus)
  {
    var a, b, c := NatToString(n), NatToString(sides), IntToString(bonus);
    var p := a + "d" + b + "+";
    assert p + c == a + "d" + b + ("+" + c);
    NotationRoundTrip(n, sides, "+" + c);
    SignedBonusOfNumeral(p, bonus);
  }

  /** A minus sign is not part of the notation: `"2d6-3"` parses with bonus 0. */
  lemma MinusBonusIgnored()
    ensures ParseDiceString("2d6-3") == DiceSpec(2, 6, 0)
  {
    NotationRoundTrip(2, 6, "-3");
    assert NatToString(2) + "d" + NatToString(6) + "-3" == "2d6-3";
  }

  /** `rollDice(sides, count)`: `count` draws, each `Math.floor(u * sides) + 1`. */
  method RollDice(sides: int, count: int, draws: Draws) returns (total: int)
    requires ValidDraws(draws)
    ensures count <= 0 ==> total == 0
    ensures count > 0 ==> total == SumOfFaces(draws, count, sides)
    ensures count > 0 && sides >= 1 ==> count <= total <= count * sides
  {
    total := 0;
    var i := 0;
    while i < count
      invariant count > 0 ==> 0 <= i <= count
      invariant count <= 0 ==> i == 0
      invariant total == SumOfFaces(draws, i, sides)
    {
      total := total + DieFace(draws(i), sides);
      i := i + 1;
    }
    if count > 0 && sides >= 1 {
      SumOfFacesBounds(draws, count, sides);
    }
  }

  /** One argument of `classNames(...args)`. */
  datatype ClassArg = Str(s: string) | Bool(b: bool) | Null | Undefined

  /** `args.filter((x) => typeof x === 'string')`. */
  function StringArgs(args: seq<ClassArg>): (r: seq<string>)
    ensures |r| <= |args|
    ensures forall s :: s in r <==> Str(s) in args
    ensures |args| == 1 ==> r == if args[0].Str? then [args[0].s] else []
  {
    if args == [] then []
    else
      var rest := StringArgs(args[1..]);
      assert forall s :: Str(s) in args <==> args[0] == Str(s) || Str(s) in args[1..];
      if args[0].Str? then [args[0].s] + rest else rest
  }

  /** The filter works piece by piece: filtering a concatenation concatenates the filtered parts. */
  lemma {:induction false} StringArgsAppend(a: seq<ClassArg>, b: seq<ClassArg>)
    ensures StringArgs(a + b) == StringArgs(a) + StringArgs(b)
    decreases |a|
  {
    if a == [] {
      assert a + b == b;
    } else {
      assert (a + b)[0] == a[0] && (a + b)[1..] == a[1..] + b;
      StringArgsAppend(a[1..], b);
    }
  }

  /** Arguments that are all strings pass the filter whole, in order and with repeats. */
  lemma {:induction false} StringArgsOfStrings(args: seq<ClassArg>, ss: seq<string>)
    requires |args| == |ss|
    requires forall i :: 0 <= i < |args| ==> args[i] == Str(ss[i])
    ensures StringArgs(args) == ss
    decreases |args|
  {
    if args != [] {
      StringArgsOfStrings(args[1..], ss[1..]);
      assert [ss[0]] + ss[1..] == ss;
    }
  }

  /** `classNames`: the string arguments, empty ones included, joined by single spaces. */
  function ClassNames(args: seq<ClassArg>): (r: string)
    ensures StringArgs(args) == [] ==> r == ""
  {
    Join(StringArgs(args), " ")
  }

  /** `classNames` of string arguments is those strings, in order, joined by single spaces. */
  lemma ClassNamesOfStrings(args: seq<ClassArg>, ss: seq<string>)
    requires |args| == |ss|
    requires forall i :: 0 <= i < |args| ==> args[i] == Str(ss[i])
    ensures ClassNames(args) == Join(ss, " ")
  {
    StringArgsOfStrings(args, ss);
  }

  /** Only the string arguments matter: dropping the others leaves the class list alone. */
  lemma {:induction false} ClassNamesIgnoresNonStrings(args: seq<ClassArg>, other: ClassArg)
    requires !other.Str?
    ensures ClassNames([other] + args) == ClassNames(args)
    ensures ClassNames(args + [other]) == ClassNames(args)
  {
    assert ([other] + args)[1..] == args;
    StringArgsAppendNonString(args, other);
  }

  lemma {:induction false} StringArgsAppendNonString(args: seq<ClassArg>, other: ClassArg)
    requires !other.Str?
    ensures StringArgs(args + [other]) == StringArgs(args)
  {
    if args != [] {
      assert (args + [other])[1..] == args[1..] + [other];
      StringArgsAppendNonString(args[1..], other);
    } else {
      assert [other][1..] == [];
    }
  }

  /** Empty strings are kept (and so leave a double space); `false` and `null` are dropped. */
  lemma ClassNamesExample()
    ensures ClassNames([Str("btn"), Bool(false), Str(""), Null, Str("active")]) == "btn  active"
  {
    StringArgsExample();
    JoinExample();
  }

  lemma StringArgsExample()
    ensures StringArgs([Str("btn"), Bool(false), Str(""), Null, Str("active")]) == ["btn", "", "active"]
  {
    var a4 := [Str("active")];
    var a3 := [Null] + a4;
    var a2 := [Str("")] + a3;
    var a1 := [Bool(false)] + a2;
    var args := [Str("btn")] + a1;
    assert a4[1..] == [] && a3[1..] == a4 && a2[1..] == a3 && a1[1..] == a2 && args[1..] == a1;
    assert args == [Str("btn"), Bool(false), Str(""), Null, Str("active")];
  }

  lemma JoinExample()
    ensures Join(["btn", "", "active"], " ") == "btn  active"
  {
    var parts := ["btn", "", "active"];
    assert parts[1..] == ["", "active"] && parts[1..][1..] == ["active"];
    assert Join(parts[1..], " ") == " active";
  }

  const StoragePrefix := "dnd-game-"

  /** `storageKey(key)`: the key behind a fixed prefix. */
  function StorageKey(key: string): (r: string)
    ensures |r| == |StoragePrefix| + |key|
    ensures StartsWith(r, StoragePrefix) && r[|StoragePrefix|..] == key
  {
    StoragePrefix + key
  }

  /** Different keys never share a storage slot. */
  lemma StorageKeyInjective(k1: string, k2: string)
    requires StorageKey(k1) == StorageKey(k2)
    ensures k1 == k2
  {
    assert k1 == StorageKey(k1)[|StoragePrefix|..];
  }
}
