/**
 * The slice of JavaScript's string semantics the services rely on: the `\s` white-space class
 * (which is also what `trim()` strips), `toLowerCase` on the Latin and Cyrillic alphabets,
 * `includes`, `join`, decimal printing of integers and `parseInt` of a run of digits.
 */
module Text {

  /** Exactly the characters matched by JavaScript's `\s` and stripped by `String.prototype.trim`. */
  predicate IsSpace(c: char) {
    || c == ' ' || c == '\t' || c == '\n' || c == '\r' || c == '\U{000B}' || c == '\U{000C}'
    || c == '\U{00A0}' || c == '\U{1680}' || ('\U{2000}' <= c <= '\U{200A}')
    || c == '\U{2028}' || c == '\U{2029}' || c == '\U{202F}' || c == '\U{205F}'
    || c == '\U{3000}' || c == '\U{FEFF}'
  }

  predicate HasSpace(s: string) {
    exists i :: 0 <= i < |s| && IsSpace(s[i])
  }

  predicate IsBlank(s: string) {
    forall i :: 0 <= i < |s| ==> IsSpace(s[i])
  }

  predicate IsAsciiLower(c: char) { 'a' <= c <= 'z' }

  predicate IsAsciiUpper(c: char) { 'A' <= c <= 'Z' }

  predicate IsDigit(c: char) { '0' <= c <= '9' }

  /** The characters JavaScript's `\w` (and so `\b`) counts as word characters. */
  predicate IsWordChar(c: char) {
    IsAsciiLower(c) || IsAsciiUpper(c) || IsDigit(c) || c == '_'
  }

  /** `toLowerCase` on one character, for the Latin and Cyrillic alphabets. */
  function LowerChar(c: char): (r: char)
    ensures IsSpace(r) <==> IsSpace(c)
    ensures IsWordChar(r) <==> IsWordChar(c)
    ensures !IsAsciiUpper(r)
  {
    if IsAsciiUpper(c) then (c as int + 32) as char
    else if '\U{0410}' <= c <= '\U{042F}' then (c as int + 32) as char
    else if '\U{0400}' <= c <= '\U{040F}' then (c as int + 80) as char
    else c
  }

  function ToLower(s: string): (r: string)
    ensures |r| == |s|
    ensures forall i :: 0 <= i < |s| ==> r[i] == LowerChar(s[i])
  {
    if s == [] then [] else [LowerChar(s[0])] + ToLower(s[1..])
  }

  lemma ToLowerAppend(a: string, b: string)
    ensures ToLower(a + b) == ToLower(a) + ToLower(b)
  {
    assert forall i :: 0 <= i < |a + b| ==> ToLower(a + b)[i] == (ToLower(a) + ToLower(b))[i];
  }

  /** `sub` occurs in `s` at index `i`. */
  predicate ContainsAt(s: string, sub: string, i: int) {
    0 <= i <= |s| - |sub| && s[i..i + |sub|] == sub
  }

  /** `s.includes(sub)`. */
  predicate Contains(s: string, sub: string) {
    exists i :: 0 <= i <= |s| - |sub| && ContainsAt(s, sub, i)
  }

  /** `s.startsWith(prefix)`. */
  predicate StartsWith(s: string, prefix: string) {
    |prefix| <= |s| && s[..|prefix|] == prefix
  }

  /** Drops leading white space. */
  function TrimStart(s: string): (r: string)
    ensures |r| <= |s| && r == s[|s| - |r|..]
    ensures IsBlank(s[..|s| - |r|])
    ensures r == [] || !IsSpace(r[0])
  {
    if s != [] && IsSpace(s[0]) then TrimStart(s[1..]) else s
  }

  /** Drops trailing white space. */
  function TrimEnd(s: string): (r: string)
    ensures |r| <= |s| && r == s[..|r|]
    ensures IsBlank(s[|r|..])
    ensures r == [] || !IsSpace(r[|r| - 1])
  {
    if s != [] && IsSpace(s[|s| - 1]) then TrimEnd(s[..|s| - 1]) else s
  }

  /** `s.trim()`. */
  function Trim(s: string): (r: string)
    ensures r == [] || (!IsSpace(r[0]) && !IsSpace(r[|r| - 1]))
    ensures r == [] <==> IsBlank(s)
  {
    TrimBlank(s);
    TrimEnd(TrimStart(s))
  }

  lemma TrimBlank(s: string)
    ensures TrimEnd(TrimStart(s)) == [] <==> IsBlank(s)
  {
    var t := TrimStart(s);
    var k := |s| - |t|;
    if TrimEnd(t) == [] {
      assert IsBlank(t[0..]);
      assert t[0..] == t;
      assert t == [];
      assert s[..k] == s;
    }
  }

  /** The trimmed string is a contiguous piece of the original. */
  lemma TrimSlice(s: string)
    ensures |s| - |TrimStart(s)| + |Trim(s)| <= |s|
    ensures Trim(s) == s[|s| - |TrimStart(s)|..|s| - |TrimStart(s)| + |Trim(s)|]
  {
    var t := TrimStart(s);
    var k := |s| - |t|;
    var r := TrimEnd(t);
    assert t == s[k..];
    assert r == t[..|r|];
  }

  /** White space is only single `' '` characters. */
  predicate SingleSpaced(s: string)
    decreases |s|
  {
    s == [] || ((IsSpace(s[0]) ==> s[0] == ' ' && (|s| == 1 || !IsSpace(s[1]))) && SingleSpaced(s[1..]))
  }

  /** Single-spaced with no white space at either end: what `replace(/\s+/g, ' ').trim()` yields. */
  predicate Tidy(s: string) {
    SingleSpaced(s) && (s == [] || (!IsSpace(s[0]) && !IsSpace(s[|s| - 1])))
  }

  lemma SingleSpacedCons(c: char, r: string)
    requires SingleSpaced(r)
    requires IsSpace(c) ==> c == ' ' && (r == [] || !IsSpace(r[0]))
    ensures SingleSpaced([c] + r)
  {
    assert ([c] + r)[1..] == r;
  }

  lemma {:induction false} SingleSpacedSuffix(s: string, k: nat)
    requires SingleSpaced(s) && k <= |s|
    ensures SingleSpaced(s[k..])
    decreases k
  {
    if k > 0 {
      SingleSpacedSuffix(s[1..], k - 1);
      assert s[1..][k - 1..] == s[k..];
    }
  }

  lemma {:induction false} SingleSpacedPrefix(s: string, k: nat)
    requires SingleSpaced(s) && k <= |s|
    ensures SingleSpaced(s[..k])
    decreases k
  {
    if k > 0 {
      SingleSpacedPrefix(s[1..], k - 1);
      assert s[..k][1..] == s[1..][..k - 1];
    }
  }

  /** `s.replace(/\s+/g, ' ')`: every maximal run of white space becomes one space. */
  function CollapseSpaces(s: string): (r: string)
    ensures SingleSpaced(r)
    ensures s != [] ==> r != [] && (IsSpace(r[0]) <==> IsSpace(s[0]))
    decreases |s|
  {
    if s == [] then []
    else if IsSpace(s[0]) then
      var rest := CollapseSpaces(TrimStart(s[1..]));
      SingleSpacedCons(' ', rest);
      [' '] + rest
    else
      var rest := CollapseSpaces(s[1..]);
      SingleSpacedCons(s[0], rest);
      [s[0]] + rest
  }

  lemma {:induction false} CollapseSingleSpaced(s: string)
    requires SingleSpaced(s)
    ensures CollapseSpaces(s) == s
    decreases |s|
  {
    if s != [] {
      if IsSpace(s[0]) {
        assert TrimStart(s[1..]) == s[1..];
      }
      CollapseSingleSpaced(s[1..]);
    }
  }

  lemma TrimStartSingleSpaced(s: string)
    requires SingleSpaced(s)
    ensures SingleSpaced(TrimStart(s))
  {
    SingleSpacedSuffix(s, |s| - |TrimStart(s)|);
  }

  lemma TrimEndSingleSpaced(s: string)
    requires SingleSpaced(s)
    ensures SingleSpaced(TrimEnd(s))
  {
    SingleSpacedPrefix(s, |TrimEnd(s)|);
  }

  lemma TrimTidy(s: string)
    requires SingleSpaced(s)
    ensures Tidy(Trim(s))
  {
    TrimStartSingleSpaced(s);
    TrimEndSingleSpaced(TrimStart(s));
  }

  lemma TidyTrim(s: string)
    requires Tidy(s)
    ensures Trim(s) == s
  {
    assert TrimStart(s) == s;
    assert TrimEnd(s) == s;
  }

  /** Some lower-case ASCII letter is directly followed by an upper-case one: `/[a-z][A-Z]/`. */
  predicate HasCamelPair(s: string) {
    exists i :: 0 <= i < |s| - 1 && IsAsciiLower(s[i]) && IsAsciiUpper(s[i + 1])
  }

  lemma TidyCons(c: char, r: string)
    requires !IsSpace(c) && Tidy(r)
    ensures Tidy([c] + r)
  {
    SingleSpacedCons(c, r);
    assert r != [] ==> ([c] + r)[|r|] == r[|r| - 1];
  }

  lemma TidyConsSpace(c: char, r: string)
    requires !IsSpace(c) && Tidy(r) && r != []
    ensures Tidy([c, ' '] + r)
  {
    SingleSpacedCons(' ', r);
    SingleSpacedCons(c, [' '] + r);
    assert [c] + ([' '] + r) == [c, ' '] + r;
    assert ([c, ' '] + r)[|r| + 1] == r[|r| - 1];
  }

  /** `s.replace(/([a-z])([A-Z])/g, '$1 $2')`. */
  function SplitCamel(s: string): (r: string)
    ensures s != [] ==> r != [] && r[0] == s[0]
    ensures HasCamelPair(s) ==> HasSpace(r)
    ensures !HasSpace(s) ==> Tidy(r)
  {
    if |s| < 2 then
      assert !HasSpace(s) && s != [] ==> !IsSpace(s[0]);
      s
    else
      var rest := SplitCamel(s[1..]);
      assert HasCamelPair(s) && !(IsAsciiLower(s[0]) && IsAsciiUpper(s[1])) ==> HasCamelPair(s[1..]) by {
        if HasCamelPair(s) && !(IsAsciiLower(s[0]) && IsAsciiUpper(s[1])) {
          var i :| 0 <= i < |s| - 1 && IsAsciiLower(s[i]) && IsAsciiUpper(s[i + 1]);
          assert i > 0;
          assert IsAsciiLower(s[1..][i - 1]) && IsAsciiUpper(s[1..][i]);
        }
      }
      assert !HasSpace(s) ==> !HasSpace(s[1..]) && !IsSpace(s[0]) by {
        if !HasSpace(s) {
          assert !IsSpace(s[0]);
          forall i | 0 <= i < |s[1..]| ensures !IsSpace(s[1..][i]) { assert s[1..][i] == s[i + 1]; }
        }
      }
      if IsAsciiLower(s[0]) && IsAsciiUpper(s[1]) then
        var r := [s[0], ' '] + rest;
        assert IsSpace(r[1]);
        assert !HasSpace(s) ==> Tidy(r) by {
          if !HasSpace(s) { TidyConsSpace(s[0], rest); }
        }
        r
      else
        var r := [s[0]] + rest;
        assert HasSpace(rest) ==> HasSpace(r) by {
          if HasSpace(rest) {
            var i :| 0 <= i < |rest| && IsSpace(rest[i]);
            assert r[i + 1] == rest[i];
          }
        }
        assert !HasSpace(s) ==> Tidy(r) by {
          if !HasSpace(s) { TidyCons(s[0], rest); }
        }
        r
  }

  lemma {:induction false} ToLowerKeepsSingleSpaced(s: string)
    requires SingleSpaced(s)
    ensures SingleSpaced(ToLower(s))
    decreases |s|
  {
    if s != [] {
      ToLowerKeepsSingleSpaced(s[1..]);
      assert ToLower(s)[1..] == ToLower(s[1..]);
    }
  }

  lemma ToLowerKeepsTidy(s: string)
    requires Tidy(s)
    ensures Tidy(ToLower(s))
  {
    ToLowerKeepsSingleSpaced(s);
  }

  /** `parts.join(sep)`. */
  function Join(parts: seq<string>, sep: string): (r: string)
    ensures parts == [] ==> r == []
    ensures |parts| == 1 ==> r == parts[0]
  {
    if parts == [] then []
    else if |parts| == 1 then parts[0]
    else parts[0] + sep + Join(parts[1..], sep)
  }

  function DigitChar(d: nat): (c: char)
    requires d < 10
    ensures IsDigit(c)
  {
    ('0' as int + d) as char
  }

  predicate AllDigits(s: string) {
    forall i :: 0 <= i < |s| ==> IsDigit(s[i])
  }

  /** Decimal representation of a natural number, as `String(n)` prints it. */
  function NatToString(n: nat): (r: string)
    ensures r != [] && AllDigits(r)
  {
    if n < 10 then [DigitChar(n)] else NatToString(n / 10) + [DigitChar(n % 10)]
  }

  /** Decimal representation of an integer, as `String(n)` / template literals print it. */
  function IntToString(n: int): (r: string)
    ensures r != []
    ensures n < 0 <==> r[0] == '-'
  {
    if n < 0 then "-" + NatToString(-n) else NatToString(n)
  }

  /** `parseInt` of a run of decimal digits. */
  function DigitsValue(s: string): (n: nat)
    requires AllDigits(s)
  {
    if s == [] then 0 else DigitsValue(s[..|s| - 1]) * 10 + (s[|s| - 1] as int - '0' as int)
  }

  /** Printing then parsing a natural number gives it back. */
  lemma {:induction false} DigitsValueOfNatToString(n: nat)
    ensures DigitsValue(NatToString(n)) == n
  {
    if n >= 10 {
      var s := NatToString(n);
      assert s[..|s| - 1] == NatToString(n / 10);
      DigitsValueOfNatToString(n / 10);
    }
  }

  /** `Number(s)` on an optionally signed decimal numeral; the inverse of IntToString. */
  function SignedValue(s: string): (n: int)
    requires s != []
    requires (s[0] == '-' || s[0] == '+') ==> AllDigits(s[1..])
    requires !(s[0] == '-' || s[0] == '+') ==> AllDigits(s)
  {
    if s[0] == '-' then -(DigitsValue(s[1..]) as int)
    else if s[0] == '+' then DigitsValue(s[1..])
    else DigitsValue(s)
  }

  lemma IntToStringRoundTrip(n: int)
    ensures SignedValue(IntToString(n)) == n
  {
    if n < 0 {
      assert IntToString(n)[1..] == NatToString(-n);
      DigitsValueOfNatToString(-n);
    } else {
      DigitsValueOfNatToString(n);
    }
  }
}
