/**
 * `s.replace(new RegExp('\\b' + key + '\\b', flags), replacement)` with the global flag, for
 * the plain-word keys the services use.  JavaScript's `\b` sits between an ASCII word
 * character (`[A-Za-z0-9_]`) and anything else, whatever the `i` flag says, so Cyrillic letters
 * count as non-word characters.
 */
module Words {
  import opened Text

  /** `\b` holds at position `i` of `s`. */
  predicate IsBoundary(s: string, i: int)
    requires 0 <= i <= |s|
  {
    (i > 0 && IsWordChar(s[i - 1])) != (i < |s| && IsWordChar(s[i]))
  }

  /** Equal as the `i` flag compares them (for the alphabets `LowerChar` covers), or exactly. */
  predicate SameText(a: string, b: string, ignoreCase: bool) {
    if ignoreCase then ToLower(a) == ToLower(b) else a == b
  }

  /** `key` occurs at position `i`, whether or not as a whole word. */
  predicate OccursAt(s: string, key: string, i: int, ignoreCase: bool) {
    0 <= i && i + |key| <= |s| && SameText(s[i..i + |key|], key, ignoreCase)
  }

  predicate Occurs(s: string, key: string, ignoreCase: bool) {
    exists i :: 0 <= i <= |s| && OccursAt(s, key, i, ignoreCase)
  }

  /** `\bkey\b` matches at position `i`. */
  predicate WordAt(s: string, key: string, i: int, ignoreCase: bool) {
    OccursAt(s, key, i, ignoreCase) && IsBoundary(s, i) && IsBoundary(s, i + |key|)
  }

  /** The global replacement of the part of `s` from `i` on; matches are found left to right. */
  function ReplaceFrom(s: string, key: string, rep: string, ignoreCase: bool, i: nat): string
    requires |key| > 0 && i <= |s|
    decreases |s| - i
  {
    if i == |s| then []
    else if WordAt(s, key, i, ignoreCase) then rep + ReplaceFrom(s, key, rep, ignoreCase, i + |key|)
    else [s[i]] + ReplaceFrom(s, key, rep, ignoreCase, i + 1)
  }

  /** Every whole-word occurrence of `key` in `s` replaced by `rep`. */
  function ReplaceWord(s: string, key: string, rep: string, ignoreCase: bool): string
    requires |key| > 0
  {
    ReplaceFrom(s, key, rep, ignoreCase, 0)
  }

  /** Where the key never matches, the replacement changes nothing. */
  lemma {:induction false} ReplaceFromNoMatch(s: string, key: string, rep: string, ignoreCase: bool, i: nat)
    requires |key| > 0 && i <= |s|
    requires forall j :: i <= j < |s| ==> !WordAt(s, key, j, ignoreCase)
    ensures ReplaceFrom(s, key, rep, ignoreCase, i) == s[i..]
    decreases |s| - i
  {
    if i < |s| {
      ReplaceFromNoMatch(s, key, rep, ignoreCase, i + 1);
      assert s[i..] == [s[i]] + s[i + 1..];
    }
  }

  lemma ReplaceWordNoMatch(s: string, key: string, rep: string, ignoreCase: bool)
    requires |key| > 0
    requires forall j :: 0 <= j < |s| ==> !WordAt(s, key, j, ignoreCase)
    ensures ReplaceWord(s, key, rep, ignoreCase) == s
  {
    ReplaceFromNoMatch(s, key, rep, ignoreCase, 0);
  }

  predicate HasWordChar(s: string) {
    exists i :: 0 <= i < |s| && IsWordChar(s[i])
  }

  /** Text without a single ASCII word character has no `\b` anywhere, so no key matches in it. */
  lemma NoWordCharNoMatch(s: string, key: string, ignoreCase: bool)
    requires !HasWordChar(s)
    ensures forall j :: 0 <= j < |s| ==> !WordAt(s, key, j, ignoreCase)
  {
    forall j | 0 <= j < |s| ensures !IsBoundary(s, j) {
      assert !IsWordChar(s[j]);
      assert j > 0 ==> !IsWordChar(s[j - 1]);
    }
  }

  /** A key that does not occur in the text at all (up to case) is never matched. */
  lemma AbsentKeyNoMatch(s: string, key: string, ignoreCase: bool)
    requires !Occurs(s, key, ignoreCase)
    ensures forall j :: 0 <= j < |s| ==> !WordAt(s, key, j, ignoreCase)
  {
  }

  /**
   * A key that begins and ends with a non-word character (a Cyrillic word, say) matches as a
   * whole word exactly where it occurs with an ASCII word character on each side of it.
   */
  lemma NonWordKeyNeedsWordNeighbours(s: string, key: string, i: int, ignoreCase: bool)
    requires |key| > 0 && !IsWordChar(key[0]) && !IsWordChar(key[|key| - 1])
    ensures WordAt(s, key, i, ignoreCase) <==>
              OccursAt(s, key, i, ignoreCase) && 0 < i && IsWordChar(s[i - 1])
              && i + |key| < |s| && IsWordChar(s[i + |key|])
  {
    if OccursAt(s, key, i, ignoreCase) {
      var t := s[i..i + |key|];
      assert t[0] == s[i] && t[|key| - 1] == s[i + |key| - 1];
      if ignoreCase {
        assert ToLower(t)[0] == ToLower(key)[0];
        assert ToLower(t)[|key| - 1] == ToLower(key)[|key| - 1];
      }
      assert !IsWordChar(s[i]) && !IsWordChar(s[i + |key| - 1]);
    }
  }

  /** Applies the table's replacements one after another, as a loop over `Object.entries`. */
  function ReplaceAllWords(table: seq<(string, string)>, s: string, ignoreCase: bool): string
    requires forall i :: 0 <= i < |table| ==> |table[i].0| > 0
  {
    if table == [] then s
    else ReplaceAllWords(table[1..], ReplaceWord(s, table[0].0, table[0].1, ignoreCase), ignoreCase)
  }

  /** Text without ASCII word characters passes through every table unchanged. */
  lemma {:induction false} ReplaceAllWordsNoWordChar(table: seq<(string, string)>, s: string, ignoreCase: bool)
    requires forall i :: 0 <= i < |table| ==> |table[i].0| > 0
    requires !HasWordChar(s)
    ensures ReplaceAllWords(table, s, ignoreCase) == s
  {
    if table != [] {
      NoWordCharNoMatch(s, table[0].0, ignoreCase);
      ReplaceWordNoMatch(s, table[0].0, table[0].1, ignoreCase);
      ReplaceAllWordsNoWordChar(table[1..], s, ignoreCase);
    }
  }

  /** Text in which no key of the table occurs is returned unchanged. */
  lemma {:induction false} ReplaceAllWordsAbsent(table: seq<(string, string)>, s: string, ignoreCase: bool)
    requires forall i :: 0 <= i < |table| ==> |table[i].0| > 0
    requires forall i :: 0 <= i < |table| ==> !Occurs(s, table[i].0, ignoreCase)
    ensures ReplaceAllWords(table, s, ignoreCase) == s
  {
    if table != [] {
      AbsentKeyNoMatch(s, table[0].0, ignoreCase);
      ReplaceWordNoMatch(s, table[0].0, table[0].1, ignoreCase);
      ReplaceAllWordsAbsent(table[1..], s, ignoreCase);
    }
  }

  /** A key made of word characters at both ends, standing alone, is replaced. */
  lemma ReplaceWordWhole(key: string, rep: string, ignoreCase: bool)
    requires |key| > 0 && IsWordChar(key[0]) && IsWordChar(key[|key| - 1])
    ensures ReplaceWord(key, key, rep, ignoreCase) == rep
  {
    assert key[0..|key|] == key;
    assert WordAt(key, key, 0, ignoreCase);
    assert ReplaceFrom(key, key, rep, ignoreCase, |key|) == [];
    assert ReplaceFrom(key, key, rep, ignoreCase, 0) == rep + [];
  }

  /** Replacing with a table in two parts is replacing with one part and then the other. */
  lemma {:induction false} ReplaceAllWordsAppend(t1: seq<(string, string)>, t2: seq<(string, string)>, s: string, ignoreCase: bool)
    requires forall i :: 0 <= i < |t1| ==> |t1[i].0| > 0
    requires forall i :: 0 <= i < |t2| ==> |t2[i].0| > 0
    ensures forall i :: 0 <= i < |t1 + t2| ==> |(t1 + t2)[i].0| > 0
    ensures ReplaceAllWords(t1 + t2, s, ignoreCase) == ReplaceAllWords(t2, ReplaceAllWords(t1, s, ignoreCase), ignoreCase)
  {
    assert forall i :: 0 <= i < |t1 + t2| ==> (t1 + t2)[i] == if i < |t1| then t1[i] else t2[i - |t1|];
    if t1 != [] {
      assert (t1 + t2)[1..] == t1[1..] + t2;
      ReplaceAllWordsAppend(t1[1..], t2, ReplaceWord(s, t1[0].0, t1[0].1, ignoreCase), ignoreCase);
    } else {
      assert t1 + t2 == t2;
    }
  }

  /**
   * Text that is exactly one key of the table becomes that key's replacement when no earlier
   * key occurs in it and the replacement has no ASCII word character for later keys to match.
   */
  lemma ReplaceAllWordsSingleHit(
    pre: seq<(string, string)>, key: string, rep: string, post: seq<(string, string)>, ignoreCase: bool)
    requires forall i :: 0 <= i < |pre| ==> |pre[i].0| > 0
    requires forall i :: 0 <= i < |post| ==> |post[i].0| > 0
    requires |key| > 0 && IsWordChar(key[0]) && IsWordChar(key[|key| - 1])
    requires forall i :: 0 <= i < |pre| ==> !Occurs(key, pre[i].0, ignoreCase)
    requires !HasWordChar(rep)
    ensures forall i :: 0 <= i < |pre + ([(key, rep)] + post)| ==> |(pre + ([(key, rep)] + post))[i].0| > 0
    ensures ReplaceAllWords(pre + ([(key, rep)] + post), key, ignoreCase) == rep
  {
    var hit := [(key, rep)] + post;
    assert forall i :: 0 <= i < |hit| ==> |hit[i].0| > 0;
    ReplaceAllWordsAbsent(pre, key, ignoreCase);
    ReplaceAllWordsAppend(pre, hit, key, ignoreCase);
    ReplaceWordWhole(key, rep, ignoreCase);
    assert hit[1..] == post;
    ReplaceAllWordsNoWordChar(post, rep, ignoreCase);
  }
}
