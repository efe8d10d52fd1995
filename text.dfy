/**
 * The handful of Python string operations the translator relies on, over `string` (`seq<char>`):
 * `t in s`, `str.upper`, `str.partition`, `str.split(sep)`, `str.split()`, `str.replace(c, "")`,
 * integer formatting, and the first match of the energy regular expression `[-+]?\d*\.\d+|\d+`.
 */
module Text {
  import opened Wrappers

  predicate IsDigit(c: char) {
    '0' <= c <= '9'
  }

  /** The ASCII characters that Python's `str.isspace` accepts. */
  predicate IsSpace(c: char) {
    c == ' ' || (9 <= c as int <= 13) || (28 <= c as int <= 31)
  }

  /** `t` occurs in `s` at index `i`. */
  predicate OccursAt(t: string, s: string, i: int) {
    0 <= i && i + |t| <= |s| && s[i..i + |t|] == t
  }

  /** Python's `t in s` for strings: `t` occurs contiguously in `s`. */
  predicate Occurs(t: string, s: string) {
    exists i :: 0 <= i <= |s| && OccursAt(t, s, i)
  }

  lemma OccursAtShift(t: string, s: string, j: int)
    requires |s| > 0 && j >= 1
    ensures OccursAt(t, s, j) <==> OccursAt(t, s[1..], j - 1)
  {
    if j + |t| <= |s| {
      assert s[j..j + |t|] == s[1..][j - 1..j - 1 + |t|];
    }
  }

  /** A text with a letter that `s` lacks does not occur in `s`. */
  lemma AbsentLetter(t: string, s: string, k: nat)
    requires k < |t| && t[k] !in s
    ensures !Occurs(t, s)
  {
    forall i | 0 <= i <= |s|
      ensures !OccursAt(t, s, i)
    {
      if i + |t| <= |s| {
        assert s[i..i + |t|][k] == s[i + k] != t[k];
      }
    }
  }

  function UpperChar(c: char): char {
    if 'a' <= c <= 'z' then (c as int - 32) as char else c
  }

  /** `s.upper()`, for ASCII letters. */
  function Upper(s: string): string {
    seq(|s|, i requires 0 <= i < |s| => UpperChar(s[i]))
  }

  function DigitChar(d: nat): char
    requires d < 10
  {
    ('0' as int + d) as char
  }

  predicate AllDigits(u: string) {
    forall k :: 0 <= k < |u| ==> IsDigit(u[k])
  }

  function NatToString(n: nat): (r: string)
    ensures |r| > 0 && AllDigits(r)
  {
    if n < 10 then [DigitChar(n)] else NatToString(n / 10) + [DigitChar(n % 10)]
  }

  /** Python's `f"{i}"` for an `int`. */
  function IntToString(i: int): string {
    if i < 0 then "-" + NatToString(-i) else NatToString(i)
  }

  /** `s.partition(sep)[0]`: everything before the first `sep`, or all of `s` when there is none. */
  function PartitionHead(s: string, sep: char): (r: string)
    ensures |r| <= |s| && r == s[..|r|]
    ensures sep !in r
    ensures |r| < |s| ==> s[|r|] == sep
  {
    if |s| == 0 || s[0] == sep then "" else [s[0]] + PartitionHead(s[1..], sep)
  }

  /** `t` does not start at any index below `n` of `s`. */
  predicate NoOccurrenceBefore(t: string, s: string, n: int) {
    forall j :: 0 <= j < n ==> !OccursAt(t, s, j)
  }

  /** Index of the first occurrence of `t` in `s`. */
  function Find(s: string, t: string): (r: Option<nat>)
    requires |t| > 0
    ensures r.Some? ==> OccursAt(t, s, r.value)
    ensures r.Some? ==> forall j :: 0 <= j < r.value ==> !OccursAt(t, s, j)
    ensures r.None? <==> !Occurs(t, s)
  {
    if |s| < |t| then None
    else if s[..|t|] == t then Some(0)
    else
      match Find(s[1..], t)
      case None =>
        assert forall i :: 1 <= i ==> (OccursAt(t, s, i) <==> OccursAt(t, s[1..], i - 1)) by {
          forall i | 1 <= i { OccursAtShift(t, s, i); }
        }
        assert !OccursAt(t, s, 0);
        None
      case Some(k) =>
        assert forall j :: 1 <= j ==> (OccursAt(t, s, j) <==> OccursAt(t, s[1..], j - 1)) by {
          forall j | 1 <= j { OccursAtShift(t, s, j); }
        }
        Some(k + 1)
  }

  /**
   * `s.split(sep)[0]` and `s.split(sep)[1]`; `None` where Python raises `IndexError` because `sep`
   * does not occur and the split has a single field. The first field ends at the first `sep`, the
   * second at the next one after it or at the end of `s`.
   */
  function FirstTwoFields(s: string, sep: string): (r: Option<(string, string)>)
    requires |sep| > 0
    ensures r.None? <==> !Occurs(sep, s)
    ensures r.Some? ==> OccursAt(r.value.0 + sep + r.value.1, s, 0)
    ensures r.Some? ==> NoOccurrenceBefore(sep, s, |r.value.0|)
    ensures r.Some? && |r.value.0| + |sep| <= |s| ==>
              NoOccurrenceBefore(sep, s[|r.value.0| + |sep|..], |r.value.1|)
    ensures r.Some? && |r.value.0| + |sep| + |r.value.1| < |s| ==>
              OccursAt(sep, s[|r.value.0| + |sep|..], |r.value.1|)
  {
    match Find(s, sep)
    case None => None
    case Some(i) =>
      var rest := s[i + |sep|..];
      var j := FieldEnd(rest, sep);
      FieldsJoin(s, sep, i, j);
      Some((s[..i], rest[..j]))
  }

  /** The first field, the separator and the second field spell out the start of `s`. */
  lemma FieldsJoin(s: string, sep: string, i: nat, j: nat)
    requires OccursAt(sep, s, i) && j <= |s| - i - |sep|
    ensures OccursAt(s[..i] + sep + s[i + |sep|..][..j], s, 0)
  {
    var second := s[i + |sep|..][..j];
    assert second == s[i + |sep|..i + |sep| + j];
    assert s[..i + |sep| + j] == s[..i] + s[i..i + |sep|] + second;
  }

  /** Length of the field at the start of `rest`: up to the first `sep`, or all of `rest`. */
  function FieldEnd(rest: string, sep: string): (j: nat)
    requires |sep| > 0
    ensures j <= |rest| && NoOccurrenceBefore(sep, rest, j)
    ensures j < |rest| ==> OccursAt(sep, rest, j)
  {
    match Find(rest, sep)
    case None => |rest|
    case Some(j) => j
  }

  /** End of the run of non-space characters that starts at `i`. */
  function TokenEnd(s: string, i: nat): (j: nat)
    requires i <= |s|
    ensures i <= j <= |s|
    ensures forall k :: i <= k < j ==> !IsSpace(s[k])
    ensures j < |s| ==> IsSpace(s[j])
    decreases |s| - i
  {
    if i < |s| && !IsSpace(s[i]) then TokenEnd(s, i + 1) else i
  }

  /** Python's `s.split()` with no argument: the maximal runs of non-space characters. */
  function Words(s: string): (r: seq<string>)
    decreases |s|
  {
    if |s| == 0 then []
    else if IsSpace(s[0]) then Words(s[1..])
    else
      var n := TokenEnd(s, 0);
      [s[..n]] + Words(s[n..])
  }

  /** Every word is non-empty and free of white space. */
  lemma {:induction false} WordsAreTokens(s: string)
    ensures forall w :: w in Words(s) ==> |w| > 0 && forall k :: 0 <= k < |w| ==> !IsSpace(w[k])
    decreases |s|
  {
    if |s| == 0 {
    } else if IsSpace(s[0]) {
      WordsAreTokens(s[1..]);
    } else {
      var n := TokenEnd(s, 0);
      WordsAreTokens(s[n..]);
    }
  }

  /** A string with no space in it is its own single word. */
  lemma {:induction false} WordsOfToken(s: string)
    requires |s| > 0 && forall k :: 0 <= k < |s| ==> !IsSpace(s[k])
    ensures Words(s) == [s]
  {
    var n := TokenEnd(s, 0);
    assert n == |s|;
    assert s[..n] == s;
    assert s[n..] == [];
  }

  /** Leading white space does not change the words. */
  lemma {:induction false} WordsSkipSpace(sp: string, rest: string)
    requires forall k :: 0 <= k < |sp| ==> IsSpace(sp[k])
    ensures Words(sp + rest) == Words(rest)
    decreases |sp|
  {
    if |sp| == 0 {
      assert sp + rest == rest;
    } else {
      assert (sp + rest)[1..] == sp[1..] + rest;
      WordsSkipSpace(sp[1..], rest);
    }
  }

  /** A word followed by white space is split off as the first word; the rest is split alone. */
  lemma WordsSplit(a: string, sp: string, rest: string)
    requires |a| > 0 && forall k :: 0 <= k < |a| ==> !IsSpace(a[k])
    requires |sp| > 0 && forall k :: 0 <= k < |sp| ==> IsSpace(sp[k])
    ensures Words(a + sp + rest) == [a] + Words(rest)
  {
    var s := a + sp + rest;
    var n := TokenEnd(s, 0);
    assert s[|a|] == sp[0];
    assert n == |a|;
    assert s[..n] == a;
    assert s[n..] == sp + rest;
    WordsSkipSpace(sp, rest);
  }

  /**
   * Python's `s.replace(c, "")` for a one-character pattern: no `c` is left, and every other
   * character is kept as often as it occurs in `s`.
   */
  function RemoveAll(s: string, c: char): (r: string)
    ensures c !in r
    ensures |r| <= |s|
    ensures forall x :: x != c ==> multiset(r)[x] == multiset(s)[x]
  {
    if |s| == 0 then ""
    else
      assert s == [s[0]] + s[1..];
      (if s[0] == c then "" else [s[0]]) + RemoveAll(s[1..], c)
  }

  /** Removal works piece by piece, so the kept characters stay in their order. */
  lemma {:induction false} RemoveAllConcat(a: string, b: string, c: char)
    ensures RemoveAll(a + b, c) == RemoveAll(a, c) + RemoveAll(b, c)
    decreases |a|
  {
    if |a| > 0 {
      assert (a + b)[1..] == a[1..] + b;
      RemoveAllConcat(a[1..], b, c);
    } else {
      assert a + b == b;
    }
  }

  lemma {:induction false} RemoveAllAbsent(s: string, c: char)
    requires c !in s
    ensures RemoveAll(s, c) == s
  {
    if |s| > 0 {
      RemoveAllAbsent(s[1..], c);
    }
  }

  /** End of the maximal run of digits that starts at `i`. */
  function DigitRun(s: string, i: nat): (j: nat)
    requires i <= |s|
    ensures i <= j <= |s|
    ensures forall k :: i <= k < j ==> IsDigit(s[k])
    ensures j < |s| ==> !IsDigit(s[j])
    decreases |s| - i
  {
    if i < |s| && IsDigit(s[i]) then DigitRun(s, i + 1) else i
  }

  /**
   * End of the match of `[-+]?\d*\.\d+|\d+` that starts at `p`, if there is one. The first
   * alternative is tried first; giving back digits or the sign can never produce the `.` that it
   * needs, so its greedy reading is the only one.
   */
  function MatchAt(s: string, p: nat): (r: Option<nat>)
    requires p <= |s|
    ensures r.Some? ==> p < r.value <= |s|
  {
    var q := if p < |s| && (s[p] == '-' || s[p] == '+') then p + 1 else p;
    var d := DigitRun(s, q);
    if d < |s| && s[d] == '.' && DigitRun(s, d + 1) > d + 1 then Some(DigitRun(s, d + 1))
    else if p < |s| && IsDigit(s[p]) then Some(DigitRun(s, p))
    else None
  }

  /** Digits, optionally after one sign character. */
  predicate SignedDigits(u: string) {
    AllDigits(u) || (|u| > 0 && (u[0] == '-' || u[0] == '+') && AllDigits(u[1..]))
  }

  /** A text that the energy pattern matches as a whole. */
  predicate IsNumberToken(t: string) {
    (|t| > 0 && AllDigits(t))
    || exists b :: 0 <= b < |t| - 1 && t[b] == '.' && SignedDigits(t[..b]) && AllDigits(t[b + 1..])
  }

  function EnergyTokenFrom(s: string, p: nat): Option<string>
    requires p <= |s|
    decreases |s| - p
  {
    if p == |s| then None
    else match MatchAt(s, p)
      case Some(e) => Some(s[p..e])
      case None => EnergyTokenFrom(s, p + 1)
  }

  /** `re.findall(r"[-+]?\d*\.\d+|\d+", s)[0]`; `None` where Python raises `IndexError`. */
  function EnergyToken(s: string): Option<string> {
    EnergyTokenFrom(s, 0)
  }

  lemma DigitSlice(s: string, i: nat, j: nat)
    requires i <= j <= |s| && forall k :: i <= k < j ==> IsDigit(s[k])
    ensures AllDigits(s[i..j])
  {
    forall k | 0 <= k < j - i ensures IsDigit(s[i..j][k]) {
      assert s[i..j][k] == s[i + k];
    }
  }

  lemma MatchAtSound(s: string, p: nat)
    requires p <= |s| && MatchAt(s, p).Some?
    ensures p < MatchAt(s, p).value <= |s|
    ensures IsNumberToken(s[p..MatchAt(s, p).value])
    ensures exists k :: p <= k < MatchAt(s, p).value && IsDigit(s[k])
  {
    var q := if p < |s| && (s[p] == '-' || s[p] == '+') then p + 1 else p;
    var d := DigitRun(s, q);
    if d < |s| && s[d] == '.' && DigitRun(s, d + 1) > d + 1 {
      var e := DigitRun(s, d + 1);
      var t := s[p..e];
      var b := d - p;
      assert t[b] == '.';
      assert t[..b] == s[p..d];
      assert t[b + 1..] == s[d + 1..e];
      DigitSlice(s, q, d);
      DigitSlice(s, d + 1, e);
      if q == p + 1 {
        assert s[p..d][1..] == s[q..d];
      }
      assert SignedDigits(t[..b]);
      assert IsDigit(s[d + 1]);
    } else {
      var e := DigitRun(s, p);
      DigitSlice(s, p, e);
      assert IsDigit(s[p]);
    }
  }

  /** The token found from `p` exists exactly when a digit follows `p`, and it is a number token. */
  lemma {:induction false} EnergyTokenFromSpec(s: string, p: nat)
    requires p <= |s|
    ensures EnergyTokenFrom(s, p).Some? <==> exists i :: p <= i < |s| && IsDigit(s[i])
    ensures EnergyTokenFrom(s, p).Some? ==> IsNumberToken(EnergyTokenFrom(s, p).value)
    decreases |s| - p
  {
    if p == |s| {
    } else {
      match MatchAt(s, p)
      case Some(e) =>
        MatchAtSound(s, p);
      case None =>
        EnergyTokenFromSpec(s, p + 1);
    }
  }

  /** The pattern matches at `q`, and at no position from `p` before it, and the match is `t`. */
  predicate LeftmostMatch(s: string, p: nat, q: nat, t: string) {
    p <= q < |s| && MatchAt(s, q) == Some(q + |t|) && OccursAt(t, s, q) &&
    forall j :: p <= j < q ==> MatchAt(s, j).None?
  }

  /** The token found from `p` is the whole match at the leftmost position from `p` where the pattern matches. */
  lemma {:induction false} EnergyTokenFromLeftmost(s: string, p: nat)
    requires p <= |s| && EnergyTokenFrom(s, p).Some?
    ensures exists q :: LeftmostMatch(s, p, q, EnergyTokenFrom(s, p).value)
    decreases |s| - p
  {
    var t := EnergyTokenFrom(s, p).value;
    if MatchAt(s, p).Some? {
      var e := MatchAt(s, p).value;
      assert t == s[p..e];
      assert LeftmostMatch(s, p, p, t);
    } else {
      assert t == EnergyTokenFrom(s, p + 1).value;
      EnergyTokenFromLeftmost(s, p + 1);
      var q: nat :| LeftmostMatch(s, p + 1, q, t);
      LeftmostMatchStep(s, p, q, t);
    }
  }

  /** A position where the pattern does not match can be put in front of the search. */
  lemma LeftmostMatchStep(s: string, p: nat, q: nat, t: string)
    requires p < |s| && MatchAt(s, p).None? && LeftmostMatch(s, p + 1, q, t)
    ensures LeftmostMatch(s, p, q, t)
  {
    forall j | p <= j < q
      ensures MatchAt(s, j).None?
    {
      if j > p {
        assert p + 1 <= j < q;
      }
    }
  }

  /**
   * `re.findall(..)[0]`: the energy token exists exactly when the name holds a digit, and it is
   * the whole match at the leftmost position where the pattern matches, a number token.
   */
  lemma EnergyTokenSpec(s: string)
    ensures EnergyToken(s).Some? <==> exists i :: 0 <= i < |s| && IsDigit(s[i])
    ensures EnergyToken(s).Some? ==> IsNumberToken(EnergyToken(s).value)
    ensures EnergyToken(s).Some? ==> exists p :: LeftmostMatch(s, 0, p, EnergyToken(s).value)
  {
    EnergyTokenFromSpec(s, 0);
    if EnergyToken(s).Some? {
      EnergyTokenFromLeftmost(s, 0);
    }
  }

  /** "6MV 10" gives "6", not the later "10". */
  lemma EnergyTokenExample()
    ensures EnergyToken("6MV 10") == Some("6")
  {
    var s := "6MV 10";
    assert !IsDigit(s[1]) && s[1] != '.';
    assert DigitRun(s, 1) == 1;
    assert DigitRun(s, 0) == 1;
    assert MatchAt(s, 0) == Some(1);
    assert EnergyTokenFrom(s, 0) == Some(s[0..1]);
    assert s[0..1] == "6";
  }
}
