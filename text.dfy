/**
 * The few operations of Go's `strings` and `strconv` packages that the core
 * relies on, over `string` (a sequence of Unicode scalar values).
 */
module Text {
  import opened Base

  /** `strings.Split(s, string([sep]))` for a one-character separator. */
  function Split(s: string, sep: char): (parts: seq<string>)
    ensures |parts| >= 1
    ensures forall i | 0 <= i < |parts| :: sep !in parts[i]
    decreases |s|
  {
    if |s| == 0 then [""]
    else if s[0] == sep then [""] + Split(s[1..], sep)
    else
      var rest := Split(s[1..], sep);
      [[s[0]] + rest[0]] + rest[1..]
  }

  /** `strings.Join(parts, sep)`. */
  function Join(parts: seq<string>, sep: string): string
  {
    if |parts| == 0 then ""
    else if |parts| == 1 then parts[0]
    else parts[0] + sep + Join(parts[1..], sep)
  }

  /** Joining what Split produced gives back the original text. */
  lemma {:induction false} JoinSplit(s: string, sep: char)
    ensures Join(Split(s, sep), [sep]) == s
    decreases |s|
  {
    if |s| == 0 {
    } else if s[0] == sep {
      JoinSplit(s[1..], sep);
      var rest := Split(s[1..], sep);
      assert Split(s, sep) == [""] + rest;
      assert ([""] + rest)[1..] == rest;
    } else {
      JoinSplit(s[1..], sep);
      var rest := Split(s[1..], sep);
      var parts := [[s[0]] + rest[0]] + rest[1..];
      assert Split(s, sep) == parts;
      if |rest| == 1 {
        assert Join(parts, [sep]) == [s[0]] + rest[0];
      } else {
        assert parts[1..] == rest[1..];
        assert Join(rest, [sep]) == rest[0] + [sep] + Join(rest[1..], [sep]);
      }
    }
  }

  /** A character put in front of the first part goes in front of the
      join. */
  lemma JoinConsChar(parts: seq<string>, c: char, sep: string)
    requires |parts| >= 1
    ensures Join([[c] + parts[0]] + parts[1..], sep) == [c] + Join(parts, sep)
  {
    var parts' := [[c] + parts[0]] + parts[1..];
    assert parts'[1..] == parts[1..];
  }

  /** An empty first part leaves the join starting with the separator. */
  lemma JoinEmptyHead(rest: seq<string>, sep: string)
    requires |rest| >= 1
    ensures Join([""] + rest, sep) == sep + Join(rest, sep)
  {
    assert ([""] + rest)[1..] == rest;
  }

  /** The step of `SplitJoin` for a first part that starts with `c`. */
  lemma SplitJoinConsChar(parts: seq<string>, c: char, sep: char)
    requires |parts| >= 1 && c != sep
    requires Split(Join(parts, [sep]), sep) == parts
    ensures Split(Join([[c] + parts[0]] + parts[1..], [sep]), sep) == [[c] + parts[0]] + parts[1..]
  {
    JoinConsChar(parts, c, [sep]);
    var j := [c] + Join(parts, [sep]);
    assert j[0] == c && j[1..] == Join(parts, [sep]);
  }

  /** The step of `SplitJoin` for an empty first part. */
  lemma SplitJoinEmptyHead(rest: seq<string>, sep: char)
    requires |rest| >= 1
    requires Split(Join(rest, [sep]), sep) == rest
    ensures Split(Join([""] + rest, [sep]), sep) == [""] + rest
  {
    JoinEmptyHead(rest, [sep]);
    var j := [sep] + Join(rest, [sep]);
    assert j[0] == sep && j[1..] == Join(rest, [sep]);
  }

  /** Splitting the join of separator-free parts gives back the parts. */
  lemma {:induction false} SplitJoin(parts: seq<string>, sep: char)
    requires |parts| >= 1
    requires forall i | 0 <= i < |parts| :: sep !in parts[i]
    ensures Split(Join(parts, [sep]), sep) == parts
    decreases |parts|, |parts[0]|
  {
    if |parts[0]| > 0 {
      var c := parts[0][0];
      var parts' := [parts[0][1..]] + parts[1..];
      assert sep !in parts'[0];
      assert forall i | 1 <= i < |parts'| :: parts'[i] == parts[i];
      SplitJoin(parts', sep);
      assert [c] + parts'[0] == parts[0] && parts'[1..] == parts[1..];
      assert parts == [[c] + parts'[0]] + parts'[1..];
      SplitJoinConsChar(parts', c, sep);
    } else if |parts| > 1 {
      SplitJoin(parts[1..], sep);
      assert parts == [""] + parts[1..];
      SplitJoinEmptyHead(parts[1..], sep);
    }
  }

  /** The text of `s` before the first `sep` (all of `s` when there is none):
      `strings.Split(s, sep)[0]`. */
  function BeforeFirst(s: string, sep: char): (r: string)
  {
    Split(s, sep)[0]
  }

  /** BeforeFirst is the longest prefix of `s` that does not contain `sep`. */
  lemma {:induction false} BeforeFirstIsPrefix(s: string, sep: char)
    ensures |BeforeFirst(s, sep)| <= |s|
    ensures BeforeFirst(s, sep) == s[..|BeforeFirst(s, sep)|]
    ensures sep !in BeforeFirst(s, sep)
    ensures |BeforeFirst(s, sep)| < |s| ==> s[|BeforeFirst(s, sep)|] == sep
    ensures sep !in s ==> BeforeFirst(s, sep) == s
    decreases |s|
  {
    if |s| > 0 && s[0] != sep {
      BeforeFirstIsPrefix(s[1..], sep);
      assert BeforeFirst(s, sep) == [s[0]] + BeforeFirst(s[1..], sep);
      if sep !in s { assert sep !in s[1..]; }
    }
  }

  /** BeforeFirst of `p + [sep] + q` is `p` when `p` has no separator. */
  lemma {:induction false} BeforeFirstOfConcat(p: string, sep: char, q: string)
    requires sep !in p
    ensures BeforeFirst(p + [sep] + q, sep) == p
    decreases |p|
  {
    var s := p + [sep] + q;
    if |p| == 0 {
      assert s == [sep] + q;
    } else {
      assert s[0] == p[0] && s[1..] == p[1..] + [sep] + q;
      BeforeFirstOfConcat(p[1..], sep, q);
      assert [p[0]] + p[1..] == p;
    }
  }

  /** `strings.SplitN(s, string([sep]), 2)`: the text before the first `sep`
      and, when there is one, the text after it. */
  function Cut(s: string, sep: char): (r: (string, Option<string>))
    ensures r.1.None? <==> sep !in s
    ensures sep !in r.0
    ensures r.1.None? ==> r.0 == s
    ensures r.1.Some? ==> r.0 + [sep] + r.1.value == s
    decreases |s|
  {
    if |s| == 0 then ("", None)
    else if s[0] == sep then ("", Some(s[1..]))
    else
      var rest := Cut(s[1..], sep);
      assert rest.1.Some? ==> s == [s[0]] + (rest.0 + [sep] + rest.1.value);
      ([s[0]] + rest.0, rest.1)
  }

  /** Cutting `k + [sep] + v` at the first separator gives `k` and `v` back. */
  lemma {:induction false} CutOfConcat(k: string, sep: char, v: string)
    requires sep !in k
    ensures Cut(k + [sep] + v, sep) == (k, Some(v))
    decreases |k|
  {
    var s := k + [sep] + v;
    if |k| == 0 {
      assert s == [sep] + v;
    } else {
      assert s[0] == k[0] && s[1..] == k[1..] + [sep] + v;
      CutOfConcat(k[1..], sep, v);
      assert [k[0]] + k[1..] == k;
    }
  }

  /** The characters Go's `unicode.IsSpace` reports as white space. */
  predicate IsSpace(c: char)
  {
    || c == ' ' || c == '\t' || c == '\n' || c == '\U{0B}' || c == '\U{0C}' || c == '\r'
    || c == '\U{85}' || c == '\U{A0}' || c == '\U{1680}'
    || ('\U{2000}' <= c <= '\U{200A}')
    || c == '\U{2028}' || c == '\U{2029}' || c == '\U{202F}' || c == '\U{205F}' || c == '\U{3000}'
  }

  /** `s` neither starts nor ends with white space. */
  predicate IsTrimmed(s: string)
  {
    s == [] || (!IsSpace(s[0]) && !IsSpace(s[|s| - 1]))
  }

  predicate AllSpace(s: string)
  {
    forall i | 0 <= i < |s| :: IsSpace(s[i])
  }

  /** `s` with its leading white space removed. */
  function TrimLeft(s: string): (r: string)
    ensures |r| <= |s| && r == s[|s| - |r|..]
    ensures AllSpace(s[..|s| - |r|])
    ensures r == [] || !IsSpace(r[0])
    decreases |s|
  {
    if |s| > 0 && IsSpace(s[0]) then
      var r := TrimLeft(s[1..]);
      assert s[..|s| - |r|] == [s[0]] + s[1..][..|s| - 1 - |r|];
      r
    else s
  }

  /** `s` with its trailing white space removed. */
  function TrimRight(s: string): (r: string)
    ensures |r| <= |s| && r == s[..|r|]
    ensures AllSpace(s[|r|..])
    ensures r == [] || !IsSpace(r[|r| - 1])
    decreases |s|
  {
    if |s| > 0 && IsSpace(s[|s| - 1]) then
      var r := TrimRight(s[..|s| - 1]);
      assert s[|r|..] == s[..|s| - 1][|r|..] + [s[|s| - 1]];
      r
    else s
  }

  /** The length of the white space `s` starts with. */
  function LeadingSpace(s: string): (n: nat)
    ensures n <= |s| && AllSpace(s[..n])
  {
    |s| - |TrimLeft(s)|
  }

  /** `r` is `s` without its surrounding white space: the piece after the
      `i` leading white space characters, followed only by white space,
      and empty exactly when `s` is all white space. */
  predicate IsTrimmingOf(s: string, i: nat, r: string)
  {
    && IsTrimmed(r)
    && i + |r| <= |s|
    && AllSpace(s[..i])
    && r == s[i..i + |r|]
    && AllSpace(s[i + |r|..])
    && (r == [] <==> AllSpace(s))
  }

  /** `strings.TrimSpace(s)`. */
  function TrimSpace(s: string): string
  {
    TrimRight(TrimLeft(s))
  }

  /** `TrimSpace` removes exactly the surrounding white space. */
  lemma TrimSpaceTrims(s: string)
    ensures IsTrimmingOf(s, LeadingSpace(s), TrimSpace(s))
  {
    var l := TrimLeft(s);
    TrimmedSlice(s, |s| - |l|, l, TrimRight(l));
  }

  /** A trimmed slice holds no character its source lacks. */
  lemma TrimmingOmits(s: string, i: nat, r: string, c: char)
    requires IsTrimmingOf(s, i, r) && c !in s
    ensures c !in r
  {
    forall k | 0 <= k < |r| ensures r[k] != c {
      assert r[k] == s[i + k];
    }
  }

  /** Trimming the white space prefix `s[..i]` and then the white space
      suffix `l[|r|..]` leaves the slice `s[i..i + |r|]`. */
  lemma TrimmedSlice(s: string, i: nat, l: string, r: string)
    requires i <= |s| && l == s[i..] && AllSpace(s[..i]) && (l == [] || !IsSpace(l[0]))
    requires |r| <= |l| && r == l[..|r|] && AllSpace(l[|r|..]) && (r == [] || !IsSpace(r[|r| - 1]))
    ensures IsTrimmingOf(s, i, r)
  {
    assert l[|r|..] == s[i + |r|..];
    if r == [] {
      assert i == |s|;
      forall k | 0 <= k < |s| ensures IsSpace(s[k]) {
        assert s[k] == s[..i][k];
      }
    }
  }

  /** TrimSpace leaves text without surrounding white space alone. */
  lemma TrimSpaceOfTrimmed(s: string)
    requires IsTrimmed(s)
    ensures TrimSpace(s) == s
  {
  }

  /** `strings.HasSuffix(s, suffix)`. */
  predicate HasSuffix(s: string, suffix: string)
  {
    |suffix| <= |s| && s[|s| - |suffix|..] == suffix
  }

  /** `strings.TrimSuffix(s, suffix)`. */
  function TrimSuffix(s: string, suffix: string): (r: string)
    ensures HasSuffix(s, suffix) ==> r + suffix == s
    ensures !HasSuffix(s, suffix) ==> r == s
  {
    if HasSuffix(s, suffix) then
      var r := s[..|s| - |suffix|];
      assert r + suffix == s;
      r
    else s
  }

  /** `strings.Replace(s, string([c]), "", -1)`: every `c` removed, all other
      characters kept in order. */
  function RemoveAll(s: string, c: char): (r: string)
    ensures c !in r
    ensures |r| <= |s|
    ensures c !in s ==> r == s
  {
    if |s| == 0 then ""
    else
      var rest := RemoveAll(s[1..], c);
      if s[0] == c then rest else [s[0]] + rest
  }

  /** RemoveAll keeps every other character, each as often as it occurs. */
  lemma {:induction false} RemoveAllKeepsOthers(s: string, c: char)
    ensures multiset(RemoveAll(s, c)) == multiset(s)[c := 0]
    decreases |s|
  {
    if |s| > 0 {
      RemoveAllKeepsOthers(s[1..], c);
      assert s == [s[0]] + s[1..];
    }
  }

  predicate IsDigit(c: char)
  {
    '0' <= c <= '9'
  }

  function Digit(d: nat): (c: char)
    requires d < 10
    ensures IsDigit(c)
  {
    "0123456789"[d]
  }

  /** Decimal spelling of a natural number, without leading zeros. */
  function NatToString(n: nat): (r: string)
    ensures |r| >= 1
    ensures forall i | 0 <= i < |r| :: IsDigit(r[i])
    ensures r[0] == '0' ==> n == 0
  {
    if n < 10 then [Digit(n)] else NatToString(n / 10) + [Digit(n % 10)]
  }

  /** `strconv.Itoa(n)`. */
  function Itoa(n: int): (r: string)
    ensures |r| >= 1
    ensures forall i | 0 <= i < |r| :: IsDigit(r[i]) || (i == 0 && r[i] == '-')
    ensures (r[0] == '-') <==> n < 0
  {
    if n < 0 then "-" + NatToString(-n) else NatToString(n)
  }

  /** The value of a digit character. */
  function DigitValue(c: char): nat
    requires IsDigit(c)
  {
    c as int - '0' as int
  }

  lemma DigitValueOfDigit(d: nat)
    requires d < 10
    ensures DigitValue(Digit(d)) == d
  {
    var digits := "0123456789";
    assert digits[d] as int == '0' as int + d by {
      if d == 0 { assert digits[0] == '0'; }
      else if d == 1 { assert digits[1] == '1'; }
      else if d == 2 { assert digits[2] == '2'; }
      else if d == 3 { assert digits[3] == '3'; }
      else if d == 4 { assert digits[4] == '4'; }
      else if d == 5 { assert digits[5] == '5'; }
      else if d == 6 { assert digits[6] == '6'; }
      else if d == 7 { assert digits[7] == '7'; }
      else if d == 8 { assert digits[8] == '8'; }
      else { assert digits[9] == '9'; }
    }
  }

  /** The number a string of decimal digits spells. */
  function DecimalValue(s: string): nat
    requires forall i | 0 <= i < |s| :: IsDigit(s[i])
  {
    if |s| == 0 then 0 else DecimalValue(s[..|s| - 1]) * 10 + DigitValue(s[|s| - 1])
  }

  /** Reads back what `Itoa` writes: an optional leading `-`, then digits. */
  function DecimalToInt(s: string): int
    requires forall i | 0 <= i < |s| :: IsDigit(s[i]) || (i == 0 && s[i] == '-')
  {
    if |s| > 0 && s[0] == '-' then -(DecimalValue(s[1..]) as int) else DecimalValue(s)
  }

  lemma {:induction false} DecimalValueOfNatToString(n: nat)
    ensures DecimalValue(NatToString(n)) == n
  {
    DigitValueOfDigit(n % 10);
    if n >= 10 {
      var s := NatToString(n);
      assert s[..|s| - 1] == NatToString(n / 10);
      DecimalValueOfNatToString(n / 10);
    }
  }

  /** A string of digits reads back as its decimal value, and with a `-`
      in front as the negated value. */
  lemma DecimalToIntOfDigits(t: string)
    requires forall i | 0 <= i < |t| :: IsDigit(t[i])
    ensures DecimalToInt(t) == DecimalValue(t)
    ensures DecimalToInt("-" + t) == -(DecimalValue(t) as int)
  {
    assert ("-" + t)[1..] == t;
  }

  /** `Itoa` loses nothing: its text reads back as the number. */
  lemma ItoaRoundTrip(n: int)
    ensures DecimalToInt(Itoa(n)) == n
  {
    var m: nat := if n < 0 then -n else n;
    DecimalValueOfNatToString(m);
    DecimalToIntOfDigits(NatToString(m));
  }
}
