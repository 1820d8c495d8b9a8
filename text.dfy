// String helpers shared by the model: Python's `str.strip`, `str.split`,
// `str.lower`/`upper` (ASCII letters only), `int()` on decimal text and
// `str()` on integers, JavaScript's `trim` and `split`.
module Text {
  import opened Wrappers

  /** The whitespace that `str.strip()` and `String.prototype.trim` remove (ASCII part). */
  predicate IsSpace(c: char)
  {
    c == ' ' || c == '\t' || c == '\n' || c == '\r' || c == '\U{B}' || c == '\U{C}'
  }

  predicate StartsWith(s: string, prefix: string)
  {
    prefix <= s
  }

  predicate EndsWith(s: string, suffix: string)
  {
    |suffix| <= |s| && s[|s| - |suffix|..] == suffix
  }

  /** `t` occurs in `s` starting at position `k`. */
  predicate OccursAt(s: string, t: string, k: nat)
  {
    k + |t| <= |s| && s[k..k + |t|] == t
  }

  /** `t in s` on strings: `t` occurs in `s` as a contiguous piece. */
  predicate Contains(s: string, t: string)
  {
    exists k: nat :: k <= |s| && OccursAt(s, t, k)
  }

  function TrimStart(s: string): string
  {
    if |s| > 0 && IsSpace(s[0]) then TrimStart(s[1..]) else s
  }

  /** `TrimStart` removes leading whitespace and nothing else. */
  lemma TrimStartRemovesSpace(s: string)
    ensures var r := TrimStart(s); |r| <= |s| && r == s[|s| - |r|..]
    ensures var r := TrimStart(s); |r| > 0 ==> !IsSpace(r[0])
    ensures var r := TrimStart(s); forall i :: 0 <= i < |s| - |r| ==> IsSpace(s[i])
  {
  }

  function TrimEnd(s: string): string
  {
    if |s| > 0 && IsSpace(s[|s| - 1]) then TrimEnd(s[..|s| - 1]) else s
  }

  /** `TrimEnd` removes trailing whitespace and nothing else. */
  lemma TrimEndRemovesSpace(s: string)
    ensures var r := TrimEnd(s); |r| <= |s| && r == s[..|r|]
    ensures var r := TrimEnd(s); |r| > 0 ==> !IsSpace(r[|r| - 1])
    ensures var r := TrimEnd(s); forall i :: |r| <= i < |s| ==> IsSpace(s[i])
  {
  }

  /**
   * Python's `str.strip()` with no argument: the result has no whitespace at
   * either end, and a string without whitespace at its ends is kept as it is.
   */
  function Strip(s: string): (r: string)
    ensures |r| <= |s|
    ensures |r| > 0 ==> !IsSpace(r[0]) && !IsSpace(r[|r| - 1])
    ensures (|s| == 0 || (!IsSpace(s[0]) && !IsSpace(s[|s| - 1]))) ==> r == s
  {
    TrimStartRemovesSpace(s);
    TrimEndRemovesSpace(TrimStart(s));
    TrimEnd(TrimStart(s))
  }

  /** The first position of `c` in `s`. */
  function IndexOf(s: string, c: char): (r: Option<nat>)
    ensures r.None? <==> c !in s
    ensures r.Some? ==> r.value < |s| && s[r.value] == c
    ensures r.Some? ==> forall k :: 0 <= k < r.value ==> s[k] != c
  {
    if |s| == 0 then None
    else if s[0] == c then Some(0)
    else
      match IndexOf(s[1..], c)
      case None => None
      case Some(i) => Some(i + 1)
  }

  /** `s.split(sep)` for a one-character separator (Python and JavaScript agree). */
  function Split(s: string, sep: char): (parts: seq<string>)
    ensures |parts| >= 1
    decreases |s|
  {
    match IndexOf(s, sep)
    case None => [s]
    case Some(i) => [s[..i]] + Split(s[i + 1..], sep)
  }

  /** `sep.join(parts)`. */
  function Join(parts: seq<string>, sep: string): string
  {
    if |parts| == 0 then ""
    else if |parts| == 1 then parts[0]
    else parts[0] + sep + Join(parts[1..], sep)
  }

  lemma {:induction false} JoinSplit(s: string, sep: char)
    ensures Join(Split(s, sep), [sep]) == s
    decreases |s|
  {
    match IndexOf(s, sep)
    case None =>
    case Some(i) =>
      var rest := Split(s[i + 1..], sep);
      JoinSplit(s[i + 1..], sep);
      var parts := [s[..i]] + rest;
      assert parts[1..] == rest;
      assert Join(parts, [sep]) == s[..i] + [sep] + Join(rest, [sep]);
      assert s == s[..i] + [sep] + s[i + 1..];
  }

  /** `parts[-1]`. */
  function Last(parts: seq<string>): string
    requires |parts| > 0
  {
    parts[|parts| - 1]
  }

  /** `s.split(c)[-1]`: the text after the last `c`, or all of `s` (see `AfterLastIsLastPart`). */
  function AfterLast(s: string, c: char): (r: string)
    ensures c !in r
    decreases |s|
  {
    match IndexOf(s, c)
    case None => s
    case Some(i) => AfterLast(s[i + 1..], c)
  }

  lemma {:induction false} AfterLastIsLastPart(s: string, c: char)
    ensures AfterLast(s, c) == Last(Split(s, c))
    decreases |s|
  {
    if IndexOf(s, c).Some? {
      var i := IndexOf(s, c).value;
      AfterLastIsLastPart(s[i + 1..], c);
      SplitDropsFirstPart(s, c, i);
    }
  }

  /** Past the first separator, `split` keeps its last part. */
  lemma SplitDropsFirstPart(s: string, c: char, i: nat)
    requires IndexOf(s, c) == Some(i)
    ensures Last(Split(s, c)) == Last(Split(s[i + 1..], c))
  {
    var tail := Split(s[i + 1..], c);
    var parts := Split(s, c);
    assert parts == [s[..i]] + tail;
    assert parts[|parts| - 1] == tail[|tail| - 1];
  }

  lemma {:induction false} AfterLastAppend(a: string, c: char, b: string)
    requires c !in b
    ensures AfterLast(a + [c] + b, c) == b
    decreases |a|
  {
    var s := a + [c] + b;
    assert s[|a|] == c;
    var i := IndexOf(s, c).value;
    if i == |a| {
      assert s[i + 1..] == b;
    } else {
      assert s[i + 1..] == a[i + 1..] + [c] + b;
      AfterLastAppend(a[i + 1..], c, b);
    }
  }

  /** The first position where `sep` occurs in `s`. */
  function FindStr(s: string, sep: string): (r: Option<nat>)
    requires |sep| > 0
    ensures r.Some? ==> OccursAt(s, sep, r.value)
    ensures r.Some? ==> forall k: nat :: k < r.value ==> !OccursAt(s, sep, k)
    ensures r.None? ==> forall k: nat :: k <= |s| ==> !OccursAt(s, sep, k)
    decreases |s|
  {
    if |s| < |sep| then None
    else if s[..|sep|] == sep then Some(0)
    else
      ShiftOccurs(s, sep);
      match FindStr(s[1..], sep)
      case None => None
      case Some(i) => Some(i + 1)
  }

  lemma ShiftOccurs(s: string, sep: string)
    requires |s| > 0
    ensures forall k: nat :: 1 <= k ==> (OccursAt(s, sep, k) <==> OccursAt(s[1..], sep, k - 1))
  {
    forall k: nat | 1 <= k
      ensures OccursAt(s, sep, k) <==> OccursAt(s[1..], sep, k - 1)
    {
      if k + |sep| <= |s| {
        var a := s[k..k + |sep|];
        var b := s[1..][k - 1..k - 1 + |sep|];
        assert |a| == |b|;
        forall j | 0 <= j < |a| ensures a[j] == b[j] {
          assert a[j] == s[k + j] && b[j] == s[1..][k - 1 + j];
        }
        assert a == b;
      }
    }
  }

  /** `s.split(sep)` for a separator of any positive length (non-overlapping, left to right). */
  function SplitStr(s: string, sep: string): (parts: seq<string>)
    requires |sep| > 0
    ensures |parts| >= 1
    decreases |s|
  {
    match FindStr(s, sep)
    case None => [s]
    case Some(i) => [s[..i]] + SplitStr(s[i + |sep|..], sep)
  }

  lemma {:induction false} NoOccurrenceWithoutHead(s: string, sep: string)
    requires |sep| > 0 && sep[0] !in s
    ensures forall k: nat :: !OccursAt(s, sep, k)
  {
    forall k: nat | k + |sep| <= |s|
      ensures !OccursAt(s, sep, k)
    {
      assert s[k..k + |sep|][0] == s[k];
    }
  }

  lemma {:induction false} SplitStrNoSep(s: string, sep: string)
    requires |sep| > 0 && sep[0] !in s
    ensures SplitStr(s, sep) == [s]
  {
    NoOccurrenceWithoutHead(s, sep);
  }

  lemma {:induction false} SplitStrAround(a: string, sep: string, b: string)
    requires |sep| > 0 && sep[0] !in a && sep[0] !in b
    ensures SplitStr(a + sep + b, sep) == [a, b]
  {
    var s := a + sep + b;
    assert s[|a|..|a| + |sep|] == sep;
    assert OccursAt(s, sep, |a|);
    forall k: nat | k < |a|
      ensures !OccursAt(s, sep, k)
    {
      assert s[k] == a[k];
      if k + |sep| <= |s| {
        assert s[k..k + |sep|][0] == s[k];
      }
    }
    assert FindStr(s, sep) == Some(|a|);
    assert s[..|a|] == a;
    assert s[|a| + |sep|..] == b;
    SplitStrNoSep(b, sep);
  }

  function LowerChar(c: char): (r: char)
    ensures !('A' <= r <= 'Z')
  {
    if 'A' <= c <= 'Z' then (c as int + 32) as char else c
  }

  function UpperChar(c: char): (r: char)
    ensures !('a' <= r <= 'z')
  {
    if 'a' <= c <= 'z' then (c as int - 32) as char else c
  }

  /** `s.lower()`, for ASCII letters. */
  function Lower(s: string): (r: string)
    ensures |r| == |s|
    ensures forall i :: 0 <= i < |s| ==> r[i] == LowerChar(s[i])
  {
    if |s| == 0 then "" else [LowerChar(s[0])] + Lower(s[1..])
  }

  /** `s.upper()`, for ASCII letters. */
  function Upper(s: string): (r: string)
    ensures |r| == |s|
    ensures forall i :: 0 <= i < |s| ==> r[i] == UpperChar(s[i])
  {
    if |s| == 0 then "" else [UpperChar(s[0])] + Upper(s[1..])
  }

  /** Lower-casing forgets an earlier upper-casing: `s.upper().lower() == s.lower()`. */
  lemma LowerOfUpper(s: string)
    ensures Lower(Upper(s)) == Lower(s)
  {
    forall i | 0 <= i < |s|
      ensures Lower(Upper(s))[i] == Lower(s)[i]
    {
      assert Upper(s)[i] == UpperChar(s[i]);
    }
  }

  predicate IsDigit(c: char)
  {
    '0' <= c <= '9'
  }

  function DigitChar(d: nat): (c: char)
    requires d < 10
    ensures IsDigit(c) && c as int - '0' as int == d
  {
    ('0' as int + d) as char
  }

  /** `str(n)` for a non-negative integer. */
  function NatToString(n: nat): (s: string)
    ensures |s| > 0
    ensures forall i :: 0 <= i < |s| ==> IsDigit(s[i])
  {
    if n < 10 then [DigitChar(n)] else NatToString(n / 10) + [DigitChar(n % 10)]
  }

  /** `str(n)`. */
  function IntToString(n: int): (s: string)
    ensures |s| > 0
    ensures forall i :: 0 <= i < |s| ==> !IsSpace(s[i])
  {
    if n < 0 then "-" + NatToString(-n) else NatToString(n)
  }

  /** The value of a run of decimal digits. */
  function DigitsValue(s: string): nat
    requires forall i :: 0 <= i < |s| ==> IsDigit(s[i])
  {
    if |s| == 0 then 0
    else
      assert IsDigit(s[|s| - 1]);
      DigitsValue(s[..|s| - 1]) * 10 + (s[|s| - 1] as int - '0' as int)
  }

  /** Digits with single underscores between them, as `int()` accepts them ("1_000"). */
  predicate Grouped(s: string)
  {
    && |s| > 0 && IsDigit(s[0]) && IsDigit(s[|s| - 1])
    && (forall i :: 0 <= i < |s| ==> IsDigit(s[i]) || s[i] == '_')
    && (forall i :: 0 <= i < |s| - 1 ==> s[i] == '_' ==> s[i + 1] != '_')
  }

  /** The digits of a grouped numeral, underscores taken out. */
  function DropUnderscores(s: string): (r: string)
    requires forall i :: 0 <= i < |s| ==> IsDigit(s[i]) || s[i] == '_'
    ensures forall i :: 0 <= i < |r| ==> IsDigit(r[i])
    ensures (forall i :: 0 <= i < |s| ==> IsDigit(s[i])) ==> r == s
  {
    if |s| == 0 then ""
    else (if s[0] == '_' then "" else [s[0]]) + DropUnderscores(s[1..])
  }

  /** `int()` on unsigned text: a grouped numeral, read without its underscores. */
  function ParseDigits(s: string): (r: Option<nat>)
    ensures r.Some? <==> Grouped(s)
    ensures |s| > 0 && (forall i :: 0 <= i < |s| ==> IsDigit(s[i])) ==> r == Some(DigitsValue(s))
  {
    if Grouped(s) then Some(DigitsValue(DropUnderscores(s))) else None
  }

  /**
   * Python's `int(s)` for base-10 text: surrounding whitespace, an optional
   * sign, then digits, with single underscores allowed between digits;
   * `None` for any other text. Only ASCII digits and the ASCII whitespace of
   * `Strip` are recognised, so text that Python reads with other Unicode
   * digits or spaces is `None` here too.
   */
  function ParseInt(s: string): (r: Option<int>)
    ensures |Strip(s)| == 0 ==> r.None?
  {
    var t := Strip(s);
    if |t| > 0 && (t[0] == '-' || t[0] == '+') then
      match ParseDigits(t[1..])
      case None => None
      case Some(d) => Some(if t[0] == '-' then -(d as int) else d as int)
    else
      match ParseDigits(t)
      case None => None
      case Some(d) => Some(d as int)
  }

  /** Underscores group digits: "1_0" is ten. */
  lemma GroupedTen()
    ensures ParseInt("1_0") == Some(10)
  {
    var t := "1_0";
    assert Strip(t) == t;
    assert Grouped(t);
    assert t[1..] == "_0" && "_0"[1..] == "0" && "0"[1..] == "";
    assert DropUnderscores(t) == "10";
    assert "10"[..1] == "1" && "1"[..0] == "";
    assert DigitsValue("10") == 10;
  }

  /** A sign goes before the grouped digits: "-2_5" is minus twenty-five. */
  lemma GroupedNegative()
    ensures ParseInt("-2_5") == Some(-25)
  {
    var t := "-2_5";
    assert Strip(t) == t;
    var d := t[1..];
    assert d == "2_5" && Grouped(d);
    assert d[1..] == "_5" && "_5"[1..] == "5" && "5"[1..] == "";
    assert DropUnderscores(d) == "25";
    assert "25"[..1] == "2" && "2"[..0] == "";
    assert DigitsValue("25") == 25;
  }

  /** A leading, trailing or doubled underscore is refused. */
  lemma BadGroupingsRefused()
    ensures ParseInt("_1").None? && ParseInt("1__0").None? && ParseInt("1_").None?
  {
    assert Strip("_1") == "_1" && !Grouped("_1");
    assert "1__0"[1] == '_' && "1__0"[2] == '_';
    assert Strip("1__0") == "1__0" && !Grouped("1__0");
    assert Strip("1_") == "1_" && !Grouped("1_");
  }

  lemma {:induction false} DigitsValueOfNatToString(n: nat)
    ensures DigitsValue(NatToString(n)) == n
  {
    if n >= 10 {
      var s := NatToString(n / 10) + [DigitChar(n % 10)];
      assert s[..|s| - 1] == NatToString(n / 10);
      DigitsValueOfNatToString(n / 10);
    }
  }

  /** `int(str(n)) == n`. */
  lemma {:induction false} ParseIntOfIntToString(n: int)
    ensures ParseInt(IntToString(n)) == Some(n)
  {
    var s := IntToString(n);
    assert Strip(s) == s;
    if n < 0 {
      var d := NatToString(-n);
      assert s[1..] == d;
      assert ParseDigits(d) == Some(DigitsValue(d));
      DigitsValueOfNatToString(-n);
    } else {
      var d := NatToString(n);
      assert s == d && IsDigit(s[0]);
      assert ParseDigits(d) == Some(DigitsValue(d));
      DigitsValueOfNatToString(n);
    }
  }
}
