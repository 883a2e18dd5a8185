/** The parts of Go's strings and strconv packages the panel's printers and parsers rest on, over
    sequences of characters. */
module GoStrings {
  import opened Options

  // ---- decimal numbers -----------------------------------------------------------------------

  predicate IsDigit(c: char) { '0' <= c <= '9' }

  function DigitChar(d: nat): (c: char)
    requires d < 10
    ensures IsDigit(c) && DigitValue(c) == d
  {
    ['0', '1', '2', '3', '4', '5', '6', '7', '8', '9'][d]
  }

  function DigitValue(c: char): nat
    requires IsDigit(c)
  {
    c as int - '0' as int
  }

  predicate AllDigits(s: string) { forall i :: 0 <= i < |s| ==> IsDigit(s[i]) }

  /** strconv.Itoa on a non-negative number. */
  function Itoa(n: nat): (s: string)
    ensures s != [] && AllDigits(s)
  {
    if n < 10 then [DigitChar(n)] else Itoa(n / 10) + [DigitChar(n % 10)]
  }

  function DigitsValue(s: string): nat
    requires AllDigits(s)
  {
    if s == [] then 0 else 10 * DigitsValue(s[..|s| - 1]) + DigitValue(s[|s| - 1])
  }

  lemma {:induction false} ItoaValue(n: nat)
    ensures DigitsValue(Itoa(n)) == n
  {
    if n >= 10 {
      ItoaValue(n / 10);
      var s := Itoa(n);
      assert s[..|s| - 1] == Itoa(n / 10);
    }
  }

  lemma ItoaInjective(m: nat, n: nat)
    ensures Itoa(m) == Itoa(n) ==> m == n
  {
    ItoaValue(m);
    ItoaValue(n);
  }

  /** The %d verb. */
  function FormatInt(n: int): (s: string)
    ensures s != []
    ensures forall i :: 0 <= i < |s| ==> IsDigit(s[i]) || s[i] == '-'
  {
    if n < 0 then "-" + Itoa(-n) else Itoa(n)
  }

  lemma FormatIntInjective(m: int, n: int)
    ensures FormatInt(m) == FormatInt(n) ==> m == n
  {
    assert FormatInt(m)[0] == '-' <==> m < 0;
    assert FormatInt(n)[0] == '-' <==> n < 0;
    assert m < 0 ==> FormatInt(m)[1..] == Itoa(-m);
    assert n < 0 ==> FormatInt(n)[1..] == Itoa(-n);
    ItoaInjective(if m < 0 then -m else m, if n < 0 then -n else n);
  }

  const MAX_INT64 := 0x7fff_ffff_ffff_ffff

  /** strconv.ParseInt(s, 10, 64), which Atoi shares: an optional sign, at least one digit, in range. */
  function ParseInt(s: string): Option<int> {
    var negative := s != [] && s[0] == '-';
    var digits := if s != [] && (s[0] == '-' || s[0] == '+') then s[1..] else s;
    if digits == [] || !AllDigits(digits) then None
    else
      var v: int := DigitsValue(digits);
      var n: int := if negative then 0 - v else v;
      if -MAX_INT64 - 1 <= n <= MAX_INT64 then Some(n) else None
  }

  lemma ParseFormat(n: int)
    requires -MAX_INT64 - 1 <= n <= MAX_INT64
    ensures ParseInt(FormatInt(n)) == Some(n)
  {
    ItoaValue(if n < 0 then -n else n);
    if n < 0 {
      assert FormatInt(n)[1..] == Itoa(-n);
    } else {
      assert IsDigit(Itoa(n)[0]);
    }
  }

  // ---- searching and cutting -----------------------------------------------------------------

  predicate OccursAt(s: string, sub: string, i: int) { 0 <= i && i + |sub| <= |s| && s[i..i + |sub|] == sub }

  lemma OccursStarts(s: string, sub: string)
    requires sub != []
    ensures forall i :: OccursAt(s, sub, i) ==> s[i] == sub[0]
  {
    forall i | OccursAt(s, sub, i) ensures s[i] == sub[0] {
      assert s[i] == s[i..i + |sub|][0];
    }
  }

  /** strings.Index from position i: the first occurrence, or -1. */
  function IndexFrom(s: string, sub: string, i: nat): (r: int)
    requires i <= |s|
    ensures r == -1 || (i <= r && OccursAt(s, sub, r))
    ensures forall j {:trigger OccursAt(s, sub, j)} :: i <= j && (r == -1 || j < r) ==> !OccursAt(s, sub, j)
    decreases |s| - i
  {
    if OccursAt(s, sub, i) then i
    else if i == |s| then -1
    else IndexFrom(s, sub, i + 1)
  }

  function Index(s: string, sub: string): int { IndexFrom(s, sub, 0) }

  lemma IndexIs(s: string, sub: string, i: nat)
    requires OccursAt(s, sub, i) && forall j :: 0 <= j < i ==> !OccursAt(s, sub, j)
    ensures Index(s, sub) == i
  {
    var r := Index(s, sub);
    assert r != -1;
    assert OccursAt(s, sub, r);
  }

  lemma IndexAbsent(s: string, sub: string)
    requires sub != [] && sub[0] !in s
    ensures Index(s, sub) == -1
  {
    OccursStarts(s, sub);
    assert forall i :: 0 <= i < |s| ==> s[i] != sub[0];
  }

  datatype CutResult = CutResult(before: string, after: string, found: bool)

  /** strings.Cut. */
  function Cut(s: string, sep: string): CutResult {
    var i := Index(s, sep);
    if i < 0 then CutResult(s, [], false) else CutResult(s[..i], s[i + |sep|..], true)
  }

  /** Cutting "key<sep>rest" where the separator's first character is not in the key. */
  lemma CutAt(key: string, sep: string, rest: string)
    requires sep != [] && sep[0] !in key
    ensures Cut(key + sep + rest, sep) == CutResult(key, rest, true)
  {
    var s := key + sep + rest;
    assert OccursAt(s, sep, |key|);
    OccursStarts(s, sep);
    forall j | 0 <= j < |key| ensures !OccursAt(s, sep, j) {
      assert s[j] == key[j] && s[j] in key;
    }
    IndexIs(s, sep, |key|);
    assert s[..|key|] == key && s[|key| + |sep|..] == rest;
  }

  // ---- lines ---------------------------------------------------------------------------------

  /** strings.Split on a single character. */
  function Split(s: string, sep: char): (parts: seq<string>)
    ensures parts != [] && forall i :: 0 <= i < |parts| ==> sep !in parts[i]
  {
    if s == [] then [[]]
    else
      SplitCons(s[0], sep, Split(s[1..], sep))
  }

  function SplitCons(c: char, sep: char, rest: seq<string>): (parts: seq<string>)
    requires rest != [] && forall i :: 0 <= i < |rest| ==> sep !in rest[i]
    ensures parts != [] && forall i :: 0 <= i < |parts| ==> sep !in parts[i]
  {
    if c == sep then [[]] + rest else [[c] + rest[0]] + rest[1..]
  }

  lemma SplitConsAppend(c: char, sep: char, rest: seq<string>, tail: seq<string>)
    requires rest != [] && (forall i :: 0 <= i < |rest| ==> sep !in rest[i])
    requires forall i :: 0 <= i < |tail| ==> sep !in tail[i]
    ensures SplitCons(c, sep, rest + tail) == SplitCons(c, sep, rest) + tail
  {
  }

  lemma {:induction false} SplitWhole(s: string, sep: char)
    requires sep !in s
    ensures Split(s, sep) == [s]
  {
    if s != [] {
      SplitWhole(s[1..], sep);
      assert s == [s[0]] + s[1..];
    }
  }

  /** Splitting distributes over a separator. */
  lemma {:induction false} SplitAppend(a: string, b: string, sep: char)
    ensures Split(a + [sep] + b, sep) == Split(a, sep) + Split(b, sep)
  {
    var s := a + [sep] + b;
    if a == [] {
      assert s == [sep] + b && s[1..] == b;
    } else {
      assert s[0] == a[0] && s[1..] == a[1..] + [sep] + b;
      SplitAppend(a[1..], b, sep);
      SplitConsAppend(a[0], sep, Split(a[1..], sep), Split(b, sep));
    }
  }

  /** strings.Join with a one-character separator. */
  function Join(parts: seq<string>, sep: char): string {
    if parts == [] then "" else if |parts| == 1 then parts[0] else parts[0] + [sep] + Join(parts[1..], sep)
  }

  lemma {:induction false} SplitJoin(parts: seq<string>, sep: char)
    requires parts != [] && forall i :: 0 <= i < |parts| ==> sep !in parts[i]
    ensures Split(Join(parts, sep), sep) == parts
  {
    SplitWhole(parts[0], sep);
    if |parts| == 1 {
    } else {
      SplitJoin(parts[1..], sep);
      SplitAppend(parts[0], Join(parts[1..], sep), sep);
      assert parts == [parts[0]] + parts[1..];
    }
  }

  /** Every line followed by a newline, the way the builders write them. */
  function Unlines(lines: seq<string>): string {
    if lines == [] then [] else lines[0] + ['\n'] + Unlines(lines[1..])
  }

  lemma {:induction false} UnlinesAppend(a: seq<string>, b: seq<string>)
    ensures Unlines(a + b) == Unlines(a) + Unlines(b)
  {
    if a == [] {
      assert a + b == b;
    } else {
      UnlinesAppend(a[1..], b);
      assert (a + b)[1..] == a[1..] + b;
    }
  }

  predicate NoNewlines(lines: seq<string>) { forall i :: 0 <= i < |lines| ==> '\n' !in lines[i] }

  lemma {:induction false} SplitUnlines(lines: seq<string>)
    requires NoNewlines(lines)
    ensures Split(Unlines(lines), '\n') == lines + [[]]
  {
    if lines != [] {
      SplitUnlines(lines[1..]);
      SplitAppend(lines[0], Unlines(lines[1..]), '\n');
      SplitWhole(lines[0], '\n');
      assert Split(Unlines(lines), '\n') == [lines[0]] + (lines[1..] + [[]]);
      assert lines == [lines[0]] + lines[1..];
    }
  }

  lemma UnlinesInjective(a: seq<string>, b: seq<string>)
    requires NoNewlines(a) && NoNewlines(b)
    ensures Unlines(a) == Unlines(b) ==> a == b
  {
    if Unlines(a) == Unlines(b) {
      SplitUnlines(a);
      SplitUnlines(b);
      assert a == (a + [[]])[..|a|] && b == (b + [[]])[..|b|];
    }
  }

  // ---- white space ---------------------------------------------------------------------------

  /** unicode.IsSpace. */
  predicate IsSpace(c: char) {
    c == ' ' || '\t' <= c <= '\r' || c as int in {0x85, 0xA0, 0x1680, 0x2028, 0x2029, 0x202F, 0x205F, 0x3000}
    || 0x2000 <= c as int <= 0x200A
  }

  function TrimLeft(s: string): string {
    if s != [] && IsSpace(s[0]) then TrimLeft(s[1..]) else s
  }

  function TrimRight(s: string): string {
    if s != [] && IsSpace(s[|s| - 1]) then TrimRight(s[..|s| - 1]) else s
  }

  /** strings.TrimSpace. */
  function TrimSpace(s: string): string { TrimRight(TrimLeft(s)) }

  predicate Trimmed(s: string) { s == [] || (!IsSpace(s[0]) && !IsSpace(s[|s| - 1])) }

  lemma TrimTrimmed(s: string)
    requires Trimmed(s)
    ensures TrimSpace(s) == s
  {
  }

  lemma {:induction false} TrimLeftStarts(s: string)
    ensures TrimLeft(s) == [] || !IsSpace(TrimLeft(s)[0])
    ensures |TrimLeft(s)| <= |s| && TrimLeft(s) == s[|s| - |TrimLeft(s)|..]
  {
    if s != [] && IsSpace(s[0]) {
      TrimLeftStarts(s[1..]);
    }
  }

  lemma {:induction false} TrimRightEnds(s: string)
    ensures TrimRight(s) == [] || !IsSpace(TrimRight(s)[|TrimRight(s)| - 1])
    ensures |TrimRight(s)| <= |s| && TrimRight(s) == s[..|TrimRight(s)|]
  {
    if s != [] && IsSpace(s[|s| - 1]) {
      TrimRightEnds(s[..|s| - 1]);
    }
  }

  /** TrimSpace leaves a trimmed slice of its argument. */
  lemma TrimSpaceTrims(s: string)
    ensures Trimmed(TrimSpace(s))
    ensures forall c :: c in TrimSpace(s) ==> c in s
  {
    TrimLeftStarts(s);
    TrimRightEnds(TrimLeft(s));
  }
}
