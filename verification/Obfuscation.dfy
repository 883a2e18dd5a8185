/** AmneziaWG parameter generation against validation: ranges as text, the header and timing rules, and
    the generator driven by an arbitrary list of random draws. */
module Obfuscation {
  import opened Options
  import opened GoStrings
  import opened OwnedConfig

  // ---- ranges as text ------------------------------------------------------------------------

  datatype Range = Range(lo: int, hi: int)

  function Both(l: Option<int>, h: Option<int>): Option<Range> {
    if l.Some? && h.Some? then Some(Range(l.value, h.value)) else None
  }

  /** "N" or "low-high"; None when blank or not numeric. */
  function ParseUintRange(s: string): Option<Range> {
    var v := TrimSpace(s);
    var c := Cut(v, "-");
    if v == "" then None
    else if c.found then Both(ParseInt(TrimSpace(c.before)), ParseInt(TrimSpace(c.after)))
    else Both(ParseInt(v), ParseInt(v))
  }

  /** The %d-%d verb pair. */
  function PrintRange(r: Range): string { FormatInt(r.lo) + "-" + FormatInt(r.hi) }

  lemma DigitsTrimmed(s: string)
    requires AllDigits(s)
    ensures Trimmed(s) && TrimSpace(s) == s && "-"[0] !in s
  {
    TrimTrimmed(s);
  }

  lemma ParsePrintedNumber(n: int)
    requires 0 <= n <= MAX_INT64
    ensures ParseUintRange(FormatInt(n)) == Some(Range(n, n))
    ensures Plain(FormatInt(n)) && TrimSpace(FormatInt(n)) != ""
  {
    DigitsTrimmed(FormatInt(n));
    IndexAbsent(FormatInt(n), "-");
    ParseFormat(n);
  }

  lemma PrintedRangeTrimmed(lo: string, hi: string)
    requires lo != [] && hi != [] && AllDigits(lo) && AllDigits(hi)
    ensures TrimSpace(lo + "-" + hi) == lo + "-" + hi && Plain(lo + "-" + hi)
    ensures Cut(lo + "-" + hi, "-") == CutResult(lo, hi, true)
  {
    var v := lo + "-" + hi;
    DigitsTrimmed(lo);
    assert v[0] == lo[0] && v[|v| - 1] == hi[|hi| - 1];
    TrimTrimmed(v);
    CutAt(lo, "-", hi);
  }

  /** Printing a range and parsing it back gives it back. */
  lemma {:induction false} ParsePrinted(r: Range)
    requires 0 <= r.lo <= MAX_INT64 && 0 <= r.hi <= MAX_INT64
    ensures ParseUintRange(PrintRange(r)) == Some(r)
    ensures Plain(PrintRange(r)) && TrimSpace(PrintRange(r)) != ""
  {
    PrintedRangeTrimmed(FormatInt(r.lo), FormatInt(r.hi));
    DigitsTrimmed(FormatInt(r.lo));
    DigitsTrimmed(FormatInt(r.hi));
    ParseFormat(r.lo);
    ParseFormat(r.hi);
  }

  const HEADER_MAX := 4294967295
  const UINT32_MAX := 4294967295
  const UINT16_MAX := 65535

  function Blank(s: string): bool { TrimSpace(s) == "" }

  predicate ValidRange(v: string, least: int) {
    || Blank(v)
    || (Plain(v) && ParseUintRange(v).Some? && least <= ParseUintRange(v).value.lo <= ParseUintRange(v).value.hi <= HEADER_MAX)
  }

  lemma PrintedRangeIsValid(r: Range, least: int)
    requires 0 <= least <= r.lo <= r.hi <= HEADER_MAX
    ensures ValidRange(PrintRange(r), least) && ParseUintRange(PrintRange(r)) == Some(r) && PrintRange(r) != ""
  {
    ParsePrinted(r);
  }

  lemma PrintedNumberIsValid(n: int)
    requires 0 <= n <= HEADER_MAX
    ensures ValidRange(FormatInt(n), 0) && ParseUintRange(FormatInt(n)) == Some(Range(n, n))
  {
    ParsePrintedNumber(n);
  }

  // ---- signature packets ---------------------------------------------------------------------

  const CHAIN_TAGS: seq<string> := ["b", "t", "r", "rc", "rd", "d", "ds", "dz"]

  /** strings.Fields(s)[0], or "" when there is no field. */
  function FirstField(s: string): string { UpToSpace(TrimLeft(s)) }

  function UpToSpace(s: string): string {
    if s == [] || IsSpace(s[0]) then [] else [s[0]] + UpToSpace(s[1..])
  }

  function ChainFrom(s: string): bool
    decreases |s|
  {
    var start := Index(s, "<");
    if start == -1 then true
    else
      var end := Index(s[start..], ">");
      if end <= 0 then false
      else
        var field := FirstField(s[start + 1..start + end]);
        field in CHAIN_TAGS && ChainFrom(s[start + end + 1..])
  }

  predicate ValidChain(spec: string) { Blank(spec) || ChainFrom(spec) }

  /** The one shape the generator emits. */
  lemma RandomTagIsValid(n: nat)
    ensures ValidChain("<r " + Itoa(n) + ">")
  {
    var d := Itoa(n);
    var s := "<r " + d + ">";
    assert OccursAt(s, "<", 0);
    IndexIs(s, "<", 0);
    assert s[0..] == s;
    OccursStarts(s, ">");
    assert OccursAt(s, ">", |s| - 1);
    assert forall j :: 3 <= j < |s| - 1 ==> s[j] == d[j - 3] && IsDigit(s[j]);
    IndexIs(s, ">", |s| - 1);
    var inner := s[1..|s| - 1];
    assert inner == "r " + d;
    assert !IsSpace(inner[0]) && IsSpace(inner[1]);
    assert UpToSpace(inner[1..]) == [];
    assert FirstField(inner) == ['r'] + [] == "r";
    assert CHAIN_TAGS[2] == "r";
    assert s[|s|..] == [];
    assert Index("", "<") == -1;
  }

  // ---- validation ----------------------------------------------------------------------------

  /** The interval a header takes on the wire: a blank Hn is WireGuard's own message type n. */
  function HeaderInterval(h: string, n: int): Range {
    if ParseUintRange(h).Some? then ParseUintRange(h).value else Range(n, n)
  }

  function Headers(o: Obfuscation31): (hs: seq<string>)
    ensures |hs| == 4
  {
    [o.h1, o.h2, o.h3, o.h4]
  }

  predicate Meets(a: Range, b: Range) { a.lo <= b.hi && b.lo <= a.hi }

  function Intervals(hs: seq<string>): (rs: seq<Range>)
    requires |hs| == 4
    ensures |rs| == 4 && forall i :: 0 <= i < 4 ==> rs[i] == HeaderInterval(hs[i], i + 1)
  {
    [HeaderInterval(hs[0], 1), HeaderInterval(hs[1], 2), HeaderInterval(hs[2], 3), HeaderInterval(hs[3], 4)]
  }

  predicate Apart(rs: seq<Range>) { forall i, j :: 0 <= i < j < |rs| ==> !Meets(rs[i], rs[j]) }

  predicate NoOverlap(hs: seq<string>)
    requires |hs| == 4
  {
    Apart(Intervals(hs))
  }

  predicate ValidNumbers(o: Obfuscation31) {
    && o.jmin <= o.jmax
    && 0 <= o.jc <= UINT32_MAX && 0 <= o.jmin <= UINT32_MAX && 0 <= o.jmax <= UINT32_MAX
    && 0 <= o.s1 <= UINT16_MAX && 0 <= o.s2 <= UINT16_MAX && 0 <= o.s3 <= UINT16_MAX
    && 0 <= o.s4 <= 32 && o.s1 + 56 != o.s2
  }

  predicate ValidChains(o: Obfuscation31) {
    ValidChain(o.i1) && ValidChain(o.i2) && ValidChain(o.i3) && ValidChain(o.i4) && ValidChain(o.i5)
  }

  predicate ValidHeaders(o: Obfuscation31) {
    ValidRange(o.h1, 0) && ValidRange(o.h2, 0) && ValidRange(o.h3, 0) && ValidRange(o.h4, 0) && NoOverlap(Headers(o))
  }

  /** `decodes` says that a string is the base64 of 32 bytes. */
  predicate ValidProtection(o: Obfuscation31, decodes: string -> bool) {
    || o.headerProtectionKey == ""
    || (Plain(o.headerProtectionKey) && decodes(o.headerProtectionKey) && o.s1 >= 12 && o.s2 >= 12 && o.s3 >= 12 && o.s4 >= 12)
  }

  predicate ValidTimings(o: Obfuscation31) {
    && ValidRange(o.contentPaddingAddition, 0)
    && ValidRange(o.rekeyAfterTime, 1) && ValidRange(o.rekeyTimeout, 1) && ValidRange(o.rejectAfterTime, 1)
    && ValidRange(o.keepaliveTimeout, 1) && ValidRange(o.maxHandshakeAttempts, 1)
  }

  /** What parseUintRange leaves in its results when it fails. */
  function ParsedOrZero(v: string): Range { if ParseUintRange(v).Some? then ParseUintRange(v).value else Range(0, 0) }

  predicate ValidOrder(o: Obfuscation31) {
    var rekeyHi := if o.rekeyAfterTime != "" then ParsedOrZero(o.rekeyAfterTime).hi else 120;
    var rejectLo := if o.rejectAfterTime != "" then ParsedOrZero(o.rejectAfterTime).lo else 180;
    o.rekeyAfterTime != "" || o.rejectAfterTime != "" ==> rekeyHi < rejectLo
  }

  predicate Accepted(o: Obfuscation31, decodes: string -> bool) {
    ValidNumbers(o) && ValidChains(o) && ValidHeaders(o) && ValidProtection(o, decodes) && ValidTimings(o) && ValidOrder(o)
  }

  const MAX_SERVER_S1 := 1700 - 148
  const MAX_SERVER_S2 := 1700 - 92
  const MAX_SERVER_S3 := 1700 - 64

  predicate AcceptedByServer(o: Obfuscation31, decodes: string -> bool) {
    Accepted(o, decodes) && o.s1 <= MAX_SERVER_S1 && o.s2 <= MAX_SERVER_S2 && o.s3 <= MAX_SERVER_S3
  }

  // ---- what acceptance means -----------------------------------------------------------------

  predicate Inside(v: int, r: Range) { r.lo <= v <= r.hi }

  lemma HeaderIntervalNonEmpty(h: string, n: int)
    requires ValidRange(h, 0) && 1 <= n <= 4
    ensures 0 <= HeaderInterval(h, n).lo <= HeaderInterval(h, n).hi <= HEADER_MAX
  {
    assert Blank(h) ==> ParseUintRange(h).None?;
  }

  /** The text Render writes for a header denotes that interval. */
  lemma RenderedHeaderInterval(h: string, n: int)
    requires 1 <= n <= 4
    ensures HeaderInterval(HeaderOrDefault(h, n), n) == HeaderInterval(h, n)
  {
    TrimSpaceTrims(h);
    TrimTrimmed(TrimSpace(h));
    PrintedNumberIsValid(n);
  }

  /** Accepted headers are four non-empty intervals of message types no two of which share a value, and
      that is how the rendered config reads. */
  lemma HeadersAreDisjoint(o: Obfuscation31, decodes: string -> bool, i: nat, j: nat, v: int)
    requires Accepted(o, decodes) && i < j < 4
    ensures
      var a, b := HeaderInterval(HeaderOrDefault(Headers(o)[i], i + 1), i + 1), HeaderInterval(HeaderOrDefault(Headers(o)[j], j + 1), j + 1);
      0 <= a.lo <= a.hi <= HEADER_MAX && 0 <= b.lo <= b.hi <= HEADER_MAX && !(Inside(v, a) && Inside(v, b))
  {
    var hs := Headers(o);
    HeaderIntervalNonEmpty(hs[i], i + 1);
    HeaderIntervalNonEmpty(hs[j], j + 1);
    RenderedHeaderInterval(hs[i], i + 1);
    RenderedHeaderInterval(hs[j], j + 1);
    assert !Meets(Intervals(hs)[i], Intervals(hs)[j]);
  }

  /** The interval a timer really runs with: blank means WireGuard's own constant. */
  function Effective(v: string, default: int): Range {
    if ParseUintRange(v).Some? then ParseUintRange(v).value else Range(default, default)
  }

  /** Every possible rekey comes before every possible reject. */
  ghost predicate RenewsInTime(o: Obfuscation31) {
    forall k, j :: Inside(k, Effective(o.rekeyAfterTime, 120)) && Inside(j, Effective(o.rejectAfterTime, 180)) ==> k < j
  }

  /** A white-space value that the validator reads as zero and the renderer as "not set". */
  predicate SetButBlank(v: string) { v != "" && Blank(v) }

  /** Accepted parameters renew in time exactly unless RekeyAfterTime is white space and the earliest reject
      is not above the default rekey. */
  lemma AcceptedRenewsIff(o: Obfuscation31, decodes: string -> bool)
    requires Accepted(o, decodes)
    ensures RenewsInTime(o) <==> !(SetButBlank(o.rekeyAfterTime) && Effective(o.rejectAfterTime, 180).lo <= 120)
  {
    var rekey, reject := Effective(o.rekeyAfterTime, 120), Effective(o.rejectAfterTime, 180);
    assert Blank(o.rekeyAfterTime) ==> ParseUintRange(o.rekeyAfterTime).None?;
    assert Blank(o.rejectAfterTime) ==> ParseUintRange(o.rejectAfterTime).None?;
    assert rekey.lo <= rekey.hi && reject.lo <= reject.hi;
    assert RenewsInTime(o) <==> rekey.hi < reject.lo by {
      if RenewsInTime(o) {
        assert Inside(rekey.hi, rekey) && Inside(reject.lo, reject);
      }
    }
  }

  /** A white-space RejectAfterTime is never accepted: read as zero, it comes before any rekey. */
  lemma BlankRejectIsRefused(o: Obfuscation31, decodes: string -> bool)
    requires Accepted(o, decodes)
    ensures !SetButBlank(o.rejectAfterTime)
  {
    assert Blank(o.rejectAfterTime) ==> ParseUintRange(o.rejectAfterTime).None?;
    assert Blank(o.rekeyAfterTime) ==> ParseUintRange(o.rekeyAfterTime).None?;
  }

  lemma BlanksParseToNothing()
    ensures Blank("") && Blank(" ") && ParseUintRange("").None? && ParseUintRange(" ").None?
  {
    assert TrimLeft(" ") == TrimLeft("");
  }

  lemma BlankHeadersAreValid(o: Obfuscation31)
    requires Headers(o) == ["", "", "", ""]
    ensures ValidHeaders(o)
  {
    BlanksParseToNothing();
    var hs := Headers(o);
    assert hs[0] == o.h1 && hs[1] == o.h2 && hs[2] == o.h3 && hs[3] == o.h4;
    assert Intervals(hs) == [Range(1, 1), Range(2, 2), Range(3, 3), Range(4, 4)];
  }

  /** And such parameters are accepted, for every reject range that starts at 120 or below: with rekey " "
      the tunnel runs on a rekey of 120. */
  lemma BlankRekeySlipsThrough(r: Range, decodes: string -> bool) returns (o: Obfuscation31)
    requires 1 <= r.lo <= r.hi <= HEADER_MAX && r.lo <= 120
    ensures o.rejectAfterTime == PrintRange(r) && Accepted(o, decodes) && !RenewsInTime(o)
  {
    o := Obfuscation31(4, 40, 90, 15, 15, 15, 15, "", "", "", "", "", "", "", "", "", "", "", " ", "", PrintRange(r), "", "", false, false);
    PrintedRangeIsValid(r, 1);
    BlanksParseToNothing();
    BlankHeadersAreValid(o);
    AcceptedRenewsIff(o, decodes);
  }

  // ---- canonical ranges ----------------------------------------------------------------------

  /** strings.ReplaceAll(s, " ", ""). */
  function RemoveSpaces(s: string): string {
    if s == [] then [] else (if s[0] == ' ' then [] else [s[0]]) + RemoveSpaces(s[1..])
  }

  function CanonicalizeUintRange(v: string): string { RemoveSpaces(TrimSpace(v)) }

  lemma {:induction false} RemoveSpacesAppend(a: string, b: string)
    ensures RemoveSpaces(a + b) == RemoveSpaces(a) + RemoveSpaces(b)
  {
    if a == [] {
      assert a + b == b;
    } else {
      assert (a + b)[0] == a[0] && (a + b)[1..] == a[1..] + b;
      RemoveSpacesAppend(a[1..], b);
    }
  }

  lemma {:induction false} RemoveSpacesNone(s: string)
    requires ' ' !in s
    ensures RemoveSpaces(s) == s
  {
    if s != [] {
      assert s[0] in s && forall c :: c in s[1..] ==> c in s;
      RemoveSpacesNone(s[1..]);
    }
  }

  lemma {:induction false} RemoveSpacesKeeps(s: string)
    ensures ' ' !in RemoveSpaces(s) && forall c :: c in RemoveSpaces(s) ==> c in s
    ensures s != [] && s[0] != ' ' ==> RemoveSpaces(s) != [] && RemoveSpaces(s)[0] == s[0]
  {
    if s != [] {
      RemoveSpacesKeeps(s[1..]);
      assert forall c :: c in s <==> c == s[0] || c in s[1..];
    }
  }

  lemma {:induction false} TrimLeftCommutes(s: string)
    ensures TrimLeft(RemoveSpaces(s)) == RemoveSpaces(TrimLeft(s))
  {
    if s != [] {
      RemoveSpacesKeeps(s);
      if IsSpace(s[0]) {
        TrimLeftCommutes(s[1..]);
        assert s[0] != ' ' ==> RemoveSpaces(s)[1..] == RemoveSpaces(s[1..]);
        assert s[0] == ' ' ==> RemoveSpaces(s) == RemoveSpaces(s[1..]);
      }
    }
  }

  lemma {:induction false} TrimRightCommutes(s: string)
    ensures TrimRight(RemoveSpaces(s)) == RemoveSpaces(TrimRight(s))
  {
    if s != [] {
      var init, last := s[..|s| - 1], [s[|s| - 1]];
      assert s == init + last && last[1..] == [];
      RemoveSpacesAppend(init, last);
      var r := RemoveSpaces(s);
      if IsSpace(last[0]) {
        TrimRightCommutes(init);
        assert last[0] != ' ' ==> r[..|r| - 1] == RemoveSpaces(init);
        assert last[0] == ' ' ==> r == RemoveSpaces(init);
      }
    }
  }

  lemma TrimCommutes(s: string)
    ensures TrimSpace(RemoveSpaces(s)) == RemoveSpaces(TrimSpace(s))
  {
    TrimLeftCommutes(s);
    TrimRightCommutes(TrimLeft(s));
  }

  lemma NumbersHaveNoSpaces(s: string)
    requires ParseInt(s).Some?
    ensures ' ' !in s
  {
    assert forall i :: 0 <= i < |s| ==> IsDigit(s[i]) || s[i] == '-' || s[i] == '+' by {
      assert s == [s[0]] + s[1..];
    }
  }

  lemma CanonicalHalf(s: string)
    requires ParseInt(TrimSpace(s)).Some?
    ensures TrimSpace(RemoveSpaces(s)) == TrimSpace(s)
  {
    TrimCommutes(s);
    NumbersHaveNoSpaces(TrimSpace(s));
    RemoveSpacesNone(TrimSpace(s));
  }

  lemma CutParts(v: string)
    requires Cut(v, "-").found
    ensures v == Cut(v, "-").before + "-" + Cut(v, "-").after && '-' !in Cut(v, "-").before
  {
    var i := Index(v, "-");
    assert v[i..i + 1] == "-";
    forall j | 0 <= j < i ensures v[j] != '-' {
      assert v[j..j + 1] == [v[j]];
      assert !OccursAt(v, "-", j);
    }
  }

  /** Storing the canonical form changes no range that parses. */
  lemma CanonicalKeepsRange(s: string)
    requires ParseUintRange(s).Some?
    ensures ParseUintRange(CanonicalizeUintRange(s)) == ParseUintRange(s)
  {
    var v := TrimSpace(s);
    var c, w := Cut(v, "-"), RemoveSpaces(v);
    TrimSpaceTrims(s);
    TrimTrimmed(v);
    TrimCommutes(v);
    assert TrimSpace(w) == w;
    if c.found {
      CutParts(v);
      RemoveSpacesAppend(c.before + "-", c.after);
      RemoveSpacesAppend(c.before, "-");
      RemoveSpacesKeeps(c.before);
      assert RemoveSpaces("-") == "-" by { assert "-"[1..] == []; }
      CutAt(RemoveSpaces(c.before), "-", RemoveSpaces(c.after));
      CanonicalHalf(c.before);
      CanonicalHalf(c.after);
    } else {
      NumbersHaveNoSpaces(v);
      RemoveSpacesNone(v);
    }
  }

  lemma CanonicalIsUnsetOrReal(v: string)
    ensures !SetButBlank(CanonicalizeUintRange(v))
  {
    var t := TrimSpace(v);
    TrimSpaceTrims(v);
    TrimTrimmed(t);
    TrimCommutes(t);
    RemoveSpacesKeeps(t);
  }

  /** So canonicalising before validating closes the gap: what is then accepted renews in time. */
  lemma CanonicalAcceptedRenews(o: Obfuscation31, raw: string, decodes: string -> bool)
    requires Accepted(o, decodes) && o.rekeyAfterTime == CanonicalizeUintRange(raw)
    ensures RenewsInTime(o)
  {
    CanonicalIsUnsetOrReal(raw);
    AcceptedRenewsIff(o, decodes);
  }

  // ---- the generator -------------------------------------------------------------------------

  /** randInt on the i-th draw: the minimum when the range is empty or the source is exhausted. */
  function RandInt(draws: seq<nat>, i: nat, least: int, most: int): (r: int)
    ensures least <= r && (least <= most ==> r <= most)
  {
    if most <= least || i >= |draws| then least else least + draws[i] % (most - least + 1)
  }

  const GENERATED_HEADER_MAX := 2147483647

  function Band(i: nat): Range {
    var size := (GENERATED_HEADER_MAX - 5 + 1) / 4;
    Range(5 + i * size, 5 + i * size + size - 1)
  }

  /** A drawn low end and a drawn width. */
  function TwoEnds(draws: seq<nat>, i: nat, loMin: int, loMax: int, widthMin: int, widthMax: int): (r: Range)
    requires loMin <= loMax && 0 <= widthMin <= widthMax
    ensures loMin <= r.lo <= loMax && r.lo + widthMin <= r.hi <= r.lo + widthMax
  {
    var lo := RandInt(draws, i, loMin, loMax);
    Range(lo, lo + RandInt(draws, i + 1, widthMin, widthMax))
  }

  datatype Windows = Windows(padding: Range, rekey: Range, reject: Range, timeout: Range, keepalive: Range, attempts: Range)

  predicate Proper(r: Range) { 1 <= r.lo <= r.hi <= HEADER_MAX }

  predicate ProperWindows(w: Windows) {
    && Proper(w.padding) && Proper(w.rekey) && Proper(w.reject) && Proper(w.timeout) && Proper(w.keepalive) && Proper(w.attempts)
    && w.rekey.hi < w.reject.lo
  }

  function DrawWindows(draws: seq<nat>, at: nat): (w: Windows)
    ensures ProperWindows(w)
  {
    var padding, rekey := TwoEnds(draws, at, 8, 24, 8, 40), TwoEnds(draws, at + 2, 100, 120, 10, 40);
    var reject := TwoEnds(draws, at + 4, rekey.hi + 30, rekey.hi + 60, 30, 90);
    Windows(padding, rekey, reject, TwoEnds(draws, at + 6, 3, 6, 1, 4), TwoEnds(draws, at + 8, 8, 12, 2, 8),
            TwoEnds(draws, at + 10, 15, 25, 5, 25))
  }

  lemma PrintedWindowsAreValid(o: Obfuscation31, w: Windows)
    requires o.contentPaddingAddition == PrintRange(w.padding) && o.rekeyAfterTime == PrintRange(w.rekey)
    requires o.rejectAfterTime == PrintRange(w.reject) && o.rekeyTimeout == PrintRange(w.timeout)
    requires o.keepaliveTimeout == PrintRange(w.keepalive) && o.maxHandshakeAttempts == PrintRange(w.attempts)
    requires ProperWindows(w)
    ensures ValidTimings(o) && ValidOrder(o) && !Blank(o.rekeyAfterTime)
  {
    PrintedRangeIsValid(w.padding, 0);
    PrintedRangeIsValid(w.rekey, 1);
    PrintedRangeIsValid(w.reject, 1);
    PrintedRangeIsValid(w.timeout, 1);
    PrintedRangeIsValid(w.keepalive, 1);
    PrintedRangeIsValid(w.attempts, 1);
    ParsePrinted(w.rekey);
  }

  lemma BandsAreApart(ns: seq<int>)
    requires |ns| == 4 && forall k :: 0 <= k < 4 ==> Inside(ns[k], Band(k))
    ensures Apart([Range(ns[0], ns[0]), Range(ns[1], ns[1]), Range(ns[2], ns[2]), Range(ns[3], ns[3])])
    ensures forall k :: 0 <= k < 4 ==> 5 <= ns[k] <= HEADER_MAX
  {
  }

  lemma PrintedInterval(v: int, n: int)
    requires 0 <= v <= HEADER_MAX
    ensures HeaderInterval(FormatInt(v), n) == Range(v, v)
  {
    PrintedNumberIsValid(v);
  }

  lemma PrintedBandsAreApart(hs: seq<string>, ns: seq<int>)
    requires |hs| == |ns| == 4 && forall k :: 0 <= k < 4 ==> hs[k] == FormatInt(ns[k]) && Inside(ns[k], Band(k))
    ensures NoOverlap(hs)
  {
    BandsAreApart(ns);
    PrintedInterval(ns[0], 1);
    PrintedInterval(ns[1], 2);
    PrintedInterval(ns[2], 3);
    PrintedInterval(ns[3], 4);
  }

  /** One value per band: four distinct headers clear of the vanilla types 1 to 4. */
  method GenerateHValues(draws: seq<nat>, at: nat) returns (hs: seq<string>)
    ensures |hs| == 4 && NoOverlap(hs) && forall k :: 0 <= k < 4 ==> ValidRange(hs[k], 0)
    ensures forall k :: 0 <= k < 4 ==> exists n :: n >= 5 && hs[k] == FormatInt(n)
  {
    hs := [];
    ghost var ns: seq<int> := [];
    for i := 0 to 4
      invariant |hs| == |ns| == i
      invariant forall k :: 0 <= k < i ==> hs[k] == FormatInt(ns[k]) && Inside(ns[k], Band(k))
    {
      var n := RandInt(draws, at + i, Band(i).lo, Band(i).hi);
      hs, ns := hs + [FormatInt(n)], ns + [n];
    }
    PrintedBandsAreApart(hs, ns);
    BandsAreApart(ns);
    forall k | 0 <= k < 4 ensures ValidRange(hs[k], 0) {
      PrintedNumberIsValid(ns[k]);
    }
  }

  datatype Sizes = Sizes(jc: int, jmin: int, jmax: int, s1: int, s2: int, s3: int, s4: int)

  predicate ProperSizes(z: Sizes) {
    && 0 <= z.jc <= 6 && 0 <= z.jmin <= z.jmax <= 400
    && 12 <= z.s1 <= 150 && 12 <= z.s2 <= 150 && z.s1 + 56 != z.s2 && 12 <= z.s3 <= 55 && 12 <= z.s4 <= 32
  }

  /** S1, and S2 drawn again while the two handshake packets would end up the same size. */
  method DrawSizes(draws: seq<nat>, start: nat) returns (s1: int, s2: int, at: nat)
    ensures 15 <= s1 <= 150 && 15 <= s2 <= 150 && s1 + 56 != s2
  {
    s1, s2 := RandInt(draws, start, 15, 150), RandInt(draws, start + 1, 15, 150);
    at := start + 2;
    while s1 + 56 == s2
      invariant 15 <= s1 <= 150 && 15 <= s2 <= 150 && (at > |draws| + start + 2 ==> s2 == 15)
      decreases |draws| + start + 3 - at
    {
      s2 := RandInt(draws, at, 15, 150);
      at := at + 1;
    }
  }

  method DrawNumbers(draws: seq<nat>) returns (z: Sizes, at: nat)
    ensures ProperSizes(z)
  {
    var jc, jmin := RandInt(draws, 0, 3, 6), RandInt(draws, 1, 40, 89);
    var jmax := jmin + RandInt(draws, 2, 50, 250);
    var s1, s2, next := DrawSizes(draws, 3);
    z := Sizes(jc, jmin, jmax, s1, s2, RandInt(draws, next, 12, 55), RandInt(draws, next + 1, 12, 27));
    at := next + 2;
  }

  /** validateHNoOverlap's nested loops. */
  method CheckNoOverlap(hs: seq<string>) returns (ok: bool)
    requires |hs| == 4
    ensures ok == NoOverlap(hs)
  {
    var lo, hi := new int[4], new int[4];
    ghost var rs := Intervals(hs);
    for i := 0 to 4
      invariant forall k :: 0 <= k < i ==> Range(lo[k], hi[k]) == rs[k]
    {
      var r := HeaderInterval(hs[i], i + 1);
      lo[i], hi[i] := r.lo, r.hi;
    }
    for i := 0 to 4
      invariant forall k, j :: 0 <= k < i && k < j < 4 ==> !Meets(rs[k], rs[j])
    {
      for j := i + 1 to 4
        invariant forall l :: i < l < j ==> !Meets(rs[i], rs[l])
      {
        if lo[i] <= hi[j] && lo[j] <= hi[i] {
          assert Meets(rs[i], rs[j]);
          return false;
        }
      }
    }
    ok := true;
  }

  /** The struct the generator fills in. */
  function Build(z: Sizes, hs: seq<string>, n: nat, w: Windows, key: string): Obfuscation31
    requires |hs| == 4
  {
    Obfuscation31(z.jc, z.jmin, z.jmax, z.s1, z.s2, z.s3, z.s4, hs[0], hs[1], hs[2], hs[3], "<r " + Itoa(n) + ">", "", "", "", "",
      key, PrintRange(w.padding), PrintRange(w.rekey), PrintRange(w.timeout), PrintRange(w.reject), PrintRange(w.keepalive),
      PrintRange(w.attempts), true, true)
  }

  lemma BuiltIsAccepted(z: Sizes, hs: seq<string>, n: nat, w: Windows, key: string, decodes: string -> bool)
    requires ProperSizes(z) && ProperWindows(w) && (key == "" || (Plain(key) && decodes(key)))
    requires |hs| == 4 && NoOverlap(hs) && forall k :: 0 <= k < 4 ==> ValidRange(hs[k], 0)
    ensures AcceptedByServer(Build(z, hs, n, w, key), decodes) && RenewsInTime(Build(z, hs, n, w, key))
  {
    var o := Build(z, hs, n, w, key);
    RandomTagIsValid(n);
    PrintedWindowsAreValid(o, w);
    BlanksParseToNothing();
    assert Headers(o) == hs && ValidHeaders(o);
    assert ValidChains(o) && ValidNumbers(o);
    AcceptedRenewsIff(o, decodes);
  }

  /** Whatever is drawn, the server accepts it and it renews in time. */
  method GenerateObfuscation31(draws: seq<nat>, key: string, decodes: string -> bool) returns (o: Obfuscation31)
    requires key == "" || (Plain(key) && decodes(key))
    ensures AcceptedByServer(o, decodes)
    ensures RenewsInTime(o) && o.headerProtectionKey == key
  {
    var z, at := DrawNumbers(draws);
    var hs := GenerateHValues(draws, at);
    var n := RandInt(draws, at + 4, 32, 256);
    var w := DrawWindows(draws, at + 5);
    BuiltIsAccepted(z, hs, n, w, key, decodes);
    o := Build(z, hs, n, w, key);
  }
}
