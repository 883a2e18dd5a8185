/** Port-forward specs: the free-form field, the ports it covers, and the capped expansion that stops in
    the middle of a range. */
module ForwardedPorts {
  import opened Options
  import opened GoStrings

  datatype PortSpec = PortSpec(start: int, end: int)

  function ParsePortNumber(s: string): Option<int> {
    var n := ParseInt(s);
    if n.Some? && 1 <= n.value <= 65535 then n else None
  }

  function ParsePortToken(tok: string): Option<PortSpec> {
    var c := Cut(tok, "-");
    if c.found then
      var start, end := ParsePortNumber(TrimSpace(c.before)), ParsePortNumber(TrimSpace(c.after));
      if start.None? || end.None? || start.value > end.value then None else Some(PortSpec(start.value, end.value))
    else
      var p := ParsePortNumber(tok);
      if p.None? then None else Some(PortSpec(p.value, p.value))
  }

  function Commas(s: string): string {
    if s == [] then [] else [if s[0] == ';' then ',' else s[0]] + Commas(s[1..])
  }

  /** One token's spec; what is blank or malformed is dropped. */
  function TokenSpec(tok: string): Option<PortSpec> {
    if TrimSpace(tok) == "" then None else ParsePortToken(TrimSpace(tok))
  }

  function TokenSpecs(tokens: seq<string>): (specs: seq<Option<PortSpec>>)
    ensures |specs| == |tokens| && forall i :: 0 <= i < |tokens| ==> specs[i] == TokenSpec(tokens[i])
  {
    if tokens == [] then [] else [TokenSpec(tokens[0])] + TokenSpecs(tokens[1..])
  }

  /** First occurrences only. */
  function Unique(specs: seq<Option<PortSpec>>, seen: set<PortSpec>): seq<PortSpec> {
    if specs == [] then []
    else if specs[0].None? || specs[0].value in seen then Unique(specs[1..], seen)
    else [specs[0].value] + Unique(specs[1..], seen + {specs[0].value})
  }

  function Tokens(input: string): seq<string> { if input == "" then [] else Split(Commas(input), ',') }

  function ParseForwardedPorts(input: string): seq<PortSpec> { Unique(TokenSpecs(Tokens(input)), {}) }

  // ---- what a field covers -------------------------------------------------------------------

  predicate Holds(spec: Option<PortSpec>, p: int) { spec.Some? && spec.value.start <= p <= spec.value.end }

  /** Some comma- or semicolon-separated token names p, alone or in a range. */
  predicate Covers(input: string, p: int) {
    var tokens := Tokens(input);
    exists i :: 0 <= i < |tokens| && Holds(TokenSpec(tokens[i]), p)
  }

  function Covered(input: string): set<int> { set p | 1 <= p <= 65535 && Covers(input, p) }

  predicate SpecsCover(specs: seq<PortSpec>, p: int) { exists i :: 0 <= i < |specs| && specs[i].start <= p <= specs[i].end }

  predicate AnyHolds(specs: seq<Option<PortSpec>>, p: int) { exists i :: 0 <= i < |specs| && Holds(specs[i], p) }

  lemma SpecsCoverCons(specs: seq<PortSpec>, p: int)
    requires specs != []
    ensures SpecsCover(specs, p) <==> specs[0].start <= p <= specs[0].end || SpecsCover(specs[1..], p)
  {
    if i :| 0 <= i < |specs[1..]| && specs[1..][i].start <= p <= specs[1..][i].end { assert specs[i + 1] == specs[1..][i]; }
    if i :| 1 <= i < |specs| && specs[i].start <= p <= specs[i].end { assert specs[1..][i - 1] == specs[i]; }
  }

  lemma AnyHoldsCons(specs: seq<Option<PortSpec>>, p: int)
    requires specs != []
    ensures AnyHolds(specs, p) <==> Holds(specs[0], p) || AnyHolds(specs[1..], p)
  {
    if i :| 0 <= i < |specs[1..]| && Holds(specs[1..][i], p) { assert Holds(specs[i + 1], p); }
    if i :| 1 <= i < |specs| && Holds(specs[i], p) { assert Holds(specs[1..][i - 1], p); }
  }

  predicate SeenCovers(seen: set<PortSpec>, p: int) { exists s :: s in seen && s.start <= p <= s.end }

  lemma {:induction false} UniqueCovers(specs: seq<Option<PortSpec>>, seen: set<PortSpec>, p: int)
    ensures SpecsCover(Unique(specs, seen), p) || SeenCovers(seen, p) <==> AnyHolds(specs, p) || SeenCovers(seen, p)
  {
    if specs != [] {
      AnyHoldsCons(specs, p);
      if specs[0].None? || specs[0].value in seen {
        UniqueCovers(specs[1..], seen, p);
      } else {
        var spec := specs[0].value;
        var rest := Unique(specs[1..], seen + {spec});
        UniqueCovers(specs[1..], seen + {spec}, p);
        SpecsCoverCons([spec] + rest, p);
        assert ([spec] + rest)[1..] == rest;
        assert SeenCovers(seen + {spec}, p) <==> SeenCovers(seen, p) || spec.start <= p <= spec.end;
      }
    }
  }

  /** Dropping repeated specs loses no port; ForwardedPortsInclude asks exactly this. */
  lemma ParsedSpecsCover(input: string, p: int)
    ensures SpecsCover(ParseForwardedPorts(input), p) <==> Covers(input, p)
  {
    var tokens := Tokens(input);
    UniqueCovers(TokenSpecs(tokens), {}, p);
    if i :| 0 <= i < |tokens| && Holds(TokenSpec(tokens[i]), p) { assert Holds(TokenSpecs(tokens)[i], p); }
  }

  predicate Proper(spec: PortSpec) { 1 <= spec.start <= spec.end <= 65535 }

  lemma TokenIsProper(tok: string)
    ensures TokenSpec(tok).Some? ==> Proper(TokenSpec(tok).value)
  {
  }

  lemma {:induction false} UniqueSelects(specs: seq<Option<PortSpec>>, seen: set<PortSpec>)
    ensures forall s :: s in Unique(specs, seen) ==> Some(s) in specs
  {
    if specs != [] {
      UniqueSelects(specs[1..], seen);
      if specs[0].Some? { UniqueSelects(specs[1..], seen + {specs[0].value}); }
    }
  }

  lemma SpecsAreProper(input: string, i: nat)
    requires i < |ParseForwardedPorts(input)|
    ensures Proper(ParseForwardedPorts(input)[i])
  {
    var tokens := Tokens(input);
    UniqueSelects(TokenSpecs(tokens), {});
    var k :| 0 <= k < |tokens| && TokenSpecs(tokens)[k] == Some(ParseForwardedPorts(input)[i]);
    TokenIsProper(tokens[k]);
  }

  // ---- the expansion -------------------------------------------------------------------------

  /** The inner loop: every new port of a range, until the limit. */
  function FillRange(p: int, end: int, ports: seq<int>, limit: nat): seq<int>
    decreases end - p
  {
    if p > end || |ports| >= limit then ports else FillRange(p + 1, end, if p in ports then ports else ports + [p], limit)
  }

  function Fill(specs: seq<PortSpec>, ports: seq<int>, limit: nat): seq<int>
    decreases |specs|
  {
    if specs == [] then ports else Fill(specs[1..], FillRange(specs[0].start, specs[0].end, ports, limit), limit)
  }

  predicate Distinct(s: seq<int>) { forall i, j :: 0 <= i < j < |s| ==> s[i] != s[j] }

  lemma PrefixMembers(a: seq<int>, b: seq<int>)
    requires a <= b
    ensures forall x :: x in a ==> x in b
  {
    assert forall i :: 0 <= i < |a| ==> a[i] == b[i];
  }

  lemma {:induction false} FillRangeIs(p: int, end: int, ports: seq<int>, limit: nat)
    requires Distinct(ports) && |ports| <= limit
    ensures
      var r := FillRange(p, end, ports, limit);
      && Distinct(r) && |r| <= limit && ports <= r
      && (forall q :: q in r ==> q in ports || p <= q <= end)
      && (|r| < limit ==> forall q :: p <= q <= end ==> q in r)
    decreases end - p
  {
    if p <= end && |ports| < limit {
      var next := if p in ports then ports else ports + [p];
      FillRangeIs(p + 1, end, next, limit);
      PrefixMembers(next, FillRange(p, end, ports, limit));
    }
  }

  lemma {:induction false} FillIs(specs: seq<PortSpec>, ports: seq<int>, limit: nat)
    requires Distinct(ports) && |ports| <= limit
    ensures
      var r := Fill(specs, ports, limit);
      && Distinct(r) && |r| <= limit && ports <= r
      && (forall q :: q in r ==> q in ports || SpecsCover(specs, q))
      && (|r| < limit ==> forall q :: SpecsCover(specs, q) ==> q in r)
    decreases |specs|
  {
    if specs != [] {
      var next := FillRange(specs[0].start, specs[0].end, ports, limit);
      FillRangeIs(specs[0].start, specs[0].end, ports, limit);
      FillIs(specs[1..], next, limit);
      PrefixMembers(next, Fill(specs, ports, limit));
      forall q ensures SpecsCover(specs, q) <==> specs[0].start <= q <= specs[0].end || SpecsCover(specs[1..], q) {
        SpecsCoverCons(specs, q);
      }
    }
  }

  predicate Ascending(s: seq<int>) { forall i, j :: 0 <= i < j < |s| ==> s[i] < s[j] }

  function Insert(x: int, s: seq<int>): seq<int> {
    if s == [] || x <= s[0] then [x] + s else [s[0]] + Insert(x, s[1..])
  }

  /** sort.Ints. */
  function Sort(s: seq<int>): seq<int> { if s == [] then [] else Insert(s[0], Sort(s[1..])) }

  lemma {:induction false} InsertIs(x: int, s: seq<int>)
    requires Ascending(s) && x !in s
    ensures Ascending(Insert(x, s)) && |Insert(x, s)| == |s| + 1 && forall y :: y in Insert(x, s) <==> y == x || y in s
  {
    if s != [] && x > s[0] {
      InsertIs(x, s[1..]);
      var r := Insert(x, s[1..]);
      assert forall y :: y in s <==> y == s[0] || y in s[1..];
      forall j | 0 <= j < |r| ensures s[0] < r[j] {
        assert r[j] in r;
        assert r[j] in s[1..] ==> exists k :: 0 <= k < |s[1..]| && s[1..][k] == r[j];
      }
    } else {
      assert forall j :: 0 <= j < |s| ==> s[j] in s;
    }
  }

  lemma {:induction false} SortIs(s: seq<int>)
    requires Distinct(s)
    ensures Ascending(Sort(s)) && |Sort(s)| == |s| && forall y :: y in Sort(s) <==> y in s
  {
    if s != [] {
      SortIs(s[1..]);
      InsertIs(s[0], Sort(s[1..]));
      assert forall y :: y in s <==> y == s[0] || y in s[1..];
    }
  }

  const MAX_FORWARDED_PORTS := 100

  function Expand(input: string, limit: nat): seq<int> { Sort(Fill(ParseForwardedPorts(input), [], limit)) }

  lemma {:induction false} DistinctCount(s: seq<int>)
    requires Distinct(s)
    ensures |set x | x in s| == |s|
  {
    if s != [] {
      DistinctCount(s[1..]);
      assert (set x | x in s) == {s[0]} + (set x | x in s[1..]);
      assert s[0] !in s[1..];
    }
  }

  lemma {:induction false} CoveredIs(input: string, p: int)
    ensures p in Covered(input) <==> SpecsCover(ParseForwardedPorts(input), p)
  {
    ParsedSpecsCover(input, p);
    var specs := ParseForwardedPorts(input);
    if i :| 0 <= i < |specs| && specs[i].start <= p <= specs[i].end {
      SpecsAreProper(input, i);
    }
  }

  /** The expansion is an ascending list of covered ports: as many as the field covers, up to the limit, and
      all of them when it covers fewer. */
  lemma {:induction false} ExpandIs(input: string, limit: nat)
    ensures
      var ports := Expand(input, limit);
      && Ascending(ports) && (forall p :: p in ports ==> Covers(input, p))
      && |ports| == (if |Covered(input)| < limit then |Covered(input)| else limit)
      && (|Covered(input)| <= limit ==> forall p :: p in ports <==> p in Covered(input))
  {
    var specs := ParseForwardedPorts(input);
    var raw := Fill(specs, [], limit);
    FillIs(specs, [], limit);
    SortIs(raw);
    forall p ensures p in Covered(input) <==> SpecsCover(specs, p) { CoveredIs(input, p); }
    var listed := set x | x in raw;
    DistinctCount(raw);
    assert listed <= Covered(input);
    SubsetSize(listed, Covered(input));
    if |raw| < limit {
      assert listed == Covered(input);
    }
  }

  lemma SubsetSize(a: set<int>, b: set<int>)
    requires a <= b
    ensures |a| <= |b| && (|a| == |b| ==> a == b)
  {
    assert b == a + (b - a);
    assert |b| == |a| + |b - a|;
  }

  predicate ExceedsCap(input: string) { |Expand(input, MAX_FORWARDED_PORTS + 1)| > MAX_FORWARDED_PORTS }

  /** The cap test, which only ever expands one port past the cap, is exact. */
  lemma ExceedsCapIff(input: string)
    ensures ExceedsCap(input) <==> |Covered(input)| > MAX_FORWARDED_PORTS
  {
    ExpandIs(input, MAX_FORWARDED_PORTS + 1);
  }

  // ---- the code's loops ----------------------------------------------------------------------

  method ParseLoop(input: string) returns (specs: seq<PortSpec>)
    ensures specs == ParseForwardedPorts(input)
  {
    var tokens := Tokens(input);
    var seen: set<PortSpec> := {};
    specs := [];
    ghost var all := TokenSpecs(tokens);
    for i := 0 to |tokens|
      invariant |all| == |tokens| && specs + Unique(all[i..], seen) == Unique(all, {})
    {
      assert all[i..][0] == all[i] && all[i..][1..] == all[i + 1..];
      var spec := TokenSpec(tokens[i]);
      if spec.Some? && spec.value !in seen {
        seen := seen + {spec.value};
        assert specs + ([spec.value] + Unique(all[i + 1..], seen)) == (specs + [spec.value]) + Unique(all[i + 1..], seen);
        specs := specs + [spec.value];
      }
    }
    assert all[|tokens|..] == [] && specs + [] == specs;
  }

  /** The nested loops of expandForwardedPorts, with their labelled break; `seen` mirrors `ports`. */
  method FillLoop(specs: seq<PortSpec>, limit: nat) returns (ports: seq<int>)
    ensures ports == Fill(specs, [], limit)
  {
    var seen: set<int> := {};
    ports := [];
    var i := 0;
    label outer: while i < |specs|
      invariant 0 <= i <= |specs| && forall q :: q in seen <==> q in ports
      invariant Fill(specs[i..], ports, limit) == Fill(specs, [], limit)
    {
      ghost var rest := specs[i + 1..];
      assert specs[i..][0] == specs[i] && specs[i..][1..] == rest;
      var p, end := specs[i].start, specs[i].end;
      while p <= end
        invariant forall q :: q in seen <==> q in ports
        invariant Fill(rest, FillRange(p, end, ports, limit), limit) == Fill(specs, [], limit)
        decreases end - p
      {
        if |ports| >= limit {
          FullStays(rest, ports, limit);
          break outer;
        }
        if p !in seen {
          seen, ports := seen + {p}, ports + [p];
        }
        p := p + 1;
      }
      i := i + 1;
    }
    assert specs[|specs|..] == [];
  }

  method ExpandLoop(input: string, limit: nat) returns (ports: seq<int>)
    ensures ports == Expand(input, limit)
  {
    var raw := FillLoop(ParseForwardedPorts(input), limit);
    ports := Sort(raw);
  }

  lemma {:induction false} FullStays(specs: seq<PortSpec>, ports: seq<int>, limit: nat)
    requires |ports| >= limit
    ensures Fill(specs, ports, limit) == ports
    decreases |specs|
  {
    if specs != [] {
      FullStays(specs[1..], ports, limit);
    }
  }

  method SpecsLoop(specs: seq<PortSpec>, port: int) returns (found: bool)
    ensures found == SpecsCover(specs, port)
  {
    for i := 0 to |specs|
      invariant forall k :: 0 <= k < i ==> !(specs[k].start <= port <= specs[k].end)
    {
      if specs[i].start <= port <= specs[i].end { return true; }
    }
    found := false;
  }

  method ForwardedPortsInclude(input: string, port: int) returns (found: bool)
    ensures found == Covers(input, port)
  {
    found := SpecsLoop(ParseForwardedPorts(input), port);
    ParsedSpecsCover(input, port);
  }
}
