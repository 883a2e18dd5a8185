/** The two fingerprints by which the mtproto manager decides whether a running mtg still serves what is
    wanted: what they tell apart, and what they do not. */
module MtgConfig {
  import opened GoStrings

  /** What mtg reads once, at startup. */
  datatype Structure = Structure(
    listen: string, port: int, debug: bool, proxyProtocol: bool, preferIP: string, frontingIP: string, frontingPort: int,
    frontingProxyProtocol: bool, maxConnections: int, maxHandshakes: int, throughXray: bool, xrayPort: int,
    publicIPv4: string, publicIPv6: string)

  /** One client, as the reloadable part of the config has it. */
  datatype Secret = Secret(name: string, secret: string, adTag: string, quota: int, expires: int)

  function Host(s: Structure): string { if s.listen == "" then "0.0.0.0" else s.listen }

  function BindTo(s: Structure): string { Host(s) + ":" + FormatInt(s.port) }

  function FormatBool(b: bool): string { if b then "true" else "false" }

  function Leading(s: Structure): (p: seq<string>)
    ensures |p| == 3
  {
    [BindTo(s), FormatBool(s.debug), FormatBool(s.proxyProtocol)]
  }

  function Middle(s: Structure): (p: seq<string>)
    ensures |p| == 6
  {
    [FormatInt(s.frontingPort), FormatBool(s.frontingProxyProtocol), FormatInt(s.maxConnections), FormatInt(s.maxHandshakes),
     FormatBool(s.throughXray), FormatInt(s.xrayPort)]
  }

  function Parts(s: Structure): (p: seq<string>)
    ensures |p| == 13
  {
    Leading(s) + [s.preferIP, s.frontingIP] + Middle(s) + [s.publicIPv4, s.publicIPv6]
  }

  /** structuralFingerprint. */
  function StructuralFp(s: Structure): string { Join(Parts(s), '|') }

  /** The same process: an empty listen address means all of them. */
  predicate SameStructure(a: Structure, b: Structure) { Host(a) == Host(b) && a.(listen := "") == b.(listen := "") }

  predicate Barless(s: Structure) {
    '|' !in s.listen && '|' !in s.preferIP && '|' !in s.frontingIP && '|' !in s.publicIPv4 && '|' !in s.publicIPv6
  }

  // ---- cutting and joining -------------------------------------------------------------------

  lemma LastAt(a: string, b: string, sep: char)
    requires sep !in b
    ensures (a + [sep] + b)[|a|] == sep && forall i :: |a| < i < |a + [sep] + b| ==> (a + [sep] + b)[i] != sep
  {
    forall i | |a| < i < |a + [sep] + b| ensures (a + [sep] + b)[i] != sep {
      assert (a + [sep] + b)[i] == b[i - |a| - 1];
    }
  }

  /** Cutting at the last separator. */
  lemma LastCut(a: string, b: string, c: string, d: string, sep: char)
    requires sep !in b && sep !in d && a + [sep] + b == c + [sep] + d
    ensures a == c && b == d
  {
    var s, t := a + [sep] + b, c + [sep] + d;
    LastAt(a, b, sep);
    LastAt(c, d, sep);
    assert |a| == |c|;
    assert a == s[..|a|] && c == t[..|c|] && b == s[|a| + 1..] && d == t[|c| + 1..];
  }

  lemma {:induction false} SplitLonger(s: string, sep: char)
    requires sep in s
    ensures |Split(s, sep)| > 1
  {
    if s[0] != sep {
      SplitLonger(s[1..], sep);
    }
  }

  /** A joined text falls into at least as many pieces as went into it, and into no more exactly when the
      separator is in none of them. */
  lemma {:induction false} JoinedPieces(parts: seq<string>, sep: char)
    requires parts != []
    ensures |Split(Join(parts, sep), sep)| >= |parts|
    ensures |Split(Join(parts, sep), sep)| == |parts| ==> forall i :: 0 <= i < |parts| ==> sep !in parts[i]
  {
    if sep in parts[0] {
      SplitLonger(parts[0], sep);
    }
    if |parts| > 1 {
      JoinedPieces(parts[1..], sep);
      SplitAppend(parts[0], Join(parts[1..], sep), sep);
    }
  }

  lemma JoinInjective(a: seq<string>, b: seq<string>, sep: char)
    requires |a| == |b| != 0 && Free(a, sep) && Join(a, sep) == Join(b, sep)
    ensures a == b
  {
    SplitJoin(a, sep);
    JoinedPieces(b, sep);
    SplitJoin(b, sep);
  }

  /** Only the joined text of two neighbours counts. */
  lemma {:induction false} JoinPair(before: seq<string>, u: string, v: string, after: seq<string>, sep: char)
    ensures Join(before + [u, v] + after, sep) == Join(before + [u + [sep] + v] + after, sep)
  {
    var s, t := before + [u, v] + after, before + [u + [sep] + v] + after;
    if before == [] {
      assert s[1..] == [v] + after && t[1..] == after && s[1..][1..] == after;
    } else {
      JoinPair(before[1..], u, v, after, sep);
      assert s[1..] == before[1..] + [u, v] + after && t[1..] == before[1..] + [u + [sep] + v] + after;
    }
  }

  // ---- the structural fingerprint ------------------------------------------------------------

  predicate Free(parts: seq<string>, sep: char) { forall i :: 0 <= i < |parts| ==> sep !in parts[i] }

  lemma NumberIsPlain(n: int)
    ensures '|' !in FormatInt(n) && ':' !in FormatInt(n)
  {
  }

  lemma PlainParts(s: Structure)
    requires Barless(s)
    ensures Free(Parts(s), '|')
  {
    NumberIsPlain(s.port);
    NumberIsPlain(s.frontingPort);
    NumberIsPlain(s.maxConnections);
    NumberIsPlain(s.maxHandshakes);
    NumberIsPlain(s.xrayPort);
    assert Free(Leading(s), '|') && Free(Middle(s), '|');
    assert Free([s.preferIP, s.frontingIP], '|') && Free([s.publicIPv4, s.publicIPv6], '|');
  }

  lemma BindInjective(a: Structure, b: Structure)
    requires BindTo(a) == BindTo(b)
    ensures Host(a) == Host(b) && a.port == b.port
  {
    NumberIsPlain(a.port);
    NumberIsPlain(b.port);
    LastCut(Host(a), FormatInt(a.port), Host(b), FormatInt(b.port), ':');
    FormatIntInjective(a.port, b.port);
  }

  lemma PartsInjective(a: Structure, b: Structure)
    requires Parts(a) == Parts(b)
    ensures SameStructure(a, b)
  {
    var p, q := Parts(a), Parts(b);
    assert p[..3] == Leading(a) && q[..3] == Leading(b) && p[5..11] == Middle(a) && q[5..11] == Middle(b);
    assert p[3] == a.preferIP && q[3] == b.preferIP && p[4] == a.frontingIP && q[4] == b.frontingIP;
    assert p[11] == a.publicIPv4 && q[11] == b.publicIPv4 && p[12] == a.publicIPv6 && q[12] == b.publicIPv6;
    assert Leading(a)[0] == Leading(b)[0] && Leading(a)[1] == Leading(b)[1] && Leading(a)[2] == Leading(b)[2];
    BindInjective(a, b);
    var m, n := Middle(a), Middle(b);
    assert m[0] == n[0] && m[1] == n[1] && m[2] == n[2] && m[3] == n[3] && m[4] == n[4] && m[5] == n[5];
    FormatIntInjective(a.frontingPort, b.frontingPort);
    FormatIntInjective(a.maxConnections, b.maxConnections);
    FormatIntInjective(a.maxHandshakes, b.maxHandshakes);
    FormatIntInjective(a.xrayPort, b.xrayPort);
  }

  /** A structure without bars is never mistaken for another, whatever the other holds. */
  lemma BarlessIsTold(a: Structure, b: Structure)
    requires Barless(a)
    ensures StructuralFp(a) == StructuralFp(b) <==> SameStructure(a, b)
  {
    if StructuralFp(a) == StructuralFp(b) {
      PlainParts(a);
      JoinInjective(Parts(a), Parts(b), '|');
      PartsInjective(a, b);
    }
  }

  /** A bar moves the border between two neighbouring texts. */
  lemma BarIsMistaken(a: Structure) returns (b: Structure)
    requires '|' in a.preferIP || '|' in a.frontingIP || '|' in a.publicIPv4 || '|' in a.publicIPv6
    ensures StructuralFp(a) == StructuralFp(b) && !SameStructure(a, b)
  {
    if '|' in a.preferIP || '|' in a.frontingIP {
      var x, y := Shifted(a.preferIP, a.frontingIP);
      b := a.(preferIP := x, frontingIP := y);
      FirstPair(a);
      FirstPair(b);
      Reparted(Leading(a), a.preferIP, a.frontingIP, x, y, Middle(a) + [a.publicIPv4, a.publicIPv6]);
    } else {
      var x, y := Shifted(a.publicIPv4, a.publicIPv6);
      b := a.(publicIPv4 := x, publicIPv6 := y);
      SecondPair(a);
      SecondPair(b);
      Reparted(Leading(a) + [a.preferIP, a.frontingIP] + Middle(a), a.publicIPv4, a.publicIPv6, x, y, []);
    }
  }

  lemma FirstPair(s: Structure)
    ensures Parts(s) == Leading(s) + [s.preferIP, s.frontingIP] + (Middle(s) + [s.publicIPv4, s.publicIPv6])
  {
  }

  lemma SecondPair(s: Structure)
    ensures Parts(s) == Leading(s) + [s.preferIP, s.frontingIP] + Middle(s) + [s.publicIPv4, s.publicIPv6] + []
  {
  }

  /** Another way to cut u|v in two. */
  lemma Shifted(u: string, v: string) returns (x: string, y: string)
    requires '|' in u || '|' in v
    ensures x + ['|'] + y == u + ['|'] + v && x != u
  {
    if '|' in u {
      var i :| 0 <= i < |u| && u[i] == '|';
      x, y := u[..i], u[i + 1..] + ['|'] + v;
      assert u == u[..i] + ['|'] + u[i + 1..];
    } else {
      var i :| 0 <= i < |v| && v[i] == '|';
      x, y := u + ['|'] + v[..i], v[i + 1..];
      assert v == v[..i] + ['|'] + v[i + 1..];
    }
  }

  lemma Reparted(before: seq<string>, u: string, v: string, x: string, y: string, after: seq<string>)
    requires x + ['|'] + y == u + ['|'] + v
    ensures Join(before + [u, v] + after, '|') == Join(before + [x, y] + after, '|')
  {
    JoinPair(before, u, v, after, '|');
    JoinPair(before, x, y, after, '|');
  }

  /** The structural fingerprint tells a structure from every other exactly when its texts hold no bar. */
  lemma ToldFromAllIff(a: Structure)
    requires '|' !in a.listen
    ensures (forall b {:trigger StructuralFp(b)} :: StructuralFp(a) == StructuralFp(b) ==> SameStructure(a, b)) <==> Barless(a)
  {
    if Barless(a) {
      forall b | StructuralFp(a) == StructuralFp(b) ensures SameStructure(a, b) { BarlessIsTold(a, b); }
    } else {
      var b := BarIsMistaken(a);
    }
  }

  // ---- sorting -------------------------------------------------------------------------------

  /** Go's <= on strings. */
  predicate Leq(a: string, b: string) { a == [] || (b != [] && (a[0] < b[0] || (a[0] == b[0] && Leq(a[1..], b[1..])))) }

  lemma {:induction false} LeqOrders(a: string, b: string)
    ensures Leq(a, b) || Leq(b, a)
    ensures Leq(a, b) && Leq(b, a) ==> a == b
  {
    if a != [] && b != [] {
      LeqOrders(a[1..], b[1..]);
      assert a == [a[0]] + a[1..] && b == [b[0]] + b[1..];
    }
  }

  lemma {:induction false} LeqChains(a: string, b: string, c: string)
    requires Leq(a, b) && Leq(b, c)
    ensures Leq(a, c)
  {
    if a != [] && a[0] == b[0] == c[0] {
      LeqChains(a[1..], b[1..], c[1..]);
    }
  }

  predicate Below(a: string, s: seq<string>) { forall x :: x in s ==> Leq(a, x) }

  predicate Sorted(s: seq<string>) { s == [] || (Below(s[0], s[1..]) && Sorted(s[1..])) }

  function Insert(x: string, s: seq<string>): seq<string> {
    if s == [] || Leq(x, s[0]) then [x] + s else [s[0]] + Insert(x, s[1..])
  }

  /** slices.Sort. */
  function Sort(s: seq<string>): seq<string> { if s == [] then [] else Insert(s[0], Sort(s[1..])) }

  lemma {:induction false} InsertSorts(x: string, s: seq<string>)
    requires Sorted(s)
    ensures Sorted(Insert(x, s)) && multiset(Insert(x, s)) == multiset{x} + multiset(s)
  {
    if s == [] {
    } else if Leq(x, s[0]) {
      forall y | y in s ensures Leq(x, y) {
        if y != s[0] { LeqChains(x, s[0], y); }
      }
      assert ([x] + s)[1..] == s;
    } else {
      LeqOrders(x, s[0]);
      InsertSorts(x, s[1..]);
      var t := Insert(x, s[1..]);
      assert s == [s[0]] + s[1..] && ([s[0]] + t)[1..] == t;
      forall y | y in t ensures Leq(s[0], y) {
        assert y in multiset(t) && (y == x || y in multiset(s[1..]));
      }
    }
  }

  lemma {:induction false} SortSorts(s: seq<string>)
    ensures Sorted(Sort(s)) && multiset(Sort(s)) == multiset(s)
  {
    if s != [] {
      SortSorts(s[1..]);
      InsertSorts(s[0], Sort(s[1..]));
      assert s == [s[0]] + s[1..];
    }
  }

  /** The head of a sorted list is below everything in it. */
  lemma HeadIsLeast(a: seq<string>, x: string)
    requires Sorted(a) && a != [] && x in multiset(a)
    ensures Leq(a[0], x)
  {
    if x != a[0] {
      assert x in a[1..];
    } else {
      LeqOrders(x, x);
    }
  }

  lemma SplitHead(a: seq<string>)
    requires a != []
    ensures multiset(a) == multiset{a[0]} + multiset(a[1..]) && a[0] in multiset(a)
  {
    assert a == [a[0]] + a[1..];
  }

  lemma SameLength(a: seq<string>, b: seq<string>)
    requires multiset(a) == multiset(b)
    ensures |a| == |b|
  {
    assert |multiset(a)| == |a| && |multiset(b)| == |b|;
  }

  lemma SameHeads(a: seq<string>, b: seq<string>)
    requires Sorted(a) && Sorted(b) && multiset(a) == multiset(b) && a != [] && b != []
    ensures a[0] == b[0] && multiset(a[1..]) == multiset(b[1..])
  {
    SplitHead(a);
    SplitHead(b);
    HeadIsLeast(a, b[0]);
    HeadIsLeast(b, a[0]);
    LeqOrders(a[0], b[0]);
    Cancel(a[0], multiset(a[1..]), multiset(b[1..]));
  }

  lemma Cancel(h: string, x: multiset<string>, y: multiset<string>)
    requires multiset{h} + x == multiset{h} + y
    ensures x == y
  {
    assert x == multiset{h} + x - multiset{h} && y == multiset{h} + y - multiset{h};
  }

  lemma {:induction false} SortedIsUnique(a: seq<string>, b: seq<string>)
    requires Sorted(a) && Sorted(b) && multiset(a) == multiset(b)
    ensures a == b
  {
    SameLength(a, b);
    if a != [] {
      SameHeads(a, b);
      SortedIsUnique(a[1..], b[1..]);
      assert a == [a[0]] + a[1..] && b == [b[0]] + b[1..];
    }
  }

  // ---- the secrets fingerprint ---------------------------------------------------------------

  /** One client in the fingerprint. */
  function Pair(e: Secret): string {
    e.name + "=" + e.secret + ";" + ("tag=" + e.adTag) + ";" + ("q=" + FormatInt(e.quota)) + ";" + ("exp=" + FormatInt(e.expires))
  }

  function Pairs(ss: seq<Secret>): seq<string> { if ss == [] then [] else [Pair(ss[0])] + Pairs(ss[1..]) }

  /** secretsFingerprint. */
  function SecretsFp(ss: seq<Secret>): string { Join(Sort(Pairs(ss)), '|') }

  /** mtg secrets and usable ad tags are hexadecimal; a name is an email. */
  predicate Clean(e: Secret) { '|' !in e.name && '|' !in e.secret && '|' !in e.adTag && '=' !in e.secret && ';' !in e.adTag }

  predicate AllClean(ss: seq<Secret>) { forall e :: e in ss ==> Clean(e) }

  lemma PairInjective(e: Secret, f: Secret)
    requires Clean(e) && Clean(f) && Pair(e) == Pair(f)
    ensures e == f
  {
    var e1, f1 := e.name + "=" + e.secret, f.name + "=" + f.secret;
    var e2, f2 := e1 + ";" + ("tag=" + e.adTag), f1 + ";" + ("tag=" + f.adTag);
    var e3, f3 := e2 + ";" + ("q=" + FormatInt(e.quota)), f2 + ";" + ("q=" + FormatInt(f.quota));
    LastCut(e3, "exp=" + FormatInt(e.expires), f3, "exp=" + FormatInt(f.expires), ';');
    LastCut(e2, "q=" + FormatInt(e.quota), f2, "q=" + FormatInt(f.quota), ';');
    LastCut(e1, "tag=" + e.adTag, f1, "tag=" + f.adTag, ';');
    LastCut(e.name, e.secret, f.name, f.secret, '=');
    Tails("exp=", FormatInt(e.expires), FormatInt(f.expires));
    Tails("q=", FormatInt(e.quota), FormatInt(f.quota));
    Tails("tag=", e.adTag, f.adTag);
    FormatIntInjective(e.expires, f.expires);
    FormatIntInjective(e.quota, f.quota);
  }

  lemma Tails(head: string, a: string, b: string)
    requires head + a == head + b
    ensures a == b
  {
    assert a == (head + a)[|head|..] && b == (head + b)[|head|..];
  }

  lemma CleanPair(e: Secret)
    requires Clean(e)
    ensures '|' !in Pair(e) && Pair(e) != ""
  {
  }

  lemma {:induction false} PairsOf(ss: seq<Secret>)
    ensures |Pairs(ss)| == |ss|
    ensures forall t :: t in Pairs(ss) <==> exists e :: e in ss && Pair(e) == t
  {
    if ss != [] {
      PairsOf(ss[1..]);
      assert ss == [ss[0]] + ss[1..];
    }
  }

  lemma {:induction false} PairCount(ss: seq<Secret>, e: Secret)
    requires AllClean(ss) && Clean(e)
    ensures multiset(Pairs(ss))[Pair(e)] == multiset(ss)[e]
  {
    if ss != [] {
      PairCount(ss[1..], e);
      assert ss == [ss[0]] + ss[1..];
      if Pair(ss[0]) == Pair(e) { PairInjective(ss[0], e); }
    }
  }

  lemma PairsAgreeIff(a: seq<Secret>, b: seq<Secret>)
    requires AllClean(a) && AllClean(b)
    ensures multiset(Pairs(a)) == multiset(Pairs(b)) <==> multiset(a) == multiset(b)
  {
    PairsOf(a);
    PairsOf(b);
    forall e | Clean(e)
      ensures multiset(Pairs(a))[Pair(e)] == multiset(a)[e] && multiset(Pairs(b))[Pair(e)] == multiset(b)[e]
    {
      PairCount(a, e);
      PairCount(b, e);
    }
    if multiset(Pairs(a)) == multiset(Pairs(b)) {
      forall e ensures multiset(a)[e] == multiset(b)[e] {
        if !Clean(e) { assert e !in a && e !in b; }
      }
    }
    if multiset(a) == multiset(b) {
      forall t ensures multiset(Pairs(a))[t] == multiset(Pairs(b))[t] {
        if e :| e in a + b && Pair(e) == t {
        } else {
          assert t !in Pairs(a) && t !in Pairs(b);
        }
      }
    }
  }

  lemma SortedPairs(ss: seq<Secret>)
    ensures |Sort(Pairs(ss))| == |ss| && multiset(Sort(Pairs(ss))) == multiset(Pairs(ss)) && Sorted(Sort(Pairs(ss)))
  {
    SortSorts(Pairs(ss));
    PairsOf(ss);
    assert |multiset(Sort(Pairs(ss)))| == |multiset(Pairs(ss))|;
  }

  lemma SortedPairAt(ss: seq<Secret>, i: int)
    requires AllClean(ss) && 0 <= i < |Sort(Pairs(ss))|
    ensures '|' !in Sort(Pairs(ss))[i] && Sort(Pairs(ss))[i] != ""
  {
    var t := Sort(Pairs(ss))[i];
    SortedPairs(ss);
    PairsOf(ss);
    assert t in multiset(Sort(Pairs(ss))) && t in Pairs(ss);
    var e :| e in ss && Pair(e) == t;
    CleanPair(e);
  }

  /** The secrets fingerprint does not see the order of the clients, and sees everything else. */
  lemma SecretsToldIff(a: seq<Secret>, b: seq<Secret>)
    requires AllClean(a) && AllClean(b)
    ensures SecretsFp(a) == SecretsFp(b) <==> multiset(a) == multiset(b)
  {
    PairsAgreeIff(a, b);
    SortedPairs(a);
    SortedPairs(b);
    var p, q := Sort(Pairs(a)), Sort(Pairs(b));
    if multiset(a) == multiset(b) {
      SortedIsUnique(p, q);
    }
    forall i | 0 <= i < |p| ensures '|' !in p[i] && p[i] != "" { SortedPairAt(a, i); }
    forall i | 0 <= i < |q| ensures '|' !in q[i] && q[i] != "" { SortedPairAt(b, i); }
    if SecretsFp(a) == SecretsFp(b) {
      SplitAgree(p, q);
    }
  }

  lemma SplitAgree(p: seq<string>, q: seq<string>)
    requires Free(p, '|') && Free(q, '|') && Join(p, '|') == Join(q, '|')
    requires (forall i :: 0 <= i < |p| ==> p[i] != "") && (forall i :: 0 <= i < |q| ==> q[i] != "")
    ensures p == q
  {
    if p != [] && q != [] {
      SplitJoin(p, '|');
      SplitJoin(q, '|');
    }
  }
}
