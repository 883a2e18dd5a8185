/** Client emails made unique by counting up: why the loops stop, which name they pick, and what importing
    a server config gives its peers. */
module UniqueNames {
  import opened Options
  import opened GoStrings
  import opened Json

  // ---- the counting loop ---------------------------------------------------------------------

  /** The k-th name tried: the base, then base-2, base-3, ... */
  function Candidate(base: string, k: nat): string { if k == 0 then base else base + "-" + Itoa(k + 1) }

  lemma CandidatesDiffer(base: string, j: nat, k: nat)
    requires j < k
    ensures Candidate(base, j) != Candidate(base, k)
  {
    var n := |base| + 1;
    assert Candidate(base, k)[n..] == Itoa(k + 1);
    if j > 0 {
      assert Candidate(base, j)[n..] == Itoa(j + 1);
      ItoaInjective(j + 1, k + 1);
    }
  }

  function Tried(base: string, n: nat): (names: set<string>)
    ensures forall x :: x in names <==> exists k :: 0 <= k < n && x == Candidate(base, k)
  {
    if n == 0 then {} else Tried(base, n - 1) + {Candidate(base, n - 1)}
  }

  lemma LastIsNew(base: string, n: nat)
    requires n > 0
    ensures Candidate(base, n - 1) !in Tried(base, n - 1)
  {
    if Candidate(base, n - 1) in Tried(base, n - 1) {
      var k :| 0 <= k < n - 1 && Candidate(base, n - 1) == Candidate(base, k);
      CandidatesDiffer(base, k, n - 1);
    }
  }

  /** n tries are n different names. */
  lemma {:induction false} TriedCount(base: string, n: nat)
    ensures |Tried(base, n)| == n
  {
    if n > 0 {
      TriedCount(base, n - 1);
      LastIsNew(base, n);
    }
  }

  /** Pigeonhole: among the first |used| + 1 names one is free. */
  lemma TriesAreBounded(base: string, used: set<string>, n: nat)
    requires forall k :: 0 <= k < n ==> Candidate(base, k) in used
    ensures n <= |used|
  {
    TriedCount(base, n);
    var tried := Tried(base, n);
    assert tried <= used;
    assert used == tried + (used - tried);
    assert |used| == |tried| + |used - tried|;
  }

  predicate IsFirstFree(base: string, used: set<string>, email: string, k: nat) {
    && email == Candidate(base, k) && email !in used && (forall j :: 0 <= j < k ==> Candidate(base, j) in used)
  }

  /** The first free name, found with at most one more try than there are used names. */
  ghost predicate Names(base: string, used: set<string>, email: string) {
    exists k: nat :: k <= |used| && IsFirstFree(base, used, email, k)
  }

  /** The loop of all three name makers. */
  method FirstFree(base: string, used: set<string>) returns (email: string)
    ensures Names(base, used, email)
  {
    email := base;
    ghost var k := 0;
    var i := 2;
    while email in used
      invariant i == k + 2 && email == Candidate(base, k)
      invariant forall j :: 0 <= j < k ==> Candidate(base, j) in used
      decreases |used| + 1 - k
    {
      TriesAreBounded(base, used, k + 1);
      email := base + "-" + Itoa(i);
      i, k := i + 1, k + 1;
    }
    TriesAreBounded(base, used, k);
    assert IsFirstFree(base, used, email, k);
  }

  /** The name does not depend on how it is searched for. */
  lemma FirstFreeIsUnique(base: string, used: set<string>, a: string, b: string)
    requires Names(base, used, a) && Names(base, used, b)
    ensures a == b
  {
    var i: nat :| IsFirstFree(base, used, a, i);
    var j: nat :| IsFirstFree(base, used, b, j);
  }

  // ---- the three bases -----------------------------------------------------------------------

  function Dashes(s: string): string { if s == [] then [] else [if s[0] == ' ' then '-' else s[0]] + Dashes(s[1..]) }

  /** `comment` is "" unless the peer has one. */
  method WireguardPeerEmail(remark: string, comment: string, index: nat, used: set<string>) returns (email: string)
    ensures email !in used
    ensures Names(Dashes((if TrimSpace(remark) == "" then "wg" else TrimSpace(remark)) + "-" +
                         (if TrimSpace(comment) == "" then Itoa(index + 1) else TrimSpace(comment))), used, email)
  {
    var base := if TrimSpace(remark) == "" then "wg" else TrimSpace(remark);
    var suffix := if TrimSpace(comment) == "" then Itoa(index + 1) else TrimSpace(comment);
    email := FirstFree(Dashes(base + "-" + suffix), used);
  }

  method MtprotoClientEmail(remark: string, used: set<string>) returns (email: string)
    ensures email !in used
    ensures Names(Dashes(if TrimSpace(remark) == "" then "mtproto" else TrimSpace(remark)), used, email)
  {
    var base := if TrimSpace(remark) == "" then "mtproto" else TrimSpace(remark);
    email := FirstFree(Dashes(base), used);
  }

  predicate SlugChar(c: char) { IsDigit(c) || 'a' <= c <= 'z' || 'A' <= c <= 'Z' || c == '.' || c == '-' || c == '_' }

  function Slugged(s: string): string {
    if s == [] then [] else (if SlugChar(s[0]) then [s[0]] else if s[0] == ' ' then "-" else []) + Slugged(s[1..])
  }

  predicate Edge(c: char) { c == '-' || c == '.' || c == '_' }

  function TrimEdges(s: string): string {
    if s != [] && Edge(s[0]) then TrimEdges(s[1..])
    else if s != [] && Edge(s[|s| - 1]) then TrimEdges(s[..|s| - 1])
    else s
  }

  function SlugEmail(s: string): string { TrimEdges(Slugged(TrimSpace(s))) }

  function FirstHost(allowedIPs: string): string {
    TrimSpace(Cut(TrimSpace(Cut(allowedIPs, ",").before), "/").before)
  }

  /** The base sanitizeEmail starts from. */
  function ImportBase(name: string, allowedIPs: string, publicKey: string): string {
    var slug := SlugEmail(name);
    var host := "awg-" + FirstHost(allowedIPs);
    Lower(if slug != "" then slug
          else if host != "awg-" then host
          else if |publicKey| >= 8 then "awg-" + publicKey[..8]
          else "awg-peer")
  }

  lemma {:induction false} LowerTwice(s: string)
    ensures Lower(Lower(s)) == Lower(s) && |Lower(s)| == |s|
  {
    if s != [] {
      LowerTwice(s[1..]);
    }
  }

  lemma {:induction false} LowerAppend(a: string, b: string)
    ensures Lower(a + b) == Lower(a) + Lower(b)
  {
    if a == [] {
      assert a + b == b;
    } else {
      assert (a + b)[1..] == a[1..] + b;
      LowerAppend(a[1..], b);
    }
  }

  lemma {:induction false} LowerDigits(s: string)
    requires AllDigits(s)
    ensures Lower(s) == s
  {
    if s != [] {
      LowerDigits(s[1..]);
    }
  }

  /** Counting up keeps a lower-case base lower-case. */
  lemma CandidateIsLower(base: string, k: nat)
    ensures Lower(Candidate(Lower(base), k)) == Candidate(Lower(base), k)
  {
    LowerTwice(base);
    LowerAppend(Lower(base) + "-", Itoa(k + 1));
    LowerAppend(Lower(base), "-");
    LowerDigits(Itoa(k + 1));
    assert Lower("-") == "-" by { assert "-"[1..] == ""; }
  }

  // ---- importing a server --------------------------------------------------------------------

  datatype ConfPeer = ConfPeer(name: string, publicKey: string, psk: string, allowedIPs: string, suspended: bool, origIPs: string, expiry: int)

  datatype Client = Client(email: string, publicKey: string, preSharedKey: string, allowedIPs: seq<string>, enable: bool,
                           expiryTime: int, comment: string, privateKey: Option<string>)

  function NonBlank(parts: seq<string>): seq<string> {
    if parts == [] then [] else (if TrimSpace(parts[0]) != "" then [TrimSpace(parts[0])] else []) + NonBlank(parts[1..])
  }

  function SplitAllowed(s: string): seq<string> { if TrimSpace(s) == "" then [] else NonBlank(Split(s, ',')) }

  function UnixExpiry(ts: int): int { if ts <= 0 then 0 else if ts < 1_000_000_000_000 then ts * 1000 else ts }

  function PrivateKeyOf(keys: map<string, string>, publicKey: string): Option<string> {
    if publicKey in keys && keys[publicKey] != "" then Some(keys[publicKey]) else None
  }

  /** The row of one peer, its email aside. */
  predicate RowOf(row: Client, p: ConfPeer, keys: map<string, string>) {
    && row.publicKey == p.publicKey && row.preSharedKey == p.psk && row.enable == !p.suspended && row.comment == p.name
    && row.allowedIPs == SplitAllowed(if p.suspended && p.origIPs != "" then p.origIPs else p.allowedIPs)
    && row.expiryTime == UnixExpiry(p.expiry) && row.privateKey == PrivateKeyOf(keys, p.publicKey)
  }

  predicate RowsOf(rows: seq<Client>, peers: seq<ConfPeer>, keys: map<string, string>) {
    |rows| == |peers| && forall i :: 0 <= i < |peers| ==> RowOf(rows[i], peers[i], keys)
  }

  lemma RowsGrow(rows: seq<Client>, peers: seq<ConfPeer>, keys: map<string, string>, row: Client)
    requires |rows| < |peers| && RowsOf(rows, peers[..|rows|], keys) && RowOf(row, peers[|rows|], keys)
    ensures RowsOf(rows + [row], peers[..|rows| + 1], keys)
  {
    assert peers[..|rows| + 1] == peers[..|rows|] + [peers[|rows|]];
  }

  function MakeRow(email: string, p: ConfPeer, keys: map<string, string>): (row: Client)
    ensures row.email == email && RowOf(row, p, keys)
  {
    Client(email, p.publicKey, p.psk, SplitAllowed(if p.suspended && p.origIPs != "" then p.origIPs else p.allowedIPs),
           !p.suspended, UnixExpiry(p.expiry), p.name, PrivateKeyOf(keys, p.publicKey))
  }

  function Missing(rows: seq<Client>): nat {
    if rows == [] then 0 else Missing(rows[..|rows| - 1]) + (if rows[|rows| - 1].privateKey.None? then 1 else 0)
  }

  lemma MissingGrows(rows: seq<Client>, row: Client)
    ensures Missing(rows + [row]) == Missing(rows) + (if row.privateKey.None? then 1 else 0)
  {
    assert (rows + [row])[..|rows|] == rows;
  }

  /** The name a peer is imported under: the one chosen in the preview, else its own. */
  function ChosenName(p: ConfPeer, chosen: seq<string>, i: nat): string {
    if i < |chosen| && chosen[i] != "" then chosen[i] else p.name
  }

  /** sanitizeEmail, which also takes the name. */
  method SanitizeEmail(name: string, allowedIPs: string, publicKey: string, used: set<string>)
    returns (email: string, taken: set<string>)
    ensures taken == used + {email} && email !in used && Lower(email) == email
    ensures Names(ImportBase(name, allowedIPs, publicKey), used, email)
  {
    var base := ImportBase(name, allowedIPs, publicKey);
    email := FirstFree(base, used);
    taken := used + {email};
    LowerIsLower(name, allowedIPs, publicKey);
    ghost var k: nat :| k <= |used| && IsFirstFree(base, used, email, k);
    CandidateIsLower(base, k);
  }

  lemma LowerIsLower(name: string, allowedIPs: string, publicKey: string)
    ensures Lower(ImportBase(name, allowedIPs, publicKey)) == ImportBase(name, allowedIPs, publicKey)
  {
    var slug := SlugEmail(name);
    var host := "awg-" + FirstHost(allowedIPs);
    LowerTwice(slug);
    LowerTwice(host);
    LowerTwice("awg-peer");
    if |publicKey| >= 8 {
      LowerTwice("awg-" + publicKey[..8]);
    }
  }

  /** The rows' emails: lower-case, pairwise different, taken, and none of the lowered reserved ones. */
  predicate Fresh(rows: seq<Client>, used: set<string>, lowered: set<string>) {
    && (forall j :: 0 <= j < |rows| ==> rows[j].email in used && Lower(rows[j].email) == rows[j].email && rows[j].email !in lowered)
    && (forall j, l :: 0 <= j < l < |rows| ==> rows[j].email != rows[l].email)
  }

  lemma FreshGrows(rows: seq<Client>, used: set<string>, lowered: set<string>, row: Client)
    requires Fresh(rows, used, lowered) && row.email !in used && lowered <= used && Lower(row.email) == row.email
    ensures Fresh(rows + [row], used + {row.email}, lowered)
  {
  }

  lemma FreshDiffers(rows: seq<Client>, used: set<string>, lowered: set<string>, reserved: set<string>)
    requires Fresh(rows, used, lowered) && forall r :: r in reserved && r != "" ==> Lower(r) in lowered
    ensures forall i, j :: 0 <= i < j < |rows| ==> !EqualFold(rows[i].email, rows[j].email)
    ensures forall i, r :: 0 <= i < |rows| && r in reserved && r != "" ==> !EqualFold(rows[i].email, r)
  {
    forall i, j | 0 <= i < j < |rows| ensures !EqualFold(rows[i].email, rows[j].email) {
      assert rows[i].email != rows[j].email;
    }
  }

  /** The loop so far: a row per peer, counted and fresh. */
  predicate Built(rows: seq<Client>, missing: nat, used: set<string>, peers: seq<ConfPeer>, keys: map<string, string>, lowered: set<string>) {
    RowsOf(rows, peers, keys) && missing == Missing(rows) && lowered <= used && Fresh(rows, used, lowered)
  }

  lemma BuiltGrows(rows: seq<Client>, missing: nat, used: set<string>, peers: seq<ConfPeer>, keys: map<string, string>,
                   lowered: set<string>, row: Client)
    requires |rows| < |peers| && Built(rows, missing, used, peers[..|rows|], keys, lowered) && RowOf(row, peers[|rows|], keys)
    requires row.email !in used && Lower(row.email) == row.email
    ensures Built(rows + [row], missing + (if row.privateKey.None? then 1 else 0), used + {row.email}, peers[..|rows| + 1], keys, lowered)
  {
    MissingGrows(rows, row);
    FreshGrows(rows, used, lowered, row);
    RowsGrow(rows, peers, keys, row);
  }

  /** Every peer gets one row, with an email no two peers share and that, case aside, nobody had before. */
  method BuildClients(peers: seq<ConfPeer>, chosen: seq<string>, keys: map<string, string>, reserved: set<string>)
    returns (rows: seq<Client>, missing: nat)
    ensures RowsOf(rows, peers, keys)
    ensures forall i, j :: 0 <= i < j < |rows| ==> !EqualFold(rows[i].email, rows[j].email)
    ensures forall i, r :: 0 <= i < |rows| && r in reserved && r != "" ==> !EqualFold(rows[i].email, r)
    ensures missing == Missing(rows)
  {
    var used := set r | r in reserved && r != "" :: Lower(r);
    ghost var lowered := used;
    rows, missing := [], 0;
    for i := 0 to |peers|
      invariant |rows| == i && Built(rows, missing, used, peers[..i], keys, lowered)
    {
      var p := peers[i];
      var email, taken := SanitizeEmail(ChosenName(p, chosen, i), p.allowedIPs, p.publicKey, used);
      var row := MakeRow(email, p, keys);
      BuiltGrows(rows, missing, used, peers, keys, lowered, row);
      if row.privateKey.None? {
        missing := missing + 1;
      }
      used, rows := taken, rows + [row];
    }
    assert peers[..|peers|] == peers;
    FreshDiffers(rows, used, lowered, reserved);
  }
}
