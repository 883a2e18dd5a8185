/** The importer as its callers see it: the struct ParseServerConf returns, its numbers, flags and detected
    version included, against the device the config was rendered from. */
module AwgImport {
  import opened Options
  import opened GoStrings
  import opened Json
  import opened OwnedConfig
  import opened AwgConf
  import opened AwgConfLaws
  import opened AwgConfRoundTrip

  /** `junk` holds Jc to S4, `headers` H1 to H4, `timers` the six AWG3 fields, `packets` I1 to I5. */
  datatype ServerConf = ServerConf(
    privateKey: string, listenPort: int, address: string, mtu: int, dns: string, junk: seq<int>, headers: seq<string>,
    headerProtectionKey: string, timers: seq<string>, randomTrailers: bool, disableCookies: bool, packets: seq<string>,
    peers: seq<ServerPeer>, version: string)

  /** strconv.Atoi with its error dropped: 0 for no number, the nearest int64 for one out of range. */
  function Atoi(s: string): int {
    var digits := if s != [] && (s[0] == '-' || s[0] == '+') then s[1..] else s;
    if ParseInt(s).Some? then ParseInt(s).value
    else if digits == [] || !AllDigits(digits) then 0
    else if s[0] == '-' then -MAX_INT64 - 1
    else MAX_INT64
  }

  predicate ConfBool(s: string) { Lower(TrimSpace(s)) in ["true", "yes", "1", "on"] }

  function FirstEntry(v: string): string {
    var c := Cut(v, ",");
    if c.found then TrimSpace(c.before) else v
  }

  /** The fields of KEYS from lo on. */
  function FieldsFrom(s: Parser, lo: nat, n: nat): seq<string>
    requires lo + n <= |KEYS|
  {
    seq(n, i requires 0 <= i < n => Field(s, KEYS[lo + i]))
  }

  function DetectVersion(junk: seq<int>, headers: seq<string>, protection: string, timers: seq<string>, flagged: bool,
                         packets: seq<string>): string
    requires |junk| == 7
  {
    if flagged then "3.1"
    else if protection != "" || exists t :: t in timers && !IsZero(t) then "3"
    else if junk[5] != 0 || junk[6] != 0 || (exists p :: p in packets && p != "") || (exists h :: h in headers && '-' in h) then "2"
    else "1.5"
  }

  /** What ParseServerConf returns for the parser's final state. */
  function Conf(s: Parser): ServerConf {
    var numbers := FieldsFrom(s, 5, 7);
    var junk := seq(7, i requires 0 <= i < 7 => Atoi(numbers[i]));
    var headers, timers, packets := FieldsFrom(s, 12, 4), FieldsFrom(s, 17, 6), FieldsFrom(s, 25, 5);
    var trailers, cookies := ConfBool(Field(s, KEYS[23])), ConfBool(Field(s, KEYS[24]));
    ServerConf(Field(s, KEYS[0]), Atoi(Field(s, KEYS[1])), FirstEntry(Field(s, KEYS[2])), Atoi(Field(s, KEYS[3])),
      FirstEntry(Field(s, "DNS")), junk, headers, Field(s, KEYS[16]), timers, trailers, cookies, packets, s.peers,
      DetectVersion(junk, headers, Field(s, KEYS[16]), timers, trailers || cookies, packets))
  }

  function Import(text: string): ServerConf { Conf(ParseServerConf(text)) }

  // ---- a rendering, imported -----------------------------------------------------------------

  function Gated(values: seq<string>, cond: bool): (r: seq<string>)
    ensures |r| == |values|
  {
    seq(|values|, i requires 0 <= i < |values| => if cond then values[i] else "")
  }

  function NonZero(t: string): string { if IsZero(t) then "" else t }

  /** The device itself, less what the version gates keep out of the file. */
  function Expected(h: Host, d: Device, peers: seq<PeerSpec>): ServerConf
    requires Proper(d)
  {
    var junk := [d.jc, d.jmin, d.jmax, d.s1, d.s2] + (if NormalizeVersion(d.version) == "1.5" then [0, 0] else [d.s3, d.s4]);
    var protection := if WritesAwg3(h, d) then d.headerProtectionKey else "";
    var timers := Gated(seq(6, i requires 0 <= i < 6 => NonZero(d.timers[i])), WritesAwg3(h, d));
    var packets := Gated(d.packets, WritesPackets(h, d));
    var trailers, cookies := WritesFlags(h, d) && d.randomTrailers, WritesFlags(h, d) && d.disableCookies;
    ServerConf(d.privateKey, d.port, FirstEntry(d.address), d.mtu, "", junk, d.headers, protection, timers, trailers, cookies,
      packets, seq(|peers|, i requires 0 <= i < |peers| => PeerOf(peers[i])),
      DetectVersion(junk, d.headers, protection, timers, trailers || cookies, packets))
  }

  predicate Int64(n: int) { -MAX_INT64 - 1 <= n <= MAX_INT64 }

  /** A device as the panel stores it: tidy texts, Go ints. */
  predicate Stored(d: Device) {
    TidyDevice(d) && Int64(d.port) && Int64(d.mtu) && forall i :: 0 <= i < 7 ==> Int64(Numbers(d)[i])
  }

  lemma NoDns(h: Host, d: Device, peers: seq<PeerSpec>)
    requires Proper(d) && PlainHooks(Hooks(h, d, peers))
    ensures Field(ParseServerConf(RenderServerConf(h, d, peers)), "DNS") == ""
  {
    DnsIsNoKey("DNS");
    var values := Values(h, d, peers);
    ValuesUnbroken(h, d, peers);
    Unassigned(values, peers, "DNS");
  }

  lemma DnsIsNoKey(dns: string)
    requires dns == "DNS"
    ensures dns !in KEYS
  {
    assert Rank(dns) == 31 && KEYS[31] == "PostDown";
    forall i | 0 <= i < |KEYS| ensures KEYS[i] != dns {
      KeysRanked(i);
    }
  }

  lemma Unassigned(values: seq<Option<string>>, peers: seq<PeerSpec>, key: string)
    requires |values| == |KEYS| && AllUnbroken(values) && key !in KEYS
    ensures Field(ParseServerConf(Unlines(DeviceLines(KEYS, values) + PeerBlocks(peers))), key) == ""
  {
    KeysShaped();
    ParsePrinted(KEYS, values, peers);
    AssignedElsewhere(map[], KEYS, values, key);
  }

  /** The text of a number comes back as the number; an absent one as 0. */
  lemma NumberImported(h: Host, d: Device, peers: seq<PeerSpec>, i: nat, n: int, cond: bool)
    requires Proper(d) && PlainHooks(Hooks(h, d, peers)) && i < 30 && i != 4 && Int64(n)
    requires Values(h, d, peers)[i] == If(cond, FormatInt(n))
    ensures Atoi(Field(ParseServerConf(RenderServerConf(h, d, peers)), KEYS[i])) == if cond then n else 0
  {
    RenderedParses(h, d, peers, i);
    KnownAt(i);
    NumberRead(KEYS[i], n);
  }

  lemma NameAt(h: Host, d: Device, peers: seq<PeerSpec>, i: nat)
    requires Proper(d) && i < 5
    ensures Values(h, d, peers)[i] == NameFields(d)[i]
  {
  }

  lemma FlagAt(h: Host, d: Device, peers: seq<PeerSpec>, i: nat)
    requires Proper(d) && i < 2
    ensures Values(h, d, peers)[23 + i] == FlagFields(d, WritesFlags(h, d))[i]
  {
    var a := NameFields(d) + JunkFields(d) + HeaderValues(d) + ProtectionField(h, d) + TimerFields(h, d);
    var f := FlagFields(d, WritesFlags(h, d));
    var g := PacketValues(h, d);
    assert Values(h, d, peers) == a + f + g + HookFields(Hooks(h, d, peers));
    assert |a| == 23;
  }

  lemma OnIsTrue(on: string)
    requires on == "on"
    ensures ConfBool(on) && TrimSpace(on) == on
  {
    TrimTrimmed(on);
    LowerKeeps(on);
  }

  lemma OffIsFalse()
    ensures !ConfBool("")
  {
    TrimTrimmed("");
  }

  lemma FlagImported(h: Host, d: Device, peers: seq<PeerSpec>, i: nat)
    requires Proper(d) && PlainHooks(Hooks(h, d, peers)) && i < 2
    ensures ConfBool(Field(ParseServerConf(RenderServerConf(h, d, peers)), KEYS[23 + i])) ==
      (WritesFlags(h, d) && if i == 0 then d.randomTrailers else d.disableCookies)
  {
    RenderedParses(h, d, peers, 23 + i);
    KnownAt(23 + i);
    FlagAt(h, d, peers, i);
    OnIsTrue("on");
    OffIsFalse();
  }

  lemma NamesImported(h: Host, d: Device, peers: seq<PeerSpec>)
    requires Stored(d) && PlainHooks(Hooks(h, d, peers))
    ensures
      var s := ParseServerConf(RenderServerConf(h, d, peers));
      && Field(s, KEYS[0]) == d.privateKey && Atoi(Field(s, KEYS[1])) == d.port
      && Field(s, KEYS[2]) == d.address && Atoi(Field(s, KEYS[3])) == d.mtu
  {
    forall i: nat | i < 4 ensures Values(h, d, peers)[i] == NameFields(d)[i] && KnownKey(KEYS[i]) {
      NameAt(h, d, peers, i);
      KnownAt(i);
    }
    RenderedParses(h, d, peers, 0);
    RenderedParses(h, d, peers, 2);
    TidyComesBack(d.privateKey);
    TidyComesBack(d.address);
    NumberImported(h, d, peers, 1, d.port, true);
    NumberImported(h, d, peers, 3, d.mtu, true);
  }

  lemma JunkIs(h: Host, d: Device, peers: seq<PeerSpec>, i: nat)
    requires Proper(d) && i < 7
    ensures Expected(h, d, peers).junk[i] == if i < 5 || NormalizeVersion(d.version) != "1.5" then Numbers(d)[i] else 0
  {
  }

  lemma JunkImported(h: Host, d: Device, peers: seq<PeerSpec>, i: nat)
    requires Stored(d) && PlainHooks(Hooks(h, d, peers)) && i < 7
    ensures Atoi(Field(ParseServerConf(RenderServerConf(h, d, peers)), KEYS[5 + i])) == Expected(h, d, peers).junk[i]
  {
    JunkIs(h, d, peers, i);
    JunkAt(h, d, peers, i);
    NumberImported(h, d, peers, 5 + i, Numbers(d)[i], i < 5 || NormalizeVersion(d.version) != "1.5");
  }

  /** The fields of a parser state that the expected struct is made of: single ones, then lists. */
  predicate ReadsSingles(s: Parser, e: ServerConf) {
    && Field(s, KEYS[0]) == e.privateKey && Atoi(Field(s, KEYS[1])) == e.listenPort && FirstEntry(Field(s, KEYS[2])) == e.address
    && Atoi(Field(s, KEYS[3])) == e.mtu && Field(s, "DNS") == "" && Field(s, KEYS[16]) == e.headerProtectionKey
    && ConfBool(Field(s, KEYS[23])) == e.randomTrailers && ConfBool(Field(s, KEYS[24])) == e.disableCookies && s.peers == e.peers
  }

  predicate ReadsLists(s: Parser, e: ServerConf) {
    && |e.junk| == 7 && |e.headers| == 4 && |e.timers| == 6 && |e.packets| == 5
    && (forall i :: 0 <= i < 7 ==> Atoi(Field(s, KEYS[5 + i])) == e.junk[i])
    && (forall i :: 0 <= i < 4 ==> Field(s, KEYS[12 + i]) == e.headers[i])
    && (forall i :: 0 <= i < 6 ==> Field(s, KEYS[17 + i]) == e.timers[i])
    && (forall i :: 0 <= i < 5 ==> Field(s, KEYS[25 + i]) == e.packets[i])
  }

  lemma ConfIs(s: Parser, e: ServerConf)
    requires ReadsSingles(s, e) && ReadsLists(s, e) && e.dns == ""
    requires e.version == DetectVersion(e.junk, e.headers, e.headerProtectionKey, e.timers, e.randomTrailers || e.disableCookies, e.packets)
    ensures Conf(s) == e
  {
    NoEntry();
    assert Conf(s).junk == e.junk && Conf(s).headers == e.headers && Conf(s).timers == e.timers && Conf(s).packets == e.packets;
  }

  lemma TimerImported(h: Host, d: Device, peers: seq<PeerSpec>, i: nat)
    requires Stored(d) && PlainHooks(Hooks(h, d, peers)) && i < 6
    ensures Field(ParseServerConf(RenderServerConf(h, d, peers)), KEYS[17 + i]) == Expected(h, d, peers).timers[i]
  {
    TimersComeBack(h, d, peers, i);
  }

  lemma PacketImported(h: Host, d: Device, peers: seq<PeerSpec>, i: nat)
    requires Stored(d) && PlainHooks(Hooks(h, d, peers)) && i < 5
    ensures Field(ParseServerConf(RenderServerConf(h, d, peers)), KEYS[25 + i]) == Expected(h, d, peers).packets[i]
  {
    PacketsComeBack(h, d, peers, i);
  }

  lemma PeersImported(h: Host, d: Device, peers: seq<PeerSpec>)
    requires Proper(d) && PlainHooks(Hooks(h, d, peers)) && forall i :: 0 <= i < |peers| ==> TidyPeer(peers[i])
    ensures ParseServerConf(RenderServerConf(h, d, peers)).peers == Expected(h, d, peers).peers
  {
    RenderedParses(h, d, peers, 0);
    PeersComeBack(peers);
  }

  lemma SinglesRead(h: Host, d: Device, peers: seq<PeerSpec>)
    requires Stored(d) && PlainHooks(Hooks(h, d, peers)) && forall i :: 0 <= i < |peers| ==> TidyPeer(peers[i])
    ensures ReadsSingles(ParseServerConf(RenderServerConf(h, d, peers)), Expected(h, d, peers))
  {
    NoDns(h, d, peers);
    NamesImported(h, d, peers);
    ProtectionComesBack(h, d, peers);
    FlagImported(h, d, peers, 0);
    FlagImported(h, d, peers, 1);
    PeersImported(h, d, peers);
  }

  lemma ListsRead(h: Host, d: Device, peers: seq<PeerSpec>)
    requires Stored(d) && PlainHooks(Hooks(h, d, peers))
    ensures ReadsLists(ParseServerConf(RenderServerConf(h, d, peers)), Expected(h, d, peers))
  {
    forall i: nat | i < 7 { JunkImported(h, d, peers, i); }
    forall i: nat | i < 4 { HeadersComeBack(h, d, peers, i); }
    forall i: nat | i < 6 { TimerImported(h, d, peers, i); }
    forall i: nat | i < 5 { PacketImported(h, d, peers, i); }
  }

  /** Importing what the renderer wrote gives the device back, gates aside, and every peer, in order. */
  lemma RenderedImports(h: Host, d: Device, peers: seq<PeerSpec>)
    requires Stored(d) && PlainHooks(Hooks(h, d, peers)) && forall i :: 0 <= i < |peers| ==> TidyPeer(peers[i])
    ensures Import(RenderServerConf(h, d, peers)) == Expected(h, d, peers)
  {
    SinglesRead(h, d, peers);
    ListsRead(h, d, peers);
    ConfIs(ParseServerConf(RenderServerConf(h, d, peers)), Expected(h, d, peers));
  }

  lemma NoEntry()
    ensures FirstEntry("") == ""
  {
    TrimTrimmed("");
  }

  // ---- the detected version ------------------------------------------------------------------

  function Newness(version: string): int { if version == "1.5" then 1 else if version == "2" then 2 else if version == "3" then 3 else 4 }

  predicate Ranged(headers: seq<string>) { exists h :: h in headers && '-' in h }

  lemma DetectedWithout(junk: seq<int>, headers: seq<string>, timers: seq<string>, packets: seq<string>)
    requires |junk| == 7 && (forall t :: t in timers ==> IsZero(t))
    ensures DetectVersion(junk, headers, "", timers, false, packets) in ["1.5", "2"]
    ensures junk[5] == 0 == junk[6] && (forall p :: p in packets ==> p == "") ==>
      (DetectVersion(junk, headers, "", timers, false, packets) == "2" <==> Ranged(headers))
  {
  }

  lemma Ungated(values: seq<string>)
    ensures forall v :: v in Gated(values, false) ==> v == "" && IsZero(v)
  {
    TrimTrimmed("");
  }

  lemma ExpectedIsNoNewerIff(h: Host, d: Device, peers: seq<PeerSpec>)
    requires Proper(d)
    ensures Newness(Expected(h, d, peers).version) <= Newness(NormalizeVersion(d.version)) <==>
      !(NormalizeVersion(d.version) == "1.5" && Ranged(d.headers))
  {
    var e := Expected(h, d, peers);
    if !IsAwg3Plus(d.version) {
      Ungated(seq(6, i requires 0 <= i < 6 => NonZero(d.timers[i])));
      Ungated(d.packets);
      DetectedWithout(e.junk, e.headers, e.timers, e.packets);
    }
  }

  /** The importer never takes a rendered config for a newer version than the device's own, except a 1.5 device
      with a ranged header, which it takes for version 2. */
  lemma DetectedIsNoNewerIff(h: Host, d: Device, peers: seq<PeerSpec>)
    requires Stored(d) && PlainHooks(Hooks(h, d, peers)) && forall i :: 0 <= i < |peers| ==> TidyPeer(peers[i])
    ensures Newness(Import(RenderServerConf(h, d, peers)).version) <= Newness(NormalizeVersion(d.version)) <==>
      !(NormalizeVersion(d.version) == "1.5" && Ranged(d.headers))
  {
    RenderedImports(h, d, peers);
    ExpectedIsNoNewerIff(h, d, peers);
  }
}
