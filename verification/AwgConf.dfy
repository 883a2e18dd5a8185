/** The awg-quick server config of the user-space path: the renderer with its version gates, the importer's
    parser, and the filter that makes the text fit for syncconf. */
module AwgConf {
  import opened Options
  import opened GoStrings
  import opened Json
  import opened OwnedConfig

  // ---- rendering -----------------------------------------------------------------------------

  datatype PeerSpec = PeerSpec(publicKey: string, psk: string, allowedIPs: string)

  datatype Device = Device(
    version: string, tproxy: bool, privateKey: string, port: int, address: string, mtu: int, jc: int, jmin: int, jmax: int,
    s1: int, s2: int, s3: int, s4: int, headers: seq<string>, headerProtectionKey: string, timers: seq<string>,
    randomTrailers: bool, disableCookies: bool, packets: seq<string>)

  /** `headers` are H1-H4, `timers` the six AWG3 fields from ContentPaddingAddition on, `packets` I1-I5. */
  predicate Proper(d: Device) { |d.headers| == 4 && |d.timers| == 6 && |d.packets| == 5 }

  datatype Scripts = Scripts(up: string, down: string)

  /** The installed kernel module's and tools' reach, the netlink budget of the I fields, and the hook
      scripts a device gets; `tproxyOk` is validateTproxy. */
  datatype Host = Host(awg3: bool, awg31: bool, fits: (seq<string>, bool) -> bool, scripts: Device -> Scripts,
                       tproxyOk: (Device, seq<PeerSpec>) -> bool)

  function NormalizeVersion(v: string): string { if v in ["1.5", "2", "3", "3.1"] then v else "2" }

  predicate IsAwg3Plus(v: string) { NormalizeVersion(v) == "3" || NormalizeVersion(v) == "3.1" }

  predicate IsAwg31(v: string) { NormalizeVersion(v) == "3.1" }

  /** confValue: newlines, carriage returns and NULs are dropped. */
  function ConfValue(v: string): string {
    if v == [] then [] else (if v[0] == '\n' || v[0] == '\r' || v[0] == '\0' then [] else [v[0]]) + ConfValue(v[1..])
  }

  predicate IsZero(t: string) { TrimSpace(t) in ["", "0", "0-0"] }

  predicate IsBlank(v: string) { TrimSpace(v) == "" }

  const KEYS: seq<string> := [
    "PrivateKey", "ListenPort", "Address", "MTU", "Table", "Jc", "Jmin", "Jmax", "S1", "S2", "S3", "S4",
    "H1", "H2", "H3", "H4", "HeaderProtectionKey", "ContentPaddingAddition", "RekeyAfterTime", "RekeyTimeout",
    "RejectAfterTime", "KeepaliveTimeout", "MaxHandshakeAttempts", "RandomTrailers", "DisableCookies",
    "I1", "I2", "I3", "I4", "I5", "PostUp", "PostDown"]

  function If(cond: bool, v: string): Option<string> { if cond then Some(v) else None }

  function NameFields(d: Device): (f: seq<Option<string>>)
    ensures |f| == 5
  {
    [Some(ConfValue(d.privateKey)), Some(FormatInt(d.port)), If(d.address != "", ConfValue(d.address)), Some(FormatInt(d.mtu)), Some("off")]
  }

  function JunkFields(d: Device): (f: seq<Option<string>>)
    ensures |f| == 7
  {
    var v2 := NormalizeVersion(d.version) != "1.5";
    [Some(FormatInt(d.jc)), Some(FormatInt(d.jmin)), Some(FormatInt(d.jmax)), Some(FormatInt(d.s1)), Some(FormatInt(d.s2)),
     If(v2, FormatInt(d.s3)), If(v2, FormatInt(d.s4))]
  }

  function Written(values: seq<string>, cond: bool, skip: string -> bool): (f: seq<Option<string>>)
    ensures |f| == |values|
    ensures forall i :: 0 <= i < |values| ==> f[i] == If(cond && !skip(values[i]), ConfValue(values[i]))
  {
    if values == [] then [] else [If(cond && !skip(values[0]), ConfValue(values[0]))] + Written(values[1..], cond, skip)
  }

  function FlagFields(d: Device, on: bool): (f: seq<Option<string>>)
    ensures |f| == 2
  {
    [If(on && d.randomTrailers, "on"), If(on && d.disableCookies, "on")]
  }

  /** natPostUpPostDown: a TPROXY inbound its peers make invalid gets a hook that fails. */
  function Hooks(h: Host, d: Device, peers: seq<PeerSpec>): Scripts {
    if d.tproxy && !h.tproxyOk(d, peers) then Scripts("false", "true") else h.scripts(d)
  }

  function HookFields(s: Scripts): (f: seq<Option<string>>)
    ensures |f| == 2
  {
    [If(s.up != "", s.up), If(s.up != "", s.down)]
  }

  predicate WritesAwg3(h: Host, d: Device) { IsAwg3Plus(d.version) && h.awg3 }

  predicate WritesFlags(h: Host, d: Device) { IsAwg31(d.version) && h.awg31 }

  predicate WritesPackets(h: Host, d: Device) {
    NormalizeVersion(d.version) != "1.5" && h.fits(d.packets, !IsBlank(d.headerProtectionKey))
  }

  function HeaderValues(d: Device): (f: seq<Option<string>>)
    requires Proper(d)
    ensures |f| == 4
  {
    Written(d.headers, true, v => IsBlank(v))
  }

  function ProtectionField(h: Host, d: Device): (f: seq<Option<string>>)
    ensures |f| == 1
  {
    Written([d.headerProtectionKey], WritesAwg3(h, d), v => IsBlank(v))
  }

  function TimerFields(h: Host, d: Device): (f: seq<Option<string>>)
    requires Proper(d)
    ensures |f| == 6
  {
    Written(d.timers, WritesAwg3(h, d), v => IsZero(v))
  }

  function PacketValues(h: Host, d: Device): (f: seq<Option<string>>)
    requires Proper(d)
    ensures |f| == 5
  {
    Written(d.packets, WritesPackets(h, d), v => IsBlank(v))
  }

  /** The value renderServerConf gives each of KEYS. */
  function Values(h: Host, d: Device, peers: seq<PeerSpec>): (f: seq<Option<string>>)
    requires Proper(d)
    ensures |f| == |KEYS|
  {
    NameFields(d) + JunkFields(d) + HeaderValues(d) + ProtectionField(h, d) + TimerFields(h, d)
    + FlagFields(d, WritesFlags(h, d)) + PacketValues(h, d) + HookFields(Hooks(h, d, peers))
  }

  const MANAGED := "# Managed by x-ui - do not edit"

  function DeviceLines(keys: seq<string>, values: seq<Option<string>>): seq<string>
    requires |keys| == |values|
  {
    [MANAGED, "[Interface]"] + FieldLines(keys, values)
  }

  const PEER_FIELDS := ["PublicKey", "PresharedKey", "AllowedIPs"]

  function PeerValues(p: PeerSpec): (f: seq<Option<string>>)
    ensures |f| == |PEER_FIELDS|
  {
    [Some(ConfValue(p.publicKey)), If(!IsBlank(p.psk), ConfValue(TrimSpace(p.psk))),
     If(!IsBlank(p.allowedIPs), ConfValue(TrimSpace(p.allowedIPs)))]
  }

  function PeerBlock(p: PeerSpec): seq<string> { ["", "[Peer]"] + FieldLines(PEER_FIELDS, PeerValues(p)) }

  function PeerBlocks(peers: seq<PeerSpec>): seq<string> {
    if peers == [] then [] else PeerBlock(peers[0]) + PeerBlocks(peers[1..])
  }

  function RenderLines(h: Host, d: Device, peers: seq<PeerSpec>): seq<string>
    requires Proper(d)
  {
    DeviceLines(KEYS, Values(h, d, peers)) + PeerBlocks(peers)
  }

  /** renderServerConf. */
  function RenderServerConf(h: Host, d: Device, peers: seq<PeerSpec>): string
    requires Proper(d)
  {
    Unlines(RenderLines(h, d, peers))
  }

  /** deviceFingerprint. */
  function DeviceFingerprint(conf: string): string { Cut(conf, "\n[Peer]\n").before }

  // ---- parsing -------------------------------------------------------------------------------

  datatype ServerPeer = ServerPeer(name: string, publicKey: string, psk: string, allowedIPs: string, endpoint: string,
                                   keepalive: string, suspended: bool, origIPs: string, expiry: int)

  const NO_PEER := ServerPeer("", "", "", "", "", "", false, "", 0)

  /** The interface is the last value given to each key it knows: every struct field is a function of it. */
  datatype Parser = Parser(section: string, iface: map<string, string>, peers: seq<ServerPeer>, peer: ServerPeer, named: bool)

  const START := Parser("", map[], [], NO_PEER, false)

  predicate KnownKey(k: string) { k == "DNS" || (k in KEYS && k !in ["Table", "PostUp", "PostDown"]) }

  const SUSPEND_IP := "127.0.0.2"

  function Flush(s: Parser): Parser {
    if s.peer.publicKey == "" then s.(peer := NO_PEER, named := false)
    else
      var p := if Index(s.peer.allowedIPs, SUSPEND_IP) >= 0 then s.peer.(suspended := true) else s.peer;
      s.(peers := s.peers + [p], peer := NO_PEER, named := false)
  }

  function TrimBrackets(s: string): string {
    if s != [] && (s[0] == '[' || s[0] == ']') then TrimBrackets(s[1..])
    else if s != [] && (s[|s| - 1] == '[' || s[|s| - 1] == ']') then TrimBrackets(s[..|s| - 1])
    else s
  }

  function Uncomment(s: string): string { if s != [] && (s[0] == '#' || s[0] == ';') then Uncomment(s[1..]) else s }

  predicate HasPrefix(s: string, prefix: string) { prefix <= s }

  function Comment(s: Parser, line: string): Parser {
    var c := TrimSpace(Uncomment(line));
    if s.section != "peer" || c == "" || EqualFold(c, MANAGED[2..]) then s
    else if HasPrefix(c, "expires=") then
      var ts := ParseInt(c[8..]);
      if ts.Some? then s.(peer := s.peer.(expiry := ts.value)) else s
    else if HasPrefix(c, "orig_ips=") then s.(peer := s.peer.(origIPs := TrimSpace(c[9..])))
    else if !s.named then s.(peer := s.peer.(name := c), named := true)
    else s
  }

  function PeerKey(p: ServerPeer, key: string, val: string): ServerPeer {
    if key == "PublicKey" then p.(publicKey := val)
    else if key == "PresharedKey" then p.(psk := val)
    else if key == "AllowedIPs" then p.(allowedIPs := val)
    else if key == "Endpoint" then p.(endpoint := val)
    else if key == "PersistentKeepalive" then p.(keepalive := val)
    else p
  }

  function Assign(s: Parser, key: string, val: string): Parser {
    if s.section == "interface" then (if KnownKey(key) then s.(iface := s.iface[key := val]) else s)
    else if s.section == "peer" then s.(peer := PeerKey(s.peer, key, val))
    else s
  }

  /** One iteration of ParseServerConf's loop. */
  function ParseLine(s: Parser, raw: string): Parser {
    var line := TrimSpace(raw);
    if line == "" then s
    else if line[0] == '[' then (if s.section == "peer" then Flush(s) else s).(section := Lower(TrimBrackets(line)))
    else if line[0] == '#' || line[0] == ';' then Comment(s, line)
    else
      var c := Cut(line, "=");
      if !c.found then s else Assign(s, TrimSpace(c.before), TrimSpace(c.after))
  }

  function ParseLines(s: Parser, lines: seq<string>): Parser
    decreases |lines|
  {
    if lines == [] then s else ParseLines(ParseLine(s, lines[0]), lines[1..])
  }

  function Finish(s: Parser): Parser { if s.section == "peer" then Flush(s) else s }

  function ParseServerConf(text: string): Parser { Finish(ParseLines(START, Split(text, '\n'))) }

  function Field(s: Parser, key: string): string { if key in s.iface then s.iface[key] else "" }

  method ParseLoop(text: string) returns (s: Parser)
    ensures s == ParseServerConf(text)
  {
    var lines := Split(text, '\n');
    s := START;
    for i := 0 to |lines|
      invariant ParseLines(s, lines[i..]) == ParseLines(START, lines)
    {
      assert lines[i..][0] == lines[i] && lines[i..][1..] == lines[i + 1..];
      s := ParseLine(s, lines[i]);
    }
    assert lines[|lines|..] == [];
    s := Finish(s);
  }

  // ---- stripping -----------------------------------------------------------------------------

  const QUICK_KEYS := {"address", "mtu", "dns", "table", "preup", "predown", "postup", "postdown", "saveconfig"}

  /** What stripAwgQuick takes for a line's key: comments and everything from '=' on are cut. */
  function LineKey(line: string): string {
    var bare := TrimSpace(Cut(line, "#").before);
    var c := Cut(bare, "=");
    if c.found then TrimSpace(c.before) else bare
  }

  const INTERFACE_HEADER := "[Interface]"

  predicate IsHeader(line: string) { LineKey(line) != "" && LineKey(line)[0] == '[' }

  function SectionAfter(line: string, inInterface: bool): bool {
    if IsHeader(line) then EqualFold(LineKey(line), INTERFACE_HEADER) else inInterface
  }

  predicate Dropped(line: string, inInterface: bool) { !IsHeader(line) && inInterface && Lower(LineKey(line)) in QUICK_KEYS }

  /** The filter's loop, over the tests it makes of each line. */
  function StripBy(lines: seq<string>, inInterface: bool, drop: (string, bool) -> bool, next: (string, bool) -> bool): seq<string> {
    if lines == [] then []
    else (if drop(lines[0], inInterface) then [] else [lines[0]]) + StripBy(lines[1..], next(lines[0], inInterface), drop, next)
  }

  function StripLines(lines: seq<string>, inInterface: bool): seq<string> {
    StripBy(lines, inInterface, (l, b) => Dropped(l, b), (l, b) => SectionAfter(l, b))
  }

  /** strings.Join(lines, "\n"). */
  function JoinLines(lines: seq<string>): string {
    if lines == [] then "" else if |lines| == 1 then lines[0] else lines[0] + "\n" + JoinLines(lines[1..])
  }

  function StripAwgQuick(conf: string): string { JoinLines(StripLines(Split(conf, '\n'), false)) }

  /** stripAwgQuick's loop: a newline before every line it keeps but the first of the text. */
  method StripLoopBy(lines: seq<string>, drop: (string, bool) -> bool, next: (string, bool) -> bool) returns (b: string)
    requires lines != [] && !drop(lines[0], false)
    ensures b == JoinLines(StripBy(lines, false, drop, next))
  {
    ghost var kept: seq<string> := [];
    var inInterface := false;
    b := "";
    for i := 0 to |lines|
      invariant (i > 0 ==> kept != []) && (i == 0 ==> kept == [] && !inInterface)
      invariant b == JoinLines(kept) && kept + StripBy(lines[i..], inInterface, drop, next) == StripBy(lines, false, drop, next)
    {
      assert lines[i..][0] == lines[i] && lines[i..][1..] == lines[i + 1..];
      KeepNext(kept, lines[i..], inInterface, drop, next);
      if !drop(lines[i], inInterface) {
        b := b + (if i > 0 then "\n" else "") + lines[i];
        kept := kept + [lines[i]];
      }
      inInterface := next(lines[i], inInterface);
    }
    assert lines[|lines|..] == [] && kept + [] == kept;
  }

  lemma KeepNext(kept: seq<string>, lines: seq<string>, f: bool, drop: (string, bool) -> bool, next: (string, bool) -> bool)
    requires lines != []
    ensures
      var more := if drop(lines[0], f) then kept else kept + [lines[0]];
      more + StripBy(lines[1..], next(lines[0], f), drop, next) == kept + StripBy(lines, f, drop, next)
    ensures JoinLines(kept + [lines[0]]) == JoinLines(kept) + (if kept == [] then "" else "\n") + lines[0]
  {
    JoinSnoc(kept, lines[0]);
    var rest := StripBy(lines[1..], next(lines[0], f), drop, next);
    assert kept + ([lines[0]] + rest) == (kept + [lines[0]]) + rest && [] + rest == rest;
  }

  method StripLoop(conf: string) returns (b: string)
    ensures b == StripAwgQuick(conf)
  {
    b := StripLoopBy(Split(conf, '\n'), (l, f) => Dropped(l, f), (l, f) => SectionAfter(l, f));
  }

  lemma {:induction false} JoinSnoc(lines: seq<string>, line: string)
    ensures JoinLines(lines + [line]) == JoinLines(lines) + (if lines == [] then "" else "\n") + line
  {
    if |lines| > 1 {
      assert (lines + [line])[1..] == lines[1..] + [line];
      JoinSnoc(lines[1..], line);
    } else if |lines| == 1 {
      assert (lines + [line])[1..] == [line];
    }
  }
}
