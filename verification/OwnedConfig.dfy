/** The setconf text the kernel controller renders, and the grammar by which it recognises its own
    files: what Render prints, what validOwnedConfig accepts, where the interface section ends, and
    which private key the file holds. */
module OwnedConfig {
  import opened Options
  import opened GoStrings

  const INTERFACE_KEYS: seq<string> := [
    "PrivateKey", "ListenPort", "Jc", "Jmin", "Jmax", "S1", "S2", "S3", "S4", "H1", "H2", "H3", "H4",
    "I1", "I2", "I3", "I4", "I5", "HeaderProtectionKey", "ContentPaddingAddition", "RekeyAfterTime",
    "RekeyTimeout", "RejectAfterTime", "KeepaliveTimeout", "MaxHandshakeAttempts", "RandomTrailers", "DisableCookies"]

  const PEER_KEYS: seq<string> := ["PublicKey", "PresharedKey", "AllowedIPs"]

  datatype Obfuscation31 = Obfuscation31(
    jc: int, jmin: int, jmax: int, s1: int, s2: int, s3: int, s4: int,
    h1: string, h2: string, h3: string, h4: string,
    i1: string, i2: string, i3: string, i4: string, i5: string,
    headerProtectionKey: string, contentPaddingAddition: string, rekeyAfterTime: string, rekeyTimeout: string,
    rejectAfterTime: string, keepaliveTimeout: string, maxHandshakeAttempts: string,
    randomTrailers: bool, disableCookies: bool)

  datatype Peer = Peer(email: string, publicKey: string, presharedKey: string, allowedIPs: seq<string>)

  datatype Instance = Instance(id: int, listenPort: int, privateKey: string, obfuscation: Obfuscation31, peers: seq<Peer>)

  // ---- names ---------------------------------------------------------------------------------

  const INTERFACE_PREFIX := "xui-awg"

  function OwnedName(id: int): string { INTERFACE_PREFIX + FormatInt(id) }

  function Marker(name: string): string { "# 3x-ui-owned-amneziawg: " + name }

  lemma OwnedNameInjective(a: int, b: int)
    ensures OwnedName(a) == OwnedName(b) ==> a == b
  {
    assert OwnedName(a)[|INTERFACE_PREFIX|..] == FormatInt(a);
    assert OwnedName(b)[|INTERFACE_PREFIX|..] == FormatInt(b);
    FormatIntInjective(a, b);
  }

  function ParseOwnedInterfaceName(name: string): Option<int> {
    if !(INTERFACE_PREFIX <= name) then None
    else
      var id := ParseInt(name[|INTERFACE_PREFIX|..]);
      if id.None? || id.value <= 0 || OwnedName(id.value) != name then None else id
  }

  /** Exactly the names of positive ids parse, each to its own id. */
  lemma ParseOwnedNameIff(name: string, id: int)
    ensures ParseOwnedInterfaceName(name) == Some(id) <==> 0 < id <= MAX_INT64 && name == OwnedName(id)
  {
    if 0 < id <= MAX_INT64 && name == OwnedName(id) {
      assert name[|INTERFACE_PREFIX|..] == FormatInt(id);
      ParseFormat(id);
    }
    if ParseOwnedInterfaceName(name).Some? {
      assert ParseOwnedInterfaceName(name).value <= MAX_INT64;
    }
  }

  // ---- Render --------------------------------------------------------------------------------

  /** No control characters: what ValidateConfigValue lets through. */
  predicate Plain(s: string) { forall i :: 0 <= i < |s| ==> s[i] >= ' ' && s[i] != 0x7f as char }

  function HeaderOrDefault(v: string, n: int): string {
    var s := TrimSpace(v);
    if s != "" then s else FormatInt(n)
  }

  function IfSet(v: string): Option<string> { if v == "" then None else Some(v) }

  function IfTrimmed(v: string): Option<string> { IfSet(TrimSpace(v)) }

  function IfPositive(n: int): Option<string> { if n > 0 then Some(FormatInt(n)) else None }

  function IfOn(b: bool): Option<string> { if b then Some("on") else None }

  function NumberFields(inst: Instance): seq<Option<string>> {
    var o := inst.obfuscation;
    [Some(inst.privateKey), Some(FormatInt(inst.listenPort)),
     Some(FormatInt(o.jc)), Some(FormatInt(o.jmin)), Some(FormatInt(o.jmax)), Some(FormatInt(o.s1)), Some(FormatInt(o.s2)),
     IfPositive(o.s3), IfPositive(o.s4)]
  }

  function HeaderFields(o: Obfuscation31): seq<Option<string>> {
    [Some(HeaderOrDefault(o.h1, 1)), Some(HeaderOrDefault(o.h2, 2)), Some(HeaderOrDefault(o.h3, 3)), Some(HeaderOrDefault(o.h4, 4))]
  }

  function PacketFields(o: Obfuscation31): seq<Option<string>> {
    [IfSet(o.i1), IfSet(o.i2), IfSet(o.i3), IfSet(o.i4), IfSet(o.i5)]
  }

  function DeviceFields(o: Obfuscation31): seq<Option<string>> {
    [IfTrimmed(o.headerProtectionKey), IfTrimmed(o.contentPaddingAddition), IfTrimmed(o.rekeyAfterTime),
     IfTrimmed(o.rekeyTimeout), IfTrimmed(o.rejectAfterTime), IfTrimmed(o.keepaliveTimeout),
     IfTrimmed(o.maxHandshakeAttempts), IfOn(o.randomTrailers), IfOn(o.disableCookies)]
  }

  /** The value Render gives each of INTERFACE_KEYS, None for a line it leaves out. */
  function Fields(inst: Instance): (f: seq<Option<string>>)
    ensures |f| == |INTERFACE_KEYS|
  {
    NumberFields(inst) + HeaderFields(inst.obfuscation) + PacketFields(inst.obfuscation) + DeviceFields(inst.obfuscation)
  }

  function KeyLine(key: string, value: string): string { key + " = " + value }

  function FieldLines(keys: seq<string>, values: seq<Option<string>>): seq<string>
    requires |keys| == |values|
  {
    if keys == [] then []
    else (if values[0].Some? then [KeyLine(keys[0], values[0].value)] else []) + FieldLines(keys[1..], values[1..])
  }

  /** strings.Join(ips, ", "). */
  function JoinComma(ips: seq<string>): string {
    if ips == [] then "" else if |ips| == 1 then ips[0] else ips[0] + ", " + JoinComma(ips[1..])
  }

  predicate Emitted(p: Peer) { p.publicKey != "" && p.allowedIPs != [] }

  function PeerLines(p: Peer): seq<string> {
    if !Emitted(p) then []
    else
      ["", "[Peer]"] + (if p.email != "" then ["# " + p.email] else []) + [KeyLine("PublicKey", p.publicKey)]
      + (if p.presharedKey != "" then [KeyLine("PresharedKey", p.presharedKey)] else [])
      + [KeyLine("AllowedIPs", JoinComma(p.allowedIPs))]
  }

  function AllPeerLines(peers: seq<Peer>): seq<string> {
    if peers == [] then [] else PeerLines(peers[0]) + AllPeerLines(peers[1..])
  }

  function HeaderLines(inst: Instance): seq<string> {
    [Marker(OwnedName(inst.id)), "[Interface]"] + FieldLines(INTERFACE_KEYS, Fields(inst))
  }

  function RenderText(inst: Instance): string { Unlines(HeaderLines(inst) + AllPeerLines(inst.peers)) }

  predicate PlainObfuscation(o: Obfuscation31) {
    && Plain(o.h1) && Plain(o.h2) && Plain(o.h3) && Plain(o.h4)
    && Plain(o.i1) && Plain(o.i2) && Plain(o.i3) && Plain(o.i4) && Plain(o.i5)
    && Plain(o.headerProtectionKey) && Plain(o.contentPaddingAddition) && Plain(o.rekeyAfterTime) && Plain(o.rekeyTimeout)
    && Plain(o.rejectAfterTime) && Plain(o.keepaliveTimeout) && Plain(o.maxHandshakeAttempts)
  }

  predicate PlainPeer(p: Peer) {
    Plain(p.email) && Plain(p.publicKey) && Plain(p.presharedKey) && forall i :: 0 <= i < |p.allowedIPs| ==> Plain(p.allowedIPs[i])
  }

  /** validateConfigValues. */
  predicate ValidValues(inst: Instance) {
    Plain(inst.privateKey) && PlainObfuscation(inst.obfuscation) && forall i :: 0 <= i < |inst.peers| ==> PlainPeer(inst.peers[i])
  }

  predicate Renders(inst: Instance) { inst.privateKey != "" && ValidValues(inst) }

  // ---- reading a config back -----------------------------------------------------------------

  datatype Section = Outside | InInterface | InPeer

  /** The line loop; `keys` are the interface keys it knows. */
  function Walk(keys: seq<string>, lines: seq<string>, section: Section, count: nat): bool {
    if lines == [] then count == 1
    else
      var line, rest := lines[0], lines[1..];
      if line == "" then Walk(keys, rest, section, count)
      else if line[0] == '#' then section == InPeer && Walk(keys, rest, section, count)
      else if line == "[Interface]" then count == 0 && section == Outside && Walk(keys, rest, InInterface, count + 1)
      else if line == "[Peer]" then section != Outside && Walk(keys, rest, InPeer, count)
      else GoodLine(keys, line, section) && Walk(keys, rest, section, count)
  }

  predicate GoodLine(keys: seq<string>, line: string, section: Section) {
    var c := Cut(line, " = ");
    c.found && c.after != "" &&
    match section
    case Outside => false
    case InInterface => c.before in keys
    case InPeer => c.before in PEER_KEYS
  }

  predicate ValidOwnedConfig(config: string, name: string) {
    && Marker(name) + "\n" <= config
    && '\r' !in config && '\0' !in config
    && Walk(INTERFACE_KEYS, Split(config, '\n')[1..], Outside, 0)
  }

  /** interfaceSection: everything above the first [Peer]. */
  function InterfaceSection(config: string): string {
    var i := Index(config, "\n[Peer]");
    if i < 0 then config else config[..i]
  }

  const PRIVATE_KEY := "PrivateKey = "

  /** configInterfacePublicKey's scan: None on a second private key. */
  function ScanKey(lines: seq<string>, found: string): Option<string> {
    if lines == [] then Some(found)
    else if !(PRIVATE_KEY <= lines[0]) then ScanKey(lines[1..], found)
    else if found != "" then None
    else ScanKey(lines[1..], lines[0][|PRIVATE_KEY|..])
  }

  /** `pub` is PublicKeyFromPrivate: None for a string that is not a private key. */
  function ConfigPublicKey(config: string, pub: string -> Option<string>): Option<string> {
    var key := ScanKey(Split(config, '\n'), "");
    if key.None? then None else pub(key.value)
  }

  // ---- the code's loops ----------------------------------------------------------------------

  method ValidOwnedConfigLoop(config: string, name: string) returns (ok: bool)
    ensures ok == ValidOwnedConfig(config, name)
  {
    if !(Marker(name) + "\n" <= config) || '\r' in config || '\0' in config { return false; }
    var lines := Split(config, '\n')[1..];
    var keys := INTERFACE_KEYS;
    var section, count, i := Outside, 0, 0;
    while i < |lines|
      invariant 0 <= i <= |lines|
      invariant Walk(keys, lines, Outside, 0) == Walk(keys, lines[i..], section, count)
    {
      var line := lines[i];
      assert lines[i..][0] == line && lines[i..][1..] == lines[i + 1..];
      if line == "" {
      } else if line[0] == '#' {
        if section != InPeer { return false; }
      } else if line == "[Interface]" {
        count := count + 1;
        if count != 1 || section != Outside { return false; }
        section := InInterface;
      } else if line == "[Peer]" {
        if section == Outside { return false; }
        section := InPeer;
      } else if !GoodLine(keys, line, section) {
        return false;
      }
      i := i + 1;
    }
    ok := count == 1;
  }

  method ConfigPublicKeyLoop(config: string, pub: string -> Option<string>) returns (key: Option<string>)
    ensures key == ConfigPublicKey(config, pub)
  {
    var lines := Split(config, '\n');
    var privateKey, i := "", 0;
    while i < |lines|
      invariant 0 <= i <= |lines|
      invariant ScanKey(lines, "") == ScanKey(lines[i..], privateKey)
    {
      assert lines[i..][0] == lines[i] && lines[i..][1..] == lines[i + 1..];
      if PRIVATE_KEY <= lines[i] {
        if privateKey != "" { return None; }
        privateKey := lines[i][|PRIVATE_KEY|..];
      }
      i := i + 1;
    }
    key := pub(privateKey);
  }

  lemma AppendBlock(b: string, block: seq<string>, rest: seq<string>)
    ensures b + Unlines(block + rest) == (b + Unlines(block)) + Unlines(rest)
  {
    UnlinesAppend(block, rest);
    assert b + (Unlines(block) + Unlines(rest)) == (b + Unlines(block)) + Unlines(rest);
  }

  /** The builder's peer loop. */
  method AppendPeers(header: string, peers: seq<Peer>) returns (b: string)
    ensures b == header + Unlines(AllPeerLines(peers))
  {
    b := header;
    var i := 0;
    while i < |peers|
      invariant 0 <= i <= |peers|
      invariant b + Unlines(AllPeerLines(peers[i..])) == header + Unlines(AllPeerLines(peers))
    {
      assert peers[i..][0] == peers[i] && peers[i..][1..] == peers[i + 1..];
      AppendBlock(b, PeerLines(peers[i]), AllPeerLines(peers[i + 1..]));
      b := b + Unlines(PeerLines(peers[i]));
      i := i + 1;
    }
    assert b + [] == b;
  }

  method Render(inst: Instance) returns (text: Option<string>)
    ensures text == if Renders(inst) then Some(RenderText(inst)) else None
  {
    if !Renders(inst) { return None; }
    UnlinesAppend(HeaderLines(inst), AllPeerLines(inst.peers));
    var b := AppendPeers(Unlines(HeaderLines(inst)), inst.peers);
    text := Some(b);
  }
}
