/** The importer's parser against the renderer: every field the version gates wrote and every peer come
    back, whatever the values, and the same holds of the text stripped for syncconf. */
module AwgConfLaws {
  import opened Options
  import opened GoStrings
  import opened Json
  import opened OwnedConfig
  import opened OwnedConfigLaws
  import opened AwgConf

  // ---- trimming ------------------------------------------------------------------------------

  lemma {:induction false} TrimRightAppend(a: string, b: string)
    ensures TrimRight(a + b) == if TrimRight(b) == "" then TrimRight(a) else a + TrimRight(b)
  {
    if b == [] {
      assert a + b == a;
    } else if IsSpace(b[|b| - 1]) {
      TrimRightAppend(a, b[..|b| - 1]);
      assert (a + b)[..|a + b| - 1] == a + b[..|b| - 1];
    }
  }

  lemma {:induction false} TrimRightTwice(s: string)
    ensures TrimRight(TrimRight(s)) == TrimRight(s)
  {
    if s != [] && IsSpace(s[|s| - 1]) {
      TrimRightTwice(s[..|s| - 1]);
    }
  }

  lemma {:induction false} TrimSwap(s: string)
    ensures TrimLeft(TrimRight(s)) == TrimRight(TrimLeft(s))
  {
    if s != [] {
      var first, rest := [s[0]], s[1..];
      assert s == first + rest;
      TrimRightAppend(first, rest);
      if IsSpace(s[0]) {
        TrimSwap(rest);
        assert TrimRight(first) == "" by { assert first[..0] == []; }
        if TrimRight(rest) != "" {
          assert (first + TrimRight(rest))[1..] == TrimRight(rest);
        }
      } else {
        assert TrimRight(first) == first;
      }
    }
  }

  /** A blank in front and blanks cut behind make no difference to the trimmed value. */
  lemma TrimmedAfter(v: string)
    ensures TrimSpace(TrimRight(" " + v)) == TrimSpace(v)
  {
    assert (" " + v)[1..] == v;
    TrimSwap(" " + v);
    TrimRightTwice(TrimLeft(v));
  }

  // ---- one line ------------------------------------------------------------------------------

  lemma ShapedIsSolid(k: string)
    requires KeyShaped(k)
    ensures TrimSpace(k) == k && TrimSpace(k + " ") == k && '=' !in k && '#' !in k
    ensures !IsSpace(k[0]) && k[0] != '[' && k[0] != '#' && k[0] != ';'
  {
    assert forall i :: 0 <= i < |k| ==> !IsSpace(k[i]) && k[i] != '=' && k[i] != '#';
    TrimTrimmed(k);
    assert TrimLeft(k + " ") == k + " ";
    TrimRightAppend(k, " ");
    assert TrimRight(" ") == "" by { assert " "[..0] == ""; }
  }

  lemma TrimmedKeyLine(k: string, v: string)
    requires KeyShaped(k)
    ensures TrimSpace(KeyLine(k, v)) == k + " =" + TrimRight(" " + v)
  {
    var a, b := k + " =", " " + v;
    ShapedIsSolid(k);
    assert KeyLine(k, v) == a + b && (a + b)[0] == k[0];
    TrimRightAppend(a, b);
    assert a[|a| - 1] == '=' && TrimRight(a) == a;
    if TrimRight(b) == "" {
      assert a + "" == a;
    }
  }

  /** The parser reads a printed line as that key with the trimmed value. */
  lemma {:induction false} ParseKeyLine(s: Parser, k: string, v: string)
    requires KeyShaped(k)
    ensures ParseLine(s, KeyLine(k, v)) == Assign(s, k, TrimSpace(v))
  {
    var w := TrimRight(" " + v);
    var line := k + " =" + w;
    ShapedIsSolid(k);
    TrimmedKeyLine(k, v);
    TrimmedAfter(v);
    assert line[0] == k[0];
    assert line == (k + " ") + "=" + w;
    CutAt(k + " ", "=", w);
  }

  lemma {:induction false} ParseAppend(s: Parser, a: seq<string>, b: seq<string>)
    ensures ParseLines(s, a + b) == ParseLines(ParseLines(s, a), b)
    decreases |a|
  {
    if a == [] {
      assert a + b == b;
    } else {
      assert (a + b)[0] == a[0] && (a + b)[1..] == a[1..] + b;
      ParseAppend(ParseLine(s, a[0]), a[1..], b);
    }
  }

  lemma ParseOne(s: Parser, line: string)
    ensures ParseLines(s, [line]) == ParseLine(s, line)
  {
    assert [line][1..] == [];
  }

  // ---- the interface -------------------------------------------------------------------------

  function AssignAll(m: map<string, string>, keys: seq<string>, values: seq<Option<string>>): map<string, string>
    requires |keys| == |values|
    decreases |keys|
  {
    if keys == [] then m
    else AssignAll(if values[0].Some? && KnownKey(keys[0]) then m[keys[0] := TrimSpace(values[0].value)] else m, keys[1..], values[1..])
  }

  lemma {:induction false} ParseFields(s: Parser, keys: seq<string>, values: seq<Option<string>>)
    requires |keys| == |values| && Shaped(keys) && s.section == "interface"
    ensures ParseLines(s, FieldLines(keys, values)) == s.(iface := AssignAll(s.iface, keys, values))
    decreases |keys|
  {
    if keys != [] {
      var rest := FieldLines(keys[1..], values[1..]);
      if values[0].Some? {
        var line := KeyLine(keys[0], values[0].value);
        ParseKeyLine(s, keys[0], values[0].value);
        assert FieldLines(keys, values)[0] == line && FieldLines(keys, values)[1..] == rest;
        ParseFields(ParseLine(s, line), keys[1..], values[1..]);
      } else {
        assert FieldLines(keys, values) == rest;
        ParseFields(s, keys[1..], values[1..]);
      }
    }
  }

  /** What a key ends up with: its trimmed value, or nothing. */
  function Read(key: string, value: Option<string>): string { if value.Some? && KnownKey(key) then TrimSpace(value.value) else "" }

  function Lookup(m: map<string, string>, k: string): string { if k in m then m[k] else "" }

  lemma {:induction false} AssignedElsewhere(m: map<string, string>, keys: seq<string>, values: seq<Option<string>>, k: string)
    requires |keys| == |values| && k !in keys
    ensures Lookup(AssignAll(m, keys, values), k) == Lookup(m, k)
    decreases |keys|
  {
    if keys != [] {
      assert keys[0] in keys && forall x :: x in keys[1..] ==> x in keys;
      AssignedElsewhere(if values[0].Some? && KnownKey(keys[0]) then m[keys[0] := TrimSpace(values[0].value)] else m, keys[1..], values[1..], k);
    }
  }

  lemma {:induction false} AssignedIs(m: map<string, string>, keys: seq<string>, values: seq<Option<string>>, i: nat)
    requires |keys| == |values| && Distinct(keys) && i < |keys| && keys[i] !in m
    ensures Lookup(AssignAll(m, keys, values), keys[i]) == Read(keys[i], values[i])
    decreases |keys|
  {
    var n := if values[0].Some? && KnownKey(keys[0]) then m[keys[0] := TrimSpace(values[0].value)] else m;
    if i == 0 {
      assert keys[0] !in keys[1..];
      AssignedElsewhere(n, keys[1..], values[1..], keys[0]);
    } else {
      AssignedIs(n, keys[1..], values[1..], i - 1);
    }
  }

  lemma {:induction false} LowerKeeps(s: string)
    requires forall i :: 0 <= i < |s| ==> !('A' <= s[i] <= 'Z')
    ensures Lower(s) == s
  {
    if s != [] {
      LowerKeeps(s[1..]);
    }
  }

  /** A section header with a capitalised name. */
  lemma HeaderLine(s: Parser, line: string, initial: char, rest: string)
    requires line == "[" + ([initial] + rest) + "]" && 'A' <= initial <= 'Z' && KeyShaped([initial] + rest)
    requires forall i :: 0 <= i < |rest| ==> !('A' <= rest[i] <= 'Z')
    ensures ParseLine(s, line) ==
      (if s.section == "peer" then Flush(s) else s).(section := [(initial as int + 32) as char] + rest)
  {
    assert line[0] == '[' && line[|line| - 1] == ']';
    TrimTrimmed(line);
    BracketsTrimmed([initial] + rest);
    LowerKeeps(rest);
    assert ([initial] + rest)[1..] == rest;
  }

  lemma SectionLines(s: Parser)
    ensures ParseLine(s, "[Interface]") == (if s.section == "peer" then Flush(s) else s).(section := "interface")
    ensures ParseLine(s, "[Peer]") == (if s.section == "peer" then Flush(s) else s).(section := "peer")
  {
    InterfaceLine(s, "[Interface]", "nterface");
    PeerLine(s, "[Peer]", "eer");
  }

  lemma InterfaceLine(s: Parser, line: string, rest: string)
    requires line == "[Interface]" && rest == "nterface"
    ensures ParseLine(s, line) == (if s.section == "peer" then Flush(s) else s).(section := "interface")
  {
    assert line == "[" + (['I'] + rest) + "]" && KeyShaped(['I'] + rest);
    HeaderLine(s, line, 'I', rest);
  }

  lemma PeerLine(s: Parser, line: string, rest: string)
    requires line == "[Peer]" && rest == "eer"
    ensures ParseLine(s, line) == (if s.section == "peer" then Flush(s) else s).(section := "peer")
  {
    assert line == "[" + (['P'] + rest) + "]" && KeyShaped(['P'] + rest);
    HeaderLine(s, line, 'P', rest);
  }

  lemma IdleLines(s: Parser)
    ensures ParseLine(s, "") == s
    ensures s.section == "" ==> ParseLine(s, MANAGED) == s
  {
    var line := MANAGED;
    assert line[0] == '#' && line[|line| - 1] == 't';
    TrimTrimmed(line);
    TrimTrimmed("");
  }

  lemma BracketsTrimmed(name: string)
    requires KeyShaped(name)
    ensures TrimBrackets("[" + name + "]") == name
  {
    var s := "[" + name + "]";
    var t := name + "]";
    assert s[1..] == t && t[0] == name[0] && t[..|t| - 1] == name;
    assert TrimBrackets(name) == name;
    assert TrimBrackets(t) == TrimBrackets(name);
  }

  lemma {:induction false} ParseDevice(keys: seq<string>, values: seq<Option<string>>)
    requires |keys| == |values| && Shaped(keys)
    ensures ParseLines(START, DeviceLines(keys, values)) == START.(section := "interface", iface := AssignAll(map[], keys, values))
  {
    var fields := FieldLines(keys, values);
    SectionLines(START);
    IdleLines(START);
    ParseAppend(START, [MANAGED] + ["[Interface]"], fields);
    ParseAppend(START, [MANAGED], ["[Interface]"]);
    ParseOne(START, MANAGED);
    ParseOne(START, "[Interface]");
    assert [MANAGED] + ["[Interface]"] == [MANAGED, "[Interface]"];
    ParseFields(START.(section := "interface"), keys, values);
  }

  // ---- the peers -----------------------------------------------------------------------------

  function Cleaned(v: string): string { TrimSpace(ConfValue(TrimSpace(v))) }

  /** What one rendered peer is read as. */
  function ReadPeer(p: PeerSpec): ServerPeer {
    ServerPeer("", TrimSpace(ConfValue(p.publicKey)), Cleaned(p.psk), Cleaned(p.allowedIPs), "", "", false, "", 0)
  }

  /** All peers in order, the suspended ones marked; a peer whose key is blank has no entry. */
  function ReadPeers(peers: seq<PeerSpec>): seq<ServerPeer> {
    if peers == [] then [] else Added(ReadPeer(peers[0])) + ReadPeers(peers[1..])
  }

  predicate Clean(s: Parser) { s.section != "peer" ==> s.peer == NO_PEER && !s.named }

  lemma PeerFieldsShaped()
    ensures Shaped(PEER_FIELDS)
  {
    forall i | 0 <= i < |PEER_FIELDS| ensures KeyShaped(PEER_FIELDS[i]) {
      assert PEER_FIELDS[i] == PEER_KEYS[i];
      PeerKeyShaped(PEER_FIELDS[i]);
    }
  }

  lemma {:induction false} OptionalLine(s: Parser, key: string, written: bool, v: string)
    requires s.section == "peer" && KeyShaped(key)
    ensures ParseLines(s, FieldLines([key], [If(written, v)])) == if written then s.(peer := PeerKey(s.peer, key, TrimSpace(v))) else s
  {
    ParseKeyLine(s, key, v);
    assert [key][1..] == [] && [If(written, v)][1..] == [];
    assert FieldLines([key], [If(written, v)]) == if written then [KeyLine(key, v)] else [];
    ParseOne(s, KeyLine(key, v));
  }

  lemma {:induction false} FieldLinesAppend(k: seq<string>, v: seq<Option<string>>, l: seq<string>, w: seq<Option<string>>)
    requires |k| == |v| && |l| == |w|
    ensures FieldLines(k + l, v + w) == FieldLines(k, v) + FieldLines(l, w)
  {
    if k == [] {
      assert k + l == l && v + w == w;
    } else {
      FieldLinesAppend(k[1..], v[1..], l, w);
      assert (k + l)[1..] == k[1..] + l && (v + w)[1..] == v[1..] + w;
    }
  }

  lemma ParsePeerFields(s: Parser, p: PeerSpec)
    requires s.section == "peer" && s.peer == NO_PEER
    ensures ParseLines(s, FieldLines(PEER_FIELDS, PeerValues(p))) == s.(peer := ReadPeer(p))
  {
    PeerKeysShaped();
    var pub, psk, ips := ConfValue(p.publicKey), ConfValue(TrimSpace(p.psk)), ConfValue(TrimSpace(p.allowedIPs));
    var a, b, c := [If(true, pub)], [If(!IsBlank(p.psk), psk)], [If(!IsBlank(p.allowedIPs), ips)];
    assert PEER_FIELDS == (["PublicKey"] + ["PresharedKey"]) + ["AllowedIPs"] && PeerValues(p) == (a + b) + c;
    FieldLinesAppend(["PublicKey"] + ["PresharedKey"], a + b, ["AllowedIPs"], c);
    FieldLinesAppend(["PublicKey"], a, ["PresharedKey"], b);
    var la, lb, lc := FieldLines(["PublicKey"], a), FieldLines(["PresharedKey"], b), FieldLines(["AllowedIPs"], c);
    ParseAppend(s, la + lb, lc);
    ParseAppend(s, la, lb);
    OptionalLine(s, "PublicKey", true, pub);
    var s1 := ParseLines(s, la);
    OptionalLine(s1, "PresharedKey", !IsBlank(p.psk), psk);
    var s2 := ParseLines(s1, lb);
    OptionalLine(s2, "AllowedIPs", !IsBlank(p.allowedIPs), ips);
    TrimTrimmed("");
  }

  lemma ParsePeerBlock(s: Parser, p: PeerSpec)
    requires Clean(s)
    ensures ParseLines(s, PeerBlock(p)) == Finish(s).(section := "peer", peer := ReadPeer(p))
  {
    SectionLines(s);
    IdleLines(s);
    var head, fields := ["", "[Peer]"], FieldLines(PEER_FIELDS, PeerValues(p));
    ParseAppend(s, head, fields);
    ParseAppend(s, [""], ["[Peer]"]);
    assert [""] + ["[Peer]"] == head;
    ParseOne(s, "");
    ParseOne(s, "[Peer]");
    ParsePeerFields(Finish(s).(section := "peer"), p);
  }

  /** What a pending peer adds when the next section, or the end, flushes it. */
  function Added(p: ServerPeer): seq<ServerPeer> { Flush(START.(peer := p)).peers }

  lemma NextPeer(s: Parser, p: ServerPeer)
    requires Clean(s)
    ensures
      var t := Finish(s).(section := "peer", peer := p);
      Clean(t) && t.iface == s.iface && Finish(t).peers == Finish(s).peers + Added(p)
  {
    var t := Finish(s).(section := "peer", peer := p);
    assert t.peers + [] == t.peers;
  }

  /** `t` is where `lines` lead from s: same interface, and `own` more peers once flushed. */
  predicate Adds(s: Parser, lines: seq<string>, t: Parser, own: seq<ServerPeer>) {
    && ParseLines(s, lines) == t && Clean(t) && t.iface == s.iface
    && Finish(t).peers == Finish(s).peers + own
  }

  lemma AddsThen(s: Parser, a: seq<string>, t: Parser, own: seq<ServerPeer>, b: seq<string>, u: Parser, more: seq<ServerPeer>)
    requires Adds(s, a, t, own) && Adds(t, b, u, more)
    ensures Adds(s, a + b, u, own + more)
  {
    ParseAppend(s, a, b);
    assert (Finish(s).peers + own) + more == Finish(s).peers + (own + more);
  }

  lemma PeerBlockAdds(s: Parser, p: PeerSpec) returns (t: Parser)
    requires Clean(s)
    ensures Adds(s, PeerBlock(p), t, Added(ReadPeer(p))) && Clean(t)
  {
    t := Finish(s).(section := "peer", peer := ReadPeer(p));
    ParsePeerBlock(s, p);
    NextPeer(s, ReadPeer(p));
  }

  lemma {:induction false} PeerBlocksAdd(s: Parser, peers: seq<PeerSpec>) returns (t: Parser)
    requires Clean(s)
    ensures Adds(s, PeerBlocks(peers), t, ReadPeers(peers))
    decreases |peers|
  {
    t := s;
    if peers == [] {
      assert Finish(s).peers + [] == Finish(s).peers;
    } else {
      var u := PeerBlockAdds(s, peers[0]);
      t := PeerBlocksAdd(u, peers[1..]);
      AddsThen(s, PeerBlock(peers[0]), u, Added(ReadPeer(peers[0])), PeerBlocks(peers[1..]), t, ReadPeers(peers[1..]));
    }
  }
}
