/** Printer and grammar agree: Render's output is recognised under its own name and no other, holds its
    own key, and its interface section says neither more nor less than the interface's fields. */
module OwnedConfigLaws {
  import opened Options
  import opened GoStrings
  import opened OwnedConfig

  // ---- keys ----------------------------------------------------------------------------------

  predicate Alphanumeric(c: char) { IsDigit(c) || 'A' <= c <= 'Z' || 'a' <= c <= 'z' }

  /** A key as it stands at the head of a line. */
  predicate KeyShaped(k: string) { k != "" && forall i :: 0 <= i < |k| ==> Alphanumeric(k[i]) }

  lemma ShortKeysShaped(i: int)
    requires 0 <= i < 18
    ensures KeyShaped(INTERFACE_KEYS[i])
  {
  }

  lemma LongKeysShaped(i: int)
    requires 18 <= i < 23
    ensures KeyShaped(INTERFACE_KEYS[i])
  {
  }

  lemma LastKeysShaped(i: int)
    requires 23 <= i < |INTERFACE_KEYS|
    ensures KeyShaped(INTERFACE_KEYS[i])
  {
  }

  lemma InterfaceKeyShaped(i: int)
    requires 0 <= i < |INTERFACE_KEYS|
    ensures KeyShaped(INTERFACE_KEYS[i])
  {
    if i < 18 {
      ShortKeysShaped(i);
    } else if i < 23 {
      LongKeysShaped(i);
    } else {
      LastKeysShaped(i);
    }
  }

  lemma PeerKeyShaped(k: string)
    requires k in PEER_KEYS
    ensures KeyShaped(k)
  {
  }

  /** The position of a key in INTERFACE_KEYS: no key occurs twice. */
  function Rank(k: string): int {
    if k == "PrivateKey" then 0 else if k == "ListenPort" then 1 else if k == "Jc" then 2 else if k == "Jmin" then 3
    else if k == "Jmax" then 4 else if k == "S1" then 5 else if k == "S2" then 6 else if k == "S3" then 7
    else if k == "S4" then 8 else if k == "H1" then 9 else if k == "H2" then 10 else if k == "H3" then 11
    else if k == "H4" then 12 else if k == "I1" then 13 else if k == "I2" then 14 else if k == "I3" then 15
    else if k == "I4" then 16 else if k == "I5" then 17 else if k == "HeaderProtectionKey" then 18
    else if k == "ContentPaddingAddition" then 19 else if k == "RekeyAfterTime" then 20 else if k == "RekeyTimeout" then 21
    else if k == "RejectAfterTime" then 22 else if k == "KeepaliveTimeout" then 23 else if k == "MaxHandshakeAttempts" then 24
    else if k == "RandomTrailers" then 25 else 26
  }

  lemma FirstKeysRanked(i: int)
    requires 0 <= i < 14
    ensures Rank(INTERFACE_KEYS[i]) == i
  {
  }

  lemma LastKeysRanked(i: int)
    requires 14 <= i < |INTERFACE_KEYS|
    ensures Rank(INTERFACE_KEYS[i]) == i
  {
  }

  lemma KeysAreRanked(i: int)
    requires 0 <= i < |INTERFACE_KEYS|
    ensures Rank(INTERFACE_KEYS[i]) == i
  {
    if i < 14 { FirstKeysRanked(i); } else { LastKeysRanked(i); }
  }

  lemma KeyLineCuts(k: string, v: string)
    requires KeyShaped(k)
    ensures Cut(KeyLine(k, v), " = ") == CutResult(k, v, true)
    ensures KeyLine(k, v) != "" && Alphanumeric(KeyLine(k, v)[0])
  {
    CutAt(k, " = ", v);
    assert KeyLine(k, v)[0] == k[0];
  }

  lemma KeyLineInjective(k: string, v: string, l: string, u: string)
    requires KeyShaped(k) && KeyShaped(l)
    ensures KeyLine(k, v) == KeyLine(l, u) ==> k == l && v == u
  {
    KeyLineCuts(k, v);
    KeyLineCuts(l, u);
  }

  // ---- every printed line is plain -----------------------------------------------------------

  predicate PlainLines(lines: seq<string>) { forall i :: 0 <= i < |lines| ==> Plain(lines[i]) }

  predicate PlainValue(v: Option<string>) { v.Some? ==> v.value != "" && Plain(v.value) }

  predicate PlainValues(values: seq<Option<string>>) { forall i :: 0 <= i < |values| ==> PlainValue(values[i]) }

  predicate Distinct(keys: seq<string>) { forall i, j :: 0 <= i < j < |keys| ==> keys[i] != keys[j] }

  predicate Shaped(keys: seq<string>) { forall i :: 0 <= i < |keys| ==> KeyShaped(keys[i]) }

  lemma PlainAppend(a: string, b: string)
    requires Plain(a) && Plain(b)
    ensures Plain(a + b)
  {
  }

  lemma FormatIntPlain(n: int)
    ensures Plain(FormatInt(n))
  {
  }

  lemma TrimPlain(s: string)
    requires Plain(s)
    ensures Plain(TrimSpace(s))
  {
    TrimSpaceTrims(s);
    var t := TrimSpace(s);
    forall i | 0 <= i < |t| ensures t[i] >= ' ' && t[i] != 0x7f as char {
      assert t[i] in t;
    }
  }

  lemma HeaderPlain(v: string, n: int)
    requires Plain(v)
    ensures Plain(HeaderOrDefault(v, n)) && HeaderOrDefault(v, n) != ""
  {
    TrimPlain(v);
    FormatIntPlain(n);
  }

  lemma NumberFieldsPlain(inst: Instance)
    requires Renders(inst)
    ensures PlainValues(NumberFields(inst))
  {
  }

  lemma PacketFieldsPlain(o: Obfuscation31)
    requires PlainObfuscation(o)
    ensures PlainValues(HeaderFields(o)) && PlainValues(PacketFields(o))
  {
    HeaderPlain(o.h1, 1);
    HeaderPlain(o.h2, 2);
    HeaderPlain(o.h3, 3);
    HeaderPlain(o.h4, 4);
  }

  lemma PlainNine(a: Option<string>, b: Option<string>, c: Option<string>, d: Option<string>, e: Option<string>,
                  f: Option<string>, g: Option<string>, h: Option<string>, i: Option<string>)
    requires PlainValue(a) && PlainValue(b) && PlainValue(c) && PlainValue(d) && PlainValue(e)
    requires PlainValue(f) && PlainValue(g) && PlainValue(h) && PlainValue(i)
    ensures PlainValues([a, b, c, d, e, f, g, h, i])
  {
  }

  lemma DeviceFieldsPlain(o: Obfuscation31)
    requires PlainObfuscation(o)
    ensures PlainValues(DeviceFields(o))
  {
    IfTrimmedPlain(o.headerProtectionKey);
    IfTrimmedPlain(o.contentPaddingAddition);
    IfTrimmedPlain(o.rekeyAfterTime);
    IfTrimmedPlain(o.rekeyTimeout);
    IfTrimmedPlain(o.rejectAfterTime);
    IfTrimmedPlain(o.keepaliveTimeout);
    IfTrimmedPlain(o.maxHandshakeAttempts);
    PlainNine(IfTrimmed(o.headerProtectionKey), IfTrimmed(o.contentPaddingAddition), IfTrimmed(o.rekeyAfterTime),
      IfTrimmed(o.rekeyTimeout), IfTrimmed(o.rejectAfterTime), IfTrimmed(o.keepaliveTimeout),
      IfTrimmed(o.maxHandshakeAttempts), IfOn(o.randomTrailers), IfOn(o.disableCookies));
  }

  lemma IfTrimmedPlain(v: string)
    requires Plain(v)
    ensures PlainValue(IfTrimmed(v))
  {
    TrimPlain(v);
  }

  lemma PlainValuesAppend(a: seq<Option<string>>, b: seq<Option<string>>)
    requires PlainValues(a) && PlainValues(b)
    ensures PlainValues(a + b)
  {
  }

  lemma FieldsArePlain(inst: Instance)
    requires Renders(inst)
    ensures PlainValues(Fields(inst))
  {
    var o := inst.obfuscation;
    NumberFieldsPlain(inst);
    PacketFieldsPlain(o);
    DeviceFieldsPlain(o);
    PlainValuesAppend(NumberFields(inst), HeaderFields(o));
    PlainValuesAppend(NumberFields(inst) + HeaderFields(o), PacketFields(o));
    PlainValuesAppend(NumberFields(inst) + HeaderFields(o) + PacketFields(o), DeviceFields(o));
  }

  lemma KeyLinePlain(k: string, v: string)
    requires KeyShaped(k) && Plain(v)
    ensures Plain(KeyLine(k, v))
  {
  }

  lemma {:induction false} FieldLinesPlain(keys: seq<string>, values: seq<Option<string>>)
    requires |keys| == |values| && Shaped(keys) && PlainValues(values)
    ensures PlainLines(FieldLines(keys, values))
  {
    if keys != [] {
      FieldLinesPlain(keys[1..], values[1..]);
      if values[0].Some? {
        KeyLinePlain(keys[0], values[0].value);
      }
    }
  }

  lemma {:induction false} JoinPlain(ips: seq<string>)
    requires forall i :: 0 <= i < |ips| ==> Plain(ips[i])
    ensures Plain(JoinComma(ips))
    ensures ips != [] ==> (JoinComma(ips) == "" <==> ips == [""])
  {
    if |ips| > 1 {
      JoinPlain(ips[1..]);
    }
  }

  lemma PeerKeysShaped()
    ensures KeyShaped("PublicKey") && KeyShaped("PresharedKey") && KeyShaped("AllowedIPs")
  {
    PeerKeyShaped(PEER_KEYS[0]);
    PeerKeyShaped(PEER_KEYS[1]);
    PeerKeyShaped(PEER_KEYS[2]);
  }

  lemma PeerLinesPlain(p: Peer)
    requires PlainPeer(p)
    ensures PlainLines(PeerLines(p))
  {
    PeerKeysShaped();
    JoinPlain(p.allowedIPs);
    KeyLinePlain("PublicKey", p.publicKey);
    KeyLinePlain("PresharedKey", p.presharedKey);
    KeyLinePlain("AllowedIPs", JoinComma(p.allowedIPs));
  }

  lemma {:induction false} AllPeerLinesPlain(peers: seq<Peer>)
    requires forall i :: 0 <= i < |peers| ==> PlainPeer(peers[i])
    ensures PlainLines(AllPeerLines(peers))
  {
    if peers != [] {
      PeerLinesPlain(peers[0]);
      AllPeerLinesPlain(peers[1..]);
    }
  }

  lemma MarkerPlain(id: int)
    ensures Plain(Marker(OwnedName(id)))
  {
    FormatIntPlain(id);
    PlainAppend(INTERFACE_PREFIX, FormatInt(id));
    PlainAppend("# 3x-ui-owned-amneziawg: ", OwnedName(id));
  }

  lemma InterfaceKeysShaped()
    ensures Shaped(INTERFACE_KEYS)
  {
    forall i | 0 <= i < |INTERFACE_KEYS| ensures KeyShaped(INTERFACE_KEYS[i]) {
      InterfaceKeyShaped(i);
    }
  }

  lemma {:induction false} PlainHeader(marker: string, keys: seq<string>, values: seq<Option<string>>)
    requires Plain(marker) && |keys| == |values| && Shaped(keys) && PlainValues(values)
    ensures PlainLines([marker, "[Interface]"] + FieldLines(keys, values))
  {
    FieldLinesPlain(keys, values);
    var lines := [marker, "[Interface]"] + FieldLines(keys, values);
    assert forall i :: 2 <= i < |lines| ==> lines[i] == FieldLines(keys, values)[i - 2];
  }

  lemma HeaderLinesPlain(inst: Instance)
    requires Renders(inst)
    ensures PlainLines(HeaderLines(inst))
  {
    MarkerPlain(inst.id);
    InterfaceKeysShaped();
    FieldsArePlain(inst);
    PlainHeader(Marker(OwnedName(inst.id)), INTERFACE_KEYS, Fields(inst));
  }

  lemma RenderedLinesPlain(inst: Instance)
    requires Renders(inst)
    ensures PlainLines(HeaderLines(inst) + AllPeerLines(inst.peers))
  {
    HeaderLinesPlain(inst);
    AllPeerLinesPlain(inst.peers);
  }

  lemma {:induction false} PlainUnlines(lines: seq<string>)
    requires PlainLines(lines)
    ensures NoNewlines(lines) && '\r' !in Unlines(lines) && '\0' !in Unlines(lines)
  {
    if lines != [] {
      PlainUnlines(lines[1..]);
    }
  }

  // ---- the grammar accepts exactly the right renderings --------------------------------------

  lemma WalkField(all: seq<string>, k: string, v: string, rest: seq<string>)
    requires KeyShaped(k) && k in all && v != ""
    ensures Walk(all, [KeyLine(k, v)] + rest, InInterface, 1) == Walk(all, rest, InInterface, 1)
  {
    KeyLineCuts(k, v);
    assert ([KeyLine(k, v)] + rest)[1..] == rest;
  }

  lemma {:induction false} WalkFields(all: seq<string>, keys: seq<string>, values: seq<Option<string>>, rest: seq<string>)
    requires |keys| == |values| && Shaped(keys) && PlainValues(values) && forall k :: k in keys ==> k in all
    ensures Walk(all, FieldLines(keys, values) + rest, InInterface, 1) == Walk(all, rest, InInterface, 1)
    decreases |keys|
  {
    if keys == [] {
      assert FieldLines(keys, values) + rest == rest;
    } else {
      var tail := FieldLines(keys[1..], values[1..]);
      WalkFields(all, keys[1..], values[1..], rest);
      if values[0].Some? {
        assert keys[0] in keys;
        WalkField(all, keys[0], values[0].value, tail + rest);
        Associate([KeyLine(keys[0], values[0].value)], tail, rest);
      } else {
        assert [] + tail == tail;
      }
    }
  }

  lemma Associate(a: seq<string>, b: seq<string>, c: seq<string>)
    ensures (a + b) + c == a + (b + c)
  {
  }

  /** The peer's AllowedIPs line carries a value. */
  predicate Addressed(p: Peer) { Emitted(p) ==> p.allowedIPs != [""] }

  lemma WalkOne(all: seq<string>, line: string, rest: seq<string>, section: Section)
    ensures Walk(all, [line] + rest, section, 1) ==
      if line == "" then Walk(all, rest, section, 1)
      else if line[0] == '#' then section == InPeer && Walk(all, rest, section, 1)
      else if line == "[Interface]" then false
      else if line == "[Peer]" then section != Outside && Walk(all, rest, InPeer, 1)
      else GoodLine(all, line, section) && Walk(all, rest, section, 1)
  {
    assert ([line] + rest)[1..] == rest;
  }

  lemma WalkPeerKey(all: seq<string>, k: string, v: string, rest: seq<string>)
    requires k in PEER_KEYS
    ensures Walk(all, [KeyLine(k, v)] + rest, InPeer, 1) == (v != "" && Walk(all, rest, InPeer, 1))
  {
    PeerKeyShaped(k);
    KeyLineCuts(k, v);
    WalkOne(all, KeyLine(k, v), rest, InPeer);
  }

  lemma WalkPeer(all: seq<string>, p: Peer, rest: seq<string>, section: Section)
    requires PlainPeer(p) && section != Outside
    ensures Walk(all, PeerLines(p) + rest, section, 1) ==
      if Emitted(p) then Addressed(p) && Walk(all, rest, InPeer, 1) else Walk(all, rest, section, 1)
  {
    if !Emitted(p) {
      assert PeerLines(p) + rest == rest;
    } else {
      JoinPlain(p.allowedIPs);
      var d := [KeyLine("AllowedIPs", JoinComma(p.allowedIPs))] + rest;
      var c := if p.presharedKey != "" then [KeyLine("PresharedKey", p.presharedKey)] + d else d;
      var b := [KeyLine("PublicKey", p.publicKey)] + c;
      var a := if p.email != "" then ["# " + p.email] + b else b;
      assert PeerLines(p) + rest == [""] + (["[Peer]"] + a);
      WalkOne(all, "", ["[Peer]"] + a, section);
      WalkOne(all, "[Peer]", a, section);
      if p.email != "" { WalkOne(all, "# " + p.email, b, InPeer); }
      assert PEER_KEYS[0] in PEER_KEYS && PEER_KEYS[1] in PEER_KEYS && PEER_KEYS[2] in PEER_KEYS;
      WalkPeerKey(all, "PublicKey", p.publicKey, c);
      if p.presharedKey != "" { WalkPeerKey(all, "PresharedKey", p.presharedKey, d); }
      WalkPeerKey(all, "AllowedIPs", JoinComma(p.allowedIPs), rest);
    }
  }

  predicate AllAddressed(peers: seq<Peer>) { forall i :: 0 <= i < |peers| ==> Addressed(peers[i]) }

  lemma {:induction false} WalkPeers(all: seq<string>, peers: seq<Peer>, section: Section)
    requires (forall i :: 0 <= i < |peers| ==> PlainPeer(peers[i])) && section != Outside
    ensures Walk(all, AllPeerLines(peers) + [""], section, 1) == AllAddressed(peers)
  {
    if peers == [] {
      assert AllPeerLines(peers) + [""] == [""];
      WalkOne(all, "", [], section);
      assert [""] + [] == [""];
    } else {
      var rest := AllPeerLines(peers[1..]) + [""];
      assert AllPeerLines(peers) + [""] == PeerLines(peers[0]) + rest;
      WalkPeer(all, peers[0], rest, section);
      WalkPeers(all, peers[1..], if Emitted(peers[0]) then InPeer else section);
      assert AllAddressed(peers) == (Addressed(peers[0]) && AllAddressed(peers[1..]));
    }
  }

  lemma RenderedLines(inst: Instance)
    requires Renders(inst)
    ensures Split(RenderText(inst), '\n') == HeaderLines(inst) + AllPeerLines(inst.peers) + [""]
    ensures '\r' !in RenderText(inst) && '\0' !in RenderText(inst)
  {
    RenderedLinesPlain(inst);
    PlainUnlines(HeaderLines(inst) + AllPeerLines(inst.peers));
    SplitUnlines(HeaderLines(inst) + AllPeerLines(inst.peers));
  }

  lemma WalkOpens(all: seq<string>, rest: seq<string>)
    ensures Walk(all, ["[Interface]"] + rest, Outside, 0) == Walk(all, rest, InInterface, 1)
  {
    assert (["[Interface]"] + rest)[1..] == rest;
  }

  lemma AfterFirst(a: string, b: string, c: seq<string>, d: seq<string>, e: seq<string>)
    ensures ([a, b] + c + d + e)[1..] == [b] + (c + (d + e))
  {
  }

  lemma {:induction false} WalkRendered(all: seq<string>, marker: string, values: seq<Option<string>>, peers: seq<Peer>)
    requires |all| == |values| && Shaped(all) && PlainValues(values) && forall i :: 0 <= i < |peers| ==> PlainPeer(peers[i])
    ensures
      var lines := [marker, "[Interface]"] + FieldLines(all, values) + AllPeerLines(peers) + [""];
      Walk(all, lines[1..], Outside, 0) == AllAddressed(peers)
  {
    var fields, rest := FieldLines(all, values), AllPeerLines(peers) + [""];
    AfterFirst(marker, "[Interface]", fields, AllPeerLines(peers), [""]);
    WalkOpens(all, fields + rest);
    WalkFields(all, all, values, rest);
    WalkPeers(all, peers, InInterface);
  }

  lemma RenderedWalk(inst: Instance)
    requires Renders(inst)
    ensures Walk(INTERFACE_KEYS, Split(RenderText(inst), '\n')[1..], Outside, 0) == AllAddressed(inst.peers)
  {
    RenderedLines(inst);
    InterfaceKeysShaped();
    FieldsArePlain(inst);
    WalkRendered(INTERFACE_KEYS, Marker(OwnedName(inst.id)), Fields(inst), inst.peers);
  }

  lemma FirstLineIs(lines: seq<string>, m: string)
    requires NoNewlines(lines) && lines != [] && '\n' !in m
    ensures m + "\n" <= Unlines(lines) <==> lines[0] == m
  {
    var text := Unlines(lines);
    if m + "\n" <= text {
      var rest := text[|m| + 1..];
      assert text == m + ['\n'] + rest;
      SplitAppend(m, rest, '\n');
      SplitWhole(m, '\n');
      SplitUnlines(lines);
      assert Split(text, '\n')[0] == m;
    }
  }

  /** A newline-free name whose marker line opens the text is the text's own. */
  lemma MarkerIsOwn(inst: Instance, name: string)
    requires Renders(inst) && '\n' !in name
    ensures Marker(name) + "\n" <= RenderText(inst) <==> name == OwnedName(inst.id)
  {
    var lines := HeaderLines(inst) + AllPeerLines(inst.peers);
    RenderedLinesPlain(inst);
    PlainUnlines(lines);
    FirstLineIs(lines, Marker(name));
    MarkerInjective(name, OwnedName(inst.id));
  }

  lemma MarkerInjective(a: string, b: string)
    ensures Marker(a) == Marker(b) ==> a == b
  {
    assert a == Marker(a)[25..] && b == Marker(b)[25..];
  }

  /** validOwnedConfig accepts a rendering under the interface's own name and no other, unless some
      written peer's only AllowedIPs entry is empty: then the panel refuses its own file. */
  lemma RenderedIsOwnedIff(inst: Instance, name: string)
    requires Renders(inst) && '\n' !in name
    ensures ValidOwnedConfig(RenderText(inst), name) <==> name == OwnedName(inst.id) && AllAddressed(inst.peers)
  {
    MarkerIsOwn(inst, name);
    RenderedWalk(inst);
    RenderedLines(inst);
  }

  // ---- the private key -----------------------------------------------------------------------

  lemma KeyPrefixIff(k: string, v: string)
    requires KeyShaped(k)
    ensures PRIVATE_KEY <= KeyLine(k, v) <==> k == "PrivateKey"
  {
    var line := KeyLine(k, v);
    if PRIVATE_KEY <= line {
      var rest := line[|PRIVATE_KEY|..];
      assert line == KeyLine("PrivateKey", rest);
      ShortKeysShaped(0);
      KeyLineInjective(k, v, "PrivateKey", rest);
    }
    if k == "PrivateKey" {
      assert line == PRIVATE_KEY + v;
    }
  }

  /** No line of `lines` opens with the private key. */
  predicate Keyless(lines: seq<string>) { forall i :: 0 <= i < |lines| ==> !(PRIVATE_KEY <= lines[i]) }

  lemma {:induction false} ScanKeyless(lines: seq<string>, rest: seq<string>, found: string)
    requires Keyless(lines)
    ensures ScanKey(lines + rest, found) == ScanKey(rest, found)
  {
    if lines == [] {
      assert lines + rest == rest;
    } else {
      ScanKeyless(lines[1..], rest, found);
      assert (lines + rest)[1..] == lines[1..] + rest;
    }
  }

  lemma {:induction false} FieldLinesKeyless(keys: seq<string>, values: seq<Option<string>>)
    requires |keys| == |values| && Shaped(keys) && "PrivateKey" !in keys
    ensures Keyless(FieldLines(keys, values))
  {
    if keys != [] {
      FieldLinesKeyless(keys[1..], values[1..]);
      assert keys[0] in keys;
      if values[0].Some? {
        KeyPrefixIff(keys[0], values[0].value);
      }
    }
  }

  lemma PeerLinesKeyless(p: Peer)
    ensures Keyless(PeerLines(p))
  {
    PeerKeysShaped();
    KeyPrefixIff("PublicKey", p.publicKey);
    KeyPrefixIff("PresharedKey", p.presharedKey);
    KeyPrefixIff("AllowedIPs", JoinComma(p.allowedIPs));
    assert PRIVATE_KEY[0] != ("# " + p.email)[0];
    assert !(PRIVATE_KEY <= "[Peer]") by { assert PRIVATE_KEY[0] != "[Peer]"[0]; }
  }

  lemma {:induction false} AllPeerLinesKeyless(peers: seq<Peer>)
    ensures Keyless(AllPeerLines(peers))
  {
    if peers != [] {
      PeerLinesKeyless(peers[0]);
      AllPeerLinesKeyless(peers[1..]);
    }
  }

  lemma PrivateKeyOnce()
    ensures INTERFACE_KEYS[0] == "PrivateKey" && "PrivateKey" !in INTERFACE_KEYS[1..]
  {
    forall i | 0 <= i < |INTERFACE_KEYS[1..]| ensures INTERFACE_KEYS[1..][i] != "PrivateKey" {
      KeysAreRanked(i + 1);
      KeysAreRanked(0);
    }
  }

  lemma ScanAround(before: seq<string>, key: string, after: seq<string>)
    requires Keyless(before) && Keyless(after)
    ensures ScanKey(before + ([PRIVATE_KEY + key] + after), "") == Some(key)
  {
    var line := PRIVATE_KEY + key;
    ScanKeyless(before, [line] + after, "");
    assert line[|PRIVATE_KEY|..] == key && ([line] + after)[1..] == after;
    ScanKeyless(after, [], key);
    assert after + [] == after;
  }

  lemma KeylessAppend(a: seq<string>, b: seq<string>)
    requires Keyless(a) && Keyless(b)
    ensures Keyless(a + b)
  {
  }

  lemma Unkeyed(line: string)
    requires line == "" || line[0] != 'P'
    ensures Keyless([line])
  {
    assert PRIVATE_KEY[0] == 'P';
  }

  lemma Regroup(a: string, b: string, c: string, d: seq<string>, e: seq<string>, f: string)
    ensures [a, b] + ([c] + d) + e + [f] == ([a] + [b]) + ([c] + (d + (e + [f])))
  {
  }

  /** Scanning a rendering finds the instance's private key and nothing else. */
  lemma {:induction false} ScanRendered(all: seq<string>, marker: string, values: seq<Option<string>>, key: string, peers: seq<Peer>)
    requires |all| == |values| && Shaped(all) && all != [] && all[0] == "PrivateKey" && "PrivateKey" !in all[1..]
    requires values[0] == Some(key) && marker != "" && marker[0] == '#'
    ensures ScanKey([marker, "[Interface]"] + FieldLines(all, values) + AllPeerLines(peers) + [""], "") == Some(key)
  {
    var line, header := KeyLine("PrivateKey", key), "[Interface]";
    var others, blocks := FieldLines(all[1..], values[1..]), AllPeerLines(peers);
    assert header[0] == '[' && line == PRIVATE_KEY + key;
    Unkeyed(marker);
    Unkeyed(header);
    Unkeyed("");
    FieldLinesKeyless(all[1..], values[1..]);
    AllPeerLinesKeyless(peers);
    KeylessAppend([marker], [header]);
    KeylessAppend(blocks, [""]);
    KeylessAppend(others, blocks + [""]);
    ScanAround([marker] + [header], key, others + (blocks + [""]));
    assert FieldLines(all, values) == [line] + others;
    Regroup(marker, header, line, others, blocks, "");
  }

  /** configInterfacePublicKey of a rendering is the public key of the instance's private key. */
  lemma RenderedKey(inst: Instance, pub: string -> Option<string>)
    requires Renders(inst)
    ensures ConfigPublicKey(RenderText(inst), pub) == pub(inst.privateKey)
  {
    RenderedLines(inst);
    InterfaceKeysShaped();
    PrivateKeyOnce();
    var marker := Marker(OwnedName(inst.id));
    assert marker[0] == '#';
    ScanRendered(INTERFACE_KEYS, marker, Fields(inst), inst.privateKey, inst.peers);
  }

  // ---- the interface section -----------------------------------------------------------------

  const PEER_MARK := "\n[Peer]"

  predicate Unpeered(line: string) { '\n' !in line && !("[Peer]" <= line) }

  lemma MarkStartsLine(line: string, rest: string)
    requires '\n' !in line
    ensures "[Peer]" <= line + rest && (rest == "" || rest[0] == '\n') ==> "[Peer]" <= line
  {
    var s, mark := line + rest, "[Peer]";
    assert '\n' !in mark;
    assert |line| < 6 && mark <= s ==> s[|line|] == mark[|line|] && mark[|line|] in mark;
    assert |line| < |s| ==> s[|line|] == rest[0];
  }

  lemma NotMarkedTail(tail: string)
    requires tail == "" || tail[0] == '\n'
    ensures !("[Peer]" <= tail)
  {
    var mark := "[Peer]";
    assert mark[0] != '\n' && |mark| > 0;
  }

  lemma NotMarkedLine(line: string, after: string)
    requires Unpeered(line) && after != "" && after[0] == '\n'
    ensures !("[Peer]" <= line + after)
  {
    MarkStartsLine(line, after);
  }

  lemma Reassociate(a: string, b: string, c: string, d: string)
    ensures (a + b + c) + d == a + (b + (c + d))
  {
  }

  lemma {:induction false} NotMarked(lines: seq<string>, tail: string, text: string)
    requires (forall i :: 0 <= i < |lines| ==> Unpeered(lines[i])) && (tail == "" || tail[0] == '\n')
    requires text == Unlines(lines) + tail
    ensures !("[Peer]" <= text)
  {
    if lines == [] {
      assert text == tail;
      NotMarkedTail(tail);
    } else {
      var first, rest := lines[0], Unlines(lines[1..]);
      Reassociate(first, ['\n'], rest, tail);
      NotMarkedLine(first, ['\n'] + (rest + tail));
    }
  }

  lemma OccursAfter(s: string, j: nat)
    requires OccursAt(s, PEER_MARK, j)
    ensures "[Peer]" <= s[j + 1..] && s[j] == '\n'
  {
    var mark := PEER_MARK;
    assert s[j] == s[j..j + 7][0] && s[j + 1..][..6] == s[j..j + 7][1..] == mark[1..];
  }

  /** Lines that do not start a peer block contain no mark before their end. */
  lemma {:induction false} NoMarkInside(lines: seq<string>, tail: string, j: nat)
    requires (forall i :: 0 <= i < |lines| ==> Unpeered(lines[i])) && (tail == "" || tail[0] == '\n')
    requires j < |Unlines(lines)|
    ensures !OccursAt(Unlines(lines) + tail, PEER_MARK, j)
    decreases |lines|
  {
    var s, n, rest := Unlines(lines) + tail, |lines[0]|, Unlines(lines[1..]) + tail;
    assert s == lines[0] + ['\n'] + rest && s[n + 1..] == rest;
    if j < n {
      assert s[j] == lines[0][j] && lines[0][j] in lines[0];
      OccursStarts(s, PEER_MARK);
    } else if j == n {
      NotMarked(lines[1..], tail, rest);
      if OccursAt(s, PEER_MARK, j) { OccursAfter(s, j); }
    } else {
      NoMarkInside(lines[1..], tail, j - n - 1);
      ShiftOccurs(s, PEER_MARK, n + 1, j);
    }
  }

  lemma ShiftOccurs(s: string, sub: string, from: nat, j: nat)
    requires from <= j && from <= |s|
    ensures OccursAt(s, sub, j) <==> OccursAt(s[from..], sub, j - from)
  {
    if j + |sub| <= |s| {
      assert s[from..][j - from..j - from + |sub|] == s[j..j + |sub|];
    }
  }
}
