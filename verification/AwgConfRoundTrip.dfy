/** What rendering and parsing, fingerprinting and stripping a user-space AWG config amount to. */
module AwgConfRoundTrip {
  import opened Options
  import opened GoStrings
  import opened Json
  import opened OwnedConfig
  import opened OwnedConfigLaws
  import opened AwgConf
  import opened AwgConfLaws
  import Sections = OwnedConfigSections

  // ---- keys and values -----------------------------------------------------------------------

  lemma FirstKeysShaped(i: int)
    requires 0 <= i < 17
    ensures KeyShaped(KEYS[i])
  {
  }

  lemma MiddleKeysShaped(i: int)
    requires 17 <= i < 22
    ensures KeyShaped(KEYS[i])
  {
  }

  lemma LastKeysShaped(i: int)
    requires 22 <= i < |KEYS|
    ensures KeyShaped(KEYS[i])
  {
  }

  lemma KeysShaped()
    ensures Shaped(KEYS)
  {
    forall i | 0 <= i < |KEYS| ensures KeyShaped(KEYS[i]) {
      if i < 17 { FirstKeysShaped(i); } else if i < 22 { MiddleKeysShaped(i); } else { LastKeysShaped(i); }
    }
  }

  /** The position of a key in KEYS. */
  function Rank(k: string): int {
    if k == "PrivateKey" then 0 else if k == "ListenPort" then 1 else if k == "Address" then 2 else if k == "MTU" then 3
    else if k == "Table" then 4 else if k == "Jc" then 5 else if k == "Jmin" then 6 else if k == "Jmax" then 7
    else if k == "S1" then 8 else if k == "S2" then 9 else if k == "S3" then 10 else if k == "S4" then 11
    else if k == "H1" then 12 else if k == "H2" then 13 else if k == "H3" then 14 else if k == "H4" then 15
    else if k == "HeaderProtectionKey" then 16 else if k == "ContentPaddingAddition" then 17 else if k == "RekeyAfterTime" then 18
    else if k == "RekeyTimeout" then 19 else if k == "RejectAfterTime" then 20 else if k == "KeepaliveTimeout" then 21
    else if k == "MaxHandshakeAttempts" then 22 else if k == "RandomTrailers" then 23 else if k == "DisableCookies" then 24
    else if k == "I1" then 25 else if k == "I2" then 26 else if k == "I3" then 27 else if k == "I4" then 28 else if k == "I5" then 29
    else if k == "PostUp" then 30 else 31
  }

  lemma FirstKeysRanked(i: int)
    requires 0 <= i < 16
    ensures Rank(KEYS[i]) == i
  {
  }

  lemma MiddleKeysRanked(i: int)
    requires 16 <= i < 24
    ensures Rank(KEYS[i]) == i
  {
  }

  lemma PacketKeysRanked(i: int)
    requires 24 <= i < 28
    ensures Rank(KEYS[i]) == i
  {
  }

  lemma LastKeysRanked(i: int)
    requires 28 <= i < |KEYS|
    ensures Rank(KEYS[i]) == i
  {
  }

  lemma KeysRanked(i: int)
    requires 0 <= i < |KEYS|
    ensures Rank(KEYS[i]) == i
  {
    if i < 16 { FirstKeysRanked(i); } else if i < 24 { MiddleKeysRanked(i); } else if i < 28 { PacketKeysRanked(i); } else { LastKeysRanked(i); }
  }

  lemma KeysDistinct()
    ensures Distinct(KEYS)
  {
    forall i, j | 0 <= i < j < |KEYS| ensures KEYS[i] != KEYS[j] {
      KeysRanked(i);
      KeysRanked(j);
    }
  }

  predicate Unbroken(v: Option<string>) { v.Some? ==> '\n' !in v.value }

  predicate AllUnbroken(values: seq<Option<string>>) { forall i :: 0 <= i < |values| ==> Unbroken(values[i]) }

  /** A value the panel stores tidily: trimmed, and nothing confValue would drop. */
  predicate Tidy(v: string) { Trimmed(v) && '\n' !in v && '\r' !in v && '\0' !in v }

  lemma {:induction false} ConfValueIs(v: string)
    ensures '\n' !in ConfValue(v)
    ensures '\n' !in v && '\r' !in v && '\0' !in v ==> ConfValue(v) == v
  {
    if v != [] {
      ConfValueIs(v[1..]);
      assert forall c :: c in v <==> c == v[0] || c in v[1..];
      assert v == [v[0]] + v[1..];
    }
  }

  lemma TidyComesBack(v: string)
    requires Tidy(v)
    ensures TrimSpace(ConfValue(v)) == v && Cleaned(v) == v
    ensures IsBlank(v) <==> v == ""
  {
    ConfValueIs(v);
    TrimTrimmed(v);
  }

  lemma EightUnbroken(a: seq<Option<string>>, b: seq<Option<string>>, c: seq<Option<string>>, d: seq<Option<string>>,
                      e: seq<Option<string>>, f: seq<Option<string>>, g: seq<Option<string>>, h: seq<Option<string>>)
    requires AllUnbroken(a) && AllUnbroken(b) && AllUnbroken(c) && AllUnbroken(d)
    requires AllUnbroken(e) && AllUnbroken(f) && AllUnbroken(g) && AllUnbroken(h)
    ensures AllUnbroken(a + b + c + d + e + f + g + h)
  {
    assert AllUnbroken(a + b + c + d);
    assert AllUnbroken(a + b + c + d + e + f);
  }

  lemma WrittenUnbroken(values: seq<string>, cond: bool, skip: string -> bool)
    ensures AllUnbroken(Written(values, cond, skip))
  {
    forall i | 0 <= i < |values| ensures Unbroken(Written(values, cond, skip)[i]) {
      ConfValueIs(values[i]);
    }
  }

  lemma NamesUnbroken(d: Device)
    ensures AllUnbroken(NameFields(d))
  {
    ConfValueIs(d.privateKey);
    ConfValueIs(d.address);
  }

  lemma NumberUnbroken(n: int)
    ensures '\n' !in FormatInt(n)
  {
  }

  lemma JunkUnbroken(d: Device)
    ensures AllUnbroken(JunkFields(d))
  {
    NumberUnbroken(d.jc);
    NumberUnbroken(d.jmin);
    NumberUnbroken(d.jmax);
    NumberUnbroken(d.s1);
    NumberUnbroken(d.s2);
    NumberUnbroken(d.s3);
    NumberUnbroken(d.s4);
  }

  predicate PlainHooks(s: Scripts) { '\n' !in s.up && '\n' !in s.down }

  lemma ValuesUnbroken(h: Host, d: Device, peers: seq<PeerSpec>)
    requires Proper(d) && PlainHooks(Hooks(h, d, peers))
    ensures AllUnbroken(Values(h, d, peers))
  {
    NamesUnbroken(d);
    JunkUnbroken(d);
    WrittenUnbroken(d.headers, true, v => IsBlank(v));
    WrittenUnbroken([d.headerProtectionKey], WritesAwg3(h, d), v => IsBlank(v));
    WrittenUnbroken(d.timers, WritesAwg3(h, d), v => IsZero(v));
    WrittenUnbroken(d.packets, WritesPackets(h, d), v => IsBlank(v));
    EightUnbroken(NameFields(d), JunkFields(d), HeaderValues(d), ProtectionField(h, d), TimerFields(h, d),
      FlagFields(d, WritesFlags(h, d)), PacketValues(h, d), HookFields(Hooks(h, d, peers)));
  }

  // ---- lines ---------------------------------------------------------------------------------

  lemma {:induction false} FieldLinesUnbroken(keys: seq<string>, values: seq<Option<string>>)
    requires |keys| == |values| && Shaped(keys) && AllUnbroken(values)
    ensures Sections.AllUnpeered(FieldLines(keys, values))
  {
    if keys != [] {
      FieldLinesUnbroken(keys[1..], values[1..]);
      if values[0].Some? {
        var line, mark := KeyLine(keys[0], values[0].value), "[Peer]";
        assert line[0] == keys[0][0] && line[0] != mark[0];
        assert '\n' !in keys[0];
      }
    }
  }

  lemma DeviceLinesUnbroken(keys: seq<string>, values: seq<Option<string>>)
    requires |keys| == |values| && Shaped(keys) && AllUnbroken(values)
    ensures Sections.AllUnpeered(DeviceLines(keys, values)) && NoNewlines(DeviceLines(keys, values))
  {
    FieldLinesUnbroken(keys, values);
    var lines, fields := DeviceLines(keys, values), FieldLines(keys, values);
    var first, second, mark := MANAGED, "[Interface]", "[Peer]";
    assert first[0] != mark[0] && second[1] != mark[1];
    assert lines[0] == first && lines[1] == second && forall i :: 2 <= i < |lines| ==> lines[i] == fields[i - 2];
    forall i | 0 <= i < |lines| ensures Unpeered(lines[i]) && '\n' !in lines[i] {
    }
  }

  lemma {:induction false} PeerBlocksUnbroken(peers: seq<PeerSpec>)
    ensures NoNewlines(PeerBlocks(peers))
    ensures PeerBlocks(peers) == [] || (|PeerBlocks(peers)| >= 2 && PeerBlocks(peers)[0] == "" && PeerBlocks(peers)[1] == "[Peer]")
  {
    if peers != [] {
      PeerBlocksUnbroken(peers[1..]);
      var p, fields := peers[0], FieldLines(PEER_FIELDS, PeerValues(peers[0]));
      PeerFieldsShaped();
      ConfValueIs(p.publicKey);
      ConfValueIs(TrimSpace(p.psk));
      ConfValueIs(TrimSpace(p.allowedIPs));
      FieldLinesUnbroken(PEER_FIELDS, PeerValues(p));
      var block := PeerBlock(p);
      assert forall i :: 2 <= i < |block| ==> block[i] == fields[i - 2];
      assert NoNewlines(block);
    }
  }

  lemma LinesOf(keys: seq<string>, values: seq<Option<string>>, peers: seq<PeerSpec>)
    requires |keys| == |values| && Shaped(keys) && AllUnbroken(values)
    ensures
      var lines := DeviceLines(keys, values) + PeerBlocks(peers);
      Split(Unlines(lines), '\n') == lines + [""]
  {
    DeviceLinesUnbroken(keys, values);
    PeerBlocksUnbroken(peers);
    SplitUnlines(DeviceLines(keys, values) + PeerBlocks(peers));
  }

  // ---- parsing a rendering -------------------------------------------------------------------

  lemma ParsePrinted(keys: seq<string>, values: seq<Option<string>>, peers: seq<PeerSpec>)
    requires |keys| == |values| && Shaped(keys) && AllUnbroken(values)
    ensures
      var s := ParseServerConf(Unlines(DeviceLines(keys, values) + PeerBlocks(peers)));
      s.iface == AssignAll(map[], keys, values) && s.peers == ReadPeers(peers)
  {
    LinesOf(keys, values, peers);
    ParseDevice(keys, values);
    ParseDeviceThen(DeviceLines(keys, values), START.(section := "interface", iface := AssignAll(map[], keys, values)), peers);
  }

  lemma ParseDeviceThen(device: seq<string>, t: Parser, peers: seq<PeerSpec>)
    requires ParseLines(START, device) == t && t.section == "interface" && t.peers == [] && t.peer == NO_PEER && !t.named
    ensures
      var s := Finish(ParseLines(START, device + PeerBlocks(peers) + [""]));
      s.iface == t.iface && s.peers == ReadPeers(peers)
  {
    var blocks := PeerBlocks(peers);
    var u := PeerBlocksAdd(t, peers);
    ParseAppend(START, device + blocks, [""]);
    ParseAppend(START, device, blocks);
    ParseOne(u, "");
    IdleLines(u);
    assert Finish(t).peers == [] && [] + ReadPeers(peers) == ReadPeers(peers);
  }

  lemma ReadBack(values: seq<Option<string>>, peers: seq<PeerSpec>, i: nat)
    requires |values| == |KEYS| && AllUnbroken(values) && i < |KEYS|
    ensures
      var s := ParseServerConf(Unlines(DeviceLines(KEYS, values) + PeerBlocks(peers)));
      Field(s, KEYS[i]) == Read(KEYS[i], values[i]) && s.peers == ReadPeers(peers)
  {
    KeysShaped();
    KeysDistinct();
    ParsePrinted(KEYS, values, peers);
    AssignedIs(map[], KEYS, values, i);
  }

  /** The importer reads back, for every key, exactly what the version gates let the renderer write, and every
      peer with a key, in order. */
  lemma RenderedParses(h: Host, d: Device, peers: seq<PeerSpec>, i: nat)
    requires Proper(d) && PlainHooks(Hooks(h, d, peers)) && i < |KEYS|
    ensures
      var s := ParseServerConf(RenderServerConf(h, d, peers));
      Field(s, KEYS[i]) == Read(KEYS[i], Values(h, d, peers)[i]) && s.peers == ReadPeers(peers)
  {
    ValuesUnbroken(h, d, peers);
    ReadBack(Values(h, d, peers), peers, i);
  }

  /** A device whose texts are all tidy. */
  predicate TidyDevice(d: Device) {
    && Proper(d) && Tidy(d.privateKey) && Tidy(d.address) && Tidy(d.headerProtectionKey)
    && (forall i :: 0 <= i < 4 ==> Tidy(d.headers[i])) && (forall i :: 0 <= i < 6 ==> Tidy(d.timers[i]))
    && (forall i :: 0 <= i < 5 ==> Tidy(d.packets[i]))
  }

  predicate TidyPeer(p: PeerSpec) { Tidy(p.publicKey) && Tidy(p.psk) && Tidy(p.allowedIPs) && p.publicKey != "" }

  lemma SevenParts(a: seq<Option<string>>, b: seq<Option<string>>, c: seq<Option<string>>, d: seq<Option<string>>,
                   e: seq<Option<string>>, f: seq<Option<string>>, g: seq<Option<string>>, h: seq<Option<string>>)
    requires |a| == 5 && |b| == 7 && |c| == 4 && |d| == 1 && |e| == 6 && |f| == 2 && |g| == 5
    ensures
      var v := a + b + c + d + e + f + g + h;
      v[5..12] == b && v[12..16] == c && v[16..17] == d && v[17..23] == e && v[25..30] == g
  {
  }

  lemma ValuesAt(h: Host, d: Device, peers: seq<PeerSpec>)
    requires Proper(d)
    ensures
      var v := Values(h, d, peers);
      && v[5..12] == JunkFields(d) && v[12..16] == HeaderValues(d) && v[16..17] == ProtectionField(h, d)
      && v[17..23] == TimerFields(h, d) && v[25..30] == PacketValues(h, d)
  {
    SevenParts(NameFields(d), JunkFields(d), HeaderValues(d), ProtectionField(h, d), TimerFields(h, d),
      FlagFields(d, WritesFlags(h, d)), PacketValues(h, d), HookFields(Hooks(h, d, peers)));
  }

  lemma ReadWritten(key: string, v: string, cond: bool)
    requires KnownKey(key) && Tidy(v)
    ensures Read(key, If(cond && !IsBlank(v), ConfValue(v))) == if cond then v else ""
    ensures Read(key, If(cond && !IsZero(v), ConfValue(v))) == if cond && !IsZero(v) then v else ""
  {
    TidyComesBack(v);
  }

  lemma KnownAt(i: nat)
    requires i < 30 && i != 4
    ensures KnownKey(KEYS[i])
  {
    KeysRanked(i);
    KeysRanked(4);
    KeysRanked(30);
    KeysRanked(31);
    assert KEYS[4] == "Table" && KEYS[30] == "PostUp" && KEYS[31] == "PostDown";
  }

  /** For tidy values, headers come back as they were. */
  lemma HeadersComeBack(h: Host, d: Device, peers: seq<PeerSpec>, i: nat)
    requires TidyDevice(d) && PlainHooks(Hooks(h, d, peers)) && i < 4
    ensures Field(ParseServerConf(RenderServerConf(h, d, peers)), KEYS[12 + i]) == d.headers[i]
  {
    var v := Values(h, d, peers);
    ValuesAt(h, d, peers);
    RenderedParses(h, d, peers, 12 + i);
    KnownAt(12 + i);
    assert v[12 + i] == v[12..16][i];
    ReadWritten(KEYS[12 + i], d.headers[i], true);
  }

  /** I packets come back where the version and the netlink budget let them be written. */
  lemma PacketsComeBack(h: Host, d: Device, peers: seq<PeerSpec>, i: nat)
    requires TidyDevice(d) && PlainHooks(Hooks(h, d, peers)) && i < 5
    ensures Field(ParseServerConf(RenderServerConf(h, d, peers)), KEYS[25 + i]) == if WritesPackets(h, d) then d.packets[i] else ""
  {
    var v := Values(h, d, peers);
    ValuesAt(h, d, peers);
    RenderedParses(h, d, peers, 25 + i);
    KnownAt(25 + i);
    assert v[25 + i] == v[25..30][i];
    ReadWritten(KEYS[25 + i], d.packets[i], WritesPackets(h, d));
  }

  /** The AWG3 timers come back where the version and the module let them be written and they are not zero. */
  lemma {:induction false} TimersComeBack(h: Host, d: Device, peers: seq<PeerSpec>, i: nat)
    requires TidyDevice(d) && PlainHooks(Hooks(h, d, peers)) && i < 6
    ensures Field(ParseServerConf(RenderServerConf(h, d, peers)), KEYS[17 + i]) ==
      if WritesAwg3(h, d) && !IsZero(d.timers[i]) then d.timers[i] else ""
  {
    var v := Values(h, d, peers);
    ValuesAt(h, d, peers);
    RenderedParses(h, d, peers, 17 + i);
    KnownAt(17 + i);
    assert v[17 + i] == v[17..23][i];
    ReadWritten(KEYS[17 + i], d.timers[i], WritesAwg3(h, d));
  }

  /** So does HeaderProtectionKey. */
  lemma ProtectionComesBack(h: Host, d: Device, peers: seq<PeerSpec>)
    requires TidyDevice(d) && PlainHooks(Hooks(h, d, peers))
    ensures Field(ParseServerConf(RenderServerConf(h, d, peers)), KEYS[16]) ==
      if WritesAwg3(h, d) then d.headerProtectionKey else ""
  {
    var v := Values(h, d, peers);
    ValuesAt(h, d, peers);
    RenderedParses(h, d, peers, 16);
    KnownAt(16);
    assert v[16] == v[16..17][0];
    ReadWritten(KEYS[16], d.headerProtectionKey, WritesAwg3(h, d));
  }

  function Numbers(d: Device): (n: seq<int>)
    ensures |n| == 7
  {
    [d.jc, d.jmin, d.jmax, d.s1, d.s2, d.s3, d.s4]
  }

  lemma NumberRead(key: string, n: int)
    requires KnownKey(key) && -MAX_INT64 - 1 <= n <= MAX_INT64
    ensures ParseInt(Read(key, Some(FormatInt(n)))) == Some(n)
  {
    ParseFormat(n);
    var s := FormatInt(n);
    assert forall c :: c in s ==> !IsSpace(c);
    assert s[0] in s && s[|s| - 1] in s;
    TrimTrimmed(s);
  }

  lemma JunkAt(h: Host, d: Device, peers: seq<PeerSpec>, i: nat)
    requires Proper(d) && i < 7
    ensures Values(h, d, peers)[5 + i] == If(i < 5 || NormalizeVersion(d.version) != "1.5", FormatInt(Numbers(d)[i]))
  {
    var v := Values(h, d, peers);
    ValuesAt(h, d, peers);
    assert v[5 + i] == v[5..12][i] == JunkFields(d)[i];
  }

  /** The junk numbers come back too, S3 and S4 from version 2 on. */
  lemma NumbersComeBack(h: Host, d: Device, peers: seq<PeerSpec>, i: nat)
    requires Proper(d) && PlainHooks(Hooks(h, d, peers)) && i < 7 && -MAX_INT64 - 1 <= Numbers(d)[i] <= MAX_INT64
    ensures
      var s := ParseServerConf(RenderServerConf(h, d, peers));
      if i < 5 || NormalizeVersion(d.version) != "1.5" then ParseInt(Field(s, KEYS[5 + i])) == Some(Numbers(d)[i])
      else Field(s, KEYS[5 + i]) == ""
  {
    JunkAt(h, d, peers, i);
    RenderedParses(h, d, peers, 5 + i);
    KnownAt(5 + i);
    NumberRead(KEYS[5 + i], Numbers(d)[i]);
  }

  function PeerOf(p: PeerSpec): ServerPeer {
    ServerPeer("", p.publicKey, p.psk, p.allowedIPs, "", "", Index(p.allowedIPs, SUSPEND_IP) >= 0, "", 0)
  }

  lemma PeerComesBack(p: PeerSpec)
    requires TidyPeer(p)
    ensures Added(ReadPeer(p)) == [PeerOf(p)]
  {
    TidyComesBack(p.publicKey);
    TidyComesBack(p.psk);
    TidyComesBack(p.allowedIPs);
  }

  /** Tidy peers come back one for one, in order. */
  lemma {:induction false} PeersComeBack(peers: seq<PeerSpec>)
    requires forall i :: 0 <= i < |peers| ==> TidyPeer(peers[i])
    ensures |ReadPeers(peers)| == |peers| && forall i :: 0 <= i < |peers| ==> ReadPeers(peers)[i] == PeerOf(peers[i])
  {
    if peers != [] {
      PeersComeBack(peers[1..]);
      PeerComesBack(peers[0]);
    }
  }

  // ---- the fingerprint -----------------------------------------------------------------------

  const BLOCK_MARK := "\n[Peer]\n"

  lemma BlocksMarked(blocks: seq<string>, mark: string)
    requires |blocks| >= 2 && blocks[0] == "" && blocks[1] == "[Peer]" && mark == BLOCK_MARK
    ensures |Unlines(blocks)| >= 8 && Unlines(blocks)[..8] == mark
  {
    var more := blocks[1..];
    assert more[0] == "[Peer]";
    var rest := Unlines(more[1..]);
    assert Unlines(more) == "[Peer]" + ['\n'] + rest;
    assert Unlines(blocks) == [] + ['\n'] + Unlines(more);
    assert Unlines(blocks) == mark + rest;
  }

  lemma {:induction false} CutAtBlocks(lines: seq<string>, blocks: seq<string>)
    requires Sections.AllUnpeered(lines)
    requires blocks == [] || (|blocks| >= 2 && blocks[0] == "" && blocks[1] == "[Peer]")
    ensures DeviceFingerprint(Unlines(lines + blocks)) == Unlines(lines)
  {
    var head, tail := Unlines(lines), Unlines(blocks);
    var text := head + tail;
    UnlinesAppend(lines, blocks);
    if blocks != [] {
      BlocksMarked(blocks, BLOCK_MARK);
      assert text[|head|..|head| + 8] == tail[..8];
    }
    forall j | 0 <= j < |head| ensures !OccursAt(text, BLOCK_MARK, j) {
      NoMarkInside(lines, tail, j);
      ShorterMark(text, j);
    }
    if blocks != [] {
      IndexIs(text, BLOCK_MARK, |head|);
      assert text[..|head|] == head;
    } else {
      assert text == head;
      assert forall j :: OccursAt(text, BLOCK_MARK, j) ==> 0 <= j < |head|;
    }
  }

  lemma ShorterMark(text: string, j: int)
    ensures OccursAt(text, BLOCK_MARK, j) ==> OccursAt(text, PEER_MARK, j)
  {
    if OccursAt(text, BLOCK_MARK, j) {
      assert text[j..j + 7] == text[j..j + 8][..7];
    }
  }

  lemma FingerprintIs(h: Host, d: Device, peers: seq<PeerSpec>)
    requires Proper(d) && PlainHooks(Hooks(h, d, peers))
    ensures DeviceFingerprint(RenderServerConf(h, d, peers)) == Unlines(DeviceLines(KEYS, Values(h, d, peers)))
  {
    KeysShaped();
    ValuesUnbroken(h, d, peers);
    DeviceLinesUnbroken(KEYS, Values(h, d, peers));
    PeerBlocksUnbroken(peers);
    CutAtBlocks(DeviceLines(KEYS, Values(h, d, peers)), PeerBlocks(peers));
  }

  lemma PrintedInjective(keys: seq<string>, f: seq<Option<string>>, g: seq<Option<string>>)
    requires |keys| == |f| == |g| && Shaped(keys) && Distinct(keys) && AllUnbroken(f) && AllUnbroken(g)
    ensures Unlines(DeviceLines(keys, f)) == Unlines(DeviceLines(keys, g)) <==> f == g
  {
    DeviceLinesUnbroken(keys, f);
    DeviceLinesUnbroken(keys, g);
    UnlinesInjective(DeviceLines(keys, f), DeviceLines(keys, g));
    if DeviceLines(keys, f) == DeviceLines(keys, g) {
      assert FieldLines(keys, f) == DeviceLines(keys, f)[2..] == FieldLines(keys, g);
      Sections.FieldLinesInjective(keys, f, g);
    }
  }

  /** Changing the peers moves the device fingerprint, and so bounces the interface, exactly when it changes
      the hooks. */
  lemma FingerprintMovesIff(h: Host, d: Device, p: seq<PeerSpec>, q: seq<PeerSpec>)
    requires Proper(d) && PlainHooks(Hooks(h, d, p)) && PlainHooks(Hooks(h, d, q))
    ensures DeviceFingerprint(RenderServerConf(h, d, p)) == DeviceFingerprint(RenderServerConf(h, d, q)) <==>
      HookFields(Hooks(h, d, p)) == HookFields(Hooks(h, d, q))
  {
    KeysShaped();
    KeysDistinct();
    ValuesUnbroken(h, d, p);
    ValuesUnbroken(h, d, q);
    FingerprintIs(h, d, p);
    FingerprintIs(h, d, q);
    PrintedInjective(KEYS, Values(h, d, p), Values(h, d, q));
    var f, g := Values(h, d, p), Values(h, d, q);
    assert HookFields(Hooks(h, d, p)) == f[30..] && HookFields(Hooks(h, d, q)) == g[30..];
    assert f[..30] == g[..30];
    assert f == f[..30] + f[30..] && g == g[..30] + g[30..];
  }

  /** So peer changes never bounce an interface that is not TPROXY, or whose peers are valid for it. */
  lemma FingerprintIgnoresPeers(h: Host, d: Device, p: seq<PeerSpec>, q: seq<PeerSpec>)
    requires Proper(d) && PlainHooks(h.scripts(d)) && (!d.tproxy || (h.tproxyOk(d, p) && h.tproxyOk(d, q)))
    ensures DeviceFingerprint(RenderServerConf(h, d, p)) == DeviceFingerprint(RenderServerConf(h, d, q))
  {
    FingerprintMovesIff(h, d, p, q);
  }

  // ---- stripping -----------------------------------------------------------------------------

  lemma {:induction false} StripByTwice(lines: seq<string>, b: bool, drop: (string, bool) -> bool, next: (string, bool) -> bool)
    requires forall l, f :: drop(l, f) ==> next(l, f) == f
    ensures StripBy(StripBy(lines, b, drop, next), b, drop, next) == StripBy(lines, b, drop, next)
    decreases |lines|
  {
    if lines != [] {
      var line, f := lines[0], next(lines[0], b);
      StripByTwice(lines[1..], f, drop, next);
      var rest := StripBy(lines[1..], f, drop, next);
      if drop(line, b) {
        assert [] + rest == rest;
      } else {
        assert ([line] + rest)[1..] == rest;
      }
    }
  }

  lemma StripTwice(lines: seq<string>, inInterface: bool)
    ensures StripLines(StripLines(lines, inInterface), inInterface) == StripLines(lines, inInterface)
  {
    StripByTwice(lines, inInterface, (l, b) => Dropped(l, b), (l, b) => SectionAfter(l, b));
  }

  lemma {:induction false} StripByKeeps(lines: seq<string>, b: bool, drop: (string, bool) -> bool, next: (string, bool) -> bool)
    ensures forall l :: l in StripBy(lines, b, drop, next) ==> l in lines
    decreases |lines|
  {
    if lines != [] {
      StripByKeeps(lines[1..], next(lines[0], b), drop, next);
    }
  }

  lemma StrippedLines(lines: seq<string>, inInterface: bool)
    requires NoNewlines(lines)
    ensures NoNewlines(StripLines(lines, inInterface))
  {
    StripByKeeps(lines, inInterface, (l, b) => Dropped(l, b), (l, b) => SectionAfter(l, b));
    var r := StripLines(lines, inInterface);
    assert forall i :: 0 <= i < |r| ==> r[i] in lines;
  }

  lemma {:induction false} SplitJoined(lines: seq<string>)
    requires lines != [] && NoNewlines(lines)
    ensures Split(JoinLines(lines), '\n') == lines
  {
    SplitWhole(lines[0], '\n');
    if |lines| > 1 {
      SplitJoined(lines[1..]);
      SplitAppend(lines[0], JoinLines(lines[1..]), '\n');
      assert JoinLines(lines) == lines[0] + ['\n'] + JoinLines(lines[1..]);
    }
  }

  lemma FirstLineStays(conf: string)
    ensures StripLines(Split(conf, '\n'), false) != []
  {
    var lines := Split(conf, '\n');
    assert !Dropped(lines[0], false);
  }

  /** Stripping twice is stripping once, for every text. */
  lemma StripIsIdempotent(conf: string)
    ensures StripAwgQuick(StripAwgQuick(conf)) == StripAwgQuick(conf)
  {
    var lines := Split(conf, '\n');
    FirstLineStays(conf);
    StrippedLines(lines, false);
    SplitJoined(StripLines(lines, false));
    StripTwice(lines, false);
  }

  predicate Quick(key: string) { Lower(key) in QUICK_KEYS }

  function Without(keys: seq<string>, values: seq<Option<string>>, quick: string -> bool): (f: seq<Option<string>>)
    requires |keys| == |values|
    ensures |f| == |values|
    ensures forall i :: 0 <= i < |values| ==> f[i] == if quick(keys[i]) then None else values[i]
  {
    if keys == [] then [] else [if quick(keys[0]) then None else values[0]] + Without(keys[1..], values[1..], quick)
  }

  /** The values of the keys awg-quick alone understands are gone. */
  function WithoutQuick(keys: seq<string>, values: seq<Option<string>>): (f: seq<Option<string>>)
    requires |keys| == |values|
    ensures |f| == |values|
  {
    Without(keys, values, k => Quick(k))
  }

  /** Cutting a printed line at a '#' cuts its value. */
  lemma CutComment(k: string, v: string) returns (kept: string)
    requires KeyShaped(k)
    ensures Cut(KeyLine(k, v), "#").before == KeyLine(k, kept)
  {
    var line, i := KeyLine(k, v), Index(KeyLine(k, v), "#");
    ShapedIsSolid(k);
    OccursStarts(line, "#");
    assert forall j :: 0 <= j < |k| ==> line[j] == k[j] && k[j] in k;
    assert line[|k|] == ' ' && line[|k| + 1] == '=' && line[|k| + 2] == ' ';
    assert i >= 0 ==> i >= |k| + 3;
    kept := if i < 0 then v else line[|k| + 3..i];
    if i >= 0 {
      assert line[..i] == line[..|k| + 3] + kept;
    }
  }

  /** What follows a '#' in the value does not change the line's key. */
  lemma PrintedLineKey(k: string, v: string)
    requires KeyShaped(k)
    ensures LineKey(KeyLine(k, v)) == k
  {
    var kept := CutComment(k, v);
    var w := TrimRight(" " + kept);
    ShapedIsSolid(k);
    TrimmedKeyLine(k, kept);
    assert k + " =" + w == (k + " ") + "=" + w;
    CutAt(k + " ", "=", w);
  }

  lemma PrintedIsKept(k: string, v: string, b: bool)
    requires KeyShaped(k)
    ensures SectionAfter(KeyLine(k, v), b) == b && (Dropped(KeyLine(k, v), b) <==> b && Quick(k))
  {
    PrintedLineKey(k, v);
    ShapedIsSolid(k);
  }

  /** The fixed lines of a rendering: the marker, the interface header, the peer header. */
  datatype Marks = Marks(managed: string, iface: string, peer: string)

  /** What the filter's tests say of a rendering's lines. */
  ghost predicate Sifts(m: Marks, quick: string -> bool, drop: (string, bool) -> bool, next: (string, bool) -> bool) {
    && (forall k, v, b :: KeyShaped(k) ==> next(KeyLine(k, v), b) == b && (drop(KeyLine(k, v), b) <==> b && quick(k)))
    && (forall b :: next("", b) == b && !drop("", b) && !next(m.peer, b) && !drop(m.peer, b))
    && !drop(m.managed, false) && !next(m.managed, false) && !drop(m.iface, false) && next(m.iface, false)
  }

  lemma WholeKey(s: string)
    requires Trimmed(s) && '#' !in s && '=' !in s
    ensures LineKey(s) == s
  {
    IndexAbsent(s, "#");
    IndexAbsent(s, "=");
    TrimTrimmed(s);
  }

  lemma CommentKey(s: string)
    requires s != "" && s[0] == '#'
    ensures LineKey(s) == ""
  {
    assert OccursAt(s, "#", 0);
    IndexIs(s, "#", 0);
    WholeKey("");
    IndexAbsent("", "=");
  }

  lemma {:induction false} LowerLength(s: string)
    ensures |Lower(s)| == |s|
  {
    if s != [] { LowerLength(s[1..]); }
  }

  lemma BlankIsKept(s: string, b: bool)
    requires LineKey(s) == ""
    ensures SectionAfter(s, b) == b && !Dropped(s, b)
  {
    assert Lower("") == "" && "" !in QUICK_KEYS;
  }

  lemma HeaderIsKept(s: string, b: bool)
    requires s != "" && s[0] == '[' && Trimmed(s) && '#' !in s && '=' !in s
    ensures SectionAfter(s, b) == EqualFold(s, INTERFACE_HEADER) && !Dropped(s, b)
  {
    WholeKey(s);
  }

  lemma ShorterHeader(s: string)
    requires |s| < |INTERFACE_HEADER|
    ensures !EqualFold(s, INTERFACE_HEADER)
  {
    LowerLength(s);
    LowerLength(INTERFACE_HEADER);
  }

  lemma BlanksSift(managed: string)
    requires managed != "" && managed[0] == '#'
    ensures !Dropped(managed, false) && !SectionAfter(managed, false)
    ensures forall b :: SectionAfter("", b) == b && !Dropped("", b)
  {
    CommentKey(managed);
    BlankIsKept(managed, false);
    WholeKey("");
    forall b ensures SectionAfter("", b) == b && !Dropped("", b) { BlankIsKept("", b); }
  }

  lemma HeadersSift(iface: string, peer: string)
    requires iface == INTERFACE_HEADER && peer == "[Peer]"
    ensures SectionAfter(iface, false) && !Dropped(iface, false)
    ensures forall b :: !SectionAfter(peer, b) && !Dropped(peer, b)
  {
    assert iface[0] == '[' && peer[0] == '[';
    HeaderIsKept(iface, false);
    ShorterHeader(peer);
    forall b ensures !SectionAfter(peer, b) && !Dropped(peer, b) { HeaderIsKept(peer, b); }
  }

  lemma PrintedSift()
    ensures forall k, v, b :: KeyShaped(k) ==>
      SectionAfter(KeyLine(k, v), b) == b && (Dropped(KeyLine(k, v), b) <==> b && Quick(k))
  {
    forall k, v, b | KeyShaped(k)
      ensures SectionAfter(KeyLine(k, v), b) == b && (Dropped(KeyLine(k, v), b) <==> b && Quick(k)) { PrintedIsKept(k, v, b); }
  }

  lemma SiftsFrom(m: Marks, quick: string -> bool, drop: (string, bool) -> bool, next: (string, bool) -> bool)
    requires forall k, v, b :: KeyShaped(k) ==> next(KeyLine(k, v), b) == b && (drop(KeyLine(k, v), b) <==> b && quick(k))
    requires forall b :: next("", b) == b && !drop("", b)
    requires forall b :: !next(m.peer, b) && !drop(m.peer, b)
    requires !drop(m.managed, false) && !next(m.managed, false) && !drop(m.iface, false) && next(m.iface, false)
    ensures Sifts(m, quick, drop, next)
  {
  }

  lemma RealFilterSifts(m: Marks)
    requires m.managed != "" && m.managed[0] == '#' && m.iface == INTERFACE_HEADER && m.peer == "[Peer]"
    ensures Sifts(m, k => Quick(k), (l, b) => Dropped(l, b), (l, b) => SectionAfter(l, b))
  {
    PrintedSift();
    BlanksSift(m.managed);
    HeadersSift(m.iface, m.peer);
    SiftsFrom(m, k => Quick(k), (l, b) => Dropped(l, b), (l, b) => SectionAfter(l, b));
  }

  lemma StripCons(line: string, rest: seq<string>, b: bool, drop: (string, bool) -> bool, next: (string, bool) -> bool)
    ensures StripBy([line] + rest, b, drop, next) == (if drop(line, b) then [] else [line]) + StripBy(rest, next(line, b), drop, next)
  {
    assert ([line] + rest)[1..] == rest;
  }

  /** Lines that do not change the section, filtered one by one. */
  function Kept(lines: seq<string>, b: bool, drop: (string, bool) -> bool): seq<string> {
    if lines == [] then [] else (if drop(lines[0], b) then [] else [lines[0]]) + Kept(lines[1..], b, drop)
  }

  predicate Stable(lines: seq<string>, b: bool, next: (string, bool) -> bool) { forall i :: 0 <= i < |lines| ==> next(lines[i], b) == b }

  lemma {:induction false} StripStable(lines: seq<string>, rest: seq<string>, b: bool, drop: (string, bool) -> bool, next: (string, bool) -> bool)
    requires Stable(lines, b, next)
    ensures StripBy(lines + rest, b, drop, next) == Kept(lines, b, drop) + StripBy(rest, b, drop, next)
    decreases |lines|
  {
    var more := StripBy(rest, b, drop, next);
    if lines == [] {
      assert lines + rest == rest && [] + more == more;
    } else {
      var first, left := if drop(lines[0], b) then [] else [lines[0]], Kept(lines[1..], b, drop);
      StripStable(lines[1..], rest, b, drop, next);
      StripCons(lines[0], lines[1..] + rest, b, drop, next);
      assert lines + rest == [lines[0]] + (lines[1..] + rest);
      Associate(first, left, more);
    }
  }

  lemma {:induction false} FieldsAreStable(m: Marks, keys: seq<string>, values: seq<Option<string>>, b: bool, quick: string -> bool,
                                           drop: (string, bool) -> bool, next: (string, bool) -> bool)
    requires |keys| == |values| && Shaped(keys) && Sifts(m, quick, drop, next)
    ensures Stable(FieldLines(keys, values), b, next)
  {
    if keys != [] {
      FieldsAreStable(m, keys[1..], values[1..], b, quick, drop, next);
      if values[0].Some? {
        assert next(KeyLine(keys[0], values[0].value), b) == b;
      }
    }
  }

  lemma {:induction false} FieldsInside(m: Marks, keys: seq<string>, values: seq<Option<string>>, quick: string -> bool,
                                        drop: (string, bool) -> bool, next: (string, bool) -> bool)
    requires |keys| == |values| && Shaped(keys) && Sifts(m, quick, drop, next)
    ensures Kept(FieldLines(keys, values), true, drop) == FieldLines(keys, Without(keys, values, quick))
    decreases |keys|
  {
    if keys != [] {
      var tail, left := FieldLines(keys[1..], values[1..]), FieldLines(keys[1..], Without(keys[1..], values[1..], quick));
      FieldsInside(m, keys[1..], values[1..], quick, drop, next);
      assert [] + tail == tail && [] + left == left;
      assert Without(keys, values, quick)[1..] == Without(keys[1..], values[1..], quick);
      if values[0].Some? {
        var line := KeyLine(keys[0], values[0].value);
        assert drop(line, true) <==> quick(keys[0]);
        assert ([line] + tail)[1..] == tail;
      }
    }
  }

  lemma {:induction false} NothingDropped(lines: seq<string>, b: bool, drop: (string, bool) -> bool)
    requires forall i :: 0 <= i < |lines| ==> !drop(lines[i], b)
    ensures Kept(lines, b, drop) == lines
  {
    if lines != [] {
      NothingDropped(lines[1..], b, drop);
      assert lines == [lines[0]] + lines[1..];
    }
  }

  lemma {:induction false} FieldsOutside(m: Marks, keys: seq<string>, values: seq<Option<string>>, quick: string -> bool,
                                         drop: (string, bool) -> bool, next: (string, bool) -> bool)
    requires |keys| == |values| && Shaped(keys) && Sifts(m, quick, drop, next)
    ensures forall i :: 0 <= i < |FieldLines(keys, values)| ==> !drop(FieldLines(keys, values)[i], false)
  {
    if keys != [] {
      FieldsOutside(m, keys[1..], values[1..], quick, drop, next);
      if values[0].Some? {
        assert !drop(KeyLine(keys[0], values[0].value), false);
      }
    }
  }

  lemma StripFieldBlock(m: Marks, keys: seq<string>, values: seq<Option<string>>, rest: seq<string>, b: bool, quick: string -> bool,
                        drop: (string, bool) -> bool, next: (string, bool) -> bool)
    requires |keys| == |values| && Shaped(keys) && Sifts(m, quick, drop, next)
    ensures StripBy(["", m.peer] + FieldLines(keys, values) + rest, b, drop, next) ==
      ["", m.peer] + FieldLines(keys, values) + StripBy(rest, false, drop, next)
  {
    var fields, more := FieldLines(keys, values), StripBy(rest, false, drop, next);
    FieldsAreStable(m, keys, values, false, quick, drop, next);
    FieldsOutside(m, keys, values, quick, drop, next);
    NothingDropped(fields, false, drop);
    StripStable(fields, rest, false, drop, next);
    StripCons(m.peer, fields + rest, b, drop, next);
    StripCons("", [m.peer] + (fields + rest), b, drop, next);
    TwoThen("", m.peer, fields, rest);
    TwoThen("", m.peer, fields, more);
  }

  lemma TwoThen(a: string, b: string, c: seq<string>, d: seq<string>)
    ensures [a, b] + c + d == [a] + ([b] + (c + d))
  {
  }

  lemma StripPeer(m: Marks, p: PeerSpec, rest: seq<string>, b: bool, quick: string -> bool,
                  drop: (string, bool) -> bool, next: (string, bool) -> bool)
    requires Sifts(m, quick, drop, next) && m.peer == "[Peer]"
    ensures StripBy(PeerBlock(p) + rest, b, drop, next) == PeerBlock(p) + StripBy(rest, false, drop, next)
  {
    PeerFieldsShaped();
    StripFieldBlock(m, PEER_FIELDS, PeerValues(p), rest, b, quick, drop, next);
  }

  lemma {:induction false} StripBlocks(m: Marks, peers: seq<PeerSpec>, b: bool, quick: string -> bool,
                                       drop: (string, bool) -> bool, next: (string, bool) -> bool)
    requires Sifts(m, quick, drop, next) && m.peer == "[Peer]"
    ensures StripBy(PeerBlocks(peers) + [""], b, drop, next) == PeerBlocks(peers) + [""]
    decreases |peers|
  {
    var end := [""];
    if peers == [] {
      assert PeerBlocks(peers) + end == end && end == [""] + [];
      StripCons("", [], b, drop, next);
    } else {
      var block, more := PeerBlock(peers[0]), PeerBlocks(peers[1..]) + end;
      StripBlocks(m, peers[1..], false, quick, drop, next);
      StripPeer(m, peers[0], more, b, quick, drop, next);
      assert PeerBlocks(peers) + end == block + more;
    }
  }

  lemma {:induction false} JoinUnlines(lines: seq<string>)
    ensures JoinLines(lines + [""]) == Unlines(lines)
  {
    if lines == [] {
      assert lines + [""] == [""];
    } else {
      JoinUnlines(lines[1..]);
      assert (lines + [""])[1..] == lines[1..] + [""];
    }
  }

  lemma StripHead(m: Marks, body: seq<string>, quick: string -> bool, drop: (string, bool) -> bool, next: (string, bool) -> bool)
    requires Sifts(m, quick, drop, next)
    ensures StripBy([m.managed, m.iface] + body, false, drop, next) == [m.managed, m.iface] + StripBy(body, true, drop, next)
  {
    var more := StripBy(body, true, drop, next);
    StripCons(m.iface, body, false, drop, next);
    StripCons(m.managed, [m.iface] + body, false, drop, next);
    assert [m.managed, m.iface] + body == [m.managed] + ([m.iface] + body);
    assert [m.managed] + ([m.iface] + more) == [m.managed, m.iface] + more;
  }

  lemma {:induction false} StripPrintedLines(m: Marks, keys: seq<string>, values: seq<Option<string>>, peers: seq<PeerSpec>, quick: string -> bool,
                          drop: (string, bool) -> bool, next: (string, bool) -> bool)
    requires |keys| == |values| && Shaped(keys) && Sifts(m, quick, drop, next) && m.peer == "[Peer]"
    ensures
      var tail := PeerBlocks(peers) + [""];
      StripBy([m.managed, m.iface] + (FieldLines(keys, values) + tail), false, drop, next) ==
      [m.managed, m.iface] + (FieldLines(keys, Without(keys, values, quick)) + tail)
  {
    var fields, tail := FieldLines(keys, values), PeerBlocks(peers) + [""];
    StripBlocks(m, peers, true, quick, drop, next);
    FieldsAreStable(m, keys, values, true, quick, drop, next);
    FieldsInside(m, keys, values, quick, drop, next);
    StripStable(fields, tail, true, drop, next);
    StripHead(m, fields + tail, quick, drop, next);
  }

  lemma Regroup(a: seq<string>, b: seq<string>, c: seq<string>, d: seq<string>)
    ensures (a + b) + c + d == a + (b + (c + d))
  {
  }

  /** Stripping a rendering takes away the awg-quick keys of the interface and nothing else. */
  lemma {:induction false} StripPrinted(keys: seq<string>, values: seq<Option<string>>, peers: seq<PeerSpec>)
    requires |keys| == |values| && Shaped(keys) && AllUnbroken(values)
    ensures StripAwgQuick(Unlines(DeviceLines(keys, values) + PeerBlocks(peers))) ==
      Unlines(DeviceLines(keys, WithoutQuick(keys, values)) + PeerBlocks(peers))
  {
    var m := Marks(MANAGED, INTERFACE_HEADER, "[Peer]");
    var blocks, end, head := PeerBlocks(peers), [""], [m.managed, m.iface];
    assert m.managed[0] == '#';
    RealFilterSifts(m);
    LinesOf(keys, values, peers);
    StripPrintedLines(m, keys, values, peers, k => Quick(k), (l, b) => Dropped(l, b), (l, b) => SectionAfter(l, b));
    Regroup(head, FieldLines(keys, values), blocks, end);
    Regroup(head, FieldLines(keys, WithoutQuick(keys, values)), blocks, end);
    JoinUnlines(DeviceLines(keys, WithoutQuick(keys, values)) + blocks);
  }

  lemma SurvivorsUnbroken(keys: seq<string>, values: seq<Option<string>>, quick: string -> bool)
    requires |keys| == |values| && AllUnbroken(values)
    ensures AllUnbroken(Without(keys, values, quick))
  {
  }

  lemma StripReadBack(values: seq<Option<string>>, peers: seq<PeerSpec>, i: nat)
    requires |values| == |KEYS| && AllUnbroken(values) && i < |KEYS|
    ensures
      var s := ParseServerConf(StripAwgQuick(Unlines(DeviceLines(KEYS, values) + PeerBlocks(peers))));
      Field(s, KEYS[i]) == Read(KEYS[i], WithoutQuick(KEYS, values)[i]) && s.peers == ReadPeers(peers)
  {
    KeysShaped();
    StripPrinted(KEYS, values, peers);
    SurvivorsUnbroken(KEYS, values, k => Quick(k));
    ReadBack(WithoutQuick(KEYS, values), peers, i);
  }

  /** What syncconf is given still reads as the same interface, without the awg-quick keys (Address and MTU
      among those the parser knows), and the same peers. */
  lemma StrippedParses(h: Host, d: Device, peers: seq<PeerSpec>, i: nat)
    requires Proper(d) && PlainHooks(Hooks(h, d, peers)) && i < |KEYS|
    ensures
      var s := ParseServerConf(StripAwgQuick(RenderServerConf(h, d, peers)));
      && Field(s, KEYS[i]) == Read(KEYS[i], WithoutQuick(KEYS, Values(h, d, peers))[i])
      && s.peers == ReadPeers(peers)
  {
    ValuesUnbroken(h, d, peers);
    StripReadBack(Values(h, d, peers), peers, i);
  }
}
