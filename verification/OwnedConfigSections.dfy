/** The interface section of a rendering is a faithful, peer-independent image of the interface, and in
    any text the panel accepts as its own the section fixes the key: the real codec is lawful. */
module OwnedConfigSections {
  import opened Options
  import opened GoStrings
  import opened OwnedConfig
  import opened OwnedConfigLaws
  import KernelWorld
  import KernelSafety

  // ---- the section of a rendering ------------------------------------------------------------

  predicate AllUnpeered(lines: seq<string>) { forall i :: 0 <= i < |lines| ==> Unpeered(lines[i]) }

  lemma {:induction false} FieldLinesUnpeered(keys: seq<string>, values: seq<Option<string>>)
    requires |keys| == |values| && Shaped(keys) && PlainValues(values)
    ensures AllUnpeered(FieldLines(keys, values))
  {
    if keys != [] {
      FieldLinesUnpeered(keys[1..], values[1..]);
      if values[0].Some? {
        var line, mark := KeyLine(keys[0], values[0].value), "[Peer]";
        KeyLineCuts(keys[0], values[0].value);
        KeyLinePlain(keys[0], values[0].value);
        assert line[0] != mark[0];
      }
    }
  }

  lemma {:induction false} UnpeeredHeader(marker: string, keys: seq<string>, values: seq<Option<string>>)
    requires '\n' !in marker && marker != "" && marker[0] == '#'
    requires |keys| == |values| && Shaped(keys) && PlainValues(values)
    ensures AllUnpeered([marker, "[Interface]"] + FieldLines(keys, values))
  {
    FieldLinesUnpeered(keys, values);
    var lines, iface, mark := [marker, "[Interface]"] + FieldLines(keys, values), "[Interface]", "[Peer]";
    assert marker[0] != mark[0] && iface[1] != mark[1];
    assert forall i :: 2 <= i < |lines| ==> lines[i] == FieldLines(keys, values)[i - 2];
  }

  lemma HeaderUnpeered(inst: Instance)
    requires Renders(inst)
    ensures AllUnpeered(HeaderLines(inst))
  {
    MarkerPlain(inst.id);
    InterfaceKeysShaped();
    FieldsArePlain(inst);
    UnpeeredHeader(Marker(OwnedName(inst.id)), INTERFACE_KEYS, Fields(inst));
  }

  lemma {:induction false} PeerBlocksStart(peers: seq<Peer>)
    ensures
      var lines := AllPeerLines(peers);
      lines == [] || (|lines| >= 2 && lines[0] == "" && lines[1] == "[Peer]")
  {
    if peers != [] {
      PeerBlocksStart(peers[1..]);
    }
  }

  lemma BlocksMarked(blocks: seq<string>)
    requires |blocks| >= 2 && blocks[0] == "" && blocks[1] == "[Peer]"
    ensures |Unlines(blocks)| >= 7 && Unlines(blocks)[..7] == PEER_MARK
  {
    var more := blocks[1..];
    assert more[0] == "[Peer]";
    var rest := Unlines(more[1..]);
    assert Unlines(more) == "[Peer]" + ['\n'] + rest;
    assert Unlines(blocks) == [] + ['\n'] + Unlines(more);
    assert Unlines(blocks) == PEER_MARK + (['\n'] + rest);
  }

  lemma SectionEnds(lines: seq<string>, blocks: seq<string>)
    requires AllUnpeered(lines)
    requires blocks == [] || (|blocks| >= 2 && blocks[0] == "" && blocks[1] == "[Peer]")
    ensures InterfaceSection(Unlines(lines + blocks)) == Unlines(lines)
  {
    var head, tail := Unlines(lines), Unlines(blocks);
    UnlinesAppend(lines, blocks);
    if blocks == [] {
      assert head + tail == head;
    } else {
      BlocksMarked(blocks);
      assert (head + tail)[|head|..|head| + 7] == tail[..7];
    }
    forall j | 0 <= j < |head| ensures !OccursAt(head + tail, PEER_MARK, j) {
      NoMarkInside(lines, tail, j);
    }
    if blocks != [] {
      IndexIs(head + tail, PEER_MARK, |head|);
      assert (head + tail)[..|head|] == head;
    } else {
      assert forall j :: OccursAt(head + tail, PEER_MARK, j) ==> 0 <= j < |head|;
    }
  }

  /** Nothing of the peers is in the interface section. */
  lemma RenderedSection(inst: Instance)
    requires Renders(inst)
    ensures InterfaceSection(RenderText(inst)) == Unlines(HeaderLines(inst))
  {
    HeaderUnpeered(inst);
    PeerBlocksStart(inst.peers);
    SectionEnds(HeaderLines(inst), AllPeerLines(inst.peers));
  }

  // ---- the section determines the fields -----------------------------------------------------

  lemma {:induction false} FieldLinesKeyed(keys: seq<string>, values: seq<Option<string>>)
    requires |keys| == |values| && Shaped(keys)
    ensures forall i :: 0 <= i < |FieldLines(keys, values)| ==> Cut(FieldLines(keys, values)[i], " = ").before in keys
  {
    if keys != [] {
      FieldLinesKeyed(keys[1..], values[1..]);
      assert keys[0] in keys && forall k :: k in keys[1..] ==> k in keys;
      if values[0].Some? {
        KeyLineCuts(keys[0], values[0].value);
      }
    }
  }

  /** Distinct keys: the printed lines give back every value, the absent ones too. */
  lemma {:induction false} FieldLinesInjective(keys: seq<string>, f: seq<Option<string>>, g: seq<Option<string>>)
    requires |keys| == |f| == |g| && Shaped(keys) && Distinct(keys)
    requires FieldLines(keys, f) == FieldLines(keys, g)
    ensures f == g
  {
    if keys != [] {
      var fs, gs := FieldLines(keys[1..], f[1..]), FieldLines(keys[1..], g[1..]);
      FieldLinesKeyed(keys[1..], f[1..]);
      FieldLinesKeyed(keys[1..], g[1..]);
      assert keys[0] !in keys[1..];
      if f[0].Some? { KeyLineCuts(keys[0], f[0].value); }
      if g[0].Some? { KeyLineCuts(keys[0], g[0].value); }
      assert f[0].None? ==> FieldLines(keys, f) == fs;
      assert g[0].None? ==> FieldLines(keys, g) == gs;
      assert f[0].Some? ==> Cut(FieldLines(keys, f)[0], " = ") == CutResult(keys[0], f[0].value, true);
      assert g[0].Some? ==> Cut(FieldLines(keys, g)[0], " = ") == CutResult(keys[0], g[0].value, true);
      assert f[0] == g[0];
      assert f[0].Some? ==> FieldLines(keys, f)[1..] == fs && FieldLines(keys, g)[1..] == gs;
      FieldLinesInjective(keys[1..], f[1..], g[1..]);
      assert f == [f[0]] + f[1..] && g == [g[0]] + g[1..];
    }
  }

  lemma InterfaceKeysDistinct()
    ensures Distinct(INTERFACE_KEYS)
  {
    forall i, j | 0 <= i < j < |INTERFACE_KEYS| ensures INTERFACE_KEYS[i] != INTERFACE_KEYS[j] {
      KeysAreRanked(i);
      KeysAreRanked(j);
    }
  }

  /** A padding of zero or less is not written. */
  function Padding(n: int): nat { if n > 0 then n else 0 }

  predicate SameNumbers(a: Instance, b: Instance) {
    var o, q := a.obfuscation, b.obfuscation;
    && a.privateKey == b.privateKey && a.listenPort == b.listenPort
    && o.jc == q.jc && o.jmin == q.jmin && o.jmax == q.jmax && o.s1 == q.s1 && o.s2 == q.s2
    && Padding(o.s3) == Padding(q.s3) && Padding(o.s4) == Padding(q.s4)
  }

  predicate SameHeaders(o: Obfuscation31, q: Obfuscation31) {
    && HeaderOrDefault(o.h1, 1) == HeaderOrDefault(q.h1, 1) && HeaderOrDefault(o.h2, 2) == HeaderOrDefault(q.h2, 2)
    && HeaderOrDefault(o.h3, 3) == HeaderOrDefault(q.h3, 3) && HeaderOrDefault(o.h4, 4) == HeaderOrDefault(q.h4, 4)
  }

  predicate SamePackets(o: Obfuscation31, q: Obfuscation31) {
    o.i1 == q.i1 && o.i2 == q.i2 && o.i3 == q.i3 && o.i4 == q.i4 && o.i5 == q.i5
  }

  predicate SameDevice(o: Obfuscation31, q: Obfuscation31) {
    && TrimSpace(o.headerProtectionKey) == TrimSpace(q.headerProtectionKey)
    && TrimSpace(o.contentPaddingAddition) == TrimSpace(q.contentPaddingAddition)
    && TrimSpace(o.rekeyAfterTime) == TrimSpace(q.rekeyAfterTime) && TrimSpace(o.rekeyTimeout) == TrimSpace(q.rekeyTimeout)
    && TrimSpace(o.rejectAfterTime) == TrimSpace(q.rejectAfterTime)
    && TrimSpace(o.keepaliveTimeout) == TrimSpace(q.keepaliveTimeout)
    && TrimSpace(o.maxHandshakeAttempts) == TrimSpace(q.maxHandshakeAttempts)
    && o.randomTrailers == q.randomTrailers && o.disableCookies == q.disableCookies
  }

  /** The same interface once written: paddings and blanks normalised, peers not looked at. */
  predicate SameInterface(a: Instance, b: Instance) {
    && a.id == b.id && SameNumbers(a, b)
    && SameHeaders(a.obfuscation, b.obfuscation) && SamePackets(a.obfuscation, b.obfuscation)
    && SameDevice(a.obfuscation, b.obfuscation)
  }

  lemma PaddingPrinted(m: int, n: int)
    ensures IfPositive(m) == IfPositive(n) <==> Padding(m) == Padding(n)
  {
    FormatIntInjective(m, n);
  }

  lemma NumbersPrinted(a: Instance, b: Instance)
    ensures NumberFields(a) == NumberFields(b) <==> SameNumbers(a, b)
  {
    var o, q := a.obfuscation, b.obfuscation;
    FormatIntInjective(a.listenPort, b.listenPort);
    FormatIntInjective(o.jc, q.jc);
    FormatIntInjective(o.jmin, q.jmin);
    FormatIntInjective(o.jmax, q.jmax);
    FormatIntInjective(o.s1, q.s1);
    FormatIntInjective(o.s2, q.s2);
    PaddingPrinted(o.s3, q.s3);
    PaddingPrinted(o.s4, q.s4);
    var f, g := NumberFields(a), NumberFields(b);
    assert f == g ==> f[0] == g[0] && f[1] == g[1] && f[2] == g[2] && f[3] == g[3] && f[4] == g[4]
                      && f[5] == g[5] && f[6] == g[6] && f[7] == g[7] && f[8] == g[8];
  }

  lemma HeadersPrinted(o: Obfuscation31, q: Obfuscation31)
    ensures HeaderFields(o) == HeaderFields(q) <==> SameHeaders(o, q)
  {
    var f, g := HeaderFields(o), HeaderFields(q);
    assert f == g ==> f[0] == g[0] && f[1] == g[1] && f[2] == g[2] && f[3] == g[3];
  }

  lemma PacketsPrinted(o: Obfuscation31, q: Obfuscation31)
    ensures PacketFields(o) == PacketFields(q) <==> SamePackets(o, q)
  {
    var f, g := PacketFields(o), PacketFields(q);
    assert f == g ==> f[0] == g[0] && f[1] == g[1] && f[2] == g[2] && f[3] == g[3] && f[4] == g[4];
  }

  lemma DevicePrinted(o: Obfuscation31, q: Obfuscation31)
    ensures DeviceFields(o) == DeviceFields(q) <==> SameDevice(o, q)
  {
    var f, g := DeviceFields(o), DeviceFields(q);
    assert f == g ==> f[0] == g[0] && f[1] == g[1] && f[2] == g[2] && f[3] == g[3] && f[4] == g[4]
                      && f[5] == g[5] && f[6] == g[6] && f[7] == g[7] && f[8] == g[8];
  }

  lemma FourParts(a: seq<Option<string>>, b: seq<Option<string>>, c: seq<Option<string>>, d: seq<Option<string>>,
                  w: seq<Option<string>>, x: seq<Option<string>>, y: seq<Option<string>>, z: seq<Option<string>>)
    requires |a| == |w| && |b| == |x| && |c| == |y| && |d| == |z|
    ensures a + b + c + d == w + x + y + z <==> a == w && b == x && c == y && d == z
  {
    var s, t := a + b + c + d, w + x + y + z;
    var i, j, k := |a|, |a| + |b|, |a| + |b| + |c|;
    assert a == s[..i] && b == s[i..j] && c == s[j..k] && d == s[k..];
    assert w == t[..i] && x == t[i..j] && y == t[j..k] && z == t[k..];
  }

  lemma FieldsPrinted(a: Instance, b: Instance)
    ensures Fields(a) == Fields(b) <==>
      SameNumbers(a, b) && SameHeaders(a.obfuscation, b.obfuscation) && SamePackets(a.obfuscation, b.obfuscation)
      && SameDevice(a.obfuscation, b.obfuscation)
  {
    var o, q := a.obfuscation, b.obfuscation;
    FourParts(NumberFields(a), HeaderFields(o), PacketFields(o), DeviceFields(o),
      NumberFields(b), HeaderFields(q), PacketFields(q), DeviceFields(q));
    NumbersPrinted(a, b);
    HeadersPrinted(o, q);
    PacketsPrinted(o, q);
    DevicePrinted(o, q);
  }

  lemma HeaderLinesIff(a: Instance, b: Instance)
    ensures HeaderLines(a) == HeaderLines(b) <==> OwnedName(a.id) == OwnedName(b.id) && Fields(a) == Fields(b)
  {
    var keys, f, g := INTERFACE_KEYS, Fields(a), Fields(b);
    if HeaderLines(a) == HeaderLines(b) {
      assert HeaderLines(a)[0] == HeaderLines(b)[0];
      MarkerInjective(OwnedName(a.id), OwnedName(b.id));
      assert HeaderLines(a)[2..] == FieldLines(keys, f) && HeaderLines(b)[2..] == FieldLines(keys, g);
      InterfaceKeysShaped();
      InterfaceKeysDistinct();
      FieldLinesInjective(keys, f, g);
    }
  }

  /** Two renderings have equal interface sections exactly when they describe the same interface. */
  lemma SectionsEqualIff(a: Instance, b: Instance)
    requires Renders(a) && Renders(b)
    ensures InterfaceSection(RenderText(a)) == InterfaceSection(RenderText(b)) <==> SameInterface(a, b)
  {
    RenderedSection(a);
    RenderedSection(b);
    HeaderLinesPlain(a);
    HeaderLinesPlain(b);
    PlainUnlines(HeaderLines(a));
    PlainUnlines(HeaderLines(b));
    UnlinesInjective(HeaderLines(a), HeaderLines(b));
    HeaderLinesIff(a, b);
    OwnedNameInjective(a.id, b.id);
    FieldsPrinted(a, b);
  }

  // ---- any owned text: the section holds the key ---------------------------------------------

  lemma PeerLineKeyless(line: string)
    requires GoodLine([], line, InPeer)
    ensures !(PRIVATE_KEY <= line)
  {
    if PRIVATE_KEY <= line {
      var rest := line[|PRIVATE_KEY|..];
      assert line == KeyLine("PrivateKey", rest);
      ShortKeysShaped(0);
      KeyLineCuts("PrivateKey", rest);
    }
  }

  /** Once in a peer block, always in a peer block: no private key follows. */
  lemma {:induction false} PeerTailKeyless(keys: seq<string>, lines: seq<string>, count: nat)
    requires Walk(keys, lines, InPeer, count)
    ensures Keyless(lines)
  {
    if lines != [] {
      var line := lines[0];
      PeerTailKeyless(keys, lines[1..], count);
      var key := PRIVATE_KEY;
      if line != "" && line[0] != '#' && line != "[Peer]" {
        PeerLineKeyless(line);
      } else {
        assert line != "" ==> line[0] != key[0];
      }
    }
  }

  /** A line that opens with the peer mark and says more is never accepted. */
  lemma PeerMarkIsExact(keys: seq<string>, line: string, section: Section)
    requires Shaped(keys) && "[Peer]" <= line
    ensures !GoodLine(keys, line, section)
  {
    var i, k, mark := Index(line, " = "), Cut(line, " = ").before, "[Peer]";
    assert line[0] == mark[0];
    assert i >= 0 ==> k == line[..i];
    assert i > 0 ==> k[0] == '[';
    assert i >= 0 ==> !KeyShaped(k);
    if k in PEER_KEYS {
      PeerKeyShaped(k);
    }
  }

  lemma {:induction false} MarkedTailKeyless(keys: seq<string>, before: seq<string>, after: seq<string>, section: Section, count: nat)
    requires Shaped(keys) && Walk(keys, before + after, section, count)
    requires after != [] && "[Peer]" <= after[0]
    ensures Keyless(after)
  {
    var lines := before + after;
    if before == [] {
      assert lines == after;
      var line, key := after[0], PRIVATE_KEY;
      assert line[0] == '[' && line[1] == 'P';
      if line != "[Peer]" {
        assert line != "[Interface]";
        PeerMarkIsExact(keys, line, section);
      } else {
        PeerTailKeyless(keys, after[1..], count);
        assert line[0] != key[0];
      }
    } else {
      assert lines[0] == before[0] && lines[1..] == before[1..] + after;
      var s, c := StepSection(before[0], section), if before[0] == "[Interface]" then count + 1 else count;
      MarkedTailKeyless(keys, before[1..], after, s, c);
    }
  }

  function StepSection(line: string, section: Section): Section {
    if line == "[Interface]" then InInterface else if line == "[Peer]" then InPeer else section
  }

  lemma {:induction false} ScanKeylessTail(lines: seq<string>, rest: seq<string>, found: string)
    requires Keyless(rest)
    ensures ScanKey(lines + rest, found) == ScanKey(lines, found)
  {
    if lines == [] {
      assert lines + rest == rest && rest + [] == rest;
      ScanKeyless(rest, [], found);
    } else {
      assert (lines + rest)[0] == lines[0] && (lines + rest)[1..] == lines[1..] + rest;
      if !(PRIVATE_KEY <= lines[0]) {
        ScanKeylessTail(lines[1..], rest, found);
      } else if found == "" {
        ScanKeylessTail(lines[1..], rest, lines[0][|PRIVATE_KEY|..]);
      }
    }
  }

  lemma SplitAtMark(config: string, i: nat)
    requires OccursAt(config, PEER_MARK, i)
    ensures config == config[..i] + ['\n'] + config[i + 1..] && "[Peer]" <= config[i + 1..]
  {
    var mark := PEER_MARK;
    assert config[i..i + 7] == mark && config[i] == config[i..i + 7][0];
    assert config[i + 1..][..6] == config[i..i + 7][1..] == mark[1..];
  }

  lemma MarkedConfigKey(keys: seq<string>, config: string, i: nat)
    requires Shaped(keys) && OccursAt(config, PEER_MARK, i) && Walk(keys, Split(config, '\n')[1..], Outside, 0)
    ensures ScanKey(Split(config, '\n'), "") == ScanKey(Split(config[..i], '\n'), "")
  {
    var head, rest := config[..i], config[i + 1..];
    SplitAtMark(config, i);
    SplitAppend(head, rest, '\n');
    FirstLineKeeps(rest, "[Peer]");
    MarkedLinesKey(keys, Split(head, '\n'), Split(rest, '\n'));
  }

  lemma MarkedLinesKey(keys: seq<string>, before: seq<string>, after: seq<string>)
    requires Shaped(keys) && before != [] && after != [] && "[Peer]" <= after[0] && Walk(keys, (before + after)[1..], Outside, 0)
    ensures ScanKey(before + after, "") == ScanKey(before, "")
  {
    assert (before + after)[1..] == before[1..] + after;
    MarkedTailKeyless(keys, before[1..], after, Outside, 0);
    ScanKeylessTail(before, after, "");
  }

  /** The key of an owned text is the key of its interface section. */
  lemma SectionHoldsKey(config: string, name: string, pub: string -> Option<string>)
    requires ValidOwnedConfig(config, name)
    ensures ConfigPublicKey(config, pub) == ConfigPublicKey(InterfaceSection(config), pub)
  {
    var i := Index(config, PEER_MARK);
    InterfaceKeysShaped();
    if i >= 0 {
      MarkedConfigKey(INTERFACE_KEYS, config, i);
    }
  }

  /** A newline-free prefix of a text is a prefix of its first line. */
  lemma {:induction false} FirstLineKeeps(s: string, prefix: string)
    requires prefix <= s && '\n' !in prefix
    ensures prefix <= Split(s, '\n')[0]
  {
    if prefix != [] {
      assert s[0] == prefix[0] && prefix[1..] <= s[1..];
      FirstLineKeeps(s[1..], prefix[1..]);
      assert prefix == [prefix[0]] + prefix[1..];
    }
  }

  /** The codec KernelWorld is instantiated with: the panel's own grammar, section and key lookup, over
      any key derivation. */
  function TextCodec(pub: string -> Option<string>): KernelWorld.Codec {
    KernelWorld.Codec((text, id) => ValidOwnedConfig(text, OwnedName(id)), InterfaceSection, text => ConfigPublicKey(text, pub))
  }

  /** What KernelSafety and KernelConverge assume of config texts holds of the real ones. */
  lemma TextCodecIsLawful(pub: string -> Option<string>)
    ensures KernelWorld.Lawful(TextCodec(pub))
  {
    var c := TextCodec(pub);
    forall a, b, id, jd | c.owned(a, id) && c.owned(b, jd) && c.section(a) == c.section(b)
      ensures c.pubkey(a) == c.pubkey(b)
    {
      SectionHoldsKey(a, OwnedName(id), pub);
      SectionHoldsKey(b, OwnedName(jd), pub);
    }
  }

  /** A spec built from an instance the panel can render is one the kernel theorems apply to exactly when its
      peers are addressed; those that speak of keyed specs also need a public key to derive from its own. */
  lemma RenderedSpecIsLegit(inst: Instance, pub: string -> Option<string>, addresses: seq<string>, mtu: int,
                            table: KernelWorld.Table, forward: KernelWorld.Forward, keyed: bool)
    requires Renders(inst) && inst.id > 0 && forward != KernelWorld.Unknown
    ensures
      var p := KernelWorld.Spec(inst.id, RenderText(inst), addresses, mtu, table, forward);
      KernelSafety.Legit(TextCodec(pub), p, inst.id, keyed) <==> AllAddressed(inst.peers) && (keyed ==> pub(inst.privateKey).Some?)
  {
    MarkerPlain(inst.id);
    FormatIntPlain(inst.id);
    PlainAppend(INTERFACE_PREFIX, FormatInt(inst.id));
    RenderedIsOwnedIff(inst, OwnedName(inst.id));
    RenderedKey(inst, pub);
  }
}
