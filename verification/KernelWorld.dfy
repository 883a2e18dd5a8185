/** The kernel-interface controller, one inbound at a time: a step function per host command, a fate
    for every command that lets it fail or kill the process, and the manager's operations built from
    those steps. Ensure and teardown only ever touch their own inbound's config, link, NAT table and
    entry (the name xui-awg<id> is injective, OwnedConfig.OwnedNameInjective), plus the shared
    FORWARD chain, so a step works on that view of the host. */
module KernelWorld {
  import opened Options

  /** What the manager needs to know about config texts. OwnedConfigSections.TextCodec is the real one. */
  datatype Codec = Codec(
    owned: (string, int) -> bool,          // validOwnedConfig against ownedInterfaceName(id)
    section: string -> string,             // interfaceSection
    pubkey: string -> Option<string>)      // configInterfacePublicKey

  /** Two owned configs with the same interface section hold the same private key. */
  ghost predicate Lawful(c: Codec) {
    forall a, b, id, jd {:trigger c.owned(a, id), c.owned(b, jd)} ::
      c.owned(a, id) && c.owned(b, jd) && c.section(a) == c.section(b) ==> c.pubkey(a) == c.pubkey(b)
  }

  /** A path under the panel's config directory. */
  datatype File = Missing | Text(text: string) | Irregular | Unreadable

  /** `conf` is what setconf or syncconf last loaded; None is a keyless link. `ours` is a history
      variable: the manager created this link. No operation reads it. */
  datatype Link = Link(conf: Option<string>, addrs: set<string>, mtu: int, up: bool, ours: bool)

  /** The inbound's nft table: absent, or one masquerade chain. An nft transaction sets it. */
  datatype Table = NoTable | Masquerade(subnets: seq<string>, egress: string)

  /** FORWARD rules: the accepts tagged for one inbound, and everybody else's. */
  datatype Rule = Tagged(id: int, inward: bool, egress: string) | Foreign(text: string)

  /** forwardRules{}, forwardRules{tunnel: name}, forwardRules{tunnel: name, egress: e}. */
  datatype Forward = NoEgress | Unknown | Via(egress: string)

  datatype Spec = Spec(id: int, conf: string, addresses: seq<string>, mtu: int, table: Table, forward: Forward)

  /** One inbound's wanted state; `spec` is None when buildSpec refuses it. */
  datatype Desired = Desired(id: int, spec: Option<Spec>)

  datatype Managed = Managed(spec: Spec, generation: int, pending: bool)

  /** How one host command ends. Failed and fatal commands may or may not have taken effect. */
  datatype Fate = Works | Fails(applied: bool) | Dies(applied: bool)

  datatype Status = Ok | Err | Dead

  /** What does not change while the manager runs, and the fate of every command it will run. */
  datatype Env = Env(codec: Codec, iptables: bool, freshMtu: int, fate: int -> Fate)

  /** One inbound's part of the host and of the manager. */
  datatype Slot = Slot(file: File, link: Option<Link>, table: Table, entry: Option<Managed>)

  const EMPTY_SLOT := Slot(Missing, None, NoTable, None)

  /** The rest: `tick` counts the commands run so far. */
  datatype Shared = Shared(rules: seq<Rule>, moduleLoaded: bool, ipForward: bool, generation: int, tick: int)

  datatype View = View(slot: Slot, shared: Shared)

  datatype Outcome = Outcome(v: View, r: Status)

  /** Every host command succeeds. */
  ghost predicate Calm(e: Env) { forall n :: e.fate(n) == Works }

  /** Runs one command that turns `v` into `effect`. */
  function Cmd(e: Env, v: View, effect: View): Outcome {
    var fate := e.fate(v.shared.tick);
    var next := if fate.Works? || fate.applied then effect else v;
    Outcome(View(next.slot, next.shared.(tick := v.shared.tick + 1)),
            if fate.Works? then Ok else if fate.Fails? then Err else Dead)
  }

  /** A command the host rejects outright, such as one that names a missing device. */
  function Refused(e: Env, v: View): Outcome {
    var t := Cmd(e, v, v);
    if t.r == Dead then t else Outcome(t.v, Err)
  }

  function SetSlot(e: Env, v: View, slot: Slot): Outcome { Cmd(e, v, View(slot, v.shared)) }

  function SetLink(e: Env, v: View, link: Link): Outcome { SetSlot(e, v, v.slot.(link := Some(link))) }

  function SetShared(e: Env, v: View, shared: Shared): Outcome { Cmd(e, v, View(v.slot, shared)) }

  /** Nothing ever turns IPv4 forwarding off again. */
  predicate KeepsForwarding(v: View, out: Outcome) { v.shared.ipForward ==> out.v.shared.ipForward }

  // ---- commands ------------------------------------------------------------------------------

  function WriteConf(e: Env, v: View, conf: string): Outcome { SetSlot(e, v, v.slot.(file := Text(conf))) }

  function RemoveConf(e: Env, v: View): Outcome { SetSlot(e, v, v.slot.(file := Missing)) }

  function LinkDel(e: Env, v: View): Outcome {
    if v.slot.link.Some? then SetSlot(e, v, v.slot.(link := None)) else Refused(e, v)
  }

  function LinkAdd(e: Env, v: View): Outcome {
    if v.slot.link.Some? then Refused(e, v) else SetLink(e, v, Link(None, {}, e.freshMtu, false, true))
  }

  /** `awg setconf` and `awg syncconf`: load the file at the interface's config path. */
  function LoadConf(e: Env, v: View): Outcome {
    if v.slot.link.Some? && v.slot.file.Text? && e.codec.pubkey(v.slot.file.text).Some? then
      SetLink(e, v, v.slot.link.value.(conf := Some(v.slot.file.text)))
    else Refused(e, v)
  }

  function AddrAdd(e: Env, v: View, a: string): Outcome {
    if v.slot.link.None? then Refused(e, v)
    else SetLink(e, v, v.slot.link.value.(addrs := v.slot.link.value.addrs + {a}))
  }

  function LinkUp(e: Env, v: View, mtu: int): Outcome {
    if v.slot.link.None? then Refused(e, v) else SetLink(e, v, v.slot.link.value.(mtu := mtu, up := true))
  }

  function ApplyNat(e: Env, v: View, table: Table): Outcome { SetSlot(e, v, v.slot.(table := table)) }

  // ---- FORWARD rules -------------------------------------------------------------------------

  /** The step touched at most the FORWARD chain, and no error came of it. */
  predicate RulesOnly(v: View, out: Outcome) {
    out.v.slot == v.slot && out.v.shared == v.shared.(rules := out.v.shared.rules, tick := out.v.shared.tick) && out.r != Err
  }

  predicate Mine(rule: Rule, id: int) { rule.Tagged? && rule.id == id }

  function RemoveFirst(rules: seq<Rule>, r: Rule): seq<Rule> {
    if rules == [] then [] else if rules[0] == r then rules[1..] else [rules[0]] + RemoveFirst(rules[1..], r)
  }

  /** Deletes, one command per listed line, every rule tagged for id. */
  function DeleteListed(e: Env, v: View, id: int, listing: seq<Rule>): (out: Outcome)
    ensures RulesOnly(v, out)
    decreases |listing|
  {
    if listing == [] then Outcome(v, Ok)
    else if !Mine(listing[0], id) then DeleteListed(e, v, id, listing[1..])
    else
      var t := SetShared(e, v, v.shared.(rules := RemoveFirst(v.shared.rules, listing[0])));
      if t.r == Dead then t else DeleteListed(e, t.v, id, listing[1..])
  }

  function RemoveForwardRules(e: Env, v: View, id: int): (out: Outcome)
    ensures RulesOnly(v, out)
  {
    if !e.iptables then Outcome(v, Ok)
    else
      var t := Cmd(e, v, v);
      if t.r == Dead then t else if t.r == Err then Outcome(t.v, Ok) else DeleteListed(e, t.v, id, t.v.shared.rules)
  }

  /** forwardRules.rules(): what Via(egress) inserts at the head of the chain, one by one. */
  function Accepts(id: int, f: Forward): seq<Rule> {
    if f.Via? then [Tagged(id, false, f.egress), Tagged(id, true, f.egress)] else []
  }

  function InsertRules(e: Env, v: View, rules: seq<Rule>): (out: Outcome)
    ensures RulesOnly(v, out)
    decreases |rules|
  {
    if rules == [] then Outcome(v, Ok)
    else
      var t := SetShared(e, v, v.shared.(rules := [rules[0]] + v.shared.rules));
      if t.r == Dead then t else InsertRules(e, t.v, rules[1..])
  }

  /** Best effort: only a crash stops it. */
  function SyncForwardRules(e: Env, v: View, id: int, f: Forward): (out: Outcome)
    ensures RulesOnly(v, out)
  {
    if !e.iptables then Outcome(v, Ok)
    else
      var t := RemoveForwardRules(e, v, id);
      if t.r == Dead then t else InsertRules(e, t.v, Accepts(id, f))
  }

  function ApplyEgress(e: Env, v: View, p: Spec, prev: Forward, natChanged: bool): (out: Outcome)
    ensures KeepsForwarding(v, out)
    ensures out.v.slot == v.slot.(table := out.v.slot.table)
    ensures out.v.slot.table == v.slot.table || (natChanged && out.v.slot.table == p.table)
    ensures out.r == Ok && natChanged ==> out.v.slot.table == p.table
    ensures out.r == Ok && p.forward.Via? ==> out.v.shared.ipForward
  {
    var t := if natChanged then ApplyNat(e, v, p.table) else Outcome(v, Ok);
    if t.r != Ok then t
    else
      var u := if p.forward.Via? then SetShared(e, t.v, t.v.shared.(ipForward := true)) else t;
      if u.r != Ok then u
      else if prev != p.forward then SyncForwardRules(e, u.v, p.id, p.forward)
      else u
  }

  // ---- links ---------------------------------------------------------------------------------

  datatype Step = LinkAddStep | SetConfStep | AddressStep(a: string) | MtuUpStep(mtu: int)

  function RunStep(e: Env, v: View, step: Step): Outcome {
    match step
    case LinkAddStep => LinkAdd(e, v)
    case SetConfStep => LoadConf(e, v)
    case AddressStep(a) => AddrAdd(e, v, a)
    case MtuUpStep(mtu) => LinkUp(e, v, mtu)
  }

  /** What link commands can do to a slot: only the link changes; it is ours if it is new, and its
      config is the one it had or the one on disk. */
  predicate LinkFrom(before: Slot, after: Slot) {
    && after == before.(link := after.link)
    && (before.link.Some? ==> after.link.Some? && after.link.value.ours == before.link.value.ours)
    && (before.link.None? && after.link.Some? ==> after.link.value.ours)
    && (after.link.Some? && after.link.value.conf.Some? ==>
          || (before.link.Some? && after.link.value.conf == before.link.value.conf)
          || (before.file.Text? && after.link.value.conf.value == before.file.text))
  }

  /** createLink's command loop: the first failure ends it. */
  function RunSteps(e: Env, v: View, steps: seq<Step>): (out: Outcome)
    ensures LinkFrom(v.slot, out.v.slot) && out.v.shared == v.shared.(tick := out.v.shared.tick)
    decreases |steps|
  {
    if steps == [] then Outcome(v, Ok)
    else
      var t := RunStep(e, v, steps[0]);
      if t.r != Ok then t else RunSteps(e, t.v, steps[1..])
  }

  function AddressSteps(addresses: seq<string>): seq<Step> {
    if addresses == [] then [] else [AddressStep(addresses[0])] + AddressSteps(addresses[1..])
  }

  function CreateSteps(p: Spec): seq<Step> {
    [LinkAddStep, SetConfStep] + AddressSteps(p.addresses) + [MtuUpStep(p.mtu)]
  }

  function CreateLink(e: Env, v: View, p: Spec): (out: Outcome)
    ensures KeepsForwarding(v, out)
    ensures LinkFrom(v.slot, out.v.slot)
  {
    var m := if v.shared.moduleLoaded then Outcome(v, Ok) else SetShared(e, v, v.shared.(moduleLoaded := true));
    if m.r != Ok then m else RunSteps(e, m.v, CreateSteps(p))
  }

  /** deleteLink ignores the command's own error as long as the link is gone afterwards. */
  function DeleteLink(e: Env, v: View): (out: Outcome)
    ensures KeepsForwarding(v, out)
    ensures out.v.slot == v.slot || out.v.slot == v.slot.(link := None)
    ensures out.r == Ok ==> out.v.slot.link.None?
  {
    var t := LinkDel(e, v);
    if t.r == Dead then t else Outcome(t.v, if t.v.slot.link.Some? then Err else Ok)
  }

  // ---- owned configs -------------------------------------------------------------------------

  datatype Read = Absent | Refuse | Found(conf: string)

  function ReadOwned(c: Codec, file: File, id: int): Read {
    match file
    case Missing => Absent
    case Text(t) => if c.owned(t, id) then Found(t) else Refuse
    case Irregular => Refuse
    case Unreadable => Refuse
  }

  /** verifyLiveInterface: a live key must be the config's own, or absent. */
  function VerifyLive(e: Env, v: View, conf: string): (out: Outcome)
    ensures out.v.slot == v.slot && out.v.shared == v.shared.(tick := out.v.shared.tick)
    ensures out.r == Ok ==> v.slot.link.Some? && e.codec.pubkey(conf).Some?
    ensures out.r == Ok && v.slot.link.value.conf.Some? ==>
      e.codec.pubkey(v.slot.link.value.conf.value) == e.codec.pubkey(conf)
  {
    if e.codec.pubkey(conf).None? then Outcome(v, Err)
    else if v.slot.link.None? then Refused(e, v)
    else
      var t := Cmd(e, v, v);
      var live := v.slot.link.value.conf;
      if t.r == Ok && live.Some? && e.codec.pubkey(live.value) != e.codec.pubkey(conf) then Outcome(t.v, Err) else t
  }

  // ---- Ensure --------------------------------------------------------------------------------

  /** structFP: interface section, addresses and MTU (the hash is taken as injective). */
  predicate SameStructure(c: Codec, a: Spec, b: Spec) {
    c.section(a.conf) == c.section(b.conf) && a.addresses == b.addresses && a.mtu == b.mtu
  }

  function AsSet(xs: seq<string>): set<string> { set x | x in xs }

  predicate LinkMatches(link: Link, p: Spec) {
    link.mtu == p.mtu && p.addresses != [] && AsSet(p.addresses) <= link.addrs
  }

  function WriteAndLoad(e: Env, v: View, conf: string): (out: Outcome)
    ensures KeepsForwarding(v, out)
  {
    var t := WriteConf(e, v, conf);
    if t.r != Ok then t else LoadConf(e, t.v)
  }

  function Reconfigure(e: Env, v: View, prev: Spec, p: Spec): (out: Outcome)
    ensures KeepsForwarding(v, out)
  {
    var t := if prev.conf != p.conf then WriteAndLoad(e, v, p.conf) else Outcome(v, Ok);
    if t.r != Ok then t else ApplyEgress(e, t.v, p, prev.forward, prev.table != p.table)
  }

  function Adopt(e: Env, v: View, p: Spec): (out: Outcome)
    ensures KeepsForwarding(v, out)
  {
    var t := WriteAndLoad(e, v, p.conf);
    if t.r != Ok then t else ApplyEgress(e, t.v, p, Unknown, true)
  }

  /** newManaged. */
  function Manage(v: View, p: Spec, adopted: bool): View {
    var g := v.shared.generation + 1;
    View(v.slot.(entry := Some(Managed(p, g, adopted))), v.shared.(generation := g))
  }

  /** The guard of ensureLocked's in-place branch. */
  predicate InPlace(c: Codec, slot: Slot, p: Spec) {
    slot.link.Some? && slot.entry.Some? && SameStructure(c, slot.entry.value.spec, p)
  }

  /** The guard of its adoption branch. */
  predicate Adoptable(c: Codec, slot: Slot, p: Spec) {
    slot.link.Some? && slot.entry.None? && slot.file.Text? &&
    c.section(slot.file.text) == c.section(p.conf) && LinkMatches(slot.link.value, p)
  }

  /** createLink with its cleanup of a half-built link. */
  function BuildLink(e: Env, v: View, p: Spec): (out: Outcome)
    ensures KeepsForwarding(v, out)
    ensures LinkFrom(v.slot, out.v.slot) || out.v.slot == v.slot.(link := None)
    ensures out.r == Ok ==> out == CreateLink(e, v, p)
  {
    var c := CreateLink(e, v, p);
    if c.r == Err && c.v.slot.link.Some? then
      var d := LinkDel(e, c.v);
      if d.r == Dead then d else Outcome(d.v, Err)
    else c
  }

  /** The old link goes first, so that the old config outlives it; then the new config is written. */
  function ClearAndWrite(e: Env, v: View, p: Spec): (out: Outcome)
    ensures KeepsForwarding(v, out)
    ensures out.v.slot == v.slot.(file := out.v.slot.file, link := out.v.slot.link)
    ensures out.v.slot.link == v.slot.link || out.v.slot.link.None?
    ensures out.v.slot.file == v.slot.file || (out.v.slot.file == Text(p.conf) && out.v.slot.link.None?)
    ensures out.r == Ok ==> out.v.slot.file == Text(p.conf) && out.v.slot.link.None?
  {
    var a := if v.slot.link.Some? then DeleteLink(e, v) else Outcome(v, Ok);
    if a.r != Ok then a else WriteConf(e, a.v, p.conf)
  }

  function Rebuild(e: Env, v: View, p: Spec): (out: Outcome)
    ensures KeepsForwarding(v, out)
  {
    var b := ClearAndWrite(e, v, p);
    if b.r != Ok then b
    else
      var c := BuildLink(e, b.v, p);
      if c.r != Ok then c
      else
        var prev := if v.slot.entry.Some? then v.slot.entry.value.spec.forward else Unknown;
        var d := ApplyEgress(e, c.v, p, prev, true);
        if d.r != Ok then d else Outcome(Manage(d.v, p, false), Ok)
  }

  function ConvergeInPlace(e: Env, v: View, p: Spec): (out: Outcome)
    requires v.slot.entry.Some?
    ensures KeepsForwarding(v, out)
  {
    var cur := v.slot.entry.value;
    var t := Reconfigure(e, v, cur.spec, p);
    if t.r != Ok then t else Outcome(View(t.v.slot.(entry := Some(cur.(spec := p))), t.v.shared), Ok)
  }

  /** ensureLocked after the ownership checks. */
  function Converge(e: Env, v: View, p: Spec): (out: Outcome)
    ensures KeepsForwarding(v, out)
  {
    if InPlace(e.codec, v.slot, p) then ConvergeInPlace(e, v, p)
    else if Adoptable(e.codec, v.slot, p) then
      var t := Adopt(e, v, p);
      if t.r == Dead then t
      else if t.r == Ok then Outcome(Manage(t.v, p, true), Ok)
      else Rebuild(e, t.v, p)
    else Rebuild(e, v, p)
  }

  function Ensure(e: Env, v: View, p: Spec): (out: Outcome)
    ensures KeepsForwarding(v, out)
  {
    var owned := ReadOwned(e.codec, v.slot.file, p.id);
    if owned.Refuse? then Outcome(v, Err)
    else if v.slot.link.Some? && v.slot.entry.None? then
      if owned.Absent? then Outcome(v, Err)
      else
        var t := VerifyLive(e, v, owned.conf);
        if t.r != Ok then t else Converge(e, t.v, p)
    else Converge(e, v, p)
  }

  // ---- teardown ------------------------------------------------------------------------------

  function StopLink(e: Env, v: View, owned: Read): (out: Outcome)
    ensures KeepsForwarding(v, out)
    ensures out.v.slot == v.slot || out.v.slot == v.slot.(link := None)
    ensures out.r == Ok ==> out.v.slot.link.None?
  {
    if v.slot.link.None? then Outcome(v, Ok)
    else
      var t := if owned.Found? then VerifyLive(e, v, owned.conf) else Outcome(v, Ok);
      if t.r != Ok then t else DeleteLink(e, t.v)
  }

  /** teardown once the link is gone: NAT table, FORWARD rules, config, entry. */
  function Clear(e: Env, v: View, id: int, found: bool): (out: Outcome)
    ensures KeepsForwarding(v, out)
  {
    var b := ApplyNat(e, v, NoTable);
    if b.r != Ok then b
    else
      var c := RemoveForwardRules(e, b.v, id);
      if c.r == Dead then c
      else
        var d := if found then RemoveConf(e, c.v) else c;
        if d.r != Ok then d else Outcome(View(d.v.slot.(entry := None), d.v.shared), Ok)
  }

  function Teardown(e: Env, v: View, id: int): (out: Outcome)
    ensures KeepsForwarding(v, out)
  {
    var owned := ReadOwned(e.codec, v.slot.file, id);
    if owned.Refuse? then Outcome(v, Err)
    else if owned.Absent? && v.slot.entry.None? then Outcome(v, if v.slot.link.Some? then Err else Ok)
    else
      var a := StopLink(e, v, owned);
      if a.r != Ok then a else Clear(e, a.v, id, owned.Found?)
  }
}
