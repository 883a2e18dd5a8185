/** The mtproto manager: one mtg process per inbound, kept, reloaded or restarted by comparing
    fingerprints. The manager knows a process only by what it recorded when it started or reloaded it. */
module MtgManager {
  import opened MtgConfig

  datatype Config = Config(structure: Structure, secrets: seq<Secret>)

  datatype Instance = Instance(id: int, tag: string, config: Config)

  /** A started mtg: what it serves, and whether it still runs. */
  datatype Process = Process(live: Config, running: bool)

  datatype Entry = Entry(process: nat, tag: string, structuralFp: string, secretsFp: string)

  /** m.procs, the generated files, and every mtg ever started. */
  datatype State = State(entries: map<int, Entry>, files: map<int, Config>, processes: seq<Process>)

  datatype Result = Result(s: State, ok: bool)

  datatype Action = Noop | Reload | Restart

  /** ensureActionFor. */
  function ActionFor(running: bool, cur: Entry, structuralFp: string, secretsFp: string): Action {
    if !running || cur.structuralFp != structuralFp then Restart else if cur.secretsFp != secretsFp then Reload else Noop
  }

  /** How the steps of one ensureLocked turn out. A secrets PUT may be applied although no 200 came back;
      a 200 means it was applied. */
  datatype Luck = Luck(reloadWritten: bool, applied: bool, answered: bool, portFound: bool, tokenMade: bool, written: bool, started: bool)

  predicate Good(l: Luck) { l.reloadWritten && l.portFound && l.tokenMade && l.written && l.started }

  /** Every entry names a process. */
  predicate Linked(s: State) { forall id :: id in s.entries ==> s.entries[id].process < |s.processes| }

  /** What the manager writes down about a process it has just started or reloaded. */
  function Recorded(inst: Instance, process: nat): Entry {
    Entry(process, inst.tag, StructuralFp(inst.config.structure), SecretsFp(inst.config.secrets))
  }

  function Kill(s: State, p: nat): State
    requires p < |s.processes|
  {
    s.(processes := s.processes[p := s.processes[p].(running := false)])
  }

  function Drop(s: State, id: int): (t: State)
    requires Linked(s) && id in s.entries
    ensures Linked(t)
  {
    Kill(s, s.entries[id].process).(entries := s.entries - {id})
  }

  /** From FreeLocalPort to the end: write the file, start mtg on it, record it. */
  function Started(s: State, inst: Instance, luck: Luck): Result {
    if !luck.portFound || !luck.tokenMade || !luck.written then Result(s, false)
    else
      var w := s.(files := s.files[inst.id := inst.config]);
      if !luck.started then Result(w, false)
      else
        Result(w.(entries := w.entries[inst.id := Recorded(inst, |w.processes|)],
                  processes := w.processes + [Process(w.files[inst.id], true)]), true)
  }

  /** The reload branch once its file is written: the PUT, and the record if it was answered. */
  function Put(s: State, inst: Instance, luck: Luck): (t: State)
    requires Linked(s) && inst.id in s.entries
    ensures Linked(t) && t.entries.Keys == s.entries.Keys
  {
    var p := s.entries[inst.id].process;
    var live := Config(s.processes[p].live.structure, inst.config.secrets);
    var ps := if luck.applied || luck.answered then s.processes[p := Process(live, true)] else s.processes;
    State(if luck.answered then s.entries[inst.id := Recorded(inst, p)] else s.entries, s.files[inst.id := inst.config], ps)
  }

  /** ensureLocked. */
  function Ensured(s: State, inst: Instance, luck: Luck): Result
    requires Linked(s)
  {
    if inst.id !in s.entries then Started(s, inst, luck)
    else
      var cur := s.entries[inst.id];
      match ActionFor(s.processes[cur.process].running, cur, StructuralFp(inst.config.structure), SecretsFp(inst.config.secrets))
      case Noop => Result(s.(entries := s.entries[inst.id := cur.(tag := inst.tag)]), true)
      case Reload =>
        if !luck.reloadWritten then Result(s, false)
        else if luck.answered then Result(Put(s, inst, luck), true)
        else Started(Drop(Put(s, inst, luck), inst.id), inst, luck)
      case Restart => Started(Drop(s, inst.id), inst, luck)
  }

  function Removed(s: State, id: int): State
    requires Linked(s)
  {
    if id in s.entries then var t := Drop(s, id); t.(files := t.files - {id}) else s
  }

  // ---- the invariant -------------------------------------------------------------------------

  /** The record of a running process is the truth about it. */
  predicate Truthful(e: Entry, p: Process) {
    p.running ==> e.structuralFp == StructuralFp(p.live.structure) && e.secretsFp == SecretsFp(p.live.secrets)
  }

  /** Some inbound's entry names the process. */
  ghost predicate Owned(entries: map<int, Entry>, p: nat) { exists id :: id in entries && entries[id].process == p }

  /** Entries name different processes and, apart from the loose ones, tell the truth about them; every
      process that runs has an entry. */
  ghost predicate SoundBut(s: State, loose: set<int>) {
    && Linked(s)
    && (forall id :: id in s.entries && id !in loose ==> Truthful(s.entries[id], s.processes[s.entries[id].process]))
    && (forall i, j :: i in s.entries && j in s.entries && s.entries[i].process == s.entries[j].process ==> i == j)
    && (forall p :: 0 <= p < |s.processes| && s.processes[p].running ==> Owned(s.entries, p))
  }

  ghost predicate Sound(s: State) { SoundBut(s, {}) }

  const EMPTY := State(map[], map[], [])

  /** The running processes of t have owners if those of s had, and owners only changed their records. */
  lemma OwnersStay(s: State, t: State)
    requires SoundBut(s, {}) && |t.processes| == |s.processes|
    requires forall id :: id in s.entries ==> id in t.entries && t.entries[id].process == s.entries[id].process
    requires forall p :: 0 <= p < |t.processes| && t.processes[p].running ==> s.processes[p].running
    ensures forall p :: 0 <= p < |t.processes| && t.processes[p].running ==> Owned(t.entries, p)
  {
    forall p | 0 <= p < |t.processes| && t.processes[p].running ensures Owned(t.entries, p) {
      assert Owned(s.entries, p);
      var j :| j in s.entries && s.entries[j].process == p;
      assert j in t.entries && t.entries[j].process == p;
    }
  }

  lemma DropIsSound(s: State, id: int)
    requires SoundBut(s, {id}) && id in s.entries
    ensures Sound(Drop(s, id))
  {
    var t := Drop(s, id);
    forall p | 0 <= p < |t.processes| && t.processes[p].running ensures Owned(t.entries, p) {
      assert Owned(s.entries, p);
      var j :| j in s.entries && s.entries[j].process == p;
      assert j in t.entries && t.entries[j].process == p;
    }
  }

  lemma StartedIsSound(s: State, inst: Instance, luck: Luck)
    requires Sound(s) && inst.id !in s.entries
    ensures Sound(Started(s, inst, luck).s)
  {
    var t := Started(s, inst, luck).s;
    forall p | 0 <= p < |t.processes| && t.processes[p].running ensures Owned(t.entries, p) {
      if p < |s.processes| {
        assert Owned(s.entries, p);
        var j :| j in s.entries && s.entries[j].process == p;
        assert j in t.entries && t.entries[j].process == p;
      } else {
        assert t.entries[inst.id].process == p;
      }
    }
  }

  lemma PutIsSound(s: State, inst: Instance, luck: Luck)
    requires Sound(s) && inst.id in s.entries && s.processes[s.entries[inst.id].process].running
    requires s.entries[inst.id].structuralFp == StructuralFp(inst.config.structure)
    ensures SoundBut(Put(s, inst, luck), if luck.answered then {} else {inst.id})
  {
    OwnersStay(s, Put(s, inst, luck));
  }

  lemma EnsuredIsSound(s: State, inst: Instance, luck: Luck)
    requires Sound(s)
    ensures Sound(Ensured(s, inst, luck).s)
  {
    if inst.id !in s.entries {
      StartedIsSound(s, inst, luck);
    } else {
      var cur := s.entries[inst.id];
      match ActionFor(s.processes[cur.process].running, cur, StructuralFp(inst.config.structure), SecretsFp(inst.config.secrets))
      case Noop => OwnersStay(s, Ensured(s, inst, luck).s);
      case Reload =>
        PutIsSound(s, inst, luck);
        if !luck.answered {
          DropIsSound(Put(s, inst, luck), inst.id);
          StartedIsSound(Drop(Put(s, inst, luck), inst.id), inst, luck);
        }
      case Restart =>
        DropIsSound(s, inst.id);
        StartedIsSound(Drop(s, inst.id), inst, luck);
    }
  }

  datatype Op = EnsureOp(inst: Instance, luck: Luck) | RemoveOp(id: int) | ExitOp(p: nat)

  /** One operation, or a process that exits by itself. */
  function Do(s: State, op: Op): State
    requires Linked(s)
  {
    match op
    case EnsureOp(inst, luck) => Ensured(s, inst, luck).s
    case RemoveOp(id) => Removed(s, id)
    case ExitOp(p) => if p < |s.processes| then Kill(s, p) else s
  }

  lemma DoIsSound(s: State, op: Op)
    requires Sound(s)
    ensures Sound(Do(s, op))
  {
    match op
    case EnsureOp(inst, luck) => EnsuredIsSound(s, inst, luck);
    case RemoveOp(id) => if id in s.entries { DropIsSound(s, id); }
    case ExitOp(p) => if p < |s.processes| { OwnersStay(s, Kill(s, p)); }
  }

  ghost predicate Reaches(s: State, ops: seq<Op>, t: State)
    decreases |ops|
  {
    Linked(s) && if ops == [] then s == t else Reaches(Do(s, ops[0]), ops[1..], t)
  }

  /** Over every run, in which files, ports, reloads and starts may fail and processes may exit at any time,
      the records stay true and no process runs that no inbound owns. */
  lemma {:induction false} RunIsSound(s: State, ops: seq<Op>, t: State)
    requires Sound(s) && Reaches(s, ops, t)
    ensures Sound(t)
    decreases |ops|
  {
    if ops != [] {
      DoIsSound(s, ops[0]);
      RunIsSound(Do(s, ops[0]), ops[1..], t);
    }
  }

  // ---- what a successful call means ----------------------------------------------------------

  predicate Runs(s: State, id: int) { id in s.entries && s.entries[id].process < |s.processes| && s.processes[s.entries[id].process].running }

  /** Both fingerprints agree. */
  predicate Matches(a: Config, b: Config) {
    StructuralFp(a.structure) == StructuralFp(b.structure) && SecretsFp(a.secrets) == SecretsFp(b.secrets)
  }

  /** The inbound's process runs and serves a config that matches. */
  predicate Serves(s: State, inst: Instance) {
    Runs(s, inst.id) && s.entries[inst.id].tag == inst.tag && Matches(s.processes[s.entries[inst.id].process].live, inst.config)
  }

  /** The clients mtg serves, in whatever order, and everything outside the secrets sections. */
  predicate SameConfig(a: Config, b: Config) { SameStructure(a.structure, b.structure) && multiset(a.secrets) == multiset(b.secrets) }

  /** For texts without the fingerprints' own separators, a match is the same config. */
  lemma MatchIsSameConfig(a: Config, b: Config)
    requires Barless(a.structure) && AllClean(a.secrets) && AllClean(b.secrets)
    ensures Matches(a, b) <==> SameConfig(a, b)
  {
    BarlessIsTold(a.structure, b.structure);
    SecretsToldIff(a.secrets, b.secrets);
  }

  lemma StartedServes(s: State, inst: Instance, luck: Luck)
    ensures Started(s, inst, luck).ok ==> Serves(Started(s, inst, luck).s, inst)
    ensures Good(luck) ==> Started(s, inst, luck).ok
  {
  }

  /** A nil error means the process runs and serves what was asked for. */
  lemma OkServes(s: State, inst: Instance, luck: Luck)
    requires Sound(s)
    ensures Ensured(s, inst, luck).ok ==> Serves(Ensured(s, inst, luck).s, inst)
    ensures Good(luck) ==> Ensured(s, inst, luck).ok
  {
    if inst.id !in s.entries {
      StartedServes(s, inst, luck);
    } else {
      var cur := s.entries[inst.id];
      match ActionFor(s.processes[cur.process].running, cur, StructuralFp(inst.config.structure), SecretsFp(inst.config.secrets))
      case Noop => NoopServes(s, inst);
      case Reload =>
        if luck.answered {
          PutServes(s, inst, luck);
        } else {
          StartedServes(Drop(Put(s, inst, luck), inst.id), inst, luck);
        }
      case Restart => StartedServes(Drop(s, inst.id), inst, luck);
    }
  }

  lemma NoopServes(s: State, inst: Instance)
    requires Sound(s) && Runs(s, inst.id) && s.entries[inst.id].structuralFp == StructuralFp(inst.config.structure)
    requires s.entries[inst.id].secretsFp == SecretsFp(inst.config.secrets)
    ensures Serves(s.(entries := s.entries[inst.id := s.entries[inst.id].(tag := inst.tag)]), inst)
  {
  }

  lemma PutServes(s: State, inst: Instance, luck: Luck)
    requires Sound(s) && Runs(s, inst.id) && luck.answered && s.entries[inst.id].structuralFp == StructuralFp(inst.config.structure)
    ensures Serves(Put(s, inst, luck), inst)
  {
  }

  /** Inbound id, its file and its process are as they were. */
  predicate Untouched(s: State, t: State, id: int)
    requires Linked(s)
  {
    && (id in t.entries <==> id in s.entries) && (id in t.files <==> id in s.files)
    && (id in s.files ==> t.files[id] == s.files[id])
    && (id in s.entries ==>
          (var p := s.entries[id].process;
           t.entries[id] == s.entries[id] && p < |t.processes| && t.processes[p] == s.processes[p]))
  }

  lemma StartedUntouched(s: State, inst: Instance, luck: Luck, id: int)
    requires Linked(s) && id != inst.id
    ensures Untouched(s, Started(s, inst, luck).s, id)
  {
  }

  /** Dropping the process before starting anew. */
  lemma DroppedUntouched(s: State, inst: Instance, luck: Luck, id: int)
    requires Linked(s) && id != inst.id && inst.id in s.entries
    requires id in s.entries ==> s.entries[id].process != s.entries[inst.id].process
    ensures Untouched(s, Started(Drop(s, inst.id), inst, luck).s, id)
  {
    var d := Drop(s, inst.id);
    StartedUntouched(d, inst, luck, id);
    assert Untouched(s, d, id);
  }

  lemma PutUntouched(s: State, inst: Instance, luck: Luck, id: int)
    requires Linked(s) && id != inst.id && inst.id in s.entries
    requires id in s.entries ==> s.entries[id].process != s.entries[inst.id].process
    ensures Untouched(s, Put(s, inst, luck), id)
    ensures Put(s, inst, luck).entries[inst.id].process == s.entries[inst.id].process
  {
  }

  /** An Ensure leaves every other inbound and its process alone. */
  lemma OthersUntouched(s: State, inst: Instance, luck: Luck, id: int)
    requires Sound(s) && id != inst.id
    ensures Untouched(s, Ensured(s, inst, luck).s, id)
  {
    if inst.id !in s.entries {
      StartedUntouched(s, inst, luck, id);
    } else {
      var cur := s.entries[inst.id];
      match ActionFor(s.processes[cur.process].running, cur, StructuralFp(inst.config.structure), SecretsFp(inst.config.secrets))
      case Noop =>
      case Reload =>
        PutUntouched(s, inst, luck, id);
        DroppedUntouched(Put(s, inst, luck), inst, luck, id);
      case Restart => DroppedUntouched(s, inst, luck, id);
    }
  }

  /** What one turn of the ensure loop adds up to. */
  lemma EnsuredSoFar(s: State, inst: Instance, luck: Luck, others: seq<Instance>)
    requires Sound(s) && forall i :: 0 <= i < |others| ==> others[i].id != inst.id
    ensures
      var t := Ensured(s, inst, luck).s;
      && Sound(t) && t.entries.Keys <= s.entries.Keys + {inst.id}
      && (forall i :: 0 <= i < |others| && Serves(s, others[i]) ==> Serves(t, others[i]))
  {
    var t := Ensured(s, inst, luck).s;
    EnsuredIsSound(s, inst, luck);
    forall id | id != inst.id ensures Untouched(s, t, id) { OthersUntouched(s, inst, luck, id); }
    forall id | id in t.entries ensures id in s.entries.Keys + {inst.id} {
      assert id != inst.id ==> Untouched(s, t, id);
    }
    forall i | 0 <= i < |others| && Serves(s, others[i]) ensures Serves(t, others[i]) {
      assert Untouched(s, t, others[i].id);
    }
  }

  predicate Apart(desired: seq<Instance>) { forall i, j :: 0 <= i < j < |desired| ==> desired[i].id != desired[j].id }

  /** Of the first k wanted inbounds, those that did not fail are served. */
  predicate AllServed(s: State, desired: seq<Instance>, k: nat, failed: set<int>)
    requires k <= |desired|
  {
    forall i :: 0 <= i < k && desired[i].id !in failed ==> Serves(s, desired[i])
  }

  lemma NextServed(s: State, desired: seq<Instance>, k: nat, failed: set<int>, luck: Luck)
    requires Sound(s) && Apart(desired) && k < |desired| && AllServed(s, desired, k, failed)
    ensures
      var t := Ensured(s, desired[k], luck);
      && Sound(t.s) && t.s.entries.Keys <= s.entries.Keys + {desired[k].id} && (Good(luck) ==> t.ok)
      && AllServed(t.s, desired, k + 1, if t.ok then failed else failed + {desired[k].id})
  {
    EnsuredSoFar(s, desired[k], luck, desired[..k]);
    OkServes(s, desired[k], luck);
    var t := Ensured(s, desired[k], luck);
    forall i | 0 <= i < k && desired[i].id !in failed ensures Serves(t.s, desired[i]) {
      assert desired[..k][i] == desired[i] && Serves(s, desired[i]);
    }
  }

  /** The process an inbound already had, connections and all, survives exactly when it runs with the wanted
      structure and either serves the wanted clients or takes them over the API. A reload whose file cannot be
      written fails before anything is touched. */
  lemma KeptIff(s: State, inst: Instance, luck: Luck)
    requires Sound(s) && Runs(s, inst.id)
    ensures
      var t, p := Ensured(s, inst, luck), s.entries[inst.id].process;
      var live := s.processes[p].live;
      var same := StructuralFp(live.structure) == StructuralFp(inst.config.structure);
      var served := SecretsFp(live.secrets) == SecretsFp(inst.config.secrets);
      && (t.ok && t.s.entries[inst.id].process == p <==> same && (served || (luck.reloadWritten && luck.answered)))
      && (same && !served && !luck.reloadWritten <==> t == Result(s, false))
      && (t.s.processes[p].running <==> same && (served || !luck.reloadWritten || luck.answered))
  {
  }

  /** A bar in a text can cost a restart that is due: the process an inbound already has is taken for one that
      serves a different config. */
  lemma StaleIsKept(s: State, inst: Instance, luck: Luck) returns (other: Instance)
    requires Sound(s) && Serves(s, inst)
    requires var c := inst.config.structure;
      '|' in c.preferIP || '|' in c.frontingIP || '|' in c.publicIPv4 || '|' in c.publicIPv6
    ensures other.id == inst.id && !SameConfig(other.config, inst.config)
    ensures Ensured(s, other, luck).ok && Ensured(s, other, luck).s.processes == s.processes
  {
    var b := BarIsMistaken(inst.config.structure);
    other := inst.(config := inst.config.(structure := b));
  }

  // ---- the manager as the code writes it -----------------------------------------------------

  class Manager {
    var entries: map<int, Entry>
    var files: map<int, Config>
    var processes: seq<Process>

    ghost function View(): State
      reads this
    {
      State(entries, files, processes)
    }

    constructor ()
      ensures View() == EMPTY
    {
      entries, files, processes := map[], map[], [];
    }

    method Stop(id: int)
      requires Linked(View()) && id in entries
      modifies this
      ensures View() == Drop(old(View()), id)
    {
      var p := entries[id].process;
      processes := processes[p := processes[p].(running := false)];
      entries := entries - {id};
    }

    method Ensure(inst: Instance, luck: Luck) returns (ok: bool)
      requires Linked(View())
      modifies this
      ensures Result(View(), ok) == Ensured(old(View()), inst, luck)
    {
      var structuralFp, secretsFp := StructuralFp(inst.config.structure), SecretsFp(inst.config.secrets);
      if inst.id in entries {
        var cur := entries[inst.id];
        var action := ActionFor(processes[cur.process].running, cur, structuralFp, secretsFp);
        if action.Noop? {
          entries := entries[inst.id := cur.(tag := inst.tag)];
          return true;
        }
        if action.Reload? {
          if !luck.reloadWritten { return false; }
          files := files[inst.id := inst.config];
          var applied := ApplySecrets(inst, luck);
          if applied { return true; }
        }
        Stop(inst.id);
      }
      ok := Start(inst, luck);
    }

    /** The secrets PUT of a reload whose file is written; a 200 is put on record. */
    method ApplySecrets(inst: Instance, luck: Luck) returns (ok: bool)
      requires Linked(View()) && inst.id in entries && inst.id in files && files[inst.id] == inst.config
      requires entries[inst.id].structuralFp == StructuralFp(inst.config.structure)
      modifies this
      ensures ok == luck.answered && View() == Put(old(View()), inst, luck)
    {
      var cur := entries[inst.id];
      if luck.applied || luck.answered {
        processes := processes[cur.process := Process(Config(processes[cur.process].live.structure, inst.config.secrets), true)];
      }
      ok := luck.answered;
      if ok {
        entries := entries[inst.id := cur.(tag := inst.tag, secretsFp := SecretsFp(inst.config.secrets))];
      }
    }

    /** The rest of ensureLocked. */
    method Start(inst: Instance, luck: Luck) returns (ok: bool)
      modifies this
      ensures Result(View(), ok) == Started(old(View()), inst, luck)
    {
      if !luck.portFound || !luck.tokenMade || !luck.written { return false; }
      files := files[inst.id := inst.config];
      if !luck.started { return false; }
      processes := processes + [Process(files[inst.id], true)];
      entries := entries[inst.id := Recorded(inst, |processes| - 1)];
      ok := true;
    }

    method Remove(id: int)
      requires Linked(View())
      modifies this
      ensures View() == Removed(old(View()), id)
    {
      if id in entries {
        Stop(id);
        files := files - {id};
      }
    }

    /** The first loop of Reconcile, over the managed inbounds in whatever order the map yields them. */
    method DropUnwanted(order: seq<int>, want: set<int>)
      requires Sound(View()) && forall id :: id in entries ==> id in order
      modifies this
      ensures Sound(View()) && entries.Keys <= want
    {
      for k := 0 to |order|
        invariant Sound(View()) && forall id :: id in entries ==> id in want || id in order[k..]
      {
        if order[k] !in want {
          DoIsSound(View(), RemoveOp(order[k]));
          Remove(order[k]);
        }
      }
      forall id | id in entries ensures id in want {
        assert id !in order[|order|..];
      }
    }

    /** One turn of the second loop. */
    method EnsureNext(desired: seq<Instance>, k: nat, ghost failed: set<int>, luck: Luck) returns (ok: bool)
      requires Sound(View()) && Apart(desired) && k < |desired| && AllServed(View(), desired, k, failed)
      modifies this
      ensures Sound(View()) && entries.Keys <= old(entries.Keys) + {desired[k].id} && (Good(luck) ==> ok)
      ensures AllServed(View(), desired, k + 1, if ok then failed else failed + {desired[k].id})
    {
      var inst := desired[k];
      NextServed(View(), desired, k, failed, luck);
      ok := Ensure(inst, luck);
    }

    method Reconcile(order: seq<int>, desired: seq<Instance>, luck: int -> Luck) returns (failed: set<int>)
      requires Sound(View()) && forall id :: id in entries ==> id in order
      requires Apart(desired)
      modifies this
      ensures Sound(View()) && entries.Keys <= set i | 0 <= i < |desired| :: desired[i].id
      ensures AllServed(View(), desired, |desired|, failed)
      ensures forall id :: id in failed ==> !Good(luck(id))
    {
      var want := set i | 0 <= i < |desired| :: desired[i].id;
      DropUnwanted(order, want);
      failed := {};
      for k := 0 to |desired|
        invariant Sound(View()) && entries.Keys <= want && AllServed(View(), desired, k, failed)
        invariant forall id :: id in failed ==> !Good(luck(id))
      {
        var ok := EnsureNext(desired, k, failed, luck(desired[k].id));
        if !ok { failed := failed + {desired[k].id}; }
      }
    }
  }
}
