/** The rewrite of a dns outbound's legacy keys into rules: evaluated first match first, the rules give
    every query type the answer the legacy keys gave. */
module DnsOutbound {
  import opened Options
  import opened GoStrings
  import opened Json

  // ---- the rewrite ---------------------------------------------------------------------------

  /** dnsNonIPQueryMode: drop and skip are themselves, everything else meant reject. */
  function Mode(value: Option<Value>): string {
    var mode := Lower(TrimSpace(StrOf(value)));
    if mode == "drop" || mode == "skip" then mode else "reject"
  }

  function Decimals(types: seq<nat>): seq<string> {
    if types == [] then [] else [Itoa(types[0])] + Decimals(types[1..])
  }

  /** dnsQTypeValue. */
  function QTypeValue(types: seq<nat>): Value {
    if |types| == 1 && types[0] != 0 then Number(types[0]) else Str(Join(Decimals(types), ','))
  }

  function BlockRule(mode: string, qType: Value): Value {
    Obj(if mode == "reject" then map["action" := Str("return"), "qType" := qType, "rCode" := Number(5)]
        else map["action" := Str("drop"), "qType" := qType])
  }

  function HijackRule(): Value { Obj(map["action" := Str("hijack"), "qType" := Str("1,28")]) }

  function Fallback(mode: string): Value {
    Obj(if mode == "reject" then map["action" := Str("return"), "rCode" := Number(5)]
        else map["action" := Str(if mode == "drop" then "drop" else "direct")])
  }

  /** legacyDNSOutboundRules. */
  function LegacyRules(mode: string, types: seq<nat>): seq<Value> {
    (if types == [] then [] else [BlockRule(mode, QTypeValue(types))]) + [HijackRule(), Fallback(mode)]
  }

  // ---- what rules mean -----------------------------------------------------------------------

  datatype Answer = Drop | Hijack | Direct | Return(code: int) | NoAnswer

  /** The comma-separated numbers of a qType string. */
  predicate Lists(s: string, q: int) { exists i :: 0 <= i < |Split(s, ',')| && ParseInt(Split(s, ',')[i]) == Some(q) }

  /** Whether a rule with this selector applies to query type q: the core reads an absent or a numeric 0
      selector as every query. */
  predicate Selects(qType: Option<Value>, q: int) {
    match qType
    case None => true
    case Some(Number(n)) => n == 0 || n == q
    case Some(Str(s)) => Lists(s, q)
    case _ => false
  }

  function RuleAnswer(rule: Value): Answer {
    var action := StrOf(Get(rule, "action"));
    if action == "drop" then Drop
    else if action == "hijack" then Hijack
    else if action == "direct" then Direct
    else if action == "return" then Return(if Get(rule, "rCode").Some? && Get(rule, "rCode").value.Number? then Get(rule, "rCode").value.n else 0)
    else NoAnswer
  }

  function FirstMatch(rules: seq<Value>, q: int): Answer {
    if rules == [] then NoAnswer
    else if Selects(Get(rules[0], "qType"), q) then RuleAnswer(rules[0])
    else FirstMatch(rules[1..], q)
  }

  /** What the legacy keys meant: blocked types first, then A and AAAA hijacked, then the mode's answer. */
  function LegacyAnswer(mode: string, types: seq<nat>, q: nat): Answer {
    if q in types then (if mode == "reject" then Return(5) else Drop)
    else if q == 1 || q == 28 then Hijack
    else if mode == "reject" then Return(5)
    else if mode == "drop" then Drop
    else Direct
  }

  predicate QTypes(types: seq<nat>) { forall i :: 0 <= i < |types| ==> types[i] <= 65535 }

  lemma {:induction false} DecimalsAt(types: seq<nat>)
    ensures |Decimals(types)| == |types|
    ensures forall i :: 0 <= i < |types| ==> Decimals(types)[i] == Itoa(types[i]) && ',' !in Decimals(types)[i]
  {
    if types != [] {
      DecimalsAt(types[1..]);
    }
  }

  /** The generated selector covers exactly the blocked types, a lone 0 included. */
  lemma SelectsExactly(types: seq<nat>, q: nat)
    requires types != [] && QTypes(types)
    ensures Selects(Some(QTypeValue(types)), q) <==> q in types
  {
    DecimalsAt(types);
    SplitJoin(Decimals(types), ',');
    var parts := Split(Join(Decimals(types), ','), ',');
    forall i | 0 <= i < |types| ensures ParseInt(parts[i]) == Some(types[i]) {
      ParseFormat(types[i]);
    }
  }

  lemma PairSelects(a: nat, b: nat, q: nat)
    requires a <= 65535 && b <= 65535
    ensures Selects(Some(Str(Itoa(a) + "," + Itoa(b))), q) <==> q == a || q == b
  {
    var types := [a, b];
    SelectsExactly(types, q);
    DecimalsAt(types);
    var parts := [Itoa(a), Itoa(b)];
    assert Decimals(types) == parts && parts[1..] == [Itoa(b)];
    assert Join(parts, ',') == Itoa(a) + "," + Itoa(b);
  }

  lemma HijackSelects(q: nat)
    ensures Selects(Some(Str("1,28")), q) <==> q == 1 || q == 28
  {
    PairSelects(1, 28, q);
    var a, b := Itoa(1), Itoa(28);
    assert DigitChar(8) == '8' && DigitChar(2) == '2' && DigitChar(1) == '1';
    assert a == "1" && Itoa(2) == "2";
    assert b == Itoa(2) + ['8'] == "28";
    assert "1,28" == a + "," + b;
  }

  lemma BlockRuleMeans(mode: string, qType: Value)
    ensures Get(BlockRule(mode, qType), "qType") == Some(qType)
    ensures RuleAnswer(BlockRule(mode, qType)) == if mode == "reject" then Return(5) else Drop
  {
  }

  lemma FallbackMeans(mode: string)
    ensures Get(Fallback(mode), "qType") == None
    ensures RuleAnswer(Fallback(mode)) == LegacyAnswer(mode, [], 0)
  {
  }

  lemma TailAnswers(mode: string, q: nat)
    ensures FirstMatch([HijackRule(), Fallback(mode)], q) == LegacyAnswer(mode, [], q)
  {
    var tail := [HijackRule(), Fallback(mode)];
    HijackSelects(q);
    FallbackMeans(mode);
    assert tail[1..] == [Fallback(mode)];
    assert Get(HijackRule(), "qType") == Some(Str("1,28")) && RuleAnswer(HijackRule()) == Hijack;
  }

  /** For every mode, every list of blocked types and every query type, the rules answer as the legacy keys
      did. */
  lemma RulesAnswerAsLegacy(mode: string, types: seq<nat>, q: nat)
    requires QTypes(types)
    ensures FirstMatch(LegacyRules(mode, types), q) == LegacyAnswer(mode, types, q)
  {
    var tail := [HijackRule(), Fallback(mode)];
    TailAnswers(mode, q);
    if types == [] {
      assert LegacyRules(mode, types) == tail;
    } else {
      SelectsExactly(types, q);
      BlockRuleMeans(mode, QTypeValue(types));
      assert LegacyRules(mode, types)[1..] == tail;
    }
  }

  // ---- the numeric zero ----------------------------------------------------------------------

  /** What 3.8.0 stored: a lone type as a number, zero too. */
  function OldQTypeValue(types: seq<nat>): Value {
    if |types| == 1 then Number(types[0]) else Str(Join(Decimals(types), ','))
  }

  function OldRules(mode: string, types: seq<nat>): seq<Value> {
    (if types == [] then [] else [BlockRule(mode, OldQTypeValue(types))]) + [HijackRule(), Fallback(mode)]
  }

  /** RewriteDNSOutboundQTypeZero on one rule. */
  function SpellZero(rule: Value): Value {
    if Get(rule, "qType") == Some(Number(0)) then Obj(rule.fields["qType" := Str("0")]) else rule
  }

  function SpellZeros(rules: seq<Value>): seq<Value> {
    if rules == [] then [] else [SpellZero(rules[0])] + SpellZeros(rules[1..])
  }

  /** The old form of a lone 0 answered every query with the block. */
  lemma OldZeroBlocksEverything(mode: string, q: nat)
    ensures FirstMatch(OldRules(mode, [0]), q) == if mode == "reject" then Return(5) else Drop
  {
    BlockRuleMeans(mode, Number(0));
    assert OldRules(mode, [0])[0] == BlockRule(mode, Number(0));
  }

  lemma SpelledBlockRule(mode: string, types: seq<nat>)
    requires types != []
    ensures SpellZero(BlockRule(mode, OldQTypeValue(types))) == BlockRule(mode, QTypeValue(types))
  {
    if types == [0] {
      assert Decimals([0]) == ["0"] by { assert [0][1..] == []; }
      assert QTypeValue(types) == Str("0");
    }
  }

  /** The repair turns what 3.8.0 stored into exactly what the builder stores now. */
  lemma RepairedIsCurrent(mode: string, types: seq<nat>)
    ensures SpellZeros(OldRules(mode, types)) == LegacyRules(mode, types)
  {
    var tail := [HijackRule(), Fallback(mode)];
    assert tail[1..] == [Fallback(mode)] && [Fallback(mode)][1..] == [];
    assert SpellZero(HijackRule()) == HijackRule() && SpellZero(Fallback(mode)) == Fallback(mode);
    assert SpellZeros([Fallback(mode)]) == [Fallback(mode)];
    assert SpellZeros(tail) == tail;
    if types != [] {
      SpelledBlockRule(mode, types);
      assert OldRules(mode, types)[1..] == tail;
    } else {
      assert OldRules(mode, types) == tail;
    }
  }

  lemma {:induction false} SpellZerosTwice(rules: seq<Value>)
    ensures SpellZeros(SpellZeros(rules)) == SpellZeros(rules)
  {
    if rules != [] {
      SpellZerosTwice(rules[1..]);
      assert SpellZeros(rules)[1..] == SpellZeros(rules[1..]);
    }
  }
}
