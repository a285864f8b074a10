/** Fault injection drills: rules are armed with a count, consumed one at a time, or cleared. */
module FaultInjection {
  import opened Text
  import opened AgentNames

  datatype FaultRule = FaultRule(
    id: string, agent: string, task: string, reason: string, remaining: U32, message: string, createdAt: string,
    updatedAt: string)

  datatype ConsumedFault = ConsumedFault(
    id: string, agent: string, task: string, reason: string, message: string, remaining: U32, injectedAt: string)

  type Rules = map<string, FaultRule>

  const VALID_FAILURE_REASONS: set<string> := {"api_error", "transport_error"}

  /** `FaultRule::validate`. */
  predicate ValidRule(r: FaultRule) {
    && Trim(r.id) != "" && Trim(r.task) != "" && r.remaining != 0
    && Lower(Trim(r.reason)) in VALID_FAILURE_REASONS
  }

  /** Which rules are accepted: id and task are not blank, there is a shot, and the reason is one of two. */
  lemma ValidExactly(r: FaultRule)
    ensures ValidRule(r) <==>
      && !AllSpace(r.id) && !AllSpace(r.task) && r.remaining > 0
      && (Lower(Trim(r.reason)) == "api_error" || Lower(Trim(r.reason)) == "transport_error")
  {
    hide Trim, AllSpace, Lower;
    TrimIsTrimmed(r.id);
    TrimIsTrimmed(r.task);
  }

  predicate Fits(r: FaultRule, agent: string, task: string) { r.agent == agent && r.task == task }

  // ---- One operation, on the stored rules ----

  /** `pick` names the rule a consumption takes: the first match in the map's order, which is unspecified. */
  datatype Operation =
    | Arm(rule: FaultRule)
    | Consume(agent: string, task: string, pick: string, now: string)
    | Clear(target: string)

  predicate Consumable(s: Rules, agent: string, task: string, id: string) {
    id in s && Trim(task) != "" && Fits(s[id], agent, Trim(task))
  }

  /** Rule ids are fresh, and a consumption takes a matching rule when there is one. */
  ghost predicate Enabled(s: Rules, op: Operation) {
    match op
    case Arm(rule) => rule.id !in s
    case Consume(agent, task, pick, _) =>
      (exists id :: Consumable(s, agent, task, id)) ==> Consumable(s, agent, task, pick)
    case Clear(_) => true
  }

  /** `saturating_sub(1)`. */
  function SaturatingPred(n: U32): U32 { if n == 0 then 0 else n - 1 }

  function Spend(s: Rules, id: string, now: string): Rules
    requires id in s
  {
    var left := SaturatingPred(s[id].remaining);
    if left > 0 then s[id := s[id].(remaining := left, updatedAt := now)] else s - {id}
  }

  function Apply(s: Rules, op: Operation): Rules {
    match op
    case Arm(rule) => if ValidRule(rule) then s[rule.id := rule] else s
    case Consume(agent, task, pick, now) => if Consumable(s, agent, task, pick) then Spend(s, pick, now) else s
    case Clear(target) =>
      var key := Trim(target);
      if key == "" then s else if key == "all" then map[] else s - {key}
  }

  // ---- The service as written ----

  class FaultInjectionService {
    var rules: Rules

    constructor ()
      ensures rules == map[]
    {
      rules := map[];
    }

    /** Rules are filed under their ids and have shots left. */
    ghost predicate Valid() reads this { Wf(rules) }

    /** `arm_rule`; the fresh id and the time come from outside. */
    method ArmRule(id: string, agent: string, task: string, reason: string, count: U32, message: Option<string>,
                   now: string)
      returns (r: Option<FaultRule>)
      requires Valid()
      modifies this
      ensures Valid()
      ensures var rule := FaultRule(id, agent, task, Lower(reason), count,
                if message.Some? then message.value else "fault injection drill", now, now);
              r == (if ValidRule(rule) then Some(rule) else None) && rules == Apply(old(rules), Arm(rule))
    {
      hide Trim;
      var text := if message.Some? then message.value else "fault injection drill";
      var rule := FaultRule(id, agent, task, Lower(reason), count, text, now, now);
      if !ValidRule(rule) {
        return None;
      }
      rules := rules[rule.id := rule];
      return Some(rule);
    }

    /** `clear_rule`; `None` is the error for an empty or unknown target. */
    method ClearRule(target: string) returns (r: Option<set<FaultRule>>)
      requires Valid()
      modifies this
      ensures Valid() && rules == Apply(old(rules), Clear(target))
      ensures r.None? <==> Trim(target) == "" || (Trim(target) != "all" && Trim(target) !in old(rules))
      ensures r.Some? ==> r.value == set id | id in old(rules) && id !in rules :: old(rules)[id]
    {
      hide Trim;
      var key := Trim(target);
      if key == "" {
        return None;
      }
      if key == "all" {
        var cleared := rules.Values;
        rules := map[];
        return Some(cleared);
      }
      if key in rules {
        var rule := rules[key];
        rules := rules - {key};
        return Some({rule});
      }
      assert rules - {key} == rules;
      return None;
    }

    /** `consume`. */
    method Consume(agent: string, task: string, now: string) returns (r: Option<ConsumedFault>)
      requires Valid()
      modifies this
      ensures Valid()
      ensures r.None? <==> !exists id :: Consumable(old(rules), agent, task, id)
      ensures r.None? ==> rules == old(rules)
      ensures r.Some? ==>
        var c := r.value;
        && Enabled(old(rules), Operation.Consume(agent, task, c.id, now))
        && Consumable(old(rules), agent, task, c.id)
        && rules == Apply(old(rules), Operation.Consume(agent, task, c.id, now))
        && c.agent == agent && c.task == Trim(task) && c.reason == old(rules)[c.id].reason && c.injectedAt == now
        && c.remaining == old(rules)[c.id].remaining - 1 && c.message == old(rules)[c.id].message
    {
      hide Trim;
      var key := Trim(task);
      if key == "" {
        return None;
      }
      var matching := set id | id in rules && Fits(rules[id], agent, key);
      if matching == {} {
        assert forall id :: Consumable(rules, agent, task, id) ==> id in matching;
        return None;
      }
      var id :| id in matching;
      assert Consumable(rules, agent, task, id);
      var rule := rules[id];
      var left := SaturatingPred(rule.remaining);
      r := Some(ConsumedFault(rule.id, rule.agent, rule.task, rule.reason, rule.message, left, now));
      if left > 0 {
        rules := rules[id := rule.(remaining := left, updatedAt := now)];
      } else {
        rules := rules - {id};
      }
    }
  }

  // ---- Invariant and conservation, over every run ----

  predicate Wf(s: Rules) { forall id :: id in s ==> s[id].id == id && s[id].remaining > 0 }

  lemma ApplyKeepsWf(s: Rules, op: Operation)
    requires Wf(s)
    ensures Wf(Apply(s, op))
  {
    hide Trim;
  }

  /** The rules a law talks about: a single one, or all those of an agent and a stored task. */
  datatype Scope = OneRule(id: string) | Target(agent: string, task: string)

  predicate InScope(r: FaultRule, f: Scope) {
    match f
    case OneRule(id) => r.id == id
    case Target(agent, task) => Fits(r, agent, task)
  }

  function Share(r: FaultRule, f: Scope): nat { if InScope(r, f) then r.remaining else 0 }

  /** Shots left in the stored rules in scope. */
  ghost function Remaining(s: Rules, f: Scope): nat
    decreases |s|
  {
    if s == map[] then 0
    else
      var id :| id in s;
      Share(s[id], f) + Remaining(s - {id}, f)
  }

  lemma {:induction false} RemainingSplit(s: Rules, id: string, f: Scope)
    requires id in s
    ensures Remaining(s, f) == Share(s[id], f) + Remaining(s - {id}, f)
    decreases |s|
  {
    var first :| first in s && Remaining(s, f) == Share(s[first], f) + Remaining(s - {first}, f);
    if first != id {
      RemainingSplit(s - {first}, id, f);
      RemainingSplit(s - {id}, first, f);
      assert s - {first} - {id} == s - {id} - {first};
    }
  }

  function ArmedBy(op: Operation, f: Scope): nat {
    if op.Arm? && ValidRule(op.rule) then Share(op.rule, f) else 0
  }

  function ConsumedBy(s: Rules, op: Operation, f: Scope): nat {
    if op.Consume? && Consumable(s, op.agent, op.task, op.pick) && InScope(s[op.pick], f) then 1 else 0
  }

  ghost function ClearedBy(s: Rules, op: Operation, f: Scope): nat {
    if !op.Clear? || Trim(op.target) == "" then 0
    else if Trim(op.target) == "all" then Remaining(s, f)
    else if Trim(op.target) in s then Share(s[Trim(op.target)], f)
    else 0
  }

  lemma NothingRemains(f: Scope)
    ensures Remaining(map[], f) == 0
  {}

  lemma SpendTakesOne(s: Rules, agent: string, task: string, pick: string, now: string, f: Scope)
    requires Wf(s) && Consumable(s, agent, task, pick)
    ensures pick in s
    ensures Remaining(Spend(s, pick, now), f) + (if InScope(s[pick], f) then 1 else 0) == Remaining(s, f)
  {
    hide Trim, Remaining;
    var t := Spend(s, pick, now);
    RemainingSplit(s, pick, f);
    if pick in t {
      RemainingSplit(t, pick, f);
      assert t - {pick} == s - {pick};
    }
  }

  lemma StepConserves(s: Rules, op: Operation, f: Scope)
    requires Wf(s) && Enabled(s, op)
    ensures Remaining(Apply(s, op), f) + ConsumedBy(s, op, f) + ClearedBy(s, op, f) == Remaining(s, f) + ArmedBy(op, f)
  {
    hide Trim, ValidRule, Consumable, Remaining, Spend, InScope;
    match op
    case Arm(rule) =>
      if ValidRule(rule) {
        var t := Apply(s, op);
        RemainingSplit(t, rule.id, f);
        assert t - {rule.id} == s;
      }
    case Consume(agent, task, pick, now) =>
      if Consumable(s, agent, task, pick) { SpendTakesOne(s, agent, task, pick, now, f); }
    case Clear(target) =>
      NothingRemains(f);
      if Trim(target) in s { RemainingSplit(s, Trim(target), f); } else { assert s - {Trim(target)} == s; }
  }

  function Run(s: Rules, ops: seq<Operation>): Rules {
    if ops == [] then s else Apply(Run(s, ops[..|ops| - 1]), ops[|ops| - 1])
  }

  ghost predicate EnabledRun(s: Rules, ops: seq<Operation>) {
    ops != [] ==> EnabledRun(s, ops[..|ops| - 1]) && Enabled(Run(s, ops[..|ops| - 1]), ops[|ops| - 1])
  }

  function Armed(ops: seq<Operation>, f: Scope): nat {
    if ops == [] then 0 else Armed(ops[..|ops| - 1], f) + ArmedBy(ops[|ops| - 1], f)
  }

  function Consumed(s: Rules, ops: seq<Operation>, f: Scope): nat {
    if ops == [] then 0 else Consumed(s, ops[..|ops| - 1], f) + ConsumedBy(Run(s, ops[..|ops| - 1]), ops[|ops| - 1], f)
  }

  ghost function Cleared(s: Rules, ops: seq<Operation>, f: Scope): nat {
    if ops == [] then 0 else Cleared(s, ops[..|ops| - 1], f) + ClearedBy(Run(s, ops[..|ops| - 1]), ops[|ops| - 1], f)
  }

  /** What a step does to a rule that is still stored: nothing, unless it fired, and then it has one shot less and a new
      time of change. */
  lemma StepKeepsRule(s: Rules, op: Operation, id: string)
    requires Wf(s) && Enabled(s, op) && id in Apply(s, op)
    ensures id in s || (op.Arm? && op.rule.id == id)
    ensures op.Arm? && op.rule.id == id ==> Apply(s, op)[id] == op.rule
    ensures id in s ==>
      if op.Consume? && op.pick == id && Consumable(s, op.agent, op.task, id)
      then Apply(s, op)[id] == s[id].(remaining := s[id].remaining - 1, updatedAt := op.now)
      else Apply(s, op)[id] == s[id]
  {
    hide Trim, ValidRule;
  }

  /** The rule `r` as it was armed, but for the shots fired and the time of the last one. */
  predicate AsArmed(r: FaultRule, armed: FaultRule) {
    && r.id == armed.id && r.agent == armed.agent && r.task == armed.task && r.reason == armed.reason
    && r.message == armed.message && r.createdAt == armed.createdAt && 0 < r.remaining <= armed.remaining
  }

  /** Over every run, every stored rule is as some operation armed it. */
  lemma {:induction false} StoredAsArmed(ops: seq<Operation>, id: string) returns (i: nat)
    requires EnabledRun(map[], ops) && id in Run(map[], ops)
    ensures i < |ops| && ops[i].Arm? && ValidRule(ops[i].rule) && AsArmed(Run(map[], ops)[id], ops[i].rule)
    decreases |ops|
  {
    hide Trim, ValidRule;
    var init, last := ops[..|ops| - 1], ops[|ops| - 1];
    RunConserves(init, OneRule(id));
    RunConserves(ops, OneRule(id));
    StepKeepsRule(Run(map[], init), last, id);
    if id in Run(map[], init) {
      i := StoredAsArmed(init, id);
    } else {
      i := |ops| - 1;
    }
  }

  /** Over every run from an empty service with fresh rule ids, what was armed is what was consumed, plus what is left,
      plus what was cleared, for each rule and for each agent and task. Stored rules always have shots left. */
  lemma {:induction false} RunConserves(ops: seq<Operation>, f: Scope)
    requires EnabledRun(map[], ops)
    ensures Wf(Run(map[], ops))
    ensures Armed(ops, f) == Consumed(map[], ops, f) + Remaining(Run(map[], ops), f) + Cleared(map[], ops, f)
    decreases |ops|
  {
    if ops != [] {
      var init, last := ops[..|ops| - 1], ops[|ops| - 1];
      RunConserves(init, f);
      ApplyKeepsWf(Run(map[], init), last);
      StepConserves(Run(map[], init), last, f);
    }
  }

  lemma {:induction false} RemainingOfRule(s: Rules, id: string)
    requires Wf(s)
    ensures Remaining(s, OneRule(id)) == if id in s then s[id].remaining else 0
    decreases |s|
  {
    if s != map[] {
      var first :| first in s;
      RemainingSplit(s, first, OneRule(id));
      RemainingOfRule(s - {first}, id);
    }
  }

  /** A rule that is never cleared has fired exactly as often as it was armed once it is no longer stored, and less
      often before. */
  lemma RuleFiresItsCount(ops: seq<Operation>, id: string)
    requires EnabledRun(map[], ops) && Cleared(map[], ops, OneRule(id)) == 0
    ensures var fired, armed, s := Consumed(map[], ops, OneRule(id)), Armed(ops, OneRule(id)), Run(map[], ops);
            && fired <= armed && (fired == armed <==> id !in s)
            && (id in s ==> s[id].remaining == armed - fired)
  {
    RunConserves(ops, OneRule(id));
    RemainingOfRule(Run(map[], ops), id);
  }

  /** While shots are left for an agent and a task id without white space around it, a consumption succeeds. */
  lemma {:induction false} RemainingIsConsumable(s: Rules, agent: string, task: string)
    requires Wf(s) && Trim(task) == task != ""
    ensures Remaining(s, Target(agent, task)) > 0 <==> exists id :: Consumable(s, agent, task, id)
    decreases |s|
  {
    hide Trim;
    if s != map[] {
      var first :| first in s;
      var rest := s - {first};
      RemainingSplit(s, first, Target(agent, task));
      RemainingIsConsumable(rest, agent, task);
      if Remaining(rest, Target(agent, task)) > 0 {
        var id :| Consumable(rest, agent, task, id);
        assert Consumable(s, agent, task, id);
      } else if id :| Consumable(s, agent, task, id) {
        assert id != first ==> Consumable(rest, agent, task, id);
      }
      if Share(s[first], Target(agent, task)) > 0 { assert Consumable(s, agent, task, first); }
    }
  }

  /** Consuming again and again yields every shot left, one at a time, and then nothing: `n` armed shots are `n`
      faults. */
  lemma {:induction false} TargetIsDrained(s: Rules, ops: seq<Operation>, agent: string, task: string)
    requires Wf(s) && EnabledRun(s, ops) && Trim(task) == task != ""
    requires forall i :: 0 <= i < |ops| ==> ops[i].Consume? && ops[i].agent == agent && Trim(ops[i].task) == task
    ensures Wf(Run(s, ops))
    ensures var left := Remaining(s, Target(agent, task));
      && Consumed(s, ops, Target(agent, task)) == (if |ops| < left then |ops| else left)
      && Remaining(Run(s, ops), Target(agent, task)) == left - Consumed(s, ops, Target(agent, task))
    decreases |ops|
  {
    hide Trim, Remaining;
    if ops != [] {
      var init, last := ops[..|ops| - 1], ops[|ops| - 1];
      var t := Run(s, init);
      TargetIsDrained(s, init, agent, task);
      ApplyKeepsWf(t, last);
      StepConserves(t, last, Target(agent, task));
      RemainingIsConsumable(t, agent, task);
      assert forall id :: Consumable(t, agent, task, id) <==> Consumable(t, last.agent, last.task, id);
    }
  }

  /** Consuming compares the trimmed task with the stored one, but arming stores the task as given. So a rule can fire
      exactly when its task was armed without surrounding white space. */
  lemma RuleCanFire(rule: FaultRule)
    requires ValidRule(rule)
    ensures (exists task :: Consumable(map[rule.id := rule], rule.agent, task, rule.id)) <==>
              Trim(rule.task) == rule.task
  {
    if Trim(rule.task) == rule.task {
      assert Consumable(map[rule.id := rule], rule.agent, rule.task, rule.id);
    }
    if exists task :: Consumable(map[rule.id := rule], rule.agent, task, rule.id) {
      var task :| Consumable(map[rule.id := rule], rule.agent, task, rule.id);
      TrimTwice(task);
    }
  }

  lemma {:induction false} TargetsUntrimmedNeverFire(ops: seq<Operation>, agent: string, task: string)
    requires Trim(task) != task
    ensures Consumed(map[], ops, Target(agent, task)) == 0
    decreases |ops|
  {
    hide Trim, Run;
    if ops != [] {
      TargetsUntrimmedNeverFire(ops[..|ops| - 1], agent, task);
      var last := ops[|ops| - 1];
      if last.Consume? { TrimTwice(last.task); }
    }
  }

  lemma TrimTwice(s: string)
    ensures Trim(Trim(s)) == Trim(s)
  {
    TrimIsTrimmed(s);
    TrimOfTrimmed(Trim(s));
  }

  /** A rule that is accepted and never fires. */
  lemma StuckRule(now: string, task: string)
    ensures var rule := FaultRule("flt_1", "agent1", " drill", "api_error", 1, "", now, now);
            ValidRule(rule) && !Consumable(map[rule.id := rule], "agent1", task, "flt_1")
  {
    hide Lower, Trim;
    StuckTexts();
    var rule := FaultRule("flt_1", "agent1", " drill", "api_error", 1, "", now, now);
    TrimTwice(task);
    assert Trim(rule.task) != rule.task;
  }

  lemma StuckTexts()
    ensures Trim("flt_1") == "flt_1" && Trim(" drill") == "drill" && Lower(Trim("api_error")) == "api_error"
  {
    hide Lower, Trim;
    TrimOfTrimmed("flt_1");
    TrimOfTrimmed("api_error");
    TrimPadded(" ", "drill");
    assert " " + "drill" == " drill";
    LowerReason();
  }

  lemma LowerReason()
    ensures Lower("api_error") == "api_error"
  {}
}
