// The risk gate: five hard stops read from expiring keys, each of which ends the evaluation, then
// the structural checks, all of which are collected.
module RiskGate {
  import opened RedisKeys

  // The outcome of one structural check (size, order type, symbol policy, ...).
  datatype CheckResult = CheckResult(name: string, passed: bool, reason: string)

  datatype Check = Stop(key: Key) | Structural(name: string)

  datatype RiskDecision = RiskDecision(passed: bool, checks: seq<(Check, bool)>, failures: seq<string>)

  // The hard stops of an account and symbol, in the order they are consulted.
  function HardStops(accountId: string, symbol: string): seq<Key> {
    [KillSwitch(accountId), UserPause(accountId), SymbolPause(accountId, symbol),
     CircuitBreaker(accountId), SymbolCooldown(accountId, symbol)]
  }

  function StopReason(key: Key): string {
    match key
    case KillSwitch(_) => "kill_switch_active"
    case UserPause(_) => "user_paused"
    case SymbolPause(_, _) => "symbol_paused"
    case CircuitBreaker(_) => "circuit_breaker_active"
    case SymbolCooldown(_, _) => "symbol_on_cooldown"
    case JobLock(_) => "job_locked"
  }

  function Reason(r: CheckResult): string {
    if r.reason != "" then r.reason else r.name
  }

  function FailedReasons(results: seq<CheckResult>): seq<string> {
    if results == [] then []
    else
      var last := results[|results| - 1];
      FailedReasons(results[..|results| - 1]) + (if last.passed then [] else [Reason(last)])
  }

  lemma {:induction false} NoReasonsMeansAllPassed(results: seq<CheckResult>)
    ensures FailedReasons(results) == [] <==> forall r | r in results :: r.passed
  {
    if results != [] {
      NoReasonsMeansAllPassed(results[..|results| - 1]);
      assert results == results[..|results| - 1] + [results[|results| - 1]];
    }
  }

  // The structural checks by name, in order.
  function Recorded(results: seq<CheckResult>): seq<(Check, bool)> {
    seq(|results|, i requires 0 <= i < |results| => (Structural(results[i].name), results[i].passed))
  }

  // The reasons are those of the failing checks, each in its place: its own reason, or else its name.
  lemma {:induction false} FailedReasonsExactly(results: seq<CheckResult>, i: nat)
    requires i < |results|
    ensures |FailedReasons(results[..i])| <= |FailedReasons(results)|
    ensures !results[i].passed ==>
      var at := |FailedReasons(results[..i])|;
      && at < |FailedReasons(results)|
      && (results[i].reason != "" ==> FailedReasons(results)[at] == results[i].reason)
      && (results[i].reason == "" ==> FailedReasons(results)[at] == results[i].name)
    ensures |FailedReasons(results)| == |set j | 0 <= j < |results| && !results[j].passed|
  {
    FailureCount(results);
    var init := results[..|results| - 1];
    if i < |init| {
      assert init[..i] == results[..i] && init[i] == results[i];
      FailedReasonsExactly(init, i);
    }
  }

  lemma {:induction false} FailureCount(results: seq<CheckResult>)
    ensures |FailedReasons(results)| == |set j | 0 <= j < |results| && !results[j].passed|
  {
    var failing := set j | 0 <= j < |results| && !results[j].passed;
    if results != [] {
      var init := results[..|results| - 1];
      FailureCount(init);
      var before := set j | 0 <= j < |init| && !init[j].passed;
      assert failing == if results[|init|].passed then before else before + {|init|};
    }
  }

  function PassedStops(keys: seq<Key>): seq<(Check, bool)> {
    seq(|keys|, i requires 0 <= i < |keys| => (Stop(keys[i]), true))
  }

  // The stop at position i is live and no earlier one is.
  predicate FirstLiveStop(keys: Keys, stops: seq<Key>, i: nat, now: int) {
    i < |stops| && Live(keys, stops[i], now) && forall j | 0 <= j < i :: !Live(keys, stops[j], now)
  }

  predicate NoLiveStop(keys: Keys, accountId: string, symbol: string, now: int) {
    var stops := HardStops(accountId, symbol);
    forall i | 0 <= i < |stops| :: !Live(keys, stops[i], now)
  }

  predicate GateOpen(keys: Keys, accountId: string, symbol: string, results: seq<CheckResult>, now: int) {
    NoLiveStop(keys, accountId, symbol, now) && forall r | r in results :: r.passed
  }

  // The gate is open exactly if none of the five switches is on and every check passes.
  lemma GateOpensExactly(keys: Keys, accountId: string, symbol: string, results: seq<CheckResult>, now: int)
    ensures NoLiveStop(keys, accountId, symbol, now) <==>
      && !Live(keys, KillSwitch(accountId), now) && !Live(keys, UserPause(accountId), now)
      && !Live(keys, SymbolPause(accountId, symbol), now) && !Live(keys, CircuitBreaker(accountId), now)
      && !Live(keys, SymbolCooldown(accountId, symbol), now)
    ensures GateOpen(keys, accountId, symbol, results, now) <==>
      NoLiveStop(keys, accountId, symbol, now) && forall i | 0 <= i < |results| :: results[i].passed
  {
    var stops := HardStops(accountId, symbol);
    assert |stops| == 5 && stops[0] == KillSwitch(accountId) && stops[1] == UserPause(accountId);
    assert stops[2] == SymbolPause(accountId, symbol) && stops[3] == CircuitBreaker(accountId);
    assert stops[4] == SymbolCooldown(accountId, symbol);
  }

  // The structural checks are recorded after the stops, each under its name with its result.
  lemma RecordedChecks(accountId: string, symbol: string, results: seq<CheckResult>, i: nat)
    requires i < |results|
    ensures
      var checks := PassedStops(HardStops(accountId, symbol)) + Recorded(results);
      |checks| == 5 + |results| && checks[5 + i] == (Structural(results[i].name), results[i].passed)
  {
  }

  // The stops recorded when the first live one is at position i, or when none is, are those consulted, and
  // each has passed exactly if its key is not live.
  lemma RecordedStopsTellTheKeys(keys: Keys, stops: seq<Key>, i: nat, now: int)
    requires i <= |stops| && forall j | 0 <= j < i :: !Live(keys, stops[j], now)
    requires i < |stops| ==> Live(keys, stops[i], now)
    ensures
      var recorded := PassedStops(stops[..i]) + (if i < |stops| then [(Stop(stops[i]), false)] else []);
      && |recorded| == (if i < |stops| then i + 1 else i)
      && forall j | 0 <= j < |recorded| :: recorded[j] == (Stop(stops[j]), !Live(keys, stops[j], now))
  {
  }

  class ExecutionRiskEngine {
    const redis: Redis
    const cooldown: CooldownControl

    constructor (redis: Redis)
      ensures this.redis == redis && cooldown.redis == redis
    {
      this.redis := redis;
      cooldown := new CooldownControl(redis);
    }

    method Evaluate(accountId: string, symbol: string, results: seq<CheckResult>, now: int) returns (d: RiskDecision)
      requires cooldown.redis == redis
      // The gate opens exactly when nothing objects.
      ensures d.passed <==> GateOpen(redis.keys, accountId, symbol, results, now)
      ensures d.passed <==>
        && !Live(redis.keys, KillSwitch(accountId), now) && !Live(redis.keys, UserPause(accountId), now)
        && !Live(redis.keys, SymbolPause(accountId, symbol), now) && !Live(redis.keys, CircuitBreaker(accountId), now)
        && !Live(redis.keys, SymbolCooldown(accountId, symbol), now) && forall r | r in results :: r.passed
      // The kill switch speaks before the pauses, these before the circuit breaker, and the cooldown last.
      ensures Live(redis.keys, KillSwitch(accountId), now) ==> d.failures == ["kill_switch_active"]
      ensures !Live(redis.keys, KillSwitch(accountId), now) ==>
        if Live(redis.keys, UserPause(accountId), now) then d.failures == ["user_paused"]
        else if Live(redis.keys, SymbolPause(accountId, symbol), now) then d.failures == ["symbol_paused"]
        else if Live(redis.keys, CircuitBreaker(accountId), now) then d.failures == ["circuit_breaker_active"]
        else Live(redis.keys, SymbolCooldown(accountId, symbol), now) ==> d.failures == ["symbol_on_cooldown"]
      // The first live stop is the only failure reported, and nothing after it is consulted.
      ensures forall i: nat | FirstLiveStop(redis.keys, HardStops(accountId, symbol), i, now) ::
        var stops := HardStops(accountId, symbol);
        d.failures == [StopReason(stops[i])] && d.checks == PassedStops(stops[..i]) + [(Stop(stops[i]), false)]
      // Otherwise every failing structural check is reported, and every check, passed or not, is recorded.
      ensures NoLiveStop(redis.keys, accountId, symbol, now) ==>
        && d.failures == FailedReasons(results)
        && d.checks == PassedStops(HardStops(accountId, symbol)) + Recorded(results)
    {
      GateOpensExactly(redis.keys, accountId, symbol, results, now);
      var stopped, checks, failures := ConsultStops(accountId, symbol, now);
      if stopped {
        return RiskDecision(false, checks, failures);
      }
      var recorded;
      recorded, failures := CollectStructural(results);
      NoReasonsMeansAllPassed(results);
      d := RiskDecision(|failures| == 0, checks + recorded, failures);
    }

    // The five hard stops in order; the first live one ends the consultation with its reason.
    method ConsultStops(accountId: string, symbol: string, now: int)
      returns (stopped: bool, checks: seq<(Check, bool)>, failures: seq<string>)
      requires cooldown.redis == redis
      ensures stopped <==> !NoLiveStop(redis.keys, accountId, symbol, now)
      ensures
        if Live(redis.keys, KillSwitch(accountId), now) then failures == ["kill_switch_active"]
        else if Live(redis.keys, UserPause(accountId), now) then failures == ["user_paused"]
        else if Live(redis.keys, SymbolPause(accountId, symbol), now) then failures == ["symbol_paused"]
        else if Live(redis.keys, CircuitBreaker(accountId), now) then failures == ["circuit_breaker_active"]
        else if Live(redis.keys, SymbolCooldown(accountId, symbol), now) then failures == ["symbol_on_cooldown"]
        else failures == []
      ensures forall i: nat | FirstLiveStop(redis.keys, HardStops(accountId, symbol), i, now) ::
        var stops := HardStops(accountId, symbol);
        failures == [StopReason(stops[i])] && checks == PassedStops(stops[..i]) + [(Stop(stops[i]), false)]
      ensures !stopped ==> checks == PassedStops(HardStops(accountId, symbol))
    {
      var stops := HardStops(accountId, symbol);
      checks, failures := [], [];
      assert PassedStops(stops[..0]) == [];
      var active := redis.Exists(KillSwitch(accountId), now);
      if active {
        return true, checks + [(Stop(stops[0]), false)], ["kill_switch_active"];
      }
      checks := checks + [(Stop(stops[0]), true)];
      active := redis.Exists(UserPause(accountId), now);
      if active {
        return true, checks + [(Stop(stops[1]), false)], ["user_paused"];
      }
      checks := checks + [(Stop(stops[1]), true)];
      active := redis.Exists(SymbolPause(accountId, symbol), now);
      if active {
        return true, checks + [(Stop(stops[2]), false)], ["symbol_paused"];
      }
      checks := checks + [(Stop(stops[2]), true)];
      active := redis.Exists(CircuitBreaker(accountId), now);
      if active {
        return true, checks + [(Stop(stops[3]), false)], ["circuit_breaker_active"];
      }
      checks := checks + [(Stop(stops[3]), true)];
      active := cooldown.IsOnCooldown(accountId, symbol, now);
      if active {
        return true, checks + [(Stop(stops[4]), false)], ["symbol_on_cooldown"];
      }
      checks := checks + [(Stop(stops[4]), true)];
      stopped := false;
    }

    // Every structural check is recorded, and every failing one gives its reason.
    method CollectStructural(results: seq<CheckResult>) returns (checks: seq<(Check, bool)>, failures: seq<string>)
      ensures checks == Recorded(results) && failures == FailedReasons(results)
    {
      checks, failures := [], [];
      for k := 0 to |results|
        invariant checks == Recorded(results[..k]) && failures == FailedReasons(results[..k])
      {
        var r := results[k];
        assert results[..k + 1][..k] == results[..k];
        checks := checks + [(Structural(r.name), r.passed)];
        if !r.passed {
          failures := failures + [Reason(r)];
        }
      }
      assert results[..|results|] == results;
    }
  }
}
