/** The lease, the bounded send and the observation as objects with state: each method carries out the
    steps of the source on fields and comes to exactly the state that KillDeadlineLease describes. */
module LeaseObject {
  import opened Text
  import opened KillDeadlineLease
  import opened LeaseSafety

  class ComposedPath {
    const cfg: Config
    const deadline: real
    var terminal: bool
    var checking: bool
    var last: Option<real>
    var bound: Option<Owner>
    ghost var log: seq<Entry>

    ghost function State(): World
      reads this
    {
      World(deadline, terminal, checking, last, bound, log)
    }

    /** `_issue_lease_for_test`. */
    constructor (cfg: Config, callable: bool, deadline: Option<real>)
      ensures State() == Issue(callable, deadline) && this.cfg == cfg
    {
      this.cfg := cfg;
      this.deadline := deadline.GetOr(0.0);
      terminal, checking, last, bound, log := !callable || deadline.None?, false, None, None, [];
    }

    method Revoke()
      modifies this
      ensures State() == Revoked(old(State()))
    {
      terminal := true;
    }

    method TakeSample(c: ClockCall) returns (now: Option<real>)
      modifies this
      ensures (State(), now) == Sample(cfg, old(State()), c)
      ensures Sampled(old(State()), (State(), now))
      decreases c, 0
    {
      hide Acceptable;
      SampleEnds(cfg, State(), c);
      if terminal || checking {
        Revoke();
        return None;
      }
      checking := true;
      PerformAll(c.nested);
      checking := false;
      match c.reading {
        case Time(t) =>
          if terminal || (last.Some? && t < last.value) || t >= deadline {
            Revoke();
            return None;
          }
          last, log := Some(t), log + [Accepted(t)];
          return Some(t);
        case _ =>
          Revoke();
          return None;
      }
    }

    method TakeSampleAt(clock: seq<ClockCall>, i: nat) returns (now: Option<real>)
      modifies this
      ensures (State(), now) == SampleAt(cfg, old(State()), clock, i)
      decreases clock, 0
    {
      if i < |clock| {
        now := TakeSample(clock[i]);
      } else {
        Revoke();
        now := None;
      }
    }

    method SendBudget(clock: seq<ClockCall>, i: nat) returns (snapshot: Option<(real, int)>)
      modifies this
      ensures (State(), snapshot) == BudgetAt(cfg, old(State()), clock, i)
      decreases clock, 1
    {
      var now := TakeSampleAt(clock, i);
      if now.None? { return None; }
      var value := WholeMilliseconds(deadline, now.value);
      if value < MIN_SEND_BUDGET_MS {
        Revoke();
        return None;
      }
      return Some((now.value, value));
    }

    method IsValid(clock: seq<ClockCall>, i: nat) returns (ok: bool)
      modifies this
      ensures (State(), ok) == Valid(cfg, old(State()), clock, i)
      decreases clock, 1
    {
      if bound != Some(cfg.owner) { return false; }
      var now := TakeSampleAt(clock, i);
      return now.Some?;
    }

    method GuardSend(clock: seq<ClockCall>, i: nat) returns (snapshot: Option<(real, int)>)
      modifies this
      ensures (State(), snapshot) == Guard(cfg, old(State()), clock, i)
      decreases clock, 2
    {
      var ok := IsValid(clock, i);
      if !ok { return None; }
      snapshot := SendBudget(clock, i + 1);
    }

    method PerformOp(op: Op, c: ClockCall)
      modifies this
      ensures State() == Operate(cfg, old(State()), op, c)
      decreases c, 1
    {
      match op {
        case Check => var _ := TakeSample(c);
        case Budget =>
          var now := TakeSample(c);
          if now.Some? && WholeMilliseconds(deadline, now.value) < MIN_SEND_BUDGET_MS { Revoke(); }
        case Bind(owner) =>
          if bound.None? {
            var now := TakeSample(c);
            if now.Some? { bound := Some(owner); }
          }
        case Matches(owner, generation) =>
          if bound == Some(owner) && generation { var _ := TakeSample(c); }
        case Revoke => Revoke();
      }
    }

    method ExecuteSend(s: SendScript, budget: int) returns (sent: nat, done: Option<Completion>)
      modifies this
      ensures Execution(State(), sent, done) == Execute(cfg, old(State()), s, budget)
      decreases s, 2
    {
      sent, done := 0, None;
      var ok := IsValid(s.clock, 2);
      if !ok || cfg.mode.Cancelled? || cfg.mode.TimedOut? { return; }
      var latest := GuardSend(s.clock, 3);
      if latest.None? { return; }
      if Effective(cfg.timeout, latest.value.1) != Some(budget) {
        Revoke();
        return;
      }
      var started := latest.value.0;
      log := log + [Started(started, budget)];
      sent := 1;
      PerformAll(s.transport.nested);
      if s.transport.result.None? { return; }
      var finished := GuardSend(s.clock, 5);
      if finished.None? { return; }
      var elapsed := if cfg.elapsed.Some? then cfg.elapsed.value else (finished.value.0 - started) * 1000.0;
      ok := IsValid(s.clock, 7);
      if !ok || cfg.mode.LateResult? { return; }
      done := Some(Completion(s.transport.result.value, elapsed, started, finished.value.0));
    }

    /** `_send_for_test`. */
    method SendOnce(s: SendScript) returns (response: Option<Response>, ghost r: SendResult)
      modifies this
      ensures r == Send(cfg, old(State()), s) && State() == r.world && response == r.response
      ensures response.Some? ==> old(bound) == Some(cfg.owner) && Released(cfg, old(State()), s, r)
      ensures response.None? && old(bound) == Some(cfg.owner) && ValidTimeout(cfg.timeout) ==> terminal
      ensures old(terminal) ==> State() == old(State()) && response.None?
      decreases s, 3
    {
      hide Released, LogOk, ElapsedMatches, WholeMilliseconds;
      SendEnds(cfg, State(), s);
      r := Send(cfg, State(), s);
      response := None;
      if !ValidTimeout(cfg.timeout) { return; }
      var snapshot := GuardSend(s.clock, 0);
      if snapshot.None? { return; }
      var effective := Effective(cfg.timeout, snapshot.value.1);
      if effective.None? {
        Revoke();
        return;
      }
      var sent, done := ExecuteSend(s, effective.value);
      if done.None? || done.value.elapsed < 0.0
         || !ElapsedMatches(done.value.started, done.value.finished, done.value.elapsed, effective.value)
      {
        Revoke();
        return;
      }
      var last := GuardSend(s.clock, 8);
      if last.Some? { response := Some(done.value.response); }
    }

    /** `_OfflineProvider.observe`. */
    method ObserveOnce(o: ObserveScript) returns (observation: Option<Response>)
      modifies this
      ensures var r := Observe(cfg, old(State()), o); State() == r.world && observation == r.observation
      ensures observation.Some? ==>
                !terminal && o.member && o.mapped && o.matched && o.aware && observation == o.send.transport.result
      ensures Observe(cfg, old(State()), o).fetched ==> (observation.None? <==> terminal)
      ensures old(terminal) ==> State() == old(State()) && observation.None?
      decreases o, 2
    {
      hide Valid, Send, LogOk, Released, AfterFetch;
      ObserveEnds(cfg, State(), o);
      observation := None;
      var ok := IsValid(o.clock, 0);
      if !ok || !o.member || !o.mapped { return; }
      ok := IsValid(o.clock, 1);
      if !ok { return; }
      var response, _ := SendOnce(o.send);
      observation := FinishObservation(response, o);
    }

    method FinishObservation(response: Option<Response>, o: ObserveScript) returns (observation: Option<Response>)
      modifies this
      ensures var r := AfterFetch(cfg, old(State()), response, o); State() == r.world && observation == r.observation
      decreases o, 1
    {
      hide Valid, RunAll;
      observation := None;
      var ok := IsValid(o.clock, 2);
      if !ok { return; }
      PerformAll(o.copy.nested);
      if o.copy.result.None? {
        Revoke();
        return;
      }
      ok := IsValid(o.clock, 3);
      if !ok { return; }
      ok := IsValid(o.clock, 4);
      if !ok { return; }
      PerformAll(o.providerClock.nested);
      if o.providerClock.result.None? {
        Revoke();
        return;
      }
      ok := IsValid(o.clock, 5);
      if !ok { return; }
      if !o.aware || response.None? || !o.matched {
        Revoke();
        return;
      }
      ok := IsValid(o.clock, 6);
      if !ok { return; }
      ok := IsValid(o.clock, 7);
      if ok { observation := response; }
    }

    /** `_OfflineProvider.records`: the loop over the selected items. */
    method CollectRecords(r: RecordsScript) returns (records: Option<seq<Response>>)
      modifies this
      ensures (State(), records) == Records(cfg, old(State()), r)
      ensures old(bound) == Some(cfg.owner) && Selected(r) ==> (records.None? <==> terminal)
      ensures old(bound) == Some(cfg.owner) && Selected(r) && records.Some? ==> AllAnswered(r, records.value)
    {
      hide Valid, Observe, LogOk, Leads;
      if bound == Some(cfg.owner) && Selected(r) { RecordsEnd(cfg, State(), r); }
      var ok := IsValid(r.clock, 0);
      if !ok { return None; }
      var values: seq<Response> := [];
      var i := 0;
      ghost var start := State();
      while i < |r.observations|
        invariant 0 <= i <= |r.observations|
        invariant RecordsFrom(cfg, State(), r, i, values) == RecordsFrom(cfg, start, r, 0, [])
      {
        ok := IsValid(r.clock, 2 * i + 1);
        if !ok { return None; }
        var observation := ObserveOnce(r.observations[i]);
        if observation.None? { return None; }
        ok := IsValid(r.clock, 2 * i + 2);
        if !ok { return None; }
        values := values + [observation.value];
        i := i + 1;
      }
      ok := IsValid(r.clock, 2 * i + 1);
      return if ok then Some(values) else None;
    }

    method PerformCall(call: Call)
      modifies this
      ensures State() == Perform(cfg, old(State()), call)
      decreases call, 0
    {
      match call {
        case LeaseCall(op, clock) => PerformOp(op, clock);
        case SendCall(send) => var _, _ := SendOnce(send);
        case ObserveCall(observe) => var _ := ObserveOnce(observe);
      }
    }

    method PerformAll(calls: seq<Call>)
      modifies this
      ensures State() == RunAll(cfg, old(State()), calls)
      decreases calls, 0
    {
      if calls != [] {
        PerformCall(calls[0]);
        PerformAll(calls[1..]);
      }
    }
  }
}
