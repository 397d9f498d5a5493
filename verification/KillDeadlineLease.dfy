/** The lifecycle lease of scripts/affiliate_cta_kill_deadline_contract.py together with everything that
    calls it: the bounded send of scripts/affiliate_cta_bounded_send_contract.py and the observation of
    scripts/affiliate_cta_offline_provider_factory.py, wired as in scripts/affiliate_cta_production_composition.py.

    The monotonic clock, the transport, the deep copy and the provider clock are adversaries: each of
    their calls is a script that may first make any calls of its own on the same lease, send path or
    provider, and then answer or raise. Clock values are exact reals. */
module KillDeadlineLease {
  import opened Text

  // ---------- What the adversary does ----------

  datatype Reading = Time(t: real) | NotFinite | ClockRaises

  /** The context and provider objects that a lease is bound to, by identity. */
  datatype Owner = Owner(context: nat, provider: nat)

  datatype Op = Check | Budget | Bind(owner: Owner) | Matches(owner: Owner, generation: bool) | Revoke

  type Response = nat

  datatype Call =
    | LeaseCall(op: Op, clock: ClockCall)
    | SendCall(send: SendScript)
    | ObserveCall(observe: ObserveScript)

  /** One call of the monotonic clock: first the calls it makes back, then its answer. */
  datatype ClockCall = ClockCall(nested: seq<Call>, reading: Reading)

  /** A callback that answers a value or raises. */
  datatype Callback = Callback(nested: seq<Call>, result: Option<Response>)

  /** One send: what the clock does at each sample, and what the transport does. */
  datatype SendScript = SendScript(clock: seq<ClockCall>, transport: Callback)

  datatype ObserveScript = ObserveScript(clock: seq<ClockCall>, member: bool, mapped: bool, send: SendScript,
                                         copy: Callback, providerClock: Callback, aware: bool, matched: bool)

  // ---------- The state ----------

  /** What happened so far: every accepted clock sample and every start of the transport. */
  datatype Entry = Accepted(t: real) | Started(at: real, budget: int)

  datatype World = World(deadline: real, terminal: bool, checking: bool, last: Option<real>, bound: Option<Owner>,
                         log: seq<Entry>)

  datatype Mode = Completed | TimedOut | Cancelled | LateResult

  /** How the composed path was built: the owner it was bound to, its timeout and its executor. */
  datatype Config = Config(owner: Owner, timeout: Option<real>, mode: Mode, elapsed: Option<real>)

  const MIN_TIMEOUT_MS := 1
  const MAX_TIMEOUT_MS := 5000
  const MIN_SEND_BUDGET_MS := 1

  function Issue(callable: bool, deadline: Option<real>): World {
    World(deadline.GetOr(0.0), !callable || deadline.None?, false, None, None, [])
  }

  // ---------- The lease ----------

  function Revoked(w: World): World { w.(terminal := true) }

  /** `sample`: a nested sample, an unusable reading or a raise is terminal. */
  function Sample(cfg: Config, w: World, c: ClockCall): (World, Option<real>)
    decreases c, 0
  {
    if w.terminal || w.checking then (Revoked(w), None)
    else Judge(RunAll(cfg, w.(checking := true), c.nested), c.reading)
  }

  /** What `sample` does with the reading once the clock has answered. */
  function Judge(inside: World, reading: Reading): (World, Option<real>) {
    var w := inside.(checking := false);
    if !reading.Time? || w.terminal || (w.last.Some? && reading.t < w.last.value) || reading.t >= w.deadline then
      (Revoked(w), None)
    else (w.(last := Some(reading.t), log := w.log + [Accepted(reading.t)]), Some(reading.t))
  }

  /** The sample at position `i` of a script; a script that has run out stands for a clock that raises. */
  function SampleAt(cfg: Config, w: World, clock: seq<ClockCall>, i: nat): (World, Option<real>)
    decreases clock, 0
  {
    if i < |clock| then Sample(cfg, w, clock[i]) else (Revoked(w), None)
  }

  /** The whole milliseconds from `now` to the deadline. */
  function WholeMilliseconds(deadline: real, now: real): int { ((deadline - now) * 1000.0).Floor }

  function BudgetOf(sampled: (World, Option<real>)): (World, Option<(real, int)>) {
    var (w, now) := sampled;
    if now.None? then (w, None)
    else
      var value := WholeMilliseconds(w.deadline, now.value);
      if value < MIN_SEND_BUDGET_MS then (Revoked(w), None) else (w, Some((now.value, value)))
  }

  predicate MayMatch(w: World, owner: Owner, generation: bool) { w.bound == Some(owner) && generation }

  /** One operation of the lease. */
  function Operate(cfg: Config, w: World, op: Op, c: ClockCall): World
    decreases c, 1
  {
    match op
    case Check => Sample(cfg, w, c).0
    case Budget => BudgetOf(Sample(cfg, w, c)).0
    case Bind(owner) =>
      if w.bound.Some? then w
      else
        var (w', now) := Sample(cfg, w, c);
        if now.None? then w' else w'.(bound := Some(owner))
    case Matches(owner, generation) => if MayMatch(w, owner, generation) then Sample(cfg, w, c).0 else w
    case Revoke => Revoked(w)
  }

  /** `provider.valid()`: the provider of the composed path asks whether its lease still matches. */
  function Valid(cfg: Config, w: World, clock: seq<ClockCall>, i: nat): (World, bool)
    decreases clock, 1
  {
    if !MayMatch(w, cfg.owner, true) then (w, false)
    else
      var (w', now) := SampleAt(cfg, w, clock, i);
      (w', now.Some?)
  }

  function BudgetAt(cfg: Config, w: World, clock: seq<ClockCall>, i: nat): (World, Option<(real, int)>)
    decreases clock, 1
  {
    BudgetOf(SampleAt(cfg, w, clock, i))
  }

  /** `valid() and budget_snapshot()`, the guard around every callback of a send. */
  function Guard(cfg: Config, w: World, clock: seq<ClockCall>, i: nat): (World, Option<(real, int)>)
    decreases clock, 2
  {
    var (w', ok) := Valid(cfg, w, clock, i);
    if ok then BudgetAt(cfg, w', clock, i + 1) else (w', None)
  }

  // ---------- The bounded send ----------

  predicate ValidTimeout(t: Option<real>) { t.Some? && MIN_TIMEOUT_MS as real <= t.value <= MAX_TIMEOUT_MS as real }

  function Min(a: real, b: real): real { if a <= b then a else b }

  function Effective(timeout: Option<real>, remaining: int): Option<int> {
    if !ValidTimeout(timeout) then None
    else
      var value := Min(Min(timeout.value, remaining as real), MAX_TIMEOUT_MS as real).Floor;
      if MIN_TIMEOUT_MS <= value <= MAX_TIMEOUT_MS then Some(value) else None
  }

  function Ceiling(x: real): int { -((-x).Floor) }

  /** `_conservative_microseconds` of a time in milliseconds. */
  function Microseconds(ms: real): Option<int> { if ms < 0.0 then None else Some(Ceiling(ms * 1000.0)) }

  /** `_trusted_elapsed_matches`. */
  predicate ElapsedMatches(started: real, finished: real, reported: real, budget: int) {
    var trusted, said := Microseconds((finished - started) * 1000.0), Microseconds(reported);
    trusted.Some? && said.Some? && trusted.value < budget * 1000 && said.value < budget * 1000 && said == trusted
  }

  /** A completed execution. */
  datatype Completion = Completion(response: Response, elapsed: real, started: real, finished: real)

  /** `sent` counts the calls of the transport made by this send itself. */
  datatype Execution = Execution(world: World, sent: nat, done: Option<Completion>)

  /** `_FakeBoundedExecutorForTest.execute` with the guards of `_send_for_test`. */
  function Execute(cfg: Config, w: World, s: SendScript, budget: int): Execution
    decreases s, 2
  {
    var (w1, ok) := Valid(cfg, w, s.clock, 2);
    if !ok || cfg.mode.Cancelled? || cfg.mode.TimedOut? then Execution(w1, 0, None)
    else
      var (w2, latest) := Guard(cfg, w1, s.clock, 3);
      if latest.None? then Execution(w2, 0, None)
      else if Effective(cfg.timeout, latest.value.1) != Some(budget) then Execution(Revoked(w2), 0, None)
      else Transport(cfg, w2.(log := w2.log + [Started(latest.value.0, budget)]), s, latest.value.0)
  }

  /** The transport and what follows it. */
  function Transport(cfg: Config, w: World, s: SendScript, started: real): Execution
    decreases s, 1
  {
    var w3 := RunAll(cfg, w, s.transport.nested);
    if s.transport.result.None? then Execution(w3, 1, None)
    else
      var (w4, finished) := Guard(cfg, w3, s.clock, 5);
      if finished.None? then Execution(w4, 1, None)
      else
        var (w5, ok) := Valid(cfg, w4, s.clock, 7);
        if !ok || cfg.mode.LateResult? then Execution(w5, 1, None)
        else
          var elapsed := if cfg.elapsed.Some? then cfg.elapsed.value else (finished.value.0 - started) * 1000.0;
          Execution(w5, 1, Some(Completion(s.transport.result.value, elapsed, started, finished.value.0)))
  }

  datatype SendResult = SendResult(world: World, response: Option<Response>, sent: nat, budget: int,
                                   done: Option<Completion>)

  /** `_send_for_test`. */
  function Send(cfg: Config, w: World, s: SendScript): SendResult
    decreases s, 3
  {
    if !ValidTimeout(cfg.timeout) then SendResult(w, None, 0, 0, None)
    else
      var (w1, snapshot) := Guard(cfg, w, s.clock, 0);
      if snapshot.None? then SendResult(w1, None, 0, 0, None)
      else
        var effective := Effective(cfg.timeout, snapshot.value.1);
        if effective.None? then SendResult(Revoked(w1), None, 0, 0, None)
        else Release(cfg, Execute(cfg, w1, s, effective.value), effective.value, s)
  }

  /** The checks on the outcome, and the last look at lease and clock before the response is let out. */
  function Release(cfg: Config, x: Execution, budget: int, s: SendScript): SendResult
    decreases s, 2
  {
    if x.done.None? || x.done.value.elapsed < 0.0
       || !ElapsedMatches(x.done.value.started, x.done.value.finished, x.done.value.elapsed, budget)
    then SendResult(Revoked(x.world), None, x.sent, budget, None)
    else
      var (w, last) := Guard(cfg, x.world, s.clock, 8);
      SendResult(w, if last.Some? then Some(x.done.value.response) else None, x.sent, budget, x.done)
  }

  // ---------- The observation ----------

  /** `fetched` says whether the fetcher was called. */
  datatype ObserveResult = ObserveResult(world: World, observation: Option<Response>, fetched: bool)

  /** `_OfflineProvider.observe` with the composed fetcher. */
  function Observe(cfg: Config, w: World, o: ObserveScript): ObserveResult
    decreases o, 2
  {
    var (w1, ok1) := Valid(cfg, w, o.clock, 0);
    if !ok1 || !o.member || !o.mapped then ObserveResult(w1, None, false)
    else
      var (w2, ok2) := Valid(cfg, w1, o.clock, 1);
      if !ok2 then ObserveResult(w2, None, false)
      else
        var r := Send(cfg, w2, o.send);
        AfterFetch(cfg, r.world, r.response, o)
  }

  /** What `observe` does once the fetcher has answered. A failed send leaves nothing to match. */
  function AfterFetch(cfg: Config, w: World, response: Option<Response>, o: ObserveScript): ObserveResult
    decreases o, 1
  {
    var (w3, ok3) := Valid(cfg, w, o.clock, 2);
    if !ok3 then ObserveResult(w3, None, true)
    else
      var w4 := RunAll(cfg, w3, o.copy.nested);
      if o.copy.result.None? then ObserveResult(Revoked(w4), None, true)
      else
        var (w5, ok5) := Valid(cfg, w4, o.clock, 3);
        if !ok5 then ObserveResult(w5, None, true)
        else
          var (w6, ok6) := Valid(cfg, w5, o.clock, 4);
          if !ok6 then ObserveResult(w6, None, true) else AfterCopy(cfg, w6, response, o)
  }

  /** From the provider clock to the bound observation. */
  function AfterCopy(cfg: Config, w: World, response: Option<Response>, o: ObserveScript): ObserveResult
    decreases o, 0
  {
    var w7 := RunAll(cfg, w, o.providerClock.nested);
    if o.providerClock.result.None? then ObserveResult(Revoked(w7), None, true)
    else
      var (w8, ok8) := Valid(cfg, w7, o.clock, 5);
      if !ok8 then ObserveResult(w8, None, true)
      else if !o.aware then ObserveResult(Revoked(w8), None, true)
      else if response.None? || !o.matched then ObserveResult(Revoked(w8), None, true)
      else
        var (w9, ok9) := Valid(cfg, w8, o.clock, 6);
        if !ok9 then ObserveResult(w9, None, true)
        else
          var (w10, ok10) := Valid(cfg, w9, o.clock, 7);
          ObserveResult(w10, if ok10 then response else None, true)
  }

  /** The observations of all selected items, with a look at the lease before and after each of them. */
  datatype RecordsScript = RecordsScript(clock: seq<ClockCall>, observations: seq<ObserveScript>)

  /** `records` from item `i` on, with the values so far. */
  function RecordsFrom(cfg: Config, w: World, r: RecordsScript, i: nat,
                       values: seq<Response>): (World, Option<seq<Response>>)
    requires i <= |r.observations|
    decreases |r.observations| - i
  {
    var (w1, before) := Valid(cfg, w, r.clock, 2 * i + 1);
    if !before then (w1, None)
    else if i == |r.observations| then (w1, Some(values))
    else
      var o := Observe(cfg, w1, r.observations[i]);
      if o.observation.None? then (o.world, None)
      else
        var (w2, bound) := Valid(cfg, o.world, r.clock, 2 * i + 2);
        if !bound then (w2, None) else RecordsFrom(cfg, w2, r, i + 1, values + [o.observation.value])
  }

  /** `_OfflineProvider.records`. */
  function Records(cfg: Config, w: World, r: RecordsScript): (World, Option<seq<Response>>) {
    var (w1, ok) := Valid(cfg, w, r.clock, 0);
    if !ok then (w1, None) else RecordsFrom(cfg, w1, r, 0, [])
  }

  // ---------- Histories ----------

  function Perform(cfg: Config, w: World, call: Call): World
    decreases call, 0
  {
    match call
    case LeaseCall(op, clock) => Operate(cfg, w, op, clock)
    case SendCall(send) => Send(cfg, w, send).world
    case ObserveCall(observe) => Observe(cfg, w, observe).world
  }

  /** Any calls one after the other, each with everything that its callbacks do. */
  function RunAll(cfg: Config, w: World, calls: seq<Call>): World
    decreases calls, 0
  {
    if calls == [] then w else RunAll(cfg, Perform(cfg, w, calls[0]), calls[1..])
  }
}
