/** What the lease, the bounded send and the observation keep against every adversarial clock, transport
    and callback, re-entrant calls included. */
module LeaseSafety {
  import opened Text
  import opened KillDeadlineLease

  // ---------- What a history may contain ----------

  predicate BudgetFits(cfg: Config, deadline: real, at: real, budget: int) {
    && MIN_TIMEOUT_MS <= budget <= WholeMilliseconds(deadline, at) && budget <= MAX_TIMEOUT_MS
    && cfg.timeout.Some? && budget as real <= cfg.timeout.value
  }

  /** Accepted samples never decrease and stay below the deadline; every start of the transport comes right
      after an accepted sample and has a budget that fits between that sample and the deadline. */
  predicate LogOk(cfg: Config, w: World) {
    && (forall i :: 0 <= i < |w.log| && w.log[i].Accepted? ==>
          w.log[i].t < w.deadline && w.last.Some? && w.log[i].t <= w.last.value)
    && (forall i, j :: 0 <= i < j < |w.log| && w.log[i].Accepted? && w.log[j].Accepted? ==> w.log[i].t <= w.log[j].t)
    && (forall i :: 0 <= i < |w.log| && w.log[i].Started? ==>
          i > 0 && w.log[i - 1] == Accepted(w.log[i].at) && BudgetFits(cfg, w.deadline, w.log[i].at, w.log[i].budget))
  }

  /** What any stretch of calls does to the lease: a terminal lease does not change at all, inside a clock
      call the lease can only be revoked, and otherwise the history only grows. */
  predicate Leads(cfg: Config, w: World, w': World) {
    && w'.deadline == w.deadline && w'.checking == w.checking && w.log <= w'.log
    && (w.terminal ==> w' == w)
    && (w.checking ==> w' == w || w' == Revoked(w))
    && (w.bound.Some? ==> w'.bound == w.bound)
    && (w.last.Some? ==> w'.last.Some? && w.last.value <= w'.last.value)
    && (LogOk(cfg, w) ==> LogOk(cfg, w'))
  }

  lemma {:induction false} LeadsThrough(cfg: Config, a: World, b: World, c: World)
    requires Leads(cfg, a, b) && Leads(cfg, b, c)
    ensures Leads(cfg, a, c)
  {
    hide LogOk;
  }

  /** A world after one more accepted sample. */
  function Accept(w: World, t: real): World { w.(last := Some(t), log := w.log + [Accepted(t)]) }

  predicate Acceptable(w: World, t: real) {
    !w.terminal && !w.checking && t < w.deadline && (w.last.Some? ==> w.last.value <= t)
  }

  lemma {:induction false} AcceptLeads(cfg: Config, w: World, t: real)
    requires Acceptable(w, t)
    ensures Leads(cfg, w, Accept(w, t))
  {
  }

  lemma {:induction false} RevokedLeads(cfg: Config, w: World)
    ensures Leads(cfg, w, Revoked(w))
  {
  }

  lemma {:induction false} SameLeads(cfg: Config, w: World)
    ensures Leads(cfg, w, w)
  {
  }

  /** The two ways a sample can end. */
  predicate Sampled(w: World, r: (World, Option<real>)) {
    match r.1
    case Some(t) => Acceptable(w, t) && r.0 == Accept(w, t)
    case None => r.0 == Revoked(w)
  }

  lemma {:induction false} SampledLeads(cfg: Config, w: World, r: (World, Option<real>))
    requires Sampled(w, r)
    ensures Leads(cfg, w, r.0)
  {
    hide Leads;
    if r.1.Some? { AcceptLeads(cfg, w, r.1.value); } else { RevokedLeads(cfg, w); }
  }

  /** A sample accepts its reading and records it, or it ends the lease, whatever the clock calls back. */
  lemma {:induction false} SampleEnds(cfg: Config, w: World, c: ClockCall)
    ensures Sampled(w, Sample(cfg, w, c))
    decreases c, 0
  {
    hide LogOk;
    if !w.terminal && !w.checking { RunAllLeads(cfg, w.(checking := true), c.nested); }
  }

  lemma {:induction false} SampleAtEnds(cfg: Config, w: World, clock: seq<ClockCall>, i: nat)
    ensures Sampled(w, SampleAt(cfg, w, clock, i))
    decreases clock, 0
  {
    if i < |clock| { SampleEnds(cfg, w, clock[i]); }
  }

  predicate Bound(cfg: Config, w: World) { w.bound == Some(cfg.owner) }

  /** `valid` on the composed path accepts a sample or leaves the lease terminal, when the lease is bound to it. */
  predicate Checked(cfg: Config, w: World, r: (World, bool)) {
    if !Bound(cfg, w) then r == (w, false)
    else if r.1 then r.0.last.Some? && Acceptable(w, r.0.last.value) && r.0 == Accept(w, r.0.last.value)
    else r.0 == Revoked(w)
  }

  lemma {:induction false} ValidEnds(cfg: Config, w: World, clock: seq<ClockCall>, i: nat)
    ensures Checked(cfg, w, Valid(cfg, w, clock, i)) && Leads(cfg, w, Valid(cfg, w, clock, i).0)
    decreases clock, 1
  {
    hide Leads;
    SampleAtEnds(cfg, w, clock, i);
    SampledLeads(cfg, w, SampleAt(cfg, w, clock, i));
    SameLeads(cfg, w);
  }

  /** What a passed guard has done: two accepted samples, the second with a whole millisecond left. */
  predicate Guarded(cfg: Config, w: World, r: (World, Option<(real, int)>)) {
    if r.1.Some? then
      && r.0.last.Some? && r.0.last.value == r.1.value.0 && !r.0.terminal && !r.0.checking
      && |r.0.log| == |w.log| + 2 && r.0.log[|w.log| + 1] == Accepted(r.1.value.0)
      && MIN_SEND_BUDGET_MS <= r.1.value.1 == WholeMilliseconds(w.deadline, r.1.value.0) && r.1.value.0 < w.deadline
      && Bound(cfg, w) && r.0.bound == w.bound
      && (w.last.Some? ==> w.last.value <= r.1.value.0)
    else if Bound(cfg, w) then r.0.terminal
    else r.0 == w
  }

  lemma {:induction false} GuardEnds(cfg: Config, w: World, clock: seq<ClockCall>, i: nat)
    ensures Guarded(cfg, w, Guard(cfg, w, clock, i)) && Leads(cfg, w, Guard(cfg, w, clock, i).0)
    decreases clock, 2
  {
    hide Leads;
    ValidEnds(cfg, w, clock, i);
    var (v, ok) := Valid(cfg, w, clock, i);
    if ok {
      SampleAtEnds(cfg, v, clock, i + 1);
      assert Guard(cfg, w, clock, i) == BudgetOf(SampleAt(cfg, v, clock, i + 1));
      BudgetLeads(cfg, v, SampleAt(cfg, v, clock, i + 1));
      LeadsThrough(cfg, w, v, Guard(cfg, w, clock, i).0);
    }
  }

  lemma {:induction false} BudgetLeads(cfg: Config, w: World, r: (World, Option<real>))
    requires Sampled(w, r)
    ensures Leads(cfg, w, BudgetOf(r).0)
  {
    hide Leads;
    SampledLeads(cfg, w, r);
    RevokedLeads(cfg, r.0);
    LeadsThrough(cfg, w, r.0, Revoked(r.0));
  }

  // ---------- One operation of the lease ----------

  lemma {:induction false} OperateLeads(cfg: Config, w: World, op: Op, c: ClockCall)
    ensures Leads(cfg, w, Operate(cfg, w, op, c))
    decreases c, 1
  {
    hide Leads;
    SampleEnds(cfg, w, c);
    var r := Sample(cfg, w, c);
    SampledLeads(cfg, w, r);
    SameLeads(cfg, w);
    RevokedLeads(cfg, w);
    match op
    case Budget => BudgetLeads(cfg, w, r);
    case Bind(owner) => if w.bound.None? && r.1.Some? { BindLeads(cfg, w, r, owner); }
    case _ =>
  }

  lemma {:induction false} BindLeads(cfg: Config, w: World, r: (World, Option<real>), owner: Owner)
    requires Sampled(w, r) && r.1.Some? && w.bound.None?
    ensures Leads(cfg, w, r.0.(bound := Some(owner)))
  {
    AcceptLeads(cfg, w, r.1.value);
  }

  // ---------- The send ----------

  lemma {:induction false} EffectiveFits(timeout: Option<real>, remaining: int)
    requires Effective(timeout, remaining).Some?
    ensures var b := Effective(timeout, remaining).value;
            MIN_TIMEOUT_MS <= b <= remaining && b <= MAX_TIMEOUT_MS && timeout.Some? && b as real <= timeout.value
  {
  }

  lemma {:induction false} EffectiveExists(timeout: Option<real>, remaining: int)
    requires ValidTimeout(timeout) && remaining >= 1
    ensures Effective(timeout, remaining).Some?
  {
  }

  lemma {:induction false} StartLeads(cfg: Config, w: World, at: real, budget: int)
    requires !w.terminal && !w.checking && |w.log| > 0 && w.log[|w.log| - 1] == Accepted(at)
             && BudgetFits(cfg, w.deadline, at, budget)
    ensures Leads(cfg, w, w.(log := w.log + [Started(at, budget)]))
  {
    hide BudgetFits;
  }

  /** What an execution that has completed has done. */
  predicate Executed(w: World, s: SendScript, mode: Mode, started: real, x: Execution) {
    && x.sent == 1 && x.done.Some? && mode.Completed? && s.transport.result == Some(x.done.value.response)
    && !x.world.terminal && x.world.last.Some? && x.done.value.finished <= x.world.last.value
    && x.done.value.started == started <= x.done.value.finished < w.deadline
  }

  lemma {:induction false} TransportEnds(cfg: Config, w: World, s: SendScript, started: real)
    requires !w.checking && w.last == Some(started)
    ensures var x := Transport(cfg, w, s, started);
            && Leads(cfg, w, x.world) && x.sent == 1
            && (x.done.Some? ==> Executed(w, s, cfg.mode, started, x) || (cfg.mode.TimedOut? || cfg.mode.Cancelled?))
    decreases s, 1
  {
    hide LogOk, Guard, Valid;
    RunAllLeads(cfg, w, s.transport.nested);
    var w3 := RunAll(cfg, w, s.transport.nested);
    GuardEnds(cfg, w3, s.clock, 5);
    var w4 := Guard(cfg, w3, s.clock, 5).0;
    LeadsThrough(cfg, w, w3, w4);
    ValidEnds(cfg, w4, s.clock, 7);
    LeadsThrough(cfg, w, w4, Valid(cfg, w4, s.clock, 7).0);
  }

  /** The transport starts only on a live lease, right after an accepted sample and within its budget. */
  predicate Launched(cfg: Config, w: World, budget: int, x: Execution) {
    && !w.terminal && |x.world.log| >= |w.log| + 4
    && x.world.log[|w.log| + 3].Started? && x.world.log[|w.log| + 3].budget == budget
    && x.world.log[|w.log| + 2] == Accepted(x.world.log[|w.log| + 3].at)
    && BudgetFits(cfg, w.deadline, x.world.log[|w.log| + 3].at, budget)
  }

  lemma {:induction false} ExecuteEnds(cfg: Config, w: World, s: SendScript, budget: int)
    requires Bound(cfg, w)
    ensures var x := Execute(cfg, w, s, budget);
            && Leads(cfg, w, x.world) && x.sent <= 1
            && (x.sent == 1 ==> Launched(cfg, w, budget, x))
            && (x.done.Some? ==> x.sent == 1 && Executed(w, s, cfg.mode, x.world.log[|w.log| + 3].at, x))
    decreases s, 2
  {
    hide LogOk, Guard, Valid, Transport, Effective, WholeMilliseconds;
    ValidEnds(cfg, w, s.clock, 2);
    var (w1, ok) := Valid(cfg, w, s.clock, 2);
    if ok && !cfg.mode.Cancelled? && !cfg.mode.TimedOut? {
      GuardEnds(cfg, w1, s.clock, 3);
      var (w2, latest) := Guard(cfg, w1, s.clock, 3);
      LeadsThrough(cfg, w, w1, w2);
      if latest.Some? && Effective(cfg.timeout, latest.value.1) == Some(budget) {
        EffectiveFits(cfg.timeout, latest.value.1);
        StartLeads(cfg, w2, latest.value.0, budget);
        var started := w2.(log := w2.log + [Started(latest.value.0, budget)]);
        TransportEnds(cfg, started, s, latest.value.0);
        LeadsThrough(cfg, w, w2, started);
        LeadsThrough(cfg, w, started, Transport(cfg, started, s, latest.value.0).world);
      } else {
        RevokedLeads(cfg, w2);
        LeadsThrough(cfg, w, w2, Revoked(w2));
      }
    }
  }

  lemma {:induction false} ReleaseEnds(cfg: Config, x: Execution, budget: int, s: SendScript)
    requires Bound(cfg, x.world)
    ensures var r := Release(cfg, x, budget, s);
            && Leads(cfg, x.world, r.world) && r.sent == x.sent && r.budget == budget
            && (r.response.None? ==> r.world.terminal)
            && (r.response.Some? ==>
                  x.done.Some? && r.done == x.done && r.response == Some(x.done.value.response) && !r.world.terminal
                  && ElapsedMatches(x.done.value.started, x.done.value.finished, x.done.value.elapsed, budget))
    decreases s, 2
  {
    hide LogOk, Guard, ElapsedMatches;
    RevokedLeads(cfg, x.world);
    GuardEnds(cfg, x.world, s.clock, 8);
  }

  /** What a response that is let out guarantees. */
  predicate Released(cfg: Config, w: World, s: SendScript, r: SendResult) {
    && r.sent == 1 && r.done.Some? && cfg.mode.Completed? && s.transport.result == r.response && !r.world.terminal
    && BudgetFits(cfg, w.deadline, r.done.value.started, r.budget)
    && r.done.value.started <= r.done.value.finished < w.deadline
    && (r.done.value.finished - r.done.value.started) * 1000.0 < r.budget as real
    && Microseconds(r.done.value.elapsed) == Microseconds((r.done.value.finished - r.done.value.started) * 1000.0)
    && |r.world.log| > |w.log| + 5
    && r.world.log[|w.log| + 4] == Accepted(r.done.value.started)
    && r.world.log[|w.log| + 5] == Started(r.done.value.started, r.budget)
  }

  lemma {:induction false} ElapsedIsBelowBudget(started: real, finished: real, reported: real, budget: int)
    requires ElapsedMatches(started, finished, reported, budget)
    ensures (finished - started) * 1000.0 < budget as real
    ensures Microseconds(reported) == Microseconds((finished - started) * 1000.0)
  {
  }

  /** A send lets a response out only after exactly one transport call of its own, started right after an
      accepted sample t0 with 1 <= budget <= 1000 * (deadline - t0), and finished within that budget and
      before the deadline. Otherwise, on a bound lease and with a valid timeout, the lease is terminal. */
  lemma {:induction false} SendEnds(cfg: Config, w: World, s: SendScript)
    ensures var r := Send(cfg, w, s);
            && Leads(cfg, w, r.world) && r.sent <= 1
            && (w.terminal ==> r.sent == 0 && r.response.None?)
            && (r.response.Some? ==> Bound(cfg, w) && Released(cfg, w, s, r))
            && (r.response.None? && Bound(cfg, w) && ValidTimeout(cfg.timeout) ==> r.world.terminal)
    decreases s, 3
  {
    hide LogOk, Guard, Execute, Release, Effective, ElapsedMatches, WholeMilliseconds;
    SameLeads(cfg, w);
    if ValidTimeout(cfg.timeout) {
      GuardEnds(cfg, w, s.clock, 0);
      var (w1, snapshot) := Guard(cfg, w, s.clock, 0);
      if snapshot.Some? {
        EffectiveExists(cfg.timeout, snapshot.value.1);
        var budget := Effective(cfg.timeout, snapshot.value.1).value;
        ExecuteEnds(cfg, w1, s, budget);
        var x := Execute(cfg, w1, s, budget);
        ReleaseEnds(cfg, x, budget, s);
        LeadsThrough(cfg, w, w1, x.world);
        LeadsThrough(cfg, w, x.world, Send(cfg, w, s).world);
        if x.done.Some? && ElapsedMatches(x.done.value.started, x.done.value.finished, x.done.value.elapsed, budget) {
          ElapsedIsBelowBudget(x.done.value.started, x.done.value.finished, x.done.value.elapsed, budget);
        }
      }
    }
  }

  // ---------- The observation ----------

  predicate Observed(w: World, r: ObserveResult) {
    if r.observation.Some? then r.fetched && !r.world.terminal else r.fetched ==> r.world.terminal
  }

  lemma {:induction false} AfterCopyEnds(cfg: Config, w: World, response: Option<Response>, o: ObserveScript)
    requires Bound(cfg, w)
    ensures var r := AfterCopy(cfg, w, response, o);
            && Leads(cfg, w, r.world) && Observed(w, r) && r.fetched
            && (r.observation.Some? ==> r.observation == response && o.matched && o.aware)
    decreases o, 0
  {
    hide LogOk, Valid;
    RunAllLeads(cfg, w, o.providerClock.nested);
    var w7 := RunAll(cfg, w, o.providerClock.nested);
    RevokedLeads(cfg, w7);
    LeadsThrough(cfg, w, w7, Revoked(w7));
    ValidEnds(cfg, w7, o.clock, 5);
    var w8 := Valid(cfg, w7, o.clock, 5).0;
    LeadsThrough(cfg, w, w7, w8);
    RevokedLeads(cfg, w8);
    LeadsThrough(cfg, w, w8, Revoked(w8));
    ValidEnds(cfg, w8, o.clock, 6);
    var w9 := Valid(cfg, w8, o.clock, 6).0;
    LeadsThrough(cfg, w, w8, w9);
    ValidEnds(cfg, w9, o.clock, 7);
    LeadsThrough(cfg, w, w9, Valid(cfg, w9, o.clock, 7).0);
  }

  lemma {:induction false} AfterFetchEnds(cfg: Config, w: World, response: Option<Response>, o: ObserveScript)
    requires Bound(cfg, w)
    ensures var r := AfterFetch(cfg, w, response, o);
            && Leads(cfg, w, r.world) && Observed(w, r) && r.fetched
            && (r.observation.Some? ==> r.observation == response && o.matched && o.aware)
    decreases o, 1
  {
    hide LogOk, Valid, AfterCopy;
    ValidEnds(cfg, w, o.clock, 2);
    var w3 := Valid(cfg, w, o.clock, 2).0;
    RunAllLeads(cfg, w3, o.copy.nested);
    var w4 := RunAll(cfg, w3, o.copy.nested);
    LeadsThrough(cfg, w, w3, w4);
    RevokedLeads(cfg, w4);
    LeadsThrough(cfg, w, w4, Revoked(w4));
    ValidEnds(cfg, w4, o.clock, 3);
    var w5 := Valid(cfg, w4, o.clock, 3).0;
    LeadsThrough(cfg, w, w4, w5);
    ValidEnds(cfg, w5, o.clock, 4);
    var w6 := Valid(cfg, w5, o.clock, 4).0;
    LeadsThrough(cfg, w, w5, w6);
    AfterCopyEnds(cfg, w6, response, o);
    LeadsThrough(cfg, w, w6, AfterCopy(cfg, w6, response, o).world);
  }

  /** An observation that reached the fetcher is bound to a live lease or leaves the lease terminal; one
      on a terminal lease never reaches it. What is observed is what the send let out. */
  lemma {:induction false} ObserveEnds(cfg: Config, w: World, o: ObserveScript)
    ensures var r := Observe(cfg, w, o);
            && Leads(cfg, w, r.world) && Observed(w, r)
            && (w.terminal || !Bound(cfg, w) ==> !r.fetched)
            && (r.observation.Some? ==>
                  o.member && o.mapped && o.matched && o.aware && r.observation == o.send.transport.result)
    decreases o, 2
  {
    hide LogOk, Valid, AfterFetch, Send, Released;
    ValidEnds(cfg, w, o.clock, 0);
    var w1 := Valid(cfg, w, o.clock, 0).0;
    ValidEnds(cfg, w1, o.clock, 1);
    var (w2, ok2) := Valid(cfg, w1, o.clock, 1);
    LeadsThrough(cfg, w, w1, w2);
    if ok2 {
      SendEnds(cfg, w2, o.send);
      var sent := Send(cfg, w2, o.send);
      if sent.response.Some? { ReleasedIsTransported(cfg, w2, o.send, sent); }
      LeadsThrough(cfg, w, w2, sent.world);
      AfterFetchEnds(cfg, sent.world, sent.response, o);
      LeadsThrough(cfg, w, sent.world, AfterFetch(cfg, sent.world, sent.response, o).world);
    }
  }

  lemma {:induction false} ReleasedIsTransported(cfg: Config, w: World, s: SendScript, r: SendResult)
    requires Released(cfg, w, s, r)
    ensures r.response == s.transport.result
  {
  }

  // ---------- All selected items ----------

  /** Every selected item is a member of the context and has a content id, as the builder checks. */
  predicate Selected(r: RecordsScript) {
    forall i :: 0 <= i < |r.observations| ==> r.observations[i].member && r.observations[i].mapped
  }

  /** One record for each selected item, with the answer of that item's transport. */
  predicate AllAnswered(r: RecordsScript, records: seq<Response>) {
    && |records| == |r.observations|
    && forall k :: 0 <= k < |r.observations| ==> Some(records[k]) == r.observations[k].send.transport.result
  }

  lemma {:induction false} RecordsFromEnd(cfg: Config, w: World, r: RecordsScript, i: nat, values: seq<Response>)
    requires Bound(cfg, w) && Selected(r) && i == |values| <= |r.observations|
    requires forall k :: 0 <= k < i ==> Some(values[k]) == r.observations[k].send.transport.result
    ensures var x := RecordsFrom(cfg, w, r, i, values);
            && Leads(cfg, w, x.0) && (x.1.None? <==> x.0.terminal)
            && (x.1.Some? ==> AllAnswered(r, x.1.value))
    decreases |r.observations| - i
  {
    hide Valid, Observe, LogOk;
    ValidEnds(cfg, w, r.clock, 2 * i + 1);
    var (w1, before) := Valid(cfg, w, r.clock, 2 * i + 1);
    if before && i < |r.observations| {
      ObserveEnds(cfg, w1, r.observations[i]);
      var o := Observe(cfg, w1, r.observations[i]);
      LeadsThrough(cfg, w, w1, o.world);
      LiveObservationFetches(cfg, w1, r.observations[i]);
      if o.observation.Some? {
        ValidEnds(cfg, o.world, r.clock, 2 * i + 2);
        var (w2, bound) := Valid(cfg, o.world, r.clock, 2 * i + 2);
        LeadsThrough(cfg, w, o.world, w2);
        if bound {
          RecordsFromEnd(cfg, w2, r, i + 1, values + [o.observation.value]);
          LeadsThrough(cfg, w, w2, RecordsFrom(cfg, w2, r, i + 1, values + [o.observation.value]).0);
        }
      }
    }
  }

  /** On a bound lease a member with a content id either reaches the fetcher or finds the lease terminal. */
  lemma {:induction false} LiveObservationFetches(cfg: Config, w: World, o: ObserveScript)
    requires Bound(cfg, w) && o.member && o.mapped
    ensures Observe(cfg, w, o).fetched || Observe(cfg, w, o).world.terminal
  {
    hide Valid, AfterFetch, Send, LogOk;
    ValidEnds(cfg, w, o.clock, 0);
    var (w1, ok) := Valid(cfg, w, o.clock, 0);
    ValidEnds(cfg, w1, o.clock, 1);
    if ok && Valid(cfg, w1, o.clock, 1).1 {
      var r := Send(cfg, Valid(cfg, w1, o.clock, 1).0, o.send);
      SendEnds(cfg, Valid(cfg, w1, o.clock, 1).0, o.send);
      AfterFetchEnds(cfg, r.world, r.response, o);
    }
  }

  /** The records of all selected items come out together, each with its transport's answer and under a live
      lease, or not at all, and then the lease is terminal. */
  lemma {:induction false} RecordsEnd(cfg: Config, w: World, r: RecordsScript)
    requires Bound(cfg, w) && Selected(r)
    ensures var x := Records(cfg, w, r);
            && Leads(cfg, w, x.0) && (x.1.None? <==> x.0.terminal)
            && (x.1.Some? ==> AllAnswered(r, x.1.value))
  {
    hide Valid, RecordsFrom, LogOk;
    ValidEnds(cfg, w, r.clock, 0);
    var (w1, ok) := Valid(cfg, w, r.clock, 0);
    if ok {
      RecordsFromEnd(cfg, w1, r, 0, []);
      LeadsThrough(cfg, w, w1, RecordsFrom(cfg, w1, r, 0, []).0);
    }
  }

  // ---------- Whole histories ----------

  lemma {:induction false} PerformLeads(cfg: Config, w: World, call: Call)
    ensures Leads(cfg, w, Perform(cfg, w, call))
    decreases call, 0
  {
    hide Leads, Send, Observe, Operate, Released, Observed;
    match call
    case LeaseCall(op, clock) => OperateLeads(cfg, w, op, clock);
    case SendCall(send) => SendEnds(cfg, w, send);
    case ObserveCall(observe) => ObserveEnds(cfg, w, observe);
  }

  lemma {:induction false} RunAllLeads(cfg: Config, w: World, calls: seq<Call>)
    ensures Leads(cfg, w, RunAll(cfg, w, calls))
    decreases calls, 0
  {
    hide Leads, Perform;
    if calls == [] {
      SameLeads(cfg, w);
    } else {
      PerformLeads(cfg, w, calls[0]);
      var w1 := Perform(cfg, w, calls[0]);
      RunAllLeads(cfg, w1, calls[1..]);
      LeadsThrough(cfg, w, w1, RunAll(cfg, w, calls));
    }
  }

  /** Every history of an issued lease: samples never decrease, all are below the deadline, and every start
      of the transport follows an accepted sample within its budget. */
  lemma {:induction false} HistoriesAreOk(cfg: Config, callable: bool, deadline: Option<real>, calls: seq<Call>)
    ensures LogOk(cfg, RunAll(cfg, Issue(callable, deadline), calls))
    ensures !callable || deadline.None? ==> RunAll(cfg, Issue(callable, deadline), calls).log == []
  {
    hide RunAll;
    RunAllLeads(cfg, Issue(callable, deadline), calls);
  }

  /** Terminal means terminal: after a lease has become terminal no call, however nested, changes anything;
      nothing is sampled, sent, released or observed any more. */
  lemma {:induction false} TerminalIsForever(cfg: Config, w: World, calls: seq<Call>, s: SendScript, o: ObserveScript)
    requires w.terminal
    ensures RunAll(cfg, w, calls) == w
    ensures Send(cfg, w, s).sent == 0 && Send(cfg, w, s).response.None?
    ensures !Observe(cfg, w, o).fetched && Observe(cfg, w, o).observation.None?
  {
    hide RunAll, Send, Observe, Released;
    RunAllLeads(cfg, w, calls);
    SendEnds(cfg, w, s);
    ObserveEnds(cfg, w, o);
  }

  // ---------- An honest environment is served ----------

  /** The readings of a clock that makes no calls of its own. */
  predicate Honest(clock: seq<ClockCall>) {
    forall i :: 0 <= i < |clock| ==> clock[i].nested == [] && clock[i].reading.Time?
  }

  predicate Rising(w: World, clock: seq<ClockCall>)
    requires Honest(clock)
  {
    && (forall i :: 0 <= i < |clock| ==> w.last.Some? ==> w.last.value <= clock[i].reading.t)
    && (forall i, j :: 0 <= i <= j < |clock| ==> clock[i].reading.t <= clock[j].reading.t)
  }

  lemma {:induction false} HonestSample(cfg: Config, w: World, c: ClockCall)
    requires c.nested == [] && c.reading.Time? && Acceptable(w, c.reading.t)
    ensures Sample(cfg, w, c) == (Accept(w, c.reading.t), Some(c.reading.t))
  {
    assert RunAll(cfg, w.(checking := true), []) == w.(checking := true);
  }

  lemma {:induction false} HonestValid(cfg: Config, w: World, clock: seq<ClockCall>, i: nat)
    requires i < |clock| && Honest(clock) && Bound(cfg, w) && Acceptable(w, clock[i].reading.t)
    ensures Valid(cfg, w, clock, i) == (Accept(w, clock[i].reading.t), true)
  {
    HonestSample(cfg, w, clock[i]);
  }

  /** Enough of the lease is left for the whole timeout. */
  predicate Roomy(cfg: Config, w: World, t: real) {
    ValidTimeout(cfg.timeout) && t < w.deadline && cfg.timeout.value <= WholeMilliseconds(w.deadline, t) as real
  }

  lemma {:induction false} HonestGuard(cfg: Config, w: World, clock: seq<ClockCall>, i: nat)
    requires i + 1 < |clock| && Honest(clock) && Bound(cfg, w) && Acceptable(w, clock[i].reading.t)
    requires clock[i].reading.t <= clock[i + 1].reading.t && Roomy(cfg, w, clock[i + 1].reading.t)
    ensures var t := clock[i + 1].reading.t;
            Guard(cfg, w, clock, i) == (Accept(Accept(w, clock[i].reading.t), t),
                                        Some((t, WholeMilliseconds(w.deadline, t))))
  {
    HonestValid(cfg, w, clock, i);
    var w1 := Accept(w, clock[i].reading.t);
    HonestSample(cfg, w1, clock[i + 1]);
    assert Guard(cfg, w, clock, i) == BudgetOf(SampleAt(cfg, w1, clock, i + 1));
  }

  lemma {:induction false} RoomyBudget(cfg: Config, w: World, t: real)
    requires Roomy(cfg, w, t)
    ensures Effective(cfg.timeout, WholeMilliseconds(w.deadline, t)) == Some(cfg.timeout.value.Floor)
  {
  }

  /** With an honest rising clock, time for the whole timeout and a transport that answers in time and
      makes no calls of its own, the send lets the answer out. */
  lemma {:induction false} HonestSendIsReleased(cfg: Config, w: World, s: SendScript)
    requires Bound(cfg, w) && !w.terminal && !w.checking && cfg.mode.Completed? && cfg.elapsed.None?
    requires |s.clock| == 10 && Honest(s.clock) && Rising(w, s.clock) && Roomy(cfg, w, s.clock[9].reading.t)
    requires s.transport.nested == [] && s.transport.result.Some?
    requires Ceiling((s.clock[6].reading.t - s.clock[4].reading.t) * 1000.0 * 1000.0) < cfg.timeout.value.Floor * 1000
    ensures Send(cfg, w, s).response == s.transport.result && !Send(cfg, w, s).world.terminal
  {
    hide Effective, WholeMilliseconds, Guard, Valid, Ceiling;
    RoomyBefore(cfg, w, s.clock);
    HonestGuard(cfg, w, s.clock, 0);
    RoomyBudget(cfg, w, s.clock[1].reading.t);
    RoomyBudget(cfg, w, s.clock[4].reading.t);
    var budget := cfg.timeout.value.Floor;
    var w1 := Guard(cfg, w, s.clock, 0).0;
    HonestExecute(cfg, w1, s, budget);
    var x := Execute(cfg, w1, s, budget);
    HonestGuard(cfg, x.world, s.clock, 8);
  }

  lemma {:induction false} RoomyBefore(cfg: Config, w: World, clock: seq<ClockCall>)
    requires |clock| == 10 && Honest(clock) && Rising(w, clock) && Roomy(cfg, w, clock[9].reading.t)
    ensures forall i :: 0 <= i < 10 ==> Roomy(cfg, w, clock[i].reading.t)
  {
    forall i | 0 <= i < 10 ensures Roomy(cfg, w, clock[i].reading.t) {
      WholeMillisecondsFall(w.deadline, clock[i].reading.t, clock[9].reading.t);
    }
  }

  lemma {:induction false} WholeMillisecondsFall(deadline: real, a: real, b: real)
    requires a <= b
    ensures WholeMilliseconds(deadline, b) <= WholeMilliseconds(deadline, a)
  {
  }

  lemma {:induction false} HonestExecute(cfg: Config, w: World, s: SendScript, budget: int)
    requires Bound(cfg, w) && !w.terminal && !w.checking && cfg.mode.Completed? && cfg.elapsed.None?
    requires |s.clock| == 10 && Honest(s.clock) && s.transport.nested == [] && s.transport.result.Some?
    requires forall i :: 0 <= i < 10 ==> Roomy(cfg, w, s.clock[i].reading.t)
    requires forall i, j :: 0 <= i <= j < 10 ==> s.clock[i].reading.t <= s.clock[j].reading.t
    requires w.last.Some? && w.last.value <= s.clock[2].reading.t
    requires Effective(cfg.timeout, WholeMilliseconds(w.deadline, s.clock[4].reading.t)) == Some(budget)
    ensures var x := Execute(cfg, w, s, budget); var t0, t1 := s.clock[4].reading.t, s.clock[6].reading.t;
            && x.done == Some(Completion(s.transport.result.value, (t1 - t0) * 1000.0, t0, t1))
            && Bound(cfg, x.world) && !x.world.terminal && !x.world.checking && x.world.deadline == w.deadline
            && x.world.last == Some(s.clock[7].reading.t)
  {
    hide Effective, WholeMilliseconds, Guard, Valid;
    HonestValid(cfg, w, s.clock, 2);
    var w1 := Accept(w, s.clock[2].reading.t);
    HonestGuard(cfg, w1, s.clock, 3);
    var w2 := Guard(cfg, w1, s.clock, 3).0;
    var started := w2.(log := w2.log + [Started(s.clock[4].reading.t, budget)]);
    assert RunAll(cfg, started, []) == started;
    HonestGuard(cfg, started, s.clock, 5);
    HonestValid(cfg, Guard(cfg, started, s.clock, 5).0, s.clock, 7);
  }

  /** A live lease with this last sample and nothing else of interest. */
  predicate LiveAt(cfg: Config, w: World, t: real) { Bound(cfg, w) && !w.terminal && !w.checking && w.last == Some(t) }

  /** The honest send leaves the lease live at its last sample. */
  lemma {:induction false} HonestSendStaysLive(cfg: Config, w: World, s: SendScript)
    requires Bound(cfg, w) && !w.terminal && !w.checking && cfg.mode.Completed? && cfg.elapsed.None?
    requires |s.clock| == 10 && Honest(s.clock) && Rising(w, s.clock) && Roomy(cfg, w, s.clock[9].reading.t)
    requires s.transport.nested == [] && s.transport.result.Some?
    requires Ceiling((s.clock[6].reading.t - s.clock[4].reading.t) * 1000.0 * 1000.0) < cfg.timeout.value.Floor * 1000
    ensures var r := Send(cfg, w, s); LiveAt(cfg, r.world, s.clock[9].reading.t) && r.world.deadline == w.deadline
  {
    hide Effective, WholeMilliseconds, Guard, Valid, Ceiling;
    RoomyBefore(cfg, w, s.clock);
    HonestGuard(cfg, w, s.clock, 0);
    RoomyBudget(cfg, w, s.clock[1].reading.t);
    RoomyBudget(cfg, w, s.clock[4].reading.t);
    var w1 := Guard(cfg, w, s.clock, 0).0;
    HonestExecute(cfg, w1, s, cfg.timeout.value.Floor);
    HonestGuard(cfg, Execute(cfg, w1, s, cfg.timeout.value.Floor).world, s.clock, 8);
  }

  lemma {:induction false} HonestStep(cfg: Config, w: World, clock: seq<ClockCall>, i: nat, t: real)
    requires i < |clock| && Honest(clock) && LiveAt(cfg, w, t) && t <= clock[i].reading.t < w.deadline
    ensures var r := Valid(cfg, w, clock, i); r.1 && LiveAt(cfg, r.0, clock[i].reading.t) && r.0.deadline == w.deadline
  {
    HonestValid(cfg, w, clock, i);
  }

  /** The clock of an honest observation: two samples, the samples of its send, and six more. */
  predicate HonestObservation(cfg: Config, w: World, o: ObserveScript) {
    && |o.clock| == 8 && Honest(o.clock) && |o.send.clock| == 10 && Honest(o.send.clock)
    && Rising(w, o.clock) && Rising(w, o.send.clock)
    && o.clock[1].reading.t <= o.send.clock[0].reading.t && o.send.clock[9].reading.t <= o.clock[2].reading.t
    && o.clock[7].reading.t < w.deadline && Roomy(cfg, w, o.send.clock[9].reading.t)
    && o.member && o.mapped && o.aware && o.matched
    && o.copy == Callback([], Some(0)) && o.providerClock == Callback([], Some(0))
    && o.send.transport.nested == [] && o.send.transport.result.Some?
    && Ceiling((o.send.clock[6].reading.t - o.send.clock[4].reading.t) * 1000.0 * 1000.0) <
       cfg.timeout.value.Floor * 1000
  }

  lemma {:induction false} HonestAfterFetch(cfg: Config, w: World, response: Response, o: ObserveScript, t: real)
    requires LiveAt(cfg, w, t) && |o.clock| == 8 && Honest(o.clock) && t <= o.clock[2].reading.t
             && o.clock[7].reading.t < w.deadline
    requires forall i, j :: 0 <= i <= j < 8 ==> o.clock[i].reading.t <= o.clock[j].reading.t
    requires o.aware && o.matched && o.copy == Callback([], Some(0)) && o.providerClock == Callback([], Some(0))
    ensures AfterFetch(cfg, w, Some(response), o).observation == Some(response)
  {
    hide Valid;
    HonestStep(cfg, w, o.clock, 2, t);
    var w3 := Valid(cfg, w, o.clock, 2).0;
    assert RunAll(cfg, w3, []) == w3;
    HonestStep(cfg, w3, o.clock, 3, o.clock[2].reading.t);
    var w5 := Valid(cfg, w3, o.clock, 3).0;
    HonestStep(cfg, w5, o.clock, 4, o.clock[3].reading.t);
    var w6 := Valid(cfg, w5, o.clock, 4).0;
    assert RunAll(cfg, w6, []) == w6;
    HonestStep(cfg, w6, o.clock, 5, o.clock[4].reading.t);
    var w8 := Valid(cfg, w6, o.clock, 5).0;
    HonestStep(cfg, w8, o.clock, 6, o.clock[5].reading.t);
    var w9 := Valid(cfg, w8, o.clock, 6).0;
    HonestStep(cfg, w9, o.clock, 7, o.clock[6].reading.t);
  }

  /** With an honest environment an observation is bound and carries the transport's answer. */
  lemma {:induction false} HonestObservationIsBound(cfg: Config, w: World, o: ObserveScript)
    requires Bound(cfg, w) && !w.terminal && !w.checking && cfg.mode.Completed? && cfg.elapsed.None?
             && HonestObservation(cfg, w, o)
    ensures Observe(cfg, w, o).observation == o.send.transport.result
  {
    hide Valid, Send, AfterFetch, Roomy, Ceiling;
    HonestValid(cfg, w, o.clock, 0) by { assert Acceptable(w, o.clock[0].reading.t); }
    var w1 := Valid(cfg, w, o.clock, 0).0;
    HonestStep(cfg, w1, o.clock, 1, o.clock[0].reading.t);
    var w2 := Valid(cfg, w1, o.clock, 1).0;
    assert Roomy(cfg, w2, o.send.clock[9].reading.t) by { RoomySame(cfg, w, w2, o.send.clock[9].reading.t); }
    RisingFrom(w, w2, o.send.clock, o.clock[1].reading.t);
    HonestSendIsReleased(cfg, w2, o.send);
    HonestSendStaysLive(cfg, w2, o.send);
    HonestAfterFetch(cfg, Send(cfg, w2, o.send).world, o.send.transport.result.value, o, o.send.clock[9].reading.t);
  }

  lemma {:induction false} RoomySame(cfg: Config, w: World, w': World, t: real)
    requires Roomy(cfg, w, t) && w'.deadline == w.deadline
    ensures Roomy(cfg, w', t)
  {
  }

  lemma {:induction false} RisingFrom(w: World, w': World, clock: seq<ClockCall>, t: real)
    requires |clock| > 0 && Honest(clock) && Rising(w, clock) && w'.last == Some(t) && t <= clock[0].reading.t
    ensures Rising(w', clock)
  {
  }
}
