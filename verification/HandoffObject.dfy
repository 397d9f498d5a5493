/** The registries of envelopes, handoffs and observations as an object: each method carries out the steps of
    the source on its fields and comes to exactly the state that Handoffs describes. */
module HandoffObject {
  import opened Text
  import opened Handoffs
  import opened HandoffSafety

  class Registry {
    var envelopes: seq<Envelope>
    var handoffs: seq<Handoff>
    var observations: seq<Observation>
    var terminal: set<nat>
    var checking: set<nat>
    ghost var log: seq<Entry>

    ghost function Now(): State
      reads this
    {
      State(envelopes, handoffs, observations, terminal, checking, log)
    }

    constructor ()
      ensures Now() == INITIAL_STATE
    {
      envelopes, handoffs, observations, terminal, checking, log := [], [], [], {}, {}, [];
    }

    method StopOwner(provider: nat)
      modifies this
      ensures Now() == Stop(old(Now()), provider)
    {
      terminal := terminal + {provider};
    }

    method SampleOwner(provider: nat, c: ClockScript) returns (ok: bool)
      modifies this
      ensures (Now(), ok) == Sample(old(Now()), provider, c)
      decreases c, 0
    {
      if provider in terminal || provider in checking {
        StopOwner(provider);
        return false;
      }
      var before := checking;
      checking := checking + {provider};
      MakeCalls(c.nested);
      checking := before;
      if provider in terminal || !c.ok {
        StopOwner(provider);
        return false;
      }
      return true;
    }

    method OwnerReady(provider: nat, c: ClockScript, member: bool) returns (ok: bool)
      modifies this
      ensures (Now(), ok) == Ready(old(Now()), provider, c, member)
      decreases c, 1
    {
      ok := SampleOwner(provider, c);
      ok := ok && member;
    }

    method SampleOwnerAt(provider: nat, samples: seq<ClockScript>, i: nat) returns (ok: bool)
      modifies this
      ensures (Now(), ok) == SampleAt(old(Now()), provider, samples, i)
      decreases samples, 0
    {
      if i < |samples| {
        ok := SampleOwner(provider, samples[i]);
      } else {
        StopOwner(provider);
        ok := false;
      }
    }

    method ConsumeOnce(o: nat, content: nat) returns (ok: bool)
      modifies this
      ensures ok <==> Consumable(old(Now()), o, content)
      ensures Now() == if ok then MarkConsumed(old(Now()), o) else old(Now())
    {
      if o >= |observations| || observations[o].consumed || observations[o].content != content { return false; }
      observations := observations[o := observations[o].(consumed := true)];
      log := log + [Consumed(o)];
      return true;
    }

    method ConsumeForOwner(provider: nat, o: nat, c: ConsumeScript) returns (ok: bool)
      modifies this
      ensures (Now(), ok) == Consume(old(Now()), provider, o, c)
      decreases c, 1
    {
      hide SampleAt, AfterConsume;
      ok := SampleOwnerAt(provider, c.samples, 0);
      if !ok || !c.member { return false; }
      ok := SampleOwnerAt(provider, c.samples, 1);
      if !ok || c.mapped.None? { return false; }
      ok := ConsumeOnce(o, c.mapped.value);
      if !ok { return false; }
      ok := FinishConsumption(provider, c);
    }

    method FinishConsumption(provider: nat, c: ConsumeScript) returns (ok: bool)
      modifies this
      ensures (Now(), ok) == AfterConsume(old(Now()), provider, c)
      decreases c, 0
    {
      hide SampleAt, PerformAll;
      ok := SampleOwnerAt(provider, c.samples, 2);
      if !ok { return; }
      MakeCalls(c.clock.nested);
      if !c.clock.ok {
        StopOwner(provider);
        return false;
      }
      ok := SampleOwnerAt(provider, c.samples, 3);
      if !ok { return; }
      if !c.aware {
        StopOwner(provider);
        return false;
      }
      ok := SampleOwnerAt(provider, c.samples, 4);
      if !ok { return; }
      ok := SampleOwnerAt(provider, c.samples, 5);
    }

    /** A run of an envelope, with the early exits of the source. */
    method RunEnvelope(e: nat, provider: nat, public: nat, r: RunScript) returns (checked: bool, verdict: Verdict)
      modifies this
      ensures Result(Now(), checked, verdict) == Run(old(Now()), e, provider, public, r)
      ensures Inv(old(Now())) ==>
                && Leads(old(Now()), Now()) && Ended(provider, Result(Now(), checked, verdict))
                && (e < |old(envelopes)| && old(envelopes)[e].used ==> verdict.Blocked?)
      decreases r, 3
    {
      hide Leads, Inv;
      if Inv(Now()) { RunLeads(Now(), e, provider, public, r); }
      hide Ready, AfterOwner, GatesPass;
      if e >= |envelopes| { return false, Refused; }
      if envelopes[e].used {
        StopOwner(provider);
        return false, Blocked;
      }
      var snapshot := envelopes[e].snapshot;
      envelopes := envelopes[e := envelopes[e].(used := true)];
      if !r.evidence {
        StopOwner(provider);
        return false, Blocked;
      }
      var ready := OwnerReady(provider, r.owner, r.member);
      if !ready { return false, Blocked; }
      checked, verdict := RunOwned(e, snapshot, provider, public, r);
    }

    method RunOwned(e: nat, snapshot: Snapshot, provider: nat, public: nat, r: RunScript)
      returns (checked: bool, verdict: Verdict)
      modifies this
      ensures Result(Now(), checked, verdict) == AfterOwner(old(Now()), e, snapshot, provider, public, r)
      decreases r, 2
    {
      hide Ready, Consume;
      checked, verdict := true, Blocked;
      if snapshot.killBefore || snapshot.revoked || snapshot.budget < 1 || snapshot.elapsed < 0
         || snapshot.elapsed >= snapshot.budget
         || snapshot.status != 200 || !snapshot.mediaOk || snapshot.payload.None?
      {
        StopOwner(provider);
        return;
      }
      if r.syntaxOnly {
        handoffs := handoffs + [Handoff(e, provider, public, false)];
        return true, Handed(|handoffs| - 1);
      }
      if r.semantic.None? {
        StopOwner(provider);
        return;
      }
      observations := observations + [Observation(r.semantic.value, false)];
      var consumed := ConsumeForOwner(provider, |observations| - 1, r.consume);
      if !consumed || snapshot.killAfter || snapshot.revoked {
        StopOwner(provider);
        return;
      }
      var ready := OwnerReady(provider, r.last, r.member);
      if !ready {
        StopOwner(provider);
        return;
      }
      log := log + [Accepted(e)];
      return true, Passed;
    }

    /** A projection of a handoff. */
    method ProjectHandoff(h: nat, provider: nat, public: nat, p: ProjectScript)
      returns (checked: bool, verdict: Verdict)
      modifies this
      ensures Result(Now(), checked, verdict) == RunProjection(old(Now()), h, provider, public, p)
      ensures Inv(old(Now())) ==>
                && Leads(old(Now()), Now()) && Ended(provider, Result(Now(), checked, verdict)) && !verdict.Handed?
                && (h < |old(handoffs)| && old(handoffs)[h].consumed ==> !checked)
      decreases p, 3
    {
      hide Leads, Inv;
      if Inv(Now()) { ProjectionLeads(Now(), h, provider, public, p); }
      hide Ready, Process;
      checked, verdict := false, Blocked;
      if h >= |handoffs| || handoffs[h].provider != provider || handoffs[h].public != public { return false, Refused; }
      if handoffs[h].consumed {
        StopOwner(provider);
        return;
      }
      var e := handoffs[h].envelope;
      var killed := e < |envelopes| && (envelopes[e].snapshot.killAfter || envelopes[e].snapshot.revoked);
      var ready := OwnerReady(provider, p.owner, p.member);
      if !ready || h >= |handoffs| { return; }
      checked := true;
      handoffs := handoffs[h := handoffs[h].(consumed := true)];
      log := log + [Projected(h)];
      var passed := ProcessPayload(provider, p);
      if !passed || killed {
        StopOwner(provider);
        return;
      }
      ready := OwnerReady(provider, p.last, p.member);
      if !ready {
        StopOwner(provider);
        return;
      }
      log := log + [Accepted(e)];
      verdict := Passed;
    }

    method ProcessPayload(provider: nat, p: ProjectScript) returns (passed: bool)
      modifies this
      ensures (Now(), passed) == Process(old(Now()), provider, p)
      decreases p, 2
    {
      hide Ready, Consume;
      if !p.dispositions { return false; }
      var ready := OwnerReady(provider, p.again, p.member);
      if !ready || !p.subset || p.semantic.None? { return false; }
      observations := observations + [Observation(p.semantic.value, false)];
      passed := ConsumeForOwner(provider, |observations| - 1, p.consume);
    }

    method MakeCall(c: Call)
      modifies this
      ensures Now() == Perform(old(Now()), c)
      decreases c, 0
    {
      hide Run, RunProjection, Sample;
      match c {
        case Issue(snapshot) => envelopes := envelopes + [Envelope(snapshot, false)];
        case Direct(e, provider, public, run) => var _, _ := RunEnvelope(e, provider, public, run);
        case Project(h, provider, public, projection) => var _, _ := ProjectHandoff(h, provider, public, projection);
        case Validate(content) => observations := observations + [Observation(content, false)];
        case ConsumeNow(o, content) => var _ := ConsumeOnce(o, content);
        case Look(provider, clock) => var _ := SampleOwner(provider, clock);
        case Revoke(provider) => StopOwner(provider);
      }
    }

    method MakeCalls(calls: seq<Call>)
      modifies this
      ensures Now() == PerformAll(old(Now()), calls)
      decreases calls, 0
    {
      if calls != [] {
        MakeCall(calls[0]);
        MakeCalls(calls[1..]);
      }
    }
  }
}
