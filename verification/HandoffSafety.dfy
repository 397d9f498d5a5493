/** At most once: what every history of envelopes, handoffs and observations keeps, re-entrant callbacks included. */
module HandoffSafety {
  import opened Text
  import opened Handoffs

  // ---------- The invariant ----------

  /** Every handoff of the envelope has been projected. */
  predicate NoneOpen(s: State, e: nat) {
    forall h :: 0 <= h < |s.handoffs| && s.handoffs[h].envelope == e ==> s.handoffs[h].consumed
  }

  /** The event can not happen any more. */
  predicate Spent(s: State, x: Entry) {
    match x
    case Accepted(e) => e < |s.envelopes| && s.envelopes[e].used && NoneOpen(s, e)
    case Projected(h) => h < |s.handoffs| && s.handoffs[h].consumed
    case Consumed(o) => o < |s.observations| && s.observations[o].consumed
  }

  predicate OncePerEnvelope(s: State) {
    && (forall h :: 0 <= h < |s.handoffs| ==>
        s.handoffs[h].envelope < |s.envelopes| && s.envelopes[s.handoffs[h].envelope].used)
    && (forall i, j :: 0 <= i < j < |s.handoffs| ==> s.handoffs[i].envelope != s.handoffs[j].envelope)
  }

  predicate NoRepeat(log: seq<Entry>) { forall i, j :: 0 <= i < j < |log| ==> log[i] != log[j] }

  predicate LogSpent(s: State) { forall i :: 0 <= i < |s.log| ==> Spent(s, s.log[i]) }

  /** Nothing in the log comes twice, and what is in the log can not happen any more. */
  predicate Inv(s: State) { OncePerEnvelope(s) && NoRepeat(s.log) && LogSpent(s) }

  /** What any stretch of calls does: issued things keep their data, what is used stays used, new handoffs come
      only from envelopes that were unused, nothing that is spent happens again, and handoffs of an owner whose
      clock is being read stay as they are. */
  predicate Keeps(s: State, s': State) {
    && |s.envelopes| <= |s'.envelopes| && |s.handoffs| <= |s'.handoffs| && |s.observations| <= |s'.observations|
    && (forall e :: 0 <= e < |s.envelopes| ==>
          s'.envelopes[e].snapshot == s.envelopes[e].snapshot && (s.envelopes[e].used ==> s'.envelopes[e].used))
    && (forall h :: 0 <= h < |s.handoffs| ==> s'.handoffs[h].(consumed := s.handoffs[h].consumed) == s.handoffs[h]
                                               && (s.handoffs[h].consumed ==> s'.handoffs[h].consumed))
    && (forall o :: 0 <= o < |s.observations| ==> s.observations[o].consumed ==> s'.observations[o].consumed)
    && (forall h :: |s.handoffs| <= h < |s'.handoffs| ==> s'.handoffs[h].envelope < |s.envelopes| ==>
        !s.envelopes[s'.handoffs[h].envelope].used)
    && (forall h :: 0 <= h < |s.handoffs| && s.handoffs[h].provider in s.checking ==>
        s'.handoffs[h].consumed == s.handoffs[h].consumed)
    && s'.checking == s.checking && s.terminal <= s'.terminal
  }

  predicate NothingAgain(s: State, s': State) {
    s.log <= s'.log && forall i :: |s.log| <= i < |s'.log| ==> !Spent(s, s'.log[i])
  }

  predicate Leads(s: State, s': State) { Inv(s) ==> Keeps(s, s') && NothingAgain(s, s') && Inv(s') }

  lemma {:induction false} SpentStays(s: State, s': State, x: Entry)
    requires Keeps(s, s') && Spent(s, x)
    ensures Spent(s', x)
  {
    if x.Accepted? {
      forall h | 0 <= h < |s'.handoffs| && s'.handoffs[h].envelope == x.envelope ensures s'.handoffs[h].consumed {
        if h < |s.handoffs| { assert s.handoffs[h].envelope == x.envelope; }
      }
    }
  }

  lemma {:induction false} KeepsThrough(a: State, b: State, c: State)
    requires Keeps(a, b) && Keeps(b, c)
    ensures Keeps(a, c)
  {
  }

  lemma {:induction false} LeadsThrough(a: State, b: State, c: State)
    requires Leads(a, b) && Leads(b, c)
    ensures Leads(a, c)
  {
    hide Inv, Keeps, Spent;
    if Inv(a) {
      KeepsThrough(a, b, c);
      forall i | |a.log| <= i < |c.log| ensures !Spent(a, c.log[i]) {
        if i < |b.log| { assert c.log[i] == b.log[i]; } else if Spent(a, c.log[i]) { SpentStays(a, b, c.log[i]); }
      }
    }
  }

  lemma {:induction false} LeadsSame(s: State)
    ensures Leads(s, s)
  {
    hide Inv;
  }

  lemma {:induction false} StopLeads(s: State, provider: nat)
    ensures Leads(s, Stop(s, provider))
  {
    hide NoneOpen, NoRepeat;
    SpentSame(s, Stop(s, provider));
  }

  /** The invariant does not depend on owners. */
  lemma {:induction false} SpentSame(s: State, s': State)
    requires s'.envelopes == s.envelopes && s'.handoffs == s.handoffs && s'.observations == s.observations
    ensures forall x :: Spent(s', x) <==> Spent(s, x)
    ensures s'.log == s.log ==> (Inv(s') <==> Inv(s))
  {
    hide NoRepeat;
    forall x ensures Spent(s', x) <==> Spent(s, x) { }
  }

  // ---------- One event ----------

  /** An event that can still happen, and is spent by happening. */
  lemma {:induction false} EventLeads(s: State, s': State, x: Entry)
    requires Keeps(s, s') && s'.log == s.log + [x] && !Spent(s, x) && Spent(s', x)
    requires OncePerEnvelope(s) ==> OncePerEnvelope(s')
    ensures Leads(s, s')
  {
    hide Keeps, Spent, OncePerEnvelope;
    if Inv(s) {
      forall i | 0 <= i < |s'.log| ensures Spent(s', s'.log[i]) {
        if i < |s.log| { SpentStays(s, s', s.log[i]); }
      }
    }
  }

  lemma {:induction false} MarkConsumedLeads(s: State, o: nat)
    requires o < |s.observations| && !s.observations[o].consumed
    ensures Leads(s, MarkConsumed(s, o))
  {
    EventLeads(s, MarkConsumed(s, o), Consumed(o));
  }

  lemma {:induction false} MarkProjectedLeads(s: State, h: nat)
    requires h < |s.handoffs| && !s.handoffs[h].consumed && s.handoffs[h].provider !in s.checking
    ensures Leads(s, MarkProjected(s, h))
  {
    EventLeads(s, MarkProjected(s, h), Projected(h));
  }

  lemma {:induction false} MarkUsedLeads(s: State, e: nat)
    requires e < |s.envelopes| && !s.envelopes[e].used
    ensures Leads(s, MarkUsed(s, e))
    ensures Inv(s) ==> Spent(MarkUsed(s, e), Accepted(e)) && Accepted(e) !in s.log && NoHandoff(MarkUsed(s, e), e)
  {
    var s' := MarkUsed(s, e);
    assert Keeps(s, s');
    if Inv(s) {
      forall i | 0 <= i < |s.log| ensures Spent(s', s.log[i]) && s.log[i] != Accepted(e) {
        SpentStays(s, s', s.log[i]);
      }
    }
  }

  predicate NoHandoff(s: State, e: nat) { forall h :: 0 <= h < |s.handoffs| ==> s.handoffs[h].envelope != e }

  lemma {:induction false} ObserveLeads(s: State, content: nat)
    ensures Leads(s, Observe(s, content))
  {
    hide NoRepeat, OncePerEnvelope;
    var s' := Observe(s, content);
    assert Keeps(s, s');
    if Inv(s) {
      assert OncePerEnvelope(s') by { OnceSame(s, s'); }
      forall i | 0 <= i < |s'.log| ensures Spent(s', s'.log[i]) { SpentStays(s, s', s.log[i]); }
    }
  }

  lemma {:induction false} OnceSame(s: State, s': State)
    requires OncePerEnvelope(s) && s'.handoffs == s.handoffs && |s.envelopes| <= |s'.envelopes|
    requires forall e :: 0 <= e < |s.envelopes| ==> s'.envelopes[e] == s.envelopes[e]
    ensures OncePerEnvelope(s')
  {
  }

  lemma {:induction false} IssueLeads(s: State, snapshot: Snapshot)
    ensures Leads(s, s.(envelopes := s.envelopes + [Envelope(snapshot, false)]))
  {
    hide NoRepeat, OncePerEnvelope;
    var s' := s.(envelopes := s.envelopes + [Envelope(snapshot, false)]);
    assert Keeps(s, s');
    if Inv(s) {
      assert OncePerEnvelope(s') by { OnceSame(s, s'); }
      forall i | 0 <= i < |s'.log| ensures Spent(s', s'.log[i]) { SpentStays(s, s', s.log[i]); }
    }
  }

  // ---------- Owners ----------

  predicate HandoffsRest(s: State, s': State, provider: nat) {
    forall h :: 0 <= h < |s.handoffs| && s.handoffs[h].provider == provider ==>
      h < |s'.handoffs| && s'.handoffs[h].consumed == s.handoffs[h].consumed
  }

  /** The ways a sample can end; the handoffs of the sampled owner have not been projected meanwhile. */
  predicate Sampled(s: State, provider: nat, r: (State, bool)) {
    && (if r.1 then provider !in r.0.terminal else provider in r.0.terminal)
    && (r.1 ==> provider !in s.checking && (Inv(s) ==> HandoffsRest(s, r.0, provider)))
  }

  lemma {:induction false} SampleLeads(s: State, provider: nat, c: ClockScript)
    ensures Leads(s, Sample(s, provider, c).0) && Sampled(s, provider, Sample(s, provider, c))
    decreases c, 0
  {
    if provider in s.terminal || provider in s.checking {
      StopLeads(s, provider);
    } else {
      var outside := s.(checking := s.checking + {provider});
      PerformAllLeads(outside, c.nested);
      var inside := PerformAll(outside, c.nested);
      var after := inside.(checking := s.checking);
      InsideOut(s, provider, inside);
      StopLeads(after, provider);
      LeadsThrough(s, after, Stop(after, provider));
    }
  }

  /** The calls made while an owner's clock is read, seen from outside. */
  lemma {:induction false} InsideOut(s: State, provider: nat, inside: State)
    requires Leads(s.(checking := s.checking + {provider}), inside)
    ensures Leads(s, inside.(checking := s.checking))
    ensures Inv(s) ==> HandoffsRest(s, inside, provider)
  {
    hide Inv, Spent;
    var outside, after := s.(checking := s.checking + {provider}), inside.(checking := s.checking);
    SpentSame(s, outside);
    SpentSame(inside, after);
  }

  lemma {:induction false} SampleAtLeads(s: State, provider: nat, samples: seq<ClockScript>, i: nat)
    ensures Leads(s, SampleAt(s, provider, samples, i).0) && Sampled(s, provider, SampleAt(s, provider, samples, i))
    decreases samples, 0
  {
    if i < |samples| { SampleLeads(s, provider, samples[i]); } else { StopLeads(s, provider); }
  }

  // ---------- Consumption ----------

  lemma {:induction false} ConsumeLeads(s: State, provider: nat, o: nat, c: ConsumeScript)
    ensures Leads(s, Consume(s, provider, o, c).0)
    decreases c, 1
  {
    hide Leads, Sampled, SampleAt;
    SampleAtLeads(s, provider, c.samples, 0);
    var s1 := SampleAt(s, provider, c.samples, 0).0;
    SampleAtLeads(s1, provider, c.samples, 1);
    var s2 := SampleAt(s1, provider, c.samples, 1).0;
    LeadsThrough(s, s1, s2);
    if c.mapped.Some? && Consumable(s2, o, c.mapped.value) {
      MarkConsumedLeads(s2, o);
      var s3 := MarkConsumed(s2, o);
      LeadsThrough(s, s2, s3);
      AfterConsumeLeads(s3, provider, c);
      LeadsThrough(s, s3, AfterConsume(s3, provider, c).0);
    }
  }

  lemma {:induction false} AfterConsumeLeads(s: State, provider: nat, c: ConsumeScript)
    ensures Leads(s, AfterConsume(s, provider, c).0)
    decreases c, 0
  {
    hide Leads, Sampled, SampleAt;
    SampleAtLeads(s, provider, c.samples, 2);
    var s3 := SampleAt(s, provider, c.samples, 2).0;
    PerformAllLeads(s3, c.clock.nested);
    var s4 := PerformAll(s3, c.clock.nested);
    LeadsThrough(s, s3, s4);
    StopLeads(s4, provider);
    LeadsThrough(s, s4, Stop(s4, provider));
    SampleAtLeads(s4, provider, c.samples, 3);
    var s5 := SampleAt(s4, provider, c.samples, 3).0;
    LeadsThrough(s, s4, s5);
    StopLeads(s5, provider);
    LeadsThrough(s, s5, Stop(s5, provider));
    SampleAtLeads(s5, provider, c.samples, 4);
    var s6 := SampleAt(s5, provider, c.samples, 4).0;
    LeadsThrough(s, s5, s6);
    SampleAtLeads(s6, provider, c.samples, 5);
    LeadsThrough(s, s6, SampleAt(s6, provider, c.samples, 5).0);
  }

  // ---------- Runs ----------

  /** A run past the owner check ends accepted, with a handoff, or with the owner terminal. */
  predicate Ended(provider: nat, r: Result) {
    && (r.checked ==> r.verdict.Passed? || r.verdict.Handed? || provider in r.state.terminal)
    && (r.verdict.Passed? ==> provider !in r.state.terminal && r.checked)
    && (r.verdict.Handed? ==> r.checked)
  }

  /** The acceptance that ends a run whose envelope is spent and not yet accepted. */
  lemma {:induction false} AcceptLeads(start: State, s: State, e: nat)
    requires Leads(start, s) && Running(s, e) && !Spent(start, Accepted(e))
    ensures Leads(start, s.(log := s.log + [Accepted(e)]))
  {
    hide OncePerEnvelope, NoneOpen;
    var s' := s.(log := s.log + [Accepted(e)]);
    SpentSame(s, s');
    if Inv(start) { assert OncePerEnvelope(s') by { OnceSame(s, s'); } }
  }

  /** What later calls can not change about a run in progress on an envelope: it is spent, not accepted, and
      without handoff. */
  predicate Running(s: State, e: nat) { Spent(s, Accepted(e)) && Accepted(e) !in s.log }

  lemma {:induction false} RunningStays(s: State, s': State, e: nat)
    requires Inv(s) && Running(s, e) && Leads(s, s')
    ensures Running(s', e) && (NoHandoff(s, e) ==> NoHandoff(s', e))
  {
    SpentStays(s, s', Accepted(e));
    if NoHandoff(s, e) {
      forall h | 0 <= h < |s'.handoffs| ensures s'.handoffs[h].envelope != e { }
    }
  }

  lemma {:induction false} HandoffLeads(start: State, s: State, e: nat, provider: nat, public: nat)
    requires Inv(start) && Leads(start, s) && Running(s, e) && NoHandoff(s, e) && e < |start.envelopes|
             && !start.envelopes[e].used
    ensures Leads(start, s.(handoffs := s.handoffs + [Handoff(e, provider, public, false)]))
  {
    var s' := s.(handoffs := s.handoffs + [Handoff(e, provider, public, false)]);
    assert Keeps(start, s');
    assert OncePerEnvelope(s');
    forall i | 0 <= i < |s'.log| ensures Spent(s', s'.log[i]) {
      var x := s.log[i];
      assert Spent(s, x) && x != Accepted(e);
      if x.Accepted? {
        forall h | 0 <= h < |s'.handoffs| && s'.handoffs[h].envelope == x.envelope ensures s'.handoffs[h].consumed {
          assert s'.handoffs[h] == s.handoffs[h];
        }
      }
    }
  }

  lemma {:induction false} AfterOwnerLeads(start: State, s: State, e: nat, snapshot: Snapshot, provider: nat,
                                           public: nat, r: RunScript)
    requires Inv(start) && Leads(start, s) && Running(s, e) && NoHandoff(s, e) && e < |start.envelopes|
             && !start.envelopes[e].used
    ensures var x := AfterOwner(s, e, snapshot, provider, public, r); Leads(start, x.state) && Ended(provider, x)
    decreases r, 2
  {
    hide Leads, Keeps, NoneOpen, Running, NoHandoff, GatesPass, Consume, Sampled, Inv;
    assert Inv(s) by { InvOf(start, s); }
    StopLeads(s, provider);
    LeadsThrough(start, s, Stop(s, provider));
    if GatesPass(snapshot) {
      if r.syntaxOnly {
        HandoffOpens(start, s, e, provider, public, snapshot, r);
      } else if r.semantic.Some? {
        ObserveLeads(s, r.semantic.value);
        var s1 := Observe(s, r.semantic.value);
        ConsumeLeads(s1, provider, |s.observations|, r.consume);
        var (s2, consumed) := Consume(s1, provider, |s.observations|, r.consume);
        LeadsThrough(s, s1, s2);
        LeadsThrough(start, s, s2);
        StopLeads(s2, provider);
        LeadsThrough(start, s2, Stop(s2, provider));
        SampleLeads(s2, provider, r.last);
        var s3 := Sample(s2, provider, r.last).0;
        LeadsThrough(s, s2, s3);
        LeadsThrough(start, s, s3);
        StopLeads(s3, provider);
        LeadsThrough(start, s3, Stop(s3, provider));
        RunningStays(s, s3, e);
        AcceptEnds(start, s3, e);
        SampledLive(s2, provider, Sample(s2, provider, r.last));
      }
    }
  }

  lemma {:induction false} InvOf(s: State, s': State)
    requires Inv(s) && Leads(s, s')
    ensures Inv(s')
  {
  }

  lemma {:induction false} SampledLive(s: State, provider: nat, r: (State, bool))
    requires Sampled(s, provider, r)
    ensures r.1 <==> provider !in r.0.terminal
  {
  }

  lemma {:induction false} AcceptEnds(start: State, s: State, e: nat)
    requires Leads(start, s) && Running(s, e) && e < |start.envelopes| && !start.envelopes[e].used
    ensures Leads(start, s.(log := s.log + [Accepted(e)]))
  {
    hide Leads, NoneOpen;
    AcceptLeads(start, s, e);
  }

  lemma {:induction false} HandoffOpens(start: State, s: State, e: nat, provider: nat, public: nat, snapshot: Snapshot,
                                        r: RunScript)
    requires Inv(start) && Inv(s) && Leads(start, s) && Running(s, e) && NoHandoff(s, e) && e < |start.envelopes|
             && !start.envelopes[e].used
    requires GatesPass(snapshot) && r.syntaxOnly
    ensures var x := AfterOwner(s, e, snapshot, provider, public, r); Leads(start, x.state) && Ended(provider, x)
  {
    hide Leads, Keeps, NoneOpen, Running, NoHandoff, GatesPass, Inv;
    HandoffLeads(start, s, e, provider, public);
  }

  /** A run of an envelope: it may be accepted or hand over only the first time, and past the owner check it
      ends accepted, with a handoff, or with the owner terminal. */
  lemma {:induction false} RunLeads(s: State, e: nat, provider: nat, public: nat, r: RunScript)
    requires Inv(s)
    ensures var x := Run(s, e, provider, public, r);
            && Leads(s, x.state) && Ended(provider, x)
            && (e < |s.envelopes| && s.envelopes[e].used ==> x.verdict.Blocked?)
    decreases r, 3
  {
    hide Leads, Keeps, NoneOpen, NoHandoff, Inv, AfterOwner, Sampled, Sample, Spent;
    LeadsSame(s);
    StopLeads(s, provider);
    if e < |s.envelopes| && !s.envelopes[e].used {
      MarkUsedLeads(s, e);
      var used := MarkUsed(s, e);
      StopLeads(used, provider);
      LeadsThrough(s, used, Stop(used, provider));
      if r.evidence {
        SampleLeads(used, provider, r.owner);
        var s1 := Sample(used, provider, r.owner).0;
        LeadsThrough(s, used, s1);
        InvOf(s, used);
        RunningStays(used, s1, e);
        AfterOwnerLeads(s, s1, e, s.envelopes[e].snapshot, provider, public, r);
      }
    }
  }

  lemma {:induction false} ProcessLeads(s: State, provider: nat, p: ProjectScript)
    ensures Leads(s, Process(s, provider, p).0)
    decreases p, 2
  {
    hide Leads, Sampled, Sample, Consume;
    LeadsSame(s);
    SampleLeads(s, provider, p.again);
    var s1 := Sample(s, provider, p.again).0;
    if p.semantic.Some? {
      ObserveLeads(s1, p.semantic.value);
      var s2 := Observe(s1, p.semantic.value);
      LeadsThrough(s, s1, s2);
      ConsumeLeads(s2, provider, |s1.observations|, p.consume);
      LeadsThrough(s, s2, Consume(s2, provider, |s1.observations|, p.consume).0);
    }
  }

  lemma {:induction false} OnlyHandoff(s: State, h: nat, k: nat)
    requires OncePerEnvelope(s) && h < |s.handoffs| && k < |s.handoffs|
             && s.handoffs[k].envelope == s.handoffs[h].envelope
    ensures k == h
  {
  }

  /** After the owner's sample the handoff is still open, and marking it spends both its projection and the
      acceptance of its envelope. */
  lemma {:induction false} ProjectionStarts(s: State, s1: State, h: nat, provider: nat)
    requires Inv(s) && Leads(s, s1) && h < |s.handoffs| && s.handoffs[h].provider == provider && !s.handoffs[h].consumed
    requires provider !in s.checking && h < |s1.handoffs| && !s1.handoffs[h].consumed
    ensures Leads(s1, MarkProjected(s1, h)) && Running(MarkProjected(s1, h), s.handoffs[h].envelope)
    ensures !Spent(s, Accepted(s.handoffs[h].envelope))
  {
    MarkProjectedLeads(s1, h);
    var e, s2 := s.handoffs[h].envelope, MarkProjected(s1, h);
    assert s1.handoffs[h].envelope == e && Inv(s1);
    forall k | 0 <= k < |s2.handoffs| && s2.handoffs[k].envelope == e ensures s2.handoffs[k].consumed {
      OnlyHandoff(s1, h, k);
    }
    assert !NoneOpen(s1, e) && !NoneOpen(s, e);
    forall i | 0 <= i < |s1.log| ensures s1.log[i] != Accepted(e) { assert Spent(s1, s1.log[i]); }
  }

  /** A projection of a handoff: it is entered only once, and then ends accepted or with the owner terminal. */
  lemma {:induction false} ProjectionLeads(s: State, h: nat, provider: nat, public: nat, p: ProjectScript)
    requires Inv(s)
    ensures var x := RunProjection(s, h, provider, public, p);
            && Leads(s, x.state) && Ended(provider, x) && !x.verdict.Handed?
            && (h < |s.handoffs| && s.handoffs[h].consumed ==> !x.checked)
    decreases p, 3
  {
    hide Leads, NoneOpen, NoHandoff, Inv, Process, Sample, Spent, Keeps;
    LeadsSame(s);
    StopLeads(s, provider);
    if h < |s.handoffs| && s.handoffs[h].provider == provider && s.handoffs[h].public == public
       && !s.handoffs[h].consumed {
      SampleLeads(s, provider, p.owner);
      var (s1, ok) := Sample(s, provider, p.owner);
      var e := s.handoffs[h].envelope;
      if ok && p.member && h < |s1.handoffs| {
        ProjectionStarts(s, s1, h, provider);
        var marked := MarkProjected(s1, h);
        LeadsThrough(s, s1, marked);
        ProcessLeads(marked, provider, p);
        var s2 := Process(marked, provider, p).0;
        LeadsThrough(s, marked, s2);
        StopLeads(s2, provider);
        LeadsThrough(s, s2, Stop(s2, provider));
        SampleLeads(s2, provider, p.last);
        var s3 := Sample(s2, provider, p.last).0;
        LeadsThrough(marked, s2, s3);
        LeadsThrough(s, marked, s3);
        StopLeads(s3, provider);
        LeadsThrough(s, s3, Stop(s3, provider));
        InvOf(s, marked);
        RunningStays(marked, s3, e);
        AcceptLeads(s, s3, e);
      }
    }
  }

  // ---------- Histories ----------

  lemma {:induction false} NoClaim(s: State, s': State)
    requires !Inv(s)
    ensures Leads(s, s')
  {
  }

  lemma {:induction false} PerformLeads(s: State, c: Call)
    ensures Leads(s, Perform(s, c))
    decreases c, 0
  {
    hide Leads, Run, RunProjection, Ended, Sampled, Sample, Keeps;
    match c
    case Issue(snapshot) => IssueLeads(s, snapshot);
    case Direct(e, provider, public, run) =>
      if Inv(s) { RunLeads(s, e, provider, public, run); } else { NoClaim(s, Perform(s, c)); }
    case Project(h, provider, public, projection) =>
      if Inv(s) { ProjectionLeads(s, h, provider, public, projection); } else { NoClaim(s, Perform(s, c)); }
    case Validate(content) => ObserveLeads(s, content);
    case ConsumeNow(o, content) => LeadsSame(s); if Consumable(s, o, content) { MarkConsumedLeads(s, o); }
    case Look(provider, clock) => SampleLeads(s, provider, clock);
    case Revoke(provider) => StopLeads(s, provider);
  }

  lemma {:induction false} PerformAllLeads(s: State, calls: seq<Call>)
    ensures Leads(s, PerformAll(s, calls))
    decreases calls, 0
  {
    hide Leads, Perform;
    LeadsSame(s);
    if calls != [] {
      PerformLeads(s, calls[0]);
      PerformAllLeads(Perform(s, calls[0]), calls[1..]);
      LeadsThrough(s, Perform(s, calls[0]), PerformAll(s, calls));
    }
  }

  lemma {:induction false} StartIsOk()
    ensures Inv(INITIAL_STATE)
  {
  }

  /** Over every history, re-entrant callbacks included: no envelope is accepted twice, directly or by way of its
      handoff, no handoff is projected twice and no observation is consumed twice. */
  lemma {:induction false} NothingHappensTwice(calls: seq<Call>)
    ensures NoRepeat(PerformAll(INITIAL_STATE, calls).log) && Inv(PerformAll(INITIAL_STATE, calls))
  {
    hide NoRepeat, PerformAll, OncePerEnvelope, LogSpent;
    StartIsOk();
    PerformAllLeads(INITIAL_STATE, calls);
  }

  /** At any point of a history, with any further calls: an envelope that has been run, a handoff that has been
      projected and an observation that has been consumed can not bring anything new. */
  lemma {:induction false} SpentIsForever(calls: seq<Call>, later: seq<Call>, x: Entry)
    requires Spent(PerformAll(INITIAL_STATE, calls), x)
    ensures var s := PerformAll(INITIAL_STATE, calls); var t := PerformAll(s, later);
            Spent(t, x) && s.log <= t.log && (x in t.log <==> x in s.log)
  {
    hide Inv, PerformAll, Spent, Keeps;
    NothingHappensTwice(calls);
    var s := PerformAll(INITIAL_STATE, calls);
    PerformAllLeads(s, later);
    var t := PerformAll(s, later);
    SpentStays(s, t, x);
    if x in t.log {
      var i :| 0 <= i < |t.log| && t.log[i] == x;
      assert i < |s.log|;
      assert s.log[i] == x;
    }
  }

  /** What one run or projection in a history comes to: past the owner check it ends accepted, with a handoff, or
      with the owner's lease terminal. */
  lemma {:induction false} EveryRunEnds(calls: seq<Call>, e: nat, h: nat, provider: nat, public: nat, r: RunScript,
                                        p: ProjectScript)
    ensures var s := PerformAll(INITIAL_STATE, calls);
            && Ended(provider, Run(s, e, provider, public, r))
            && Ended(provider, RunProjection(s, h, provider, public, p))
            && (e < |s.envelopes| && s.envelopes[e].used ==> Run(s, e, provider, public, r).verdict.Blocked?)
            && (h < |s.handoffs| && s.handoffs[h].consumed ==> !RunProjection(s, h, provider, public, p).checked)
  {
    hide Leads, PerformAll, Run, RunProjection, Ended, NoRepeat;
    NothingHappensTwice(calls);
    RunLeads(PerformAll(INITIAL_STATE, calls), e, provider, public, r);
    ProjectionLeads(PerformAll(INITIAL_STATE, calls), h, provider, public, p);
  }

  // ---------- An honest owner is served ----------

  predicate Quiet(c: ClockScript) { c.nested == [] && c.ok }

  predicate Live(s: State, provider: nat) { provider !in s.terminal && provider !in s.checking }

  lemma {:induction false} QuietSample(s: State, provider: nat, c: ClockScript)
    requires Quiet(c) && Live(s, provider)
    ensures Sample(s, provider, c) == (s, true)
  {
    assert PerformAll(s.(checking := s.checking + {provider}), []) == s.(checking := s.checking + {provider});
  }

  predicate QuietConsume(c: ConsumeScript, content: nat) {
    |c.samples| == 6 && (forall i :: 0 <= i < 6 ==> Quiet(c.samples[i])) && c.member && c.mapped == Some(content)
     && Quiet(c.clock) && c.aware
  }

  lemma {:induction false} QuietAfterConsume(s: State, provider: nat, c: ConsumeScript, content: nat)
    requires QuietConsume(c, content) && Live(s, provider)
    ensures AfterConsume(s, provider, c) == (s, true)
  {
    hide Sample, PerformAll;
    forall i | 2 <= i < 6 ensures SampleAt(s, provider, c.samples, i) == (s, true) {
      QuietSample(s, provider, c.samples[i]);
    }
    assert PerformAll(s, c.clock.nested) == s by { PerformNothing(s); }
  }

  lemma {:induction false} PerformNothing(s: State)
    ensures PerformAll(s, []) == s
  {
  }

  lemma {:induction false} QuietConsumption(s: State, provider: nat, o: nat, c: ConsumeScript, content: nat)
    requires QuietConsume(c, content) && Live(s, provider) && Consumable(s, o, content)
    ensures Consume(s, provider, o, c) == (MarkConsumed(s, o), true)
  {
    hide Sample, AfterConsume;
    QuietSample(s, provider, c.samples[0]);
    QuietSample(s, provider, c.samples[1]);
    QuietAfterConsume(MarkConsumed(s, o), provider, c, content);
  }

  lemma {:induction false} QuietReady(s: State, provider: nat, c: ClockScript)
    requires Quiet(c) && Live(s, provider)
    ensures Ready(s, provider, c, true) == (s, true)
  {
    hide Sample;
    QuietSample(s, provider, c);
  }

  lemma {:induction false} GatesNotRevoked(e: Snapshot)
    requires GatesPass(e)
    ensures !e.revoked
  {
  }

  lemma {:induction false} HonestAfterOwner(s: State, e: nat, snapshot: Snapshot, provider: nat, public: nat,
                                            r: RunScript, content: nat)
    requires Live(s, provider) && GatesPass(snapshot) && !snapshot.killAfter
    requires r.member && r.semantic == Some(content) && QuietConsume(r.consume, content) && Quiet(r.last)
    ensures AfterOwner(s, e, snapshot, provider, public, r).verdict ==
            if r.syntaxOnly then Handed(|s.handoffs|) else Passed
  {
    hide Ready, Consume, GatesPass, QuietConsume, Quiet;
    var seen := Observe(s, content);
    QuietConsumption(seen, provider, |s.observations|, r.consume, content);
    QuietReady(MarkConsumed(seen, |s.observations|), provider, r.last);
    GatesNotRevoked(snapshot);
  }

  /** With an honest owner a good unused envelope is accepted, or handed over. */
  lemma {:induction false} HonestEnvelopeIsAccepted(s: State, e: nat, provider: nat, public: nat, r: RunScript,
                                                    content: nat)
    requires e < |s.envelopes| && !s.envelopes[e].used && Live(s, provider)
    requires GatesPass(s.envelopes[e].snapshot) && !s.envelopes[e].snapshot.killAfter
    requires r.evidence && Quiet(r.owner) && r.member && r.semantic == Some(content) && QuietConsume(r.consume, content)
             && Quiet(r.last)
    ensures Run(s, e, provider, public, r).verdict == if r.syntaxOnly then Handed(|s.handoffs|) else Passed
  {
    hide Ready, AfterOwner, GatesPass, QuietConsume, Quiet;
    var used := MarkUsed(s, e);
    QuietReady(used, provider, r.owner);
    HonestAfterOwner(used, e, s.envelopes[e].snapshot, provider, public, r, content);
  }

  lemma {:induction false} HonestProcess(s: State, provider: nat, p: ProjectScript, content: nat)
    requires Live(s, provider) && p.member && p.dispositions && Quiet(p.again) && p.subset
             && p.semantic == Some(content)
    requires QuietConsume(p.consume, content)
    ensures Process(s, provider, p) == (MarkConsumed(Observe(s, content), |s.observations|), true)
  {
    hide Ready, Consume, QuietConsume, Quiet;
    QuietReady(s, provider, p.again);
    QuietConsumption(Observe(s, content), provider, |s.observations|, p.consume, content);
  }

  /** And with an honest owner its handoff is projected and accepted. */
  lemma {:induction false} HonestHandoffIsProjected(s: State, h: nat, provider: nat, public: nat, p: ProjectScript,
                                                    content: nat)
    requires Live(s, provider) && h < |s.handoffs| && s.handoffs[h].envelope < |s.envelopes|
    requires s.handoffs[h].provider == provider && s.handoffs[h].public == public && !s.handoffs[h].consumed
    requires var e := s.envelopes[s.handoffs[h].envelope].snapshot; !e.revoked && !e.killAfter
    requires Quiet(p.owner) && p.member && p.dispositions && Quiet(p.again) && p.subset && p.semantic == Some(content)
    requires QuietConsume(p.consume, content) && Quiet(p.last)
    ensures RunProjection(s, h, provider, public, p).verdict.Passed?
  {
    hide Ready, Process, QuietConsume, Quiet;
    QuietReady(s, provider, p.owner);
    var marked := MarkProjected(s, h);
    HonestProcess(marked, provider, p, content);
    QuietReady(MarkConsumed(Observe(marked, content), |marked.observations|), provider, p.last);
  }
}
