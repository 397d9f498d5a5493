/** The one-shot chain of scripts/affiliate_cta_preconnection_synthetic_envelope.py,
    scripts/affiliate_cta_offline_wire_projection_redaction.py and
    scripts/affiliate_cta_network_disabled_wire_adapter.py: envelopes, syntax handoffs and synthetic
    observations, each to be used once, under an owner whose lease samples an adversarial clock.

    A clock or provider clock may make any calls of its own on the same objects before it answers. Whether a
    clock reading is acceptable is part of the script; KillDeadlineLease says when it is. */
module Handoffs {
  import opened Text

  // ---------- State ----------

  /** What an envelope was issued with; `payload` is the decoded body, if it passes the syntax gate. */
  datatype Snapshot = Snapshot(status: int, mediaOk: bool, elapsed: int, budget: int, killBefore: bool, killAfter: bool,
                               revoked: bool, payload: Option<nat>)

  datatype Envelope = Envelope(snapshot: Snapshot, used: bool)

  datatype Handoff = Handoff(envelope: nat, provider: nat, public: nat, consumed: bool)

  datatype Observation = Observation(content: nat, consumed: bool)

  /** An accepted receipt for an envelope, a projection stage entered for a handoff, a consumed observation. */
  datatype Entry = Accepted(envelope: nat) | Projected(handoff: nat) | Consumed(observation: nat)

  datatype State = State(envelopes: seq<Envelope>, handoffs: seq<Handoff>, observations: seq<Observation>,
                         terminal: set<nat>, checking: set<nat>, log: seq<Entry>)

  // ---------- What callers and callbacks do ----------

  datatype Call =
    | Issue(snapshot: Snapshot)
    | Direct(envelope: nat, provider: nat, public: nat, run: RunScript)
    | Project(handoff: nat, provider: nat, public: nat, projection: ProjectScript)
    | Validate(content: nat)
    | ConsumeNow(observation: nat, content: nat)
    | Look(provider: nat, clock: ClockScript)
    | Revoke(provider: nat)

  /** One sample of an owner's lease: the calls its clock makes back, and whether the reading is acceptable. */
  datatype ClockScript = ClockScript(nested: seq<Call>, ok: bool)

  /** The owner's consumption of an observation: six samples around one call of the provider clock. */
  datatype ConsumeScript = ConsumeScript(samples: seq<ClockScript>, member: bool, mapped: Option<nat>,
                                         clock: ClockScript, aware: bool)

  datatype RunScript = RunScript(evidence: bool, owner: ClockScript, member: bool, syntaxOnly: bool,
                                 semantic: Option<nat>, consume: ConsumeScript, last: ClockScript)

  datatype ProjectScript = ProjectScript(owner: ClockScript, member: bool, dispositions: bool, again: ClockScript,
                                         subset: bool, semantic: Option<nat>, consume: ConsumeScript, last: ClockScript)

  datatype Verdict = Refused | Blocked | Handed(handoff: nat) | Passed

  /** The end of a run; `checked` says whether the owner check was passed. */
  datatype Result = Result(state: State, checked: bool, verdict: Verdict)

  // ---------- Owners ----------

  function Stop(s: State, provider: nat): State { s.(terminal := s.terminal + {provider}) }

  /** A sample of the owner's lease: nested samples and unacceptable readings are terminal. */
  function Sample(s: State, provider: nat, c: ClockScript): (State, bool)
    decreases c, 0
  {
    if provider in s.terminal || provider in s.checking then (Stop(s, provider), false)
    else
      var inside := PerformAll(s.(checking := s.checking + {provider}), c.nested);
      var after := inside.(checking := s.checking);
      if provider in after.terminal || !c.ok then (Stop(after, provider), false) else (after, true)
  }

  /** `_synthetic_owner_ready_for_test`. */
  function Ready(s: State, provider: nat, c: ClockScript, member: bool): (State, bool)
    decreases c, 1
  {
    var (s', ok) := Sample(s, provider, c);
    (s', ok && member)
  }

  function SampleAt(s: State, provider: nat, samples: seq<ClockScript>, i: nat): (State, bool)
    decreases samples, 0
  {
    if i < |samples| then Sample(s, provider, samples[i]) else (Stop(s, provider), false)
  }

  // ---------- Observations ----------

  /** A new observation of a content id. */
  function Observe(s: State, content: nat): State { s.(observations := s.observations + [Observation(content, false)]) }

  /** `consume_validated_synthetic_observation_for_offline_consumer`. */
  predicate Consumable(s: State, o: nat, content: nat) {
    o < |s.observations| && !s.observations[o].consumed && s.observations[o].content == content
  }

  function MarkConsumed(s: State, o: nat): State
    requires o < |s.observations|
  {
    s.(observations := s.observations[o := s.observations[o].(consumed := true)], log := s.log + [Consumed(o)])
  }

  /** `_consume_validated_synthetic_for_test`. */
  function Consume(s: State, provider: nat, o: nat, c: ConsumeScript): (State, bool)
    decreases c, 1
  {
    var (s1, ok1) := SampleAt(s, provider, c.samples, 0);
    if !ok1 || !c.member then (s1, false)
    else
      var (s2, ok2) := SampleAt(s1, provider, c.samples, 1);
      if !ok2 || c.mapped.None? || !Consumable(s2, o, c.mapped.value) then (s2, false)
      else AfterConsume(MarkConsumed(s2, o), provider, c)
  }

  /** The samples around the provider clock, once the observation has been consumed. */
  function AfterConsume(s: State, provider: nat, c: ConsumeScript): (State, bool)
    decreases c, 0
  {
    var (s3, ok3) := SampleAt(s, provider, c.samples, 2);
    if !ok3 then (s3, false)
    else
      var s4 := PerformAll(s3, c.clock.nested);
      if !c.clock.ok then (Stop(s4, provider), false)
      else
        var (s5, ok5) := SampleAt(s4, provider, c.samples, 3);
        if !ok5 then (s5, false)
        else if !c.aware then (Stop(s5, provider), false)
        else
          var (s6, ok6) := SampleAt(s5, provider, c.samples, 4);
          if !ok6 then (s6, false) else SampleAt(s6, provider, c.samples, 5)
  }

  // ---------- Runs ----------

  /** The gates on the snapshot, in the order of the source. */
  predicate GatesPass(e: Snapshot) {
    && !e.killBefore && !e.revoked
    && e.budget >= 1 && e.elapsed >= 0 && e.elapsed < e.budget
    && e.status == 200 && e.mediaOk && e.payload.Some?
  }

  function MarkUsed(s: State, e: nat): State
    requires e < |s.envelopes|
  {
    s.(envelopes := s.envelopes[e := s.envelopes[e].(used := true)])
  }

  /** `_run_preconnection_synthetic_envelope_for_test`. */
  function Run(s: State, e: nat, provider: nat, public: nat, r: RunScript): Result
    decreases r, 3
  {
    if e >= |s.envelopes| then Result(s, false, Refused)
    else if s.envelopes[e].used then Result(Stop(s, provider), false, Blocked)
    else
      var used := MarkUsed(s, e);
      if !r.evidence then Result(Stop(used, provider), false, Blocked)
      else
        var (s1, ready) := Ready(used, provider, r.owner, r.member);
        if !ready then Result(s1, false, Blocked) else AfterOwner(s1, e, s.envelopes[e].snapshot, provider, public, r)
  }

  /** A run that has passed the owner check. */
  function AfterOwner(s: State, e: nat, snapshot: Snapshot, provider: nat, public: nat, r: RunScript): Result
    decreases r, 2
  {
    if !GatesPass(snapshot) then Result(Stop(s, provider), true, Blocked)
    else if r.syntaxOnly then
      Result(s.(handoffs := s.handoffs + [Handoff(e, provider, public, false)]), true, Handed(|s.handoffs|))
    else if r.semantic.None? then Result(Stop(s, provider), true, Blocked)
    else
      var (s2, consumed) := Consume(Observe(s, r.semantic.value), provider, |s.observations|, r.consume);
      if !consumed then Result(Stop(s2, provider), true, Blocked)
      else if snapshot.killAfter || snapshot.revoked then Result(Stop(s2, provider), true, Blocked)
      else
        var (s3, ready) := Ready(s2, provider, r.last, r.member);
        if !ready then Result(Stop(s3, provider), true, Blocked)
        else Result(s3.(log := s3.log + [Accepted(e)]), true, Passed)
  }

  function MarkProjected(s: State, h: nat): State
    requires h < |s.handoffs|
  {
    s.(handoffs := s.handoffs[h := s.handoffs[h].(consumed := true)], log := s.log + [Projected(h)])
  }

  /** `consume_syntax_handoff_for_projection_for_test`. */
  function RunProjection(s: State, h: nat, provider: nat, public: nat, p: ProjectScript): Result
    decreases p, 3
  {
    if h >= |s.handoffs| || s.handoffs[h].provider != provider || s.handoffs[h].public != public then
      Result(s, false, Refused)
    else if s.handoffs[h].consumed then Result(Stop(s, provider), false, Blocked)
    else
      var (s1, ready) := Ready(s, provider, p.owner, p.member);
      if !ready || h >= |s1.handoffs| then Result(s1, false, Blocked)
      else
        var e := s.handoffs[h].envelope;
        var (s2, passed) := Process(MarkProjected(s1, h), provider, p);
        if !passed then Result(Stop(s2, provider), true, Blocked)
        else if e < |s.envelopes| && (s.envelopes[e].snapshot.killAfter || s.envelopes[e].snapshot.revoked)
        then Result(Stop(s2, provider), true, Blocked)
        else
          var (s3, last) := Ready(s2, provider, p.last, p.member);
          if !last then Result(Stop(s3, provider), true, Blocked)
          else Result(s3.(log := s3.log + [Accepted(e)]), true, Passed)
  }

  /** `_process_syntax_validated_payload_for_test`. */
  function Process(s: State, provider: nat, p: ProjectScript): (State, bool)
    decreases p, 2
  {
    if !p.dispositions then (s, false)
    else
      var (s1, ready) := Ready(s, provider, p.again, p.member);
      if !ready || !p.subset || p.semantic.None? then (s1, false)
      else Consume(Observe(s1, p.semantic.value), provider, |s1.observations|, p.consume)
  }

  // ---------- Histories ----------

  function Perform(s: State, c: Call): State
    decreases c, 0
  {
    match c
    case Issue(snapshot) => s.(envelopes := s.envelopes + [Envelope(snapshot, false)])
    case Direct(e, provider, public, run) => Run(s, e, provider, public, run).state
    case Project(h, provider, public, projection) => RunProjection(s, h, provider, public, projection).state
    case Validate(content) => Observe(s, content)
    case ConsumeNow(o, content) => if Consumable(s, o, content) then MarkConsumed(s, o) else s
    case Look(provider, clock) => Sample(s, provider, clock).0
    case Revoke(provider) => Stop(s, provider)
  }

  function PerformAll(s: State, calls: seq<Call>): State
    decreases calls, 0
  {
    if calls == [] then s else PerformAll(Perform(s, calls[0]), calls[1..])
  }

  const INITIAL_STATE: State := State([], [], [], {}, {}, [])
}
