/** The Python consumer runner (handle, then mark, then commit) as a transition system over
    one partition log. Marks are never expired: redelivery is taken to happen within the
    dedup TTL. Labels say whether each remote call succeeded and, if not, whether it landed. */
module PyConsumer {
  import opened Collections
  import opened Machine
  import opened Events
  import opened Keys

  /** A log record: bytes that are not JSON, a record whose handling raises before it is
      dispatched, or an envelope. An absent or empty event id is the empty string. An envelope
      is keyed when the producer can encode its tenant id as a record key: a text, or a false
      value, which it sends as the empty key. */
  datatype Message = Undecodable | Raising(cause: Cause) | Envelope(event: Event, keyed: bool)

  /** Why handling raises: the record has no value, so that neither the JSON reader nor the
      DLQ copy can decode it; a header is not UTF-8; the JSON value is not an object; or the
      dedup key holds half of a surrogate pair, which no Redis command can carry. */
  datatype Cause = NoValue | BadHeader | NotObject | BadDedupKey

  datatype Phase =
    | Stopped                     // run has returned or raised
    | Polling                     // waiting for the record at the committed offset
    | Checking                    // asking the dedup store
    | Handling(attempt: nat)
    | Marking(attempt: nat)       // handler returned, mark_processed pending
    | Quarantining                // retries exhausted or undecodable, DLQ send pending
    | MarkingDlq                  // on the DLQ, mark_processed pending
    | Disposed                    // commit pending

  datatype State = State(
    log: seq<Message>,
    committed: nat,
    marks: set<string>,           // keys present in the dedup store
    effects: seq<nat>,            // offset of every application of the handler's effect, in time order
    dlq: seq<nat>,                // offset of every record on the dead-letter topic, in time order
    maxRetries: nat,
    phase: Phase)

  datatype Step =
    | Arrive(message: Message)
    | Start
    | Halt                        // stop requested, exception or hard crash
    | On(step: RecordStep)        // progress on the record at the committed offset

  datatype RecordStep =
    | Fetch
    | Check(ok: bool)
    | Handle(effect: bool, ok: bool)
    | Mark(landed: bool, ok: bool)
    | Quarantine(landed: bool, ok: bool)
    | Refuse                      // the producer cannot encode the DLQ copy's key
    | Commit(landed: bool, ok: bool)

  function Key(e: Event): string {
    "dedup:" + e.tenant + ":" + e.eventId
  }

  /** The dedup key of a record, if it takes part in deduplication. */
  function KeyOf(m: Message): Option<string> {
    if m.Envelope? && m.event.eventId != "" then Some(Key(m.event)) else None
  }

  /** The producer can send a copy of the record to the DLQ. An undecodable one goes without a
      key. */
  predicate Sendable(m: Message) {
    m.Undecodable? || (m.Envelope? && m.keyed)
  }

  function Retry(attempt: nat, maxRetries: nat): Phase {
    if attempt + 1 > maxRetries then Quarantining else Handling(attempt + 1)
  }

  function Next(s: State, a: Step): Option<State> {
    match a
    case Arrive(m) => Some(s.(log := s.log + [m]))
    case Start => if s.phase.Stopped? then Some(s.(phase := Polling)) else None
    case Halt => Some(s.(phase := Stopped))
    case On(r) => if s.committed < |s.log| then NextOn(s, s.log[s.committed], r) else None
  }

  function NextOn(s: State, m: Message, r: RecordStep): Option<State> {
    var key := KeyOf(m);
    match r
    case Fetch =>
      if !s.phase.Polling? then None
      else Some(s.(phase := if m.Undecodable? then Quarantining
                            else if m.Raising? then Stopped
                            else if key.Some? then Checking
                            else Handling(0)))
    case Check(ok) =>
      if !(s.phase.Checking? && key.Some?) then None
      else Some(s.(phase := if !ok then Stopped
                            else if key.value in s.marks then Disposed
                            else Handling(0)))
    case Handle(effect, ok) =>
      if !(s.phase.Handling? && (ok ==> effect)) then None
      else Some(s.(effects := if effect then s.effects + [s.committed] else s.effects,
                   phase := if !ok then Retry(s.phase.attempt, s.maxRetries)
                            else if key.Some? then Marking(s.phase.attempt)
                            else Disposed))
    case Mark(landed, ok) =>
      if !((s.phase.Marking? || s.phase.MarkingDlq?) && key.Some? && (ok ==> landed)) then None
      else Some(s.(marks := if landed then s.marks + {key.value} else s.marks,
                   phase := if ok then Disposed
                            else if s.phase.Marking? then Retry(s.phase.attempt, s.maxRetries)
                            else Stopped))
    case Quarantine(landed, ok) =>
      if !(s.phase.Quarantining? && Sendable(m) && (ok ==> landed)) then None
      else Some(s.(dlq := if landed then s.dlq + [s.committed] else s.dlq,
                   phase := if !ok then Stopped
                            else if key.Some? then MarkingDlq
                            else Disposed))
    case Refuse =>
      if s.phase.Quarantining? && !Sendable(m) then Some(s.(phase := Stopped)) else None
    case Commit(landed, ok) =>
      if !(s.phase.Disposed? && (ok ==> landed)) then None
      else Some(s.(committed := if landed then s.committed + 1 else s.committed,
                   phase := if ok then Polling else Stopped))
  }

  ghost predicate Init(s: State) {
    s == State(s.log, 0, {}, [], [], s.maxRetries, Stopped)
  }

  /** No earlier record of the log carries the same dedup key. */
  ghost predicate First(log: seq<Message>, o: nat) {
    o < |log| && (KeyOf(log[o]).Some? ==> forall j: nat :: j < o ==> KeyOf(log[j]) != KeyOf(log[o]))
  }

  /** The record at o left a trace behind: its effect was applied or it was quarantined. */
  ghost predicate Evidence(s: State, o: nat) {
    o in s.effects || o in s.dlq
  }

  /** A record the consumer may commit past. */
  ghost predicate Settled(s: State, o: nat)
    requires o < |s.log|
  {
    match KeyOf(s.log[o])
    case Some(k) => k in s.marks
    case None => !s.log[o].Raising? && Evidence(s, o)
  }

  /** The first record with key k, and what became of it. */
  ghost predicate Origin(s: State, k: string, o: nat) {
    First(s.log, o) && KeyOf(s.log[o]) == Some(k) && Evidence(s, o)
  }

  ghost predicate InvEffects(s: State) {
    && NonDecreasing(s.effects)
    && (forall o: nat :: o in s.effects ==> o <= s.committed && First(s.log, o) && s.log[o].Envelope?)
    && (forall o: nat :: o in s.dlq ==> o <= s.committed && First(s.log, o) && Sendable(s.log[o]))
  }

  /** A mark always stands for an applied effect or a quarantine at the key's first record. */
  ghost predicate InvMarks(s: State) {
    forall k :: k in s.marks ==> exists o: nat :: Origin(s, k, o)
  }

  ghost predicate InvPhase(s: State) {
    s.phase.Stopped? || s.phase.Polling? ||
    (&& s.committed < |s.log|
     && var o := s.committed;
        match s.phase
        case Checking => KeyOf(s.log[o]).Some?
        case Handling(_) => First(s.log, o) && s.log[o].Envelope?
        case Marking(_) => First(s.log, o) && s.log[o].Envelope? && o in s.effects
        case Quarantining => First(s.log, o) && !s.log[o].Raising?
        case MarkingDlq => First(s.log, o) && o in s.dlq
        case Disposed => Settled(s, o)
        case _ => true)
  }

  ghost predicate Inv(s: State) {
    && s.committed <= |s.log|
    && InvEffects(s)
    && InvMarks(s)
    && (forall o: nat :: o < s.committed ==> Settled(s, o))
    && InvPhase(s)
  }

  /** Evidence and log only grow from s to t. */
  ghost predicate Grows(s: State, t: State) {
    && s.log <= t.log
    && (forall o :: o in s.effects ==> o in t.effects)
    && (forall o :: o in s.dlq ==> o in t.dlq)
    && s.marks <= t.marks
  }

  lemma GrowthKeeps(s: State, t: State)
    requires Grows(s, t) && InvMarks(s)
    ensures forall o: nat :: First(s.log, o) ==> First(t.log, o)
    ensures forall k :: k in s.marks ==> exists o: nat :: Origin(t, k, o)
    ensures forall o: nat :: o < |s.log| && Settled(s, o) ==> Settled(t, o)
  {
    forall k | k in s.marks ensures exists o: nat :: Origin(t, k, o) {
      var o: nat :| Origin(s, k, o);
      assert Origin(t, k, o);
    }
  }

  /** The invariant survives new records at the end of the log. */
  lemma ArriveKeeps(s: State, more: seq<Message>)
    requires Inv(s)
    ensures Inv(s.(log := s.log + more))
  {
    GrowthKeeps(s, s.(log := s.log + more));
  }

  /** A record whose key is not yet marked is the first with that key. */
  lemma UnmarkedIsFirst(s: State)
    requires Inv(s) && s.committed < |s.log|
    requires KeyOf(s.log[s.committed]).Some? ==> KeyOf(s.log[s.committed]).value !in s.marks
    ensures First(s.log, s.committed)
  {
    var key := KeyOf(s.log[s.committed]);
    forall j: nat | key.Some? && j < s.committed ensures KeyOf(s.log[j]) != key {
      assert Settled(s, j);
    }
  }

  lemma RecordStepKeeps(s: State, r: RecordStep)
    requires Inv(s) && Next(s, On(r)).Some?
    ensures Inv(Next(s, On(r)).value)
  {
    var t := Next(s, On(r)).value;
    GrowthKeeps(s, t);
    match r
    case Fetch =>
      if KeyOf(s.log[s.committed]).None? { UnmarkedIsFirst(s); }
    case Check(ok) =>
      if KeyOf(s.log[s.committed]).value !in s.marks { UnmarkedIsFirst(s); }
    case Handle(effect, ok) => AppendNonDecreasing(s.effects, s.committed);
    case Mark(landed, ok) =>
      var key := KeyOf(s.log[s.committed]).value;
      assert Origin(t, key, s.committed);
    case Quarantine(landed, ok) =>
    case Refuse =>
    case Commit(landed, ok) =>
  }

  lemma StepKeeps(s: State, a: Step)
    requires Inv(s) && Next(s, a).Some?
    ensures Inv(Next(s, a).value)
  {
    GrowthKeeps(s, Next(s, a).value);
    match a
    case Arrive(m) => ArriveKeeps(s, [m]);
    case Start =>
    case Halt =>
    case On(r) => RecordStepKeeps(s, r);
  }

  lemma AlwaysInv(s0: State, trace: seq<Step>)
    requires Init(s0) && Run(Next, s0, trace).Some?
    ensures Inv(Run(Next, s0, trace).value)
  {
    forall t, a | Inv(t) && Next(t, a).Some? ensures Inv(Next(t, a).value) {
      StepKeeps(t, a);
    }
    RunInvariant(Next, Inv, s0, trace);
  }

  /** Membership test used to select records by offset. */
  ghost function In(offsets: seq<nat>): nat -> bool {
    (o: nat) => o in offsets
  }

  ghost function IsFirst(log: seq<Message>): nat -> bool {
    (o: nat) => First(log, o)
  }

  /** The log's distinct deliverables in first-occurrence order: records without an event id,
      and for each dedup key its first record. */
  ghost function FirstOffsets(log: seq<Message>): seq<nat> {
    Filter(IsFirst(log), Range(0, |log|))
  }

  /** Effects happen in log order. With repetitions in place collapsed, they are a selection
      of the first occurrences, and none lies beyond the committed offset; of those below it
      none is missing unless it was quarantined; a committed undecodable record is always on
      the DLQ; what the producer cannot send never is, so that only its effect lets the offset
      pass it; and what raises is never committed. */
  lemma StutteringDelivery(s0: State, trace: seq<Step>, s: State)
    requires Init(s0) && Run(Next, s0, trace) == Some(s)
    ensures s.committed <= |s.log|
    ensures Destutter(s.effects) == Filter(In(s.effects), FirstOffsets(s.log))
    ensures forall o :: o in s.effects || o in s.dlq ==> o <= s.committed
    ensures forall o: nat :: o < s.committed && First(s.log, o) ==> o in s.effects || o in s.dlq
    ensures forall o: nat :: o < s.committed && s.log[o].Undecodable? ==> o in s.dlq
    ensures forall o: nat :: o in s.dlq ==> o < |s.log| && Sendable(s.log[o])
    ensures forall o: nat :: o < s.committed && First(s.log, o) && !Sendable(s.log[o]) ==> o in s.effects
    ensures forall o: nat :: o < s.committed ==> !s.log[o].Raising?
  {
    AlwaysInv(s0, trace);
    EffectsSelectFirsts(s);
    forall o: nat | o < s.committed && First(s.log, o) ensures o in s.effects || o in s.dlq {
      SettledFirstHasEvidence(s, o);
    }
    forall o: nat | o < s.committed ensures !s.log[o].Raising? && (s.log[o].Undecodable? ==> o in s.dlq) {
      assert Settled(s, o);
    }
  }

  lemma SettledFirstHasEvidence(s: State, o: nat)
    requires Inv(s) && o < |s.log| && Settled(s, o) && First(s.log, o)
    ensures Evidence(s, o)
  {
    if KeyOf(s.log[o]).Some? {
      var o': nat :| Origin(s, KeyOf(s.log[o]).value, o');
      assert o' == o;
    }
  }

  lemma EffectsSelectFirsts(s: State)
    requires Inv(s)
    ensures Destutter(s.effects) == Filter(In(s.effects), FirstOffsets(s.log))
    ensures StrictlyIncreasing(Destutter(s.effects))
  {
    var all := Range(0, |s.log|);
    forall o: nat ensures o in all <==> o < |s.log| {
      if o < |s.log| { assert all[o] == o; }
    }
    DestutterIncreasing(s.effects);
    FilterIncreasing(IsFirst(s.log), all);
    FilterIncreasing(In(s.effects), FirstOffsets(s.log));
    IncreasingUnique(Destutter(s.effects), Filter(In(s.effects), FirstOffsets(s.log)));
  }

  /** A handler's effect on its own state, addressed by log offset. */
  ghost function ApplyAt<S(!new)>(handler: (S, Event) -> S, log: seq<Message>): (S, nat) -> S {
    (st: S, o: nat) => if o < |log| && log[o].Envelope? then handler(st, log[o].event) else st
  }

  /** Exactly-once effect: an idempotent handler ends, after any history of crashes and
      redeliveries, in the state it reaches by seeing each selected first occurrence once. */
  lemma ExactlyOnceEffect<S(!new)>(s0: State, trace: seq<Step>, s: State, handler: (S, Event) -> S, st0: S)
    requires Init(s0) && Run(Next, s0, trace) == Some(s) && Idempotent(handler)
    ensures Fold(ApplyAt(handler, s.log), st0, s.effects) ==
            Fold(ApplyAt(handler, s.log), st0, Filter(In(s.effects), FirstOffsets(s.log)))
  {
    AlwaysInv(s0, trace);
    EffectsSelectFirsts(s);
    FoldDestutter(ApplyAt(handler, s.log), st0, s.effects);
  }

  /** With colon-free tenant ids the dedup key names the (tenant, event id) pair. */
  lemma KeyNamesPair(e: Event, e': Event)
    requires ColonFree(e.tenant) && ColonFree(e'.tenant)
    ensures Key(e) == Key(e') <==> e.tenant == e'.tenant && e.eventId == e'.eventId
  {
    if Key(e) == Key(e') {
      assert Key(e)[6..] == e.tenant + ":" + e.eventId;
      assert Key(e')[6..] == e'.tenant + ":" + e'.eventId;
      ColonCut(e.tenant, e.eventId, e'.tenant, e'.eventId);
    }
  }

  /** Two events that take part in deduplication share a key. */
  ghost predicate Collide(t: string, i: string, t': string, i': string) {
    i != "" && i' != "" && Key(Event(t, i, "")) == Key(Event(t', i', ""))
  }

  /** Exactly which tenants can collide: those of which one is the other with a colon and more
      behind it. For every other pair of tenants keys never meet. */
  lemma TenantsCollide(t: string, t': string)
    requires t != t'
    ensures (exists i, i' :: Collide(t, i, t', i')) <==> t + ":" <= t' || t' + ":" <= t
  {
    if i, i' :| Collide(t, i, t', i') {
      assert Key(Event(t, i, ""))[6..] == t + ":" + i;
      assert Key(Event(t', i', ""))[6..] == t' + ":" + i';
      LongerTenantExtends(t, i, t', i');
    }
    if t + ":" <= t' {
      var i, i' := ExtendedTenantCollides(t, t');
    } else if t' + ":" <= t {
      var i', i := ExtendedTenantCollides(t', t);
      assert Collide(t, i, t', i');
    }
  }

  lemma LongerTenantExtends(t: string, i: string, t': string, i': string)
    requires t != t' && t + ":" + i == t' + ":" + i'
    ensures t + ":" <= t' || t' + ":" <= t
  {
    var s, s' := t + ":" + i, t' + ":" + i';
    assert s[..|t|] == t && s'[..|t'|] == t';
    assert s[..|t| + 1] == t + ":" && s'[..|t'| + 1] == t' + ":";
    if |t| < |t'| {
      assert t'[..|t| + 1] == s'[..|t| + 1];
    } else if |t'| < |t| {
      assert t[..|t'| + 1] == s[..|t'| + 1];
    }
  }

  lemma ExtendedTenantCollides(t: string, t': string) returns (i: string, i': string)
    requires t + ":" <= t'
    ensures Collide(t, i, t', i')
  {
    var rest := t'[|t| + 1..];
    assert t' == t + ":" + rest;
    i, i' := rest + ":" + "x", "x";
    assert t + ":" + i == t' + ":" + i';
    assert Key(Event(t, i, "")) == "dedup:" + (t + ":" + i);
    assert Key(Event(t', i', "")) == "dedup:" + (t' + ":" + i');
  }

  /** A duplicate by key is committed with three steps that touch nothing else. */
  lemma DuplicateSkipped(s0: State, trace: seq<Step>, s: State)
    requires Run(Next, s0, trace) == Some(s)
    requires s.phase.Polling? && s.committed < |s.log|
    requires KeyOf(s.log[s.committed]).Some? && KeyOf(s.log[s.committed]).value in s.marks
    ensures Run(Next, s0, trace + [On(Fetch)] + [On(Check(true))] + [On(Commit(true, true))]) ==
            Some(s.(committed := s.committed + 1))
  {
    var s1, s2 := s.(phase := Checking), s.(phase := Disposed);
    Took(Next, s0, trace, s, On(Fetch), s1);
    Took(Next, s0, trace + [On(Fetch)], s1, On(Check(true)), s2);
    Took(Next, s0, trace + [On(Fetch)] + [On(Check(true))], s2, On(Commit(true, true)),
      s.(committed := s.committed + 1));
  }

  /** A fresh keyed record takes five steps when nothing fails. */
  lemma FreshHandled(s0: State, trace: seq<Step>, s: State)
    requires Run(Next, s0, trace) == Some(s)
    requires s.phase.Polling? && s.committed < |s.log|
    requires KeyOf(s.log[s.committed]).Some? && KeyOf(s.log[s.committed]).value !in s.marks
    ensures Run(Next, s0, trace + [On(Fetch)] + [On(Check(true))] + [On(Handle(true, true))]
                          + [On(Mark(true, true))] + [On(Commit(true, true))]) ==
            Some(s.(committed := s.committed + 1, effects := s.effects + [s.committed],
                    marks := s.marks + {KeyOf(s.log[s.committed]).value}))
  {
    var key := KeyOf(s.log[s.committed]).value;
    var t1 := trace + [On(Fetch)];
    var t2 := t1 + [On(Check(true))];
    var t3 := t2 + [On(Handle(true, true))];
    var t4 := t3 + [On(Mark(true, true))];
    var s1, s2 := s.(phase := Checking), s.(phase := Handling(0));
    var s3 := s.(phase := Marking(0), effects := s.effects + [s.committed]);
    var s4 := s3.(phase := Disposed, marks := s.marks + {key});
    Took(Next, s0, trace, s, On(Fetch), s1);
    Took(Next, s0, t1, s1, On(Check(true)), s2);
    Took(Next, s0, t2, s2, On(Handle(true, true)), s3);
    Took(Next, s0, t3, s3, On(Mark(true, true)), s4);
    Took(Next, s0, t4, s4, On(Commit(true, true)), s4.(phase := Polling, committed := s.committed + 1));
  }

  /** One record handled and one skipped, with every remote call succeeding. */
  const FAILURE_FREE: seq<Step> :=
    [] + [Start] + [On(Fetch)] + [On(Check(true))] + [On(Handle(true, true))] + [On(Mark(true, true))]
    + [On(Commit(true, true))] + [On(Fetch)] + [On(Check(true))] + [On(Commit(true, true))]

  /** Two events that share a key: a run without a single failure commits both records, yet the
      second event has no effect and no quarantine. */
  lemma CollisionLosesEvent(e: Event, e': Event, maxRetries: nat) returns (s0: State, trace: seq<Step>, s: State)
    requires e.eventId != "" && e'.eventId != "" && Key(e) == Key(e')
    ensures Init(s0) && s0.log == [Envelope(e, true), Envelope(e', true)] && Run(Next, s0, trace) == Some(s)
    ensures s.log == s0.log && s.committed == 2 && s.effects == [0] && s.dlq == []
    ensures trace == FAILURE_FREE
  {
    s0 := State([Envelope(e, true), Envelope(e', true)], 0, {}, [], [], maxRetries, Stopped);
    var t1: seq<Step> := [] + [Start];
    var s1 := s0.(phase := Polling);
    Took(Next, s0, [], s0, Start, s1);
    FreshHandled(s0, t1, s1);
    var t2 := t1 + [On(Fetch)] + [On(Check(true))] + [On(Handle(true, true))]
              + [On(Mark(true, true))] + [On(Commit(true, true))];
    var s2 := s1.(committed := 1, effects := [0], marks := {Key(e)});
    assert s1.effects + [0] == [0] && s1.marks + {Key(e)} == {Key(e)};
    DuplicateSkipped(s0, t2, s2);
    trace := FAILURE_FREE;
    s := s2.(committed := 2);
  }

  /** So for every pair of tenants that can collide some two of their events lose one. */
  lemma CollidingTenantsLoseEvent(t: string, t': string, payload: string, maxRetries: nat)
      returns (e: Event, e': Event, s0: State, trace: seq<Step>, s: State)
    requires t + ":" <= t'
    ensures e.tenant == t && e'.tenant == t'
    ensures Init(s0) && s0.log == [Envelope(e, true), Envelope(e', true)] && Run(Next, s0, trace) == Some(s)
    ensures s.committed == 2 && s.effects == [0] && s.dlq == []
  {
    var i, i' := ExtendedTenantCollides(t, t');
    e, e' := Event(t, i, payload), Event(t', i', payload);
    s0, trace, s := CollisionLosesEvent(e, e', maxRetries);
  }

  lemma StartStep(s: State)
    requires s.phase.Stopped?
    ensures Run(Next, s, [Start]) == Some(s.(phase := Polling))
  {
    RunSnoc(Next, s, [], Start);
    assert [] + [Start] == [Start];
  }

  lemma HaltStep(s0: State, trace: seq<Step>, s: State)
    requires Run(Next, s0, trace) == Some(s)
    ensures Run(Next, s0, trace + [Halt]) == Some(s.(phase := Stopped))
  {
    RunSnoc(Next, s0, trace, Halt);
  }

  /** Writing the mark, which may land even when the call raises. */
  lemma MarkTaken(s: State, marks: set<string>, key: string, ok: bool)
    requires s.committed < |s.log| && KeyOf(s.log[s.committed]) == Some(key)
    requires s.phase.Marking? || s.phase.MarkingDlq?
    requires marks == s.marks + {key} || (!ok && marks == s.marks)
    ensures var next := if ok then Disposed else if s.phase.Marking? then Retry(s.phase.attempt,
        s.maxRetries) else Stopped;
            Next(s, On(Mark(key in marks, ok))) == Some(s.(marks := marks, phase := next))
  {
    assert key in s.marks ==> s.marks + {key} == s.marks;
  }

  /** A run that ends in a remote call that raised. */
  predicate EndsInFault(trace: seq<Step>) {
    trace != [] &&
    match trace[|trace| - 1]
    case On(Check(ok)) => !ok
    case On(Mark(_, ok)) => !ok
    case On(Quarantine(_, ok)) => !ok
    case On(Commit(_, ok)) => !ok
    case _ => false
  }

  /** A run that ends with a DLQ copy whose key the producer could not encode. */
  predicate EndsInRefusal(trace: seq<Step>) {
    trace != [] && trace[|trace| - 1] == On(Refuse)
  }

  /** What may end the loop with record m in hand: the record raises before it is dispatched, it
      is on its way to the DLQ and cannot be sent there, or a remote call raised. */
  predicate MayStop(m: Message, trace: seq<Step>) {
    m.Raising? || (!Sendable(m) && EndsInRefusal(trace)) || EndsInFault(trace)
  }

  /** The runner as it executes, with its broker, dedup store, handler and producer. Every
      remote call may raise, and a call that raised may have landed. */
  class KafkaConsumer {
    var log: seq<Message>
    var committed: nat
    var marks: set<string>
    var effects: seq<nat>
    var dlq: seq<nat>
    const maxRetries: nat
    var processed: nat
    var deduped: nat
    var quarantined: nat

    constructor (log: seq<Message>, maxRetries: nat)
      ensures this.maxRetries == maxRetries && this.log == log && Init(View(Stopped))
    {
      this.log, this.maxRetries := log, maxRetries;
      committed, marks, effects, dlq := 0, {}, [], [];
      processed, deduped, quarantined := 0, 0, 0;
    }

    ghost function View(phase: Phase): State
      reads this
    {
      State(log, committed, marks, effects, dlq, maxRetries, phase)
    }

    method AlreadyProcessed(key: string) returns (found: bool, raised: bool)
      ensures !raised ==> found == (key in marks)
    {
      raised := *;
      found := key in marks;
    }

    method MarkProcessed(key: string) returns (raised: bool)
      modifies `marks
      ensures marks == old(marks) + {key} || (raised && marks == old(marks))
    {
      raised := *;
      var landed: bool := *;
      if !raised || landed {
        marks := marks + {key};
      }
    }

    method CallHandler() returns (raised: bool)
      modifies `effects
      ensures effects == old(effects) + [committed] || (raised && effects == old(effects))
    {
      raised := *;
      var applied: bool := *;
      if !raised || applied {
        effects := effects + [committed];
      }
    }

    method SendToDlq() returns (raised: bool)
      requires committed < |log|
      modifies `dlq
      ensures dlq == old(dlq) + [committed] || (raised && dlq == old(dlq))
      ensures !Sendable(log[committed]) ==> raised && dlq == old(dlq)
    {
      if !Sendable(log[committed]) {
        return true;
      }
      raised := *;
      var landed: bool := *;
      if !raised || landed {
        dlq := dlq + [committed];
      }
    }

    method CommitOffset() returns (raised: bool)
      modifies `committed
      ensures committed == old(committed) + 1 || (raised && committed == old(committed))
    {
      raised := *;
      var landed: bool := *;
      if !raised || landed {
        committed := committed + 1;
      }
    }

    method CommitStep(ghost s0: State, ghost past: seq<Step>) returns (raised: bool, ghost trace: seq<Step>)
      requires committed < |log|
      requires Run(Next, s0, past) == Some(View(Disposed))
      modifies `committed
      ensures Run(Next, s0, trace) == Some(View(if raised then Stopped else Polling))
      ensures raised ==> EndsInFault(trace)
      ensures committed == old(committed) + 1 || (raised && committed == old(committed))
    {
      raised := CommitOffset();
      ghost var a := On(Commit(committed != old(committed), !raised));
      Took(Next, s0, past, old(View(Disposed)), a, View(if raised then Stopped else Polling));
      trace := past + [a];
    }

    /** One handler attempt with its mark; a failure of either counts as a failed attempt. */
    method Attempt(key: Option<string>, attempt: nat, ghost s0: State, ghost past: seq<Step>)
      returns (raised: bool, ghost trace: seq<Step>)
      requires committed < |log| && key == KeyOf(log[committed])
      requires Run(Next, s0, past) == Some(View(Handling(attempt)))
      modifies `effects, `marks
      ensures Run(Next, s0, trace) == Some(View(if raised then Retry(attempt, maxRetries) else Disposed))
      ensures !raised ==> committed in effects && (key.Some? ==> key.value in marks)
      ensures old(effects) <= effects && |effects| <= |old(effects)| + 1
    {
      raised := CallHandler();
      ghost var a := On(Handle(|effects| > |old(effects)|, !raised));
      ghost var mid := if raised then Retry(attempt, maxRetries) else if key.Some? then Marking(attempt) else Disposed;
      Took(Next, s0, past, old(View(Handling(attempt))), a, View(mid));
      trace := past + [a];
      if !raised && key.Some? {
        ghost var s1 := View(mid);
        raised := MarkProcessed(key.value);
        ghost var b := On(Mark(key.value in marks, !raised));
        MarkTaken(s1, marks, key.value, !raised);
        Took(Next, s0, trace, s1, b, View(if raised then Retry(attempt, maxRetries) else Disposed));
        trace := trace + [b];
      }
    }

    /** Exhausted retries: dead-letter the record, then mark it so it is not retried again. */
    method Exhausted(key: Option<string>, ghost s0: State, ghost past: seq<Step>)
      returns (raised: bool, ghost trace: seq<Step>)
      requires committed < |log| && key == KeyOf(log[committed])
      requires Run(Next, s0, past) == Some(View(Quarantining))
      modifies `dlq, `marks
      ensures Run(Next, s0, trace) == Some(View(if raised then Stopped else Disposed))
      ensures raised ==> MayStop(log[committed], trace)
      ensures !raised ==> dlq == old(dlq) + [committed] && (key.Some? ==> key.value in marks)
      ensures !Sendable(log[committed]) ==> raised && dlq == old(dlq)
    {
      raised := SendToDlq();
      ghost var a := On(if Sendable(log[committed]) then Quarantine(|dlq| > |old(dlq)|, !raised) else Refuse);
      ghost var mid := if raised then Stopped else if key.Some? then MarkingDlq else Disposed;
      Took(Next, s0, past, old(View(Quarantining)), a, View(mid));
      trace := past + [a];
      if !raised && key.Some? {
        ghost var s1 := View(mid);
        raised := MarkProcessed(key.value);
        ghost var b := On(Mark(key.value in marks, !raised));
        MarkTaken(s1, marks, key.value, !raised);
        Took(Next, s0, trace, s1, b, View(if raised then Stopped else Disposed));
        trace := trace + [b];
      }
    }

    method CheckDedup(key: string, ghost s0: State, ghost past: seq<Step>)
      returns (found: bool, raised: bool, ghost trace: seq<Step>)
      requires committed < |log| && KeyOf(log[committed]) == Some(key)
      requires Run(Next, s0, past) == Some(View(Checking))
      ensures Run(Next, s0, trace) == Some(View(if raised then Stopped else if found then Disposed else Handling(0)))
      ensures raised ==> EndsInFault(trace)
      ensures !raised ==> found == (key in marks)
    {
      found, raised := AlreadyProcessed(key);
      ghost var a := On(Check(!raised));
      Took(Next, s0, past, View(Checking), a,
        View(if raised then Stopped else if found then Disposed else Handling(0)));
      trace := past + [a];
    }

    /** At most maxRetries + 1 attempts, then the DLQ. */
    method HandleWithRetries(key: Option<string>, ghost s0: State, ghost past: seq<Step>)
      returns (raised: bool, dead: bool, ghost trace: seq<Step>)
      requires committed < |log| && key == KeyOf(log[committed])
      requires Run(Next, s0, past) == Some(View(Handling(0)))
      modifies `effects, `marks, `dlq
      ensures Run(Next, s0, trace) == Some(View(if raised then Stopped else Disposed))
      ensures raised ==> MayStop(log[committed], trace)
      ensures |effects| <= |old(effects)| + maxRetries + 1
      ensures !Sendable(log[committed]) ==> dlq == old(dlq) && (raised || !dead)
      ensures !raised ==> if dead then committed in dlq else committed in effects
    {
      trace, dead := past, false;
      var attempt := 0;
      while true
        invariant attempt <= maxRetries && !dead && dlq == old(dlq)
        invariant Run(Next, s0, trace) == Some(View(Handling(attempt)))
        invariant |effects| <= |old(effects)| + attempt
        decreases maxRetries - attempt
      {
        raised, trace := Attempt(key, attempt, s0, trace);
        if !raised {
          return;
        }
        attempt := attempt + 1;
        if attempt > maxRetries {
          dead := true;
          raised, trace := Exhausted(key, s0, trace);
          return;
        }
      }
    }

    /** Dedup check, then at most maxRetries + 1 attempts, then the DLQ. A normal return has
        counted the envelope in exactly one statistic and left evidence for it. */
    method ProcessEnvelope(ghost s0: State, ghost past: seq<Step>) returns (raised: bool, ghost trace: seq<Step>)
      requires committed < |log| && log[committed].Envelope?
      requires Run(Next, s0, past) == Some(View(if KeyOf(log[committed]).Some? then Checking else Handling(0)))
      modifies `effects, `marks, `dlq, `processed, `deduped, `quarantined
      ensures Run(Next, s0, trace) == Some(View(if raised then Stopped else Disposed))
      ensures raised ==> MayStop(log[committed], trace)
      ensures |effects| <= |old(effects)| + maxRetries + 1
      ensures !Sendable(log[committed]) ==> dlq == old(dlq) && quarantined == old(quarantined)
      ensures !raised ==> processed + deduped + quarantined == old(processed + deduped + quarantined) + 1
      ensures !raised && deduped > old(deduped) ==>
                KeyOf(log[committed]).Some? && KeyOf(log[committed]).value in old(marks) && effects == old(effects)
      ensures !raised && processed > old(processed) ==> committed in effects
      ensures !raised && quarantined > old(quarantined) ==> committed in dlq
    {
      var key := KeyOf(log[committed]);
      trace := past;
      if key.Some? {
        var found;
        found, raised, trace := CheckDedup(key.value, s0, past);
        if raised {
          return;
        }
        if found {
          deduped := deduped + 1;
          return;
        }
      }
      var dead;
      raised, dead, trace := HandleWithRetries(key, s0, trace);
      if raised {
        return;
      }
      if dead {
        quarantined := quarantined + 1;
      } else {
        processed := processed + 1;
      }
    }

    /** Decode, then dispose: an undecodable record goes straight to the DLQ, and a record
        without a value, with an unreadable header, without an object or with a dedup key
        that cannot be encoded raises. */
    method HandleMessage(ghost s0: State, ghost past: seq<Step>) returns (raised: bool, ghost trace: seq<Step>)
      requires committed < |log|
      requires Run(Next, s0, past) == Some(View(Polling))
      modifies `effects, `marks, `dlq, `processed, `deduped, `quarantined
      ensures Run(Next, s0, trace) == Some(View(if raised then Stopped else Disposed))
      ensures log[committed].Raising? ==> raised
      ensures raised ==> MayStop(log[committed], trace)
      ensures !raised ==> processed + deduped + quarantined == old(processed + deduped + quarantined) + 1
    {
      var m := log[committed];
      RunSnoc(Next, s0, past, On(Fetch));
      trace := past + [On(Fetch)];
      if m.Undecodable? {
        raised, trace := Exhausted(None, s0, trace);
        if !raised {
          quarantined := quarantined + 1;
        }
      } else if m.Raising? {
        raised := true;
      } else {
        raised, trace := ProcessEnvelope(s0, trace);
      }
    }

    /** The run loop over the records present: take one record, dispose of it, commit, and
        stop at the first exception, which is a remote call that raised, a record whose
        handling raises before dispatch, or an exhausted one whose DLQ copy cannot be keyed.
        Every execution is a run of the transition system, and the statistics count one
        disposal per committed record. */
    method RunLoop() returns (raised: bool, ghost trace: seq<Step>)
      requires committed <= |log|
      modifies `committed, `effects, `marks, `dlq, `processed, `deduped, `quarantined
      ensures Run(Next, old(View(Stopped)), trace) == Some(View(Stopped))
      ensures old(committed) <= committed <= |log|
      ensures raised ==> EndsInFault(trace) || (committed < |log| && MayStop(log[committed], trace))
      ensures !raised ==> committed == |log|
      ensures !raised ==>
                processed + deduped + quarantined - old(processed + deduped + quarantined) == committed - old(committed)
    {
      ghost var s0 := View(Stopped);
      raised := false;
      StartStep(s0);
      trace := [Start];
      while committed < |log|
        invariant old(committed) <= committed <= |log|
        invariant Run(Next, s0, trace) == Some(View(Polling))
        invariant !raised
        invariant processed + deduped + quarantined - old(processed + deduped + quarantined) ==
            committed - old(committed)
        decreases |log| - committed
      {
        raised, trace := HandleMessage(s0, trace);
        if raised {
          return;
        }
        raised, trace := CommitStep(s0, trace);
        if raised {
          return;
        }
      }
      HaltStep(s0, trace, View(Polling));
      trace := trace + [Halt];
    }
  }
}
