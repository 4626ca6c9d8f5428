/** The Go consumer group member (claim, then handle, then commit) as a transition system
    over one partition log. Claims are never expired: redelivery is taken to happen within
    the dedup TTL. Labels say whether each remote call succeeded and, if not, whether it
    landed; cancellation of the context and a hard crash are steps of their own. */
module GoConsumer {
  import opened Collections
  import opened Machine
  import opened Keys
  import opened Uuids

  datatype Message = Undecodable | Envelope(id: Uuid)

  datatype Config = Config(
    group: string,
    dedup: bool,        // a deduper is configured
    canRelease: bool,   // the deduper supports Del
    dlq: bool,          // a DLQ publisher is configured
    maxRetries: int)

  datatype Phase =
    | Down
    | Fetching
    | Claiming
    | Handling(attempt: nat)
    | Backoff(attempt: nat)
    | Releasing(cancelling: bool)
    | Publishing
    | DlqBackoff
    | Committing

  datatype State = State(
    config: Config,
    log: seq<Message>,
    committed: nat,
    pos: nat,               // reader position of the current session
    cancelled: bool,
    claims: set<string>,    // dedup keys present in Redis
    handled: seq<nat>,      // offset of every successful handler call, in time order
    dlq: seq<nat>,          // offset of every record on the dead-letter topic, in time order
    phase: Phase)

  datatype Step =
    | Arrive(message: Message)
    | Start
    | Cancel
    | Crash
    | FetchFail
    | On(step: RecordStep)

  datatype RecordStep =
    | Fetch
    | Claim(ok: bool, landed: bool)
    | Handle(ok: bool)
    | Wake                          // the backoff timer fires
    | Abandon                       // a wait observes the cancelled context
    | Release(deleted: bool)
    | Publish(ok: bool, landed: bool)
    | Commit(ok: bool, landed: bool)

  /** The dedup key, scoped by consumer group. */
  function Key(group: string, id: Uuid): string {
    "evt:dedup:" + group + ":" + ToString(id)
  }

  /** No two (group, event) pairs share a key, whatever characters a group name contains. */
  lemma KeyInjective(g: string, u: Uuid, g': string, u': Uuid)
    requires Key(g, u) == Key(g', u')
    ensures g == g' && u == u'
  {
    var pre := "evt:dedup:";
    StringIsKeySafe(u);
    StringIsKeySafe(u');
    assert Key(g, u) == (pre + g) + ":" + ToString(u);
    assert Key(g', u') == (pre + g') + ":" + ToString(u');
    ColonCutLast(pre + g, ToString(u), pre + g', ToString(u'));
    assert g == (pre + g)[|pre|..] && g' == (pre + g')[|pre|..];
    ToStringInjective(u, u');
  }

  function Next(s: State, a: Step): Option<State> {
    match a
    case Arrive(m) => Some(s.(log := s.log + [m]))
    case Start =>
      if s.phase.Down? then Some(s.(phase := Fetching, pos := s.committed, cancelled := false)) else None
    case Cancel => if s.phase.Down? then None else Some(s.(cancelled := true))
    case Crash => Some(s.(phase := Down))
    case FetchFail =>
      if s.phase.Fetching? then Some(s.(phase := if s.cancelled then Down else Fetching)) else None
    case On(r) => if s.pos < |s.log| then NextOn(s, s.log[s.pos], r) else None
  }

  function NextOn(s: State, m: Message, r: RecordStep): Option<State> {
    match r
    case Fetch =>
      if !s.phase.Fetching? then None
      else Some(s.(phase := if m.Undecodable? then Publishing
                            else if s.config.dedup then Claiming
                            else Handling(1)))
    case Claim(ok, landed) =>
      if !(s.phase.Claiming? && m.Envelope? && (ok ==> landed)) then None
      else
        var key := Key(s.config.group, m.id);
        Some(s.(claims := if landed then s.claims + {key} else s.claims,
                phase := if ok && key in s.claims then Committing else Handling(1)))
    case Handle(ok) =>
      if !s.phase.Handling? then None
      else Some(s.(handled := if ok then s.handled + [s.pos] else s.handled,
                   phase := if ok then Committing
                            else if s.phase.attempt >= s.config.maxRetries then Releasing(false)
                            else Backoff(s.phase.attempt)))
    case Wake =>
      if s.phase.Backoff? then Some(s.(phase := Handling(s.phase.attempt + 1)))
      else if s.phase.DlqBackoff? then Some(s.(phase := Publishing))
      else None
    case Abandon =>
      if !s.cancelled then None
      else if s.phase.Backoff? then Some(s.(phase := Releasing(true)))
      else if s.phase.DlqBackoff? || (s.phase.Publishing? && !s.config.dlq) then Some(s.(phase := Down))
      else None
    case Release(deleted) =>
      if !(s.phase.Releasing? && m.Envelope? && (deleted ==> s.config.dedup && s.config.canRelease)) then None
      else Some(s.(claims := if deleted then s.claims - {Key(s.config.group, m.id)} else s.claims,
                   phase := if s.phase.cancelling then Down else Publishing))
    case Publish(ok, landed) =>
      if !(s.phase.Publishing? && s.config.dlq && (ok ==> landed)) then None
      else Some(s.(dlq := if landed then s.dlq + [s.pos] else s.dlq,
                   phase := if ok then Committing else DlqBackoff))
    case Commit(ok, landed) =>
      if !(s.phase.Committing? && (ok ==> landed)) then None
      else Some(s.(committed := if landed then s.pos + 1 else s.committed,
                   pos := s.pos + 1,
                   phase := Fetching))
  }

  ghost predicate Init(s: State) {
    s == State(s.config, s.log, 0, 0, false, {}, [], [], Down) && s.config.maxRetries >= 1
  }

  function KeyAt(s: State, o: nat): Option<string> {
    if o < |s.log| && s.log[o].Envelope? then Some(Key(s.config.group, s.log[o].id)) else None
  }

  /** Some handler call for key k succeeded. */
  ghost predicate Handled(s: State, k: string) {
    exists o: nat :: o in s.handled && KeyAt(s, o) == Some(k)
  }

  /** Between the claim and its outcome. */
  ghost predicate InFlight(s: State) {
    s.phase.Handling? || s.phase.Backoff? || s.phase.Releasing?
  }

  ghost predicate BetweenMessages(s: State) {
    s.phase.Down? || s.phase.Fetching?
  }

  /** The step abandons key k: a crash after the claim and before the handler succeeded, or a
      release that did not delete the claim. */
  ghost predicate Orphans(s: State, a: Step, k: string) {
    && (a.Crash? || (a.On? && a.step.Release? && !a.step.deleted))
    && InFlight(s)
    && KeyAt(s, s.pos) == Some(k) && k in s.claims && !Handled(s, k)
  }

  /** Key k was abandoned at some step of the run. */
  ghost predicate Orphaned(s0: State, trace: seq<Step>, k: string) {
    exists i :: 0 <= i < |trace| && OrphanedAt(s0, trace, i, k)
  }

  ghost predicate OrphanedAt(s0: State, trace: seq<Step>, i: nat, k: string)
    requires i < |trace|
  {
    match Run(Next, s0, trace[..i])
    case None => false
    case Some(s) => Orphans(s, trace[i], k)
  }

  /** What became of the record at o, given the set of abandoned keys. */
  ghost predicate Disposed(s: State, o: nat, orphaned: iset<string>) {
    o in s.dlq || (KeyAt(s, o).Some? && (Handled(s, KeyAt(s, o).value) || KeyAt(s, o).value in orphaned))
  }

  ghost predicate InvPhase(s: State, orphaned: iset<string>) {
    s.phase.Down? ||
    (s.committed <= s.pos <= |s.log| &&
     (s.phase.Fetching? ||
      (&& s.pos < |s.log|
       && (InFlight(s) || s.phase.Claiming? ==> s.log[s.pos].Envelope?)
       && (s.phase.Claiming? ==> s.config.dedup)
       && (s.phase.Committing? ==> Disposed(s, s.pos, orphaned)))))
  }

  /** A claim stands for a success, an abandoned attempt, or the attempt in progress; and
      everything committed, or read past in this session, is disposed of. */
  ghost predicate Inv(s: State, orphaned: iset<string>) {
    && s.committed <= |s.log|
    && (forall o :: o in s.handled ==> o < |s.log|)
    && (!s.config.dedup ==> s.claims == {})
    && (forall k :: k in s.claims ==>
          Handled(s, k) || k in orphaned || (InFlight(s) && KeyAt(s, s.pos) == Some(k)))
    && (forall o: nat :: o < s.committed || (!s.phase.Down? && o < s.pos) ==> Disposed(s, o, orphaned))
    && InvPhase(s, orphaned)
  }

  /** Nothing recorded is ever lost. */
  ghost predicate Grows(s: State, t: State) {
    && s.config == t.config && s.log <= t.log
    && (forall o :: o in s.handled ==> o in t.handled)
    && (forall o :: o in s.dlq ==> o in t.dlq)
  }

  lemma StepGrows(s: State, a: Step)
    requires Next(s, a).Some?
    ensures Grows(s, Next(s, a).value)
  {
  }

  lemma GrowthKeeps(s: State, t: State, orphaned: iset<string>, orphaned': iset<string>)
    requires Grows(s, t) && orphaned <= orphaned'
    ensures forall k :: Handled(s, k) ==> Handled(t, k)
    ensures forall o: nat :: o < |s.log| && Disposed(s, o, orphaned) ==> Disposed(t, o, orphaned')
  {
    assert forall o: nat :: o < |s.log| ==> KeyAt(t, o) == KeyAt(s, o);
    forall k | Handled(s, k) ensures Handled(t, k) {
      var o: nat :| o in s.handled && KeyAt(s, o) == Some(k);
      assert KeyAt(t, o) == Some(k);
    }
  }

  /** The keys abandoned once step a is taken as well. */
  ghost function Abandoned(s: State, a: Step, orphaned: iset<string>): iset<string> {
    orphaned + iset k | Orphans(s, a, k)
  }

  /** The claims part of the invariant: a claim leaves the in-flight phases only with a
      success, a deletion, or an abandonment. */
  lemma ClaimsKept(s: State, a: Step, orphaned: iset<string>, k: string)
    requires Inv(s, orphaned) && Next(s, a).Some?
    requires k in Next(s, a).value.claims
    ensures var t := Next(s, a).value;
            Handled(t, k) || k in Abandoned(s, a, orphaned) || (InFlight(t) && KeyAt(t, t.pos) == Some(k))
  {
    var t := Next(s, a).value;
    StepGrows(s, a);
    GrowthKeeps(s, t, orphaned, Abandoned(s, a, orphaned));
    if a == On(Handle(true)) && KeyAt(s, s.pos) == Some(k) {
      assert s.pos in t.handled && KeyAt(t, s.pos) == Some(k);
    }
  }

  lemma StepKeeps(s: State, a: Step, orphaned: iset<string>)
    requires Inv(s, orphaned) && Next(s, a).Some?
    ensures Inv(Next(s, a).value, Abandoned(s, a, orphaned))
  {
    var t, orphaned' := Next(s, a).value, Abandoned(s, a, orphaned);
    StepGrows(s, a);
    GrowthKeeps(s, t, orphaned, orphaned');
    forall k | k in t.claims
      ensures Handled(t, k) || k in orphaned' || (InFlight(t) && KeyAt(t, t.pos) == Some(k))
    {
      ClaimsKept(s, a, orphaned, k);
    }
    assert InvPhase(t, orphaned') by {
      PhaseKept(s, a, orphaned);
    }
  }

  lemma PhaseKept(s: State, a: Step, orphaned: iset<string>)
    requires Inv(s, orphaned) && Next(s, a).Some?
    ensures InvPhase(Next(s, a).value, Abandoned(s, a, orphaned))
  {
    var t := Next(s, a).value;
    StepGrows(s, a);
    GrowthKeeps(s, t, orphaned, Abandoned(s, a, orphaned));
    if a == On(Handle(true)) {
      assert s.pos in t.handled && KeyAt(t, s.pos) == KeyAt(s, s.pos);
    }
  }

  /** The keys abandoned anywhere in the run. */
  ghost function OrphanSet(s0: State, trace: seq<Step>): iset<string> {
    iset k | Orphaned(s0, trace, k)
  }

  lemma OrphanSetSnoc(s0: State, trace: seq<Step>, a: Step, s: State)
    requires Run(Next, s0, trace) == Some(s)
    ensures OrphanSet(s0, trace + [a]) == Abandoned(s, a, OrphanSet(s0, trace))
  {
    var more := trace + [a];
    assert more[..|trace|] == trace;
    forall i, k | 0 <= i < |trace| ensures OrphanedAt(s0, more, i, k) == OrphanedAt(s0, trace, i, k) {
      assert more[..i] == trace[..i];
    }
    forall k ensures k in OrphanSet(s0, more) <==> k in Abandoned(s, a, OrphanSet(s0, trace)) {
      if Orphaned(s0, trace, k) {
        var i :| 0 <= i < |trace| && OrphanedAt(s0, trace, i, k);
        assert OrphanedAt(s0, more, i, k);
      }
      if Orphans(s, a, k) {
        assert OrphanedAt(s0, more, |trace|, k);
      }
    }
  }

  /** The invariant, relative to the keys the run has abandoned so far. */
  ghost predicate RunInv(s0: State, trace: seq<Step>) {
    Run(Next, s0, trace).Some? ==> Inv(Run(Next, s0, trace).value, OrphanSet(s0, trace))
  }

  lemma RunInvSnoc(s0: State, trace: seq<Step>, a: Step)
    requires RunInv(s0, trace)
    ensures RunInv(s0, trace + [a])
  {
    RunSnoc(Next, s0, trace, a);
    if Run(Next, s0, trace + [a]).Some? {
      var s := Run(Next, s0, trace).value;
      OrphanSetSnoc(s0, trace, a, s);
      StepKeeps(s, a, OrphanSet(s0, trace));
    }
  }

  lemma InitInv(s0: State)
    requires Init(s0)
    ensures RunInv(s0, [])
  {
  }

  lemma {:induction false} AlwaysInv(s0: State, trace: seq<Step>)
    requires Init(s0)
    ensures RunInv(s0, trace)
  {
    if trace == [] {
      InitInv(s0);
    } else {
      var front, last := trace[..|trace| - 1], trace[|trace| - 1];
      AlwaysInv(s0, front);
      RunInvSnoc(s0, front, last);
      assert trace == front + [last];
    }
  }

  /** Safety with arbitrary crashes and failed releases. Between messages a held claim stands
      for a handled event or an abandoned attempt; and a committed record is on the DLQ, or its
      event was handled, or its event's key was abandoned by some attempt. Nothing else is
      ever committed, and the reader never moves past a record short of that. */
  lemma CommittedOrOrphaned(s0: State, trace: seq<Step>, s: State)
    requires Init(s0) && Run(Next, s0, trace) == Some(s)
    ensures s.committed <= |s.log|
    ensures BetweenMessages(s) ==> forall k :: k in s.claims ==> Handled(s, k) || Orphaned(s0, trace, k)
    ensures forall o: nat :: o < s.committed || (!s.phase.Down? && o < s.pos) ==>
              o in s.dlq ||
              (KeyAt(s, o).Some? && (Handled(s, KeyAt(s, o).value) || Orphaned(s0, trace, KeyAt(s, o).value)))
  {
    AlwaysInv(s0, trace);
    assert Inv(s, OrphanSet(s0, trace));
    forall o: nat | o < s.committed || (!s.phase.Down? && o < s.pos)
      ensures o in s.dlq ||
              (KeyAt(s, o).Some? && (Handled(s, KeyAt(s, o).value) || Orphaned(s0, trace, KeyAt(s, o).value)))
    {
      assert Disposed(s, o, OrphanSet(s0, trace));
    }
  }

  /** A release that leaves its claim behind. */
  predicate LeavesClaim(s: State, a: Step) {
    a == On(Release(false)) && KeyAt(s, s.pos).Some? && KeyAt(s, s.pos).value in s.claims
  }

  ghost predicate LeavesClaimAt(s0: State, trace: seq<Step>, i: nat)
    requires i < |trace|
  {
    match Run(Next, s0, trace[..i])
    case None => false
    case Some(s) => LeavesClaim(s, trace[i])
  }

  /** The run is interrupted only by cancellation, and no release leaves its claim behind. */
  ghost predicate Graceful(s0: State, trace: seq<Step>) {
    forall i :: 0 <= i < |trace| ==> !trace[i].Crash? && !LeavesClaimAt(s0, trace, i)
  }

  lemma GracefulAbandonsNothing(s0: State, trace: seq<Step>, k: string)
    requires Graceful(s0, trace)
    ensures !Orphaned(s0, trace, k)
  {
  }

  /** Safety under cancellation only: a claim held between messages means the handler
      succeeded for that event, and the committed offset never passes a record that is
      neither handled, a duplicate of a handled one, nor on the DLQ. */
  lemma GracefulLosesNothing(s0: State, trace: seq<Step>, s: State)
    requires Init(s0) && Run(Next, s0, trace) == Some(s) && Graceful(s0, trace)
    ensures BetweenMessages(s) ==> forall k :: k in s.claims ==> Handled(s, k)
    ensures forall o: nat :: o < s.committed || (!s.phase.Down? && o < s.pos) ==>
              o in s.dlq || (KeyAt(s, o).Some? && Handled(s, KeyAt(s, o).value))
  {
    CommittedOrOrphaned(s0, trace, s);
    forall k ensures !Orphaned(s0, trace, k) {
      GracefulAbandonsNothing(s0, trace, k);
    }
  }

  lemma {:induction false} NoClaimsWithoutDedup(s0: State, trace: seq<Step>, s: State)
    requires Init(s0) && !s0.config.dedup && Run(Next, s0, trace) == Some(s)
    ensures !s.config.dedup && s.claims == {} && !s.phase.Claiming?
  {
    if trace != [] {
      var front := trace[..|trace| - 1];
      NoClaimsWithoutDedup(s0, front, Run(Next, s0, front).value);
    }
  }

  /** A group without a deduper loses nothing in any run at all, crashes included. */
  lemma WithoutDedupLosesNothing(s0: State, trace: seq<Step>, s: State)
    requires Init(s0) && !s0.config.dedup && Run(Next, s0, trace) == Some(s)
    ensures forall o: nat :: o < s.committed || (!s.phase.Down? && o < s.pos) ==>
              o in s.dlq || (KeyAt(s, o).Some? && Handled(s, KeyAt(s, o).value))
  {
    CommittedOrOrphaned(s0, trace, s);
    forall i, k | 0 <= i < |trace| ensures !OrphanedAt(s0, trace, i, k) {
      if Run(Next, s0, trace[..i]).Some? {
        NoClaimsWithoutDedup(s0, trace[..i], Run(Next, s0, trace[..i]).value);
      }
    }
  }

  /** Steps of a run in which every SETNX for key k gets an answer. */
  function Answering(k: string): (State, Step) -> Option<State> {
    (s: State, a: Step) =>
      if a.On? && a.step.Claim? && !a.step.ok && KeyAt(s, s.pos) == Some(k) then None else Next(s, a)
  }

  lemma {:induction false} AnsweringIsRun(k: string, s0: State, trace: seq<Step>, s: State)
    requires Run(Answering(k), s0, trace) == Some(s)
    ensures Run(Next, s0, trace) == Some(s)
  {
    if trace != [] {
      var front := trace[..|trace| - 1];
      AnsweringIsRun(k, s0, front, Run(Answering(k), s0, front).value);
    }
  }

  /** The record at the reader's position carries key k. */
  predicate At(s: State, k: string) {
    KeyAt(s, s.pos) == Some(k)
  }

  ghost predicate OnItsWayToDlq(s: State) {
    s.phase.Publishing? || s.phase.DlqBackoff?
  }

  /** Positions that stand for a record of the log. */
  ghost predicate Placed(s: State) {
    && (forall o :: o in s.handled ==> o < |s.log|)
    && (forall o :: o in s.dlq ==> o < |s.log|)
    && (InFlight(s) || OnItsWayToDlq(s) ==> s.pos < |s.log|)
  }

  /** Key k is claimed with no success behind it and no attempt in progress. */
  ghost predicate Masked(s: State, k: string) {
    && s.config.dedup && k in s.claims && !Handled(s, k)
    && !(InFlight(s) && At(s, k))
    && Placed(s)
  }

  lemma KeysStay(s: State, a: Step)
    requires Next(s, a).Some?
    ensures var t := Next(s, a).value;
            t.config == s.config && s.log <= t.log && forall o: nat :: o < |s.log| ==> KeyAt(t, o) == KeyAt(s, o)
  {
  }

  lemma PlacedStep(s: State, a: Step)
    requires Placed(s) && Next(s, a).Some?
    ensures Placed(Next(s, a).value)
  {
    if a.On? {
      PlacedOnStep(s, a.step);
    }
  }

  lemma PlacedOnStep(s: State, r: RecordStep)
    requires Placed(s) && Next(s, On(r)).Some?
    ensures Placed(Next(s, On(r)).value)
  {
  }

  /** A key gets its success only from the attempt in progress on one of its records. */
  lemma SuccessComesFromFlight(s: State, a: Step, k: string)
    requires Placed(s) && Next(s, a).Some? && !(InFlight(s) && At(s, k))
    ensures Handled(Next(s, a).value, k) ==> Handled(s, k)
  {
    var t := Next(s, a).value;
    KeysStay(s, a);
    forall o: nat | o in t.handled && KeyAt(t, o) == Some(k) ensures Handled(s, k) {
      assert o in s.handled;
    }
  }

  lemma ClaimOutlives(s: State, a: Step, k: string)
    requires k in s.claims && Next(s, a).Some? && !(InFlight(s) && At(s, k))
    ensures k in Next(s, a).value.claims
  {
  }

  /** With deduplication on, an attempt on a record of key k starts only with k newly claimed. */
  lemma FlightStartsWithClaim(s: State, a: Step, k: string)
    requires Placed(s) && s.config.dedup && Answering(k)(s, a).Some?
    ensures var t := Next(s, a).value;
            InFlight(t) && At(t, k) ==> At(s, k) && (InFlight(s) || (k !in s.claims && k in t.claims))
  {
    KeysStay(s, a);
  }

  /** A masked key stays masked: its own records are only skipped, and other records never
      touch its claim. */
  lemma MaskedStep(t: State, k: string, a: Step)
    requires Masked(t, k) && Answering(k)(t, a).Some?
    ensures Masked(Answering(k)(t, a).value, k)
  {
    KeysStay(t, a);
    PlacedStep(t, a);
    SuccessComesFromFlight(t, a, k);
    ClaimOutlives(t, a, k);
    FlightStartsWithClaim(t, a, k);
  }

  /** Only the record that was on its way to the DLQ in s can join the DLQ under key k. */
  ghost predicate NoNewDlq(s: State, k: string, t: State) {
    && s.log <= t.log && s.config == t.config
    && (forall o: nat :: o in t.dlq && KeyAt(t, o) == Some(k) ==> o in s.dlq || (OnItsWayToDlq(s) && o == s.pos))
    && (OnItsWayToDlq(t) && At(t, k) ==> OnItsWayToDlq(s) && t.pos == s.pos)
  }

  lemma DlqComesFromPublishing(s: State, a: Step)
    requires Next(s, a).Some?
    ensures var t := Next(s, a).value; forall o :: o in t.dlq ==> o in s.dlq || (o == s.pos && OnItsWayToDlq(s))
  {
  }

  lemma PublishingComesFromFlight(s: State, a: Step, k: string)
    requires Placed(s) && Next(s, a).Some? && !(InFlight(s) && At(s, k))
    ensures var t := Next(s, a).value; OnItsWayToDlq(t) && At(t, k) ==> OnItsWayToDlq(s) && t.pos == s.pos && At(s, k)
  {
    KeysStay(s, a);
  }

  lemma NoNewDlqStep(s: State, k: string, t: State, a: Step)
    requires Masked(t, k) && NoNewDlq(s, k, t) && Answering(k)(t, a).Some?
    ensures NoNewDlq(s, k, Answering(k)(t, a).value)
  {
    KeysStay(t, a);
    DlqComesFromPublishing(t, a);
    PublishingComesFromFlight(t, a, k);
  }

  lemma {:induction false} AlwaysPlaced(s0: State, trace: seq<Step>, s: State)
    requires Init(s0) && Run(Next, s0, trace) == Some(s)
    ensures Placed(s)
  {
    if trace != [] {
      var front, last := trace[..|trace| - 1], trace[|trace| - 1];
      var t := Run(Next, s0, front).value;
      AlwaysPlaced(s0, front, t);
      PlacedStep(t, last);
    }
  }

  /** The step that abandons a key masks it. */
  lemma OrphanIsMasked(s0: State, trace: seq<Step>, s: State, a: Step, k: string)
    requires Init(s0) && Run(Next, s0, trace) == Some(s) && Next(s, a).Some? && Orphans(s, a, k)
    ensures Masked(Next(s, a).value, k)
  {
    AlwaysPlaced(s0, trace, s);
    AlwaysInv(s0, trace);
    assert Inv(s, OrphanSet(s0, trace));
    var t := Next(s, a).value;
    assert t.handled == s.handled && t.log == s.log;
    assert forall o: nat :: KeyAt(t, o) == KeyAt(s, o);
  }

  /** However a key was abandoned, by a crash or by any failed release, it is masked for the
      rest of a run in which its SETNXs are answered. */
  lemma {:induction false} OrphanedStaysMasked(s0: State, trace: seq<Step>, s: State, k: string)
    requires Init(s0) && Run(Answering(k), s0, trace) == Some(s) && Orphaned(s0, trace, k)
    ensures Masked(s, k)
  {
    var front, last := trace[..|trace| - 1], trace[|trace| - 1];
    FrontLast(trace);
    var t := Run(Answering(k), s0, front).value;
    AnsweringIsRun(k, s0, front, t);
    OrphanSetSnoc(s0, front, last, t);
    assert k in OrphanSet(s0, trace);
    if Orphaned(s0, front, k) {
      OrphanedStaysMasked(s0, front, t, k);
      MaskedStep(t, k, last);
    } else {
      OrphanIsMasked(s0, front, t, last, k);
    }
  }

  /** Exactly the abandoned events are lost. In every run, whatever crashes and failed releases
      it holds, as long as Redis answers the SETNXs for the record's key: a committed record
      that is not on the DLQ carries an event that was never handled if and only if some
      attempt abandoned its key. */
  lemma LostExactlyWhenAbandoned(s0: State, trace: seq<Step>, s: State, o: nat, k: string)
    requires Init(s0) && Run(Answering(k), s0, trace) == Some(s)
    requires o < s.committed && o !in s.dlq && (KeyAt(s, o).Some? ==> KeyAt(s, o).value == k)
    ensures KeyAt(s, o) == Some(k)
    ensures !Handled(s, k) <==> Orphaned(s0, trace, k)
  {
    AnsweringIsRun(k, s0, trace, s);
    CommittedOrOrphaned(s0, trace, s);
    if Orphaned(s0, trace, k) {
      OrphanedStaysMasked(s0, trace, s, k);
    }
  }

  /** An abandoned claim masks its event for good. Once some attempt has abandoned key k, no
      continuation that answers its SETNXs ever handles the event, and the only record of it
      that can still reach the DLQ is the one that was on its way there. */
  lemma {:induction false} AbandonedClaimMasksForever(s0: State, trace: seq<Step>, s: State,
      more: seq<Step>, t: State, k: string)
    requires Init(s0) && Run(Answering(k), s0, trace) == Some(s) && Orphaned(s0, trace, k)
    requires Run(Answering(k), s, more) == Some(t)
    ensures k in t.claims && !Handled(t, k) && NoNewDlq(s, k, t)
  {
    OrphanedStaysMasked(s0, trace, s, k);
    var inv := (u: State) => Masked(u, k) && NoNewDlq(s, k, u);
    forall u, a | inv(u) && Answering(k)(u, a).Some? ensures inv(Answering(k)(u, a).value) {
      MaskedStep(u, k, a);
      NoNewDlqStep(s, k, u, a);
    }
    RunInvariant(Answering(k), inv, s, more);
  }

  /** No two entries of handled are for key k. */
  ghost predicate OneSuccess(s: State, k: string) {
    forall i, j :: 0 <= i < j < |s.handled| && KeyAt(s, s.handled[i]) == Some(k) ==> KeyAt(s, s.handled[j]) != Some(k)
  }

  /** A success keeps its claim, and while an attempt is in progress the claim is held and
      nothing has succeeded before. */
  ghost predicate AtMostOnce(s: State, k: string) {
    && s.config.dedup && Placed(s) && OneSuccess(s, k)
    && (Handled(s, k) ==> k in s.claims && !(InFlight(s) && At(s, k)))
    && (InFlight(s) && At(s, k) ==> k in s.claims)
  }

  lemma OneSuccessKept(s: State, k: string, a: Step)
    requires Placed(s) && OneSuccess(s, k) && Next(s, a).Some?
    requires InFlight(s) && At(s, k) ==> !Handled(s, k)
    ensures OneSuccess(Next(s, a).value, k)
  {
    var t := Next(s, a).value;
    KeysStay(s, a);
    forall i, j | 0 <= i < j < |t.handled| && KeyAt(t, t.handled[i]) == Some(k)
      ensures KeyAt(t, t.handled[j]) != Some(k)
    {
      assert s.handled[i] in s.handled;
      if j < |s.handled| {
        assert s.handled[j] in s.handled;
      }
    }
  }

  /** The end of an attempt on a record of key k: a success keeps the claim, and any other step
      leaves the successes alone. */
  lemma FlightStep(s: State, k: string, a: Step)
    requires Placed(s) && InFlight(s) && At(s, k) && k in s.claims && !Handled(s, k) && Next(s, a).Some?
    ensures var t := Next(s, a).value;
            && (Handled(t, k) ==> k in t.claims && !InFlight(t))
            && (InFlight(t) ==> k in t.claims)
  {
    var t := Next(s, a).value;
    KeysStay(s, a);
    if a != On(Handle(true)) {
      assert t.handled == s.handled;
      assert Handled(t, k) ==> Handled(s, k);
    }
  }

  lemma AtMostOnceStep(s: State, k: string, a: Step)
    requires AtMostOnce(s, k) && Answering(k)(s, a).Some?
    ensures AtMostOnce(Answering(k)(s, a).value, k)
  {
    KeysStay(s, a);
    PlacedStep(s, a);
    OneSuccessKept(s, k, a);
    if InFlight(s) && At(s, k) {
      FlightStep(s, k, a);
    } else {
      SuccessComesFromFlight(s, a, k);
      FlightStartsWithClaim(s, a, k);
      if Handled(s, k) {
        ClaimOutlives(s, a, k);
      }
    }
  }

  /** Deduplication: in every run, crashes and redeliveries included, in which Redis answers
      the SETNXs for a key, no two successful handler calls are for that key. */
  lemma {:induction false} HandledAtMostOnce(s0: State, trace: seq<Step>, s: State, k: string)
    requires Init(s0) && s0.config.dedup && Run(Answering(k), s0, trace) == Some(s)
    ensures OneSuccess(s, k)
  {
    var inv := (u: State) => AtMostOnce(u, k);
    forall u, a | inv(u) && Answering(k)(u, a).Some? ensures inv(Answering(k)(u, a).value) {
      AtMostOnceStep(u, k, a);
    }
    RunInvariant(Answering(k), inv, s0, trace);
  }

  /** Exactly once: in a gracefully interrupted run every committed event that is not on the
      DLQ has been handled by one successful call, and by one only. */
  lemma HandledExactlyOnce(s0: State, trace: seq<Step>, s: State, o: nat, k: string) returns (i: nat)
    requires Init(s0) && s0.config.dedup && Run(Answering(k), s0, trace) == Some(s) && Graceful(s0, trace)
    requires o < s.committed && o !in s.dlq && (KeyAt(s, o).Some? ==> KeyAt(s, o).value == k)
    ensures i < |s.handled| && KeyAt(s, s.handled[i]) == Some(k)
    ensures forall j :: 0 <= j < |s.handled| && KeyAt(s, s.handled[j]) == Some(k) ==> j == i
  {
    AnsweringIsRun(k, s0, trace, s);
    GracefulLosesNothing(s0, trace, s);
    HandledAtMostOnce(s0, trace, s, k);
    var h: nat :| h in s.handled && KeyAt(s, h) == Some(k);
    i :| 0 <= i < |s.handled| && s.handled[i] == h;
  }

  /** A commit that did not land. */
  predicate LosesCommit(a: Step) {
    a.On? && a.step.Commit? && !a.step.landed
  }

  /** Successes so far are in log order, and the reader stands at the committed offset. */
  ghost predicate Ordered(s: State) {
    && NonDecreasing(s.handled)
    && (forall o :: o in s.handled ==> o <= s.committed)
    && (!s.phase.Down? ==> s.pos == s.committed)
  }

  lemma OrderedStep(s: State, a: Step)
    requires Ordered(s) && Next(s, a).Some? && !LosesCommit(a)
    ensures Ordered(Next(s, a).value)
  {
    if a == On(Handle(true)) {
      AppendNonDecreasing(s.handled, s.pos);
    }
  }

  /** While every commit lands, successes are in log order, whatever else fails or crashes. */
  lemma {:induction false} SuccessesInLogOrder(s0: State, trace: seq<Step>, s: State)
    requires Init(s0) && Run(Next, s0, trace) == Some(s) && forall a :: a in trace ==> !LosesCommit(a)
    ensures Ordered(s)
  {
    if trace != [] {
      var front, last := trace[..|trace| - 1], trace[|trace| - 1];
      SuccessesInLogOrder(s0, front, Run(Next, s0, front).value);
      OrderedStep(Run(Next, s0, front).value, last);
    }
  }

  /** Steps of a run in which nothing fails but the handler and, when lost is set, commits. */
  function Healthy(lost: bool): (State, Step) -> Option<State> {
    (s: State, a: Step) => if Fails(a) || (LosesCommit(a) && !lost) then None else Next(s, a)
  }

  predicate Fails(a: Step) {
    a.Crash? ||
    (a.On? &&
     match a.step
     case Claim(ok, _) => !ok
     case Release(deleted) => !deleted
     case Publish(ok, _) => !ok
     case _ => false)
  }

  ghost predicate KeepsLogOrder(s0: State, lost: bool) {
    forall trace, s :: Run(Healthy(lost), s0, trace) == Some(s) ==> NonDecreasing(s.handled)
  }

  /** Exactly when successes stay in log order. With a deduper that can release and a DLQ, and
      two different events to begin with, every run that is healthy but for handlers keeps the
      order if and only if commits are never lost. */
  lemma OrderNeedsCommits(s0: State, lost: bool)
    requires Init(s0) && s0.config.dedup && s0.config.canRelease && s0.config.dlq
    requires KeyAt(s0, 0).Some? && KeyAt(s0, 1).Some? && KeyAt(s0, 0) != KeyAt(s0, 1)
    ensures KeepsLogOrder(s0, lost) <==> !lost
  {
    if lost {
      var trace, s := LostCommitReorders(s0);
      assert s.handled[0] > s.handled[1];
    } else {
      forall trace, s | Run(Healthy(false), s0, trace) == Some(s) ensures NonDecreasing(s.handled) {
        forall t, a | Ordered(t) && Healthy(false)(t, a).Some? ensures Ordered(Healthy(false)(t, a).value) {
          OrderedStep(t, a);
        }
        RunInvariant(Healthy(false), Ordered, s0, trace);
      }
    }
  }

  /** A fresh record is fetched and claimed. */
  lemma FetchedAndClaimed(s0: State, past: seq<Step>, s: State, key: string) returns (trace: seq<Step>)
    requires Run(Healthy(true), s0, past) == Some(s)
    requires s.phase.Fetching? && s.config.dedup && KeyAt(s, s.pos) == Some(key) && key !in s.claims
    ensures Run(Healthy(true), s0, trace) == Some(s.(phase := Handling(1), claims := s.claims + {key}))
  {
    trace := past + [On(Fetch)];
    Took(Healthy(true), s0, past, s, On(Fetch), s.(phase := Claiming));
    Took(Healthy(true), s0, trace, s.(phase := Claiming), On(Claim(true, true)),
      s.(phase := Handling(1), claims := s.claims + {key}));
    trace := trace + [On(Claim(true, true))];
  }

  /** Every attempt from this one on fails. */
  lemma {:induction false} FailsOut(s0: State, past: seq<Step>, s: State) returns (trace: seq<Step>)
    requires Run(Healthy(true), s0, past) == Some(s) && s.pos < |s.log|
    requires s.phase.Handling? && s.phase.attempt <= s.config.maxRetries
    ensures Run(Healthy(true), s0, trace) == Some(s.(phase := Releasing(false)))
    decreases s.config.maxRetries - s.phase.attempt
  {
    trace := past + [On(Handle(false))];
    var attempt := s.phase.attempt;
    if attempt == s.config.maxRetries {
      Took(Healthy(true), s0, past, s, On(Handle(false)), s.(phase := Releasing(false)));
    } else {
      Took(Healthy(true), s0, past, s, On(Handle(false)), s.(phase := Backoff(attempt)));
      Took(Healthy(true), s0, trace, s.(phase := Backoff(attempt)), On(Wake), s.(phase := Handling(attempt + 1)));
      trace := FailsOut(s0, trace + [On(Wake)], s.(phase := Handling(attempt + 1)));
    }
  }

  /** A record whose attempts are over has its claim released and is dead-lettered. */
  lemma ReleasedAndPublished(s0: State, past: seq<Step>, s: State, key: string) returns (trace: seq<Step>)
    requires Run(Healthy(true), s0, past) == Some(s.(phase := Releasing(false), claims := s.claims + {key}))
    requires s.config.dedup && s.config.canRelease && s.config.dlq
    requires KeyAt(s, s.pos) == Some(key) && key !in s.claims
    ensures Run(Healthy(true), s0, trace) == Some(s.(phase := Committing, dlq := s.dlq + [s.pos]))
  {
    assert s.claims + {key} - {key} == s.claims;
    Took(Healthy(true), s0, past, s.(phase := Releasing(false), claims := s.claims + {key}), On(Release(true)),
      s.(phase := Publishing));
    trace := past + [On(Release(true))];
    Took(Healthy(true), s0, trace, s.(phase := Publishing), On(Publish(true, true)),
      s.(phase := Committing, dlq := s.dlq + [s.pos]));
    trace := trace + [On(Publish(true, true))];
  }

  /** A record whose handler always fails is quarantined, its claim released, its commit lost. */
  lemma QuarantinedUncommitted(s0: State, past: seq<Step>, s: State, key: string) returns (trace: seq<Step>)
    requires Run(Healthy(true), s0, past) == Some(s)
    requires s.phase.Fetching? && s.config.dedup && s.config.canRelease && s.config.dlq && s.config.maxRetries >= 1
    requires KeyAt(s, s.pos) == Some(key) && key !in s.claims
    ensures Run(Healthy(true), s0, trace) == Some(s.(dlq := s.dlq + [s.pos], pos := s.pos + 1))
  {
    trace := FetchedAndClaimed(s0, past, s, key);
    trace := FailsOut(s0, trace, s.(phase := Handling(1), claims := s.claims + {key}));
    trace := ReleasedAndPublished(s0, trace, s, key);
    Took(Healthy(true), s0, trace, s.(phase := Committing, dlq := s.dlq + [s.pos]), On(Commit(false, false)),
      s.(dlq := s.dlq + [s.pos], pos := s.pos + 1));
    trace := trace + [On(Commit(false, false))];
  }

  /** A fresh record is handled at the first attempt. */
  lemma HandledAtOnce(s0: State, past: seq<Step>, s: State, key: string) returns (trace: seq<Step>)
    requires Run(Healthy(true), s0, past) == Some(s)
    requires s.phase.Fetching? && s.config.dedup && KeyAt(s, s.pos) == Some(key) && key !in s.claims
    ensures Run(Healthy(true), s0, trace) ==
            Some(s.(phase := Committing, claims := s.claims + {key}, handled := s.handled + [s.pos]))
  {
    trace := FetchedAndClaimed(s0, past, s, key);
    Took(Healthy(true), s0, trace, s.(phase := Handling(1), claims := s.claims + {key}), On(Handle(true)),
      s.(phase := Committing, claims := s.claims + {key}, handled := s.handled + [s.pos]));
    trace := trace + [On(Handle(true))];
  }

  /** The next session starts over at the committed offset. */
  lemma NextSession(s0: State, past: seq<Step>, s: State) returns (trace: seq<Step>)
    requires Run(Healthy(true), s0, past) == Some(s) && s.phase.Committing? && s.pos < |s.log|
    ensures Run(Healthy(true), s0, trace) == Some(s.(phase := Fetching, pos := s.committed, cancelled := false))
  {
    var next := Healthy(true);
    var t1 := s.(phase := Fetching, pos := s.pos + 1);
    var t2 := t1.(cancelled := true);
    trace := past + [On(Commit(false, false))];
    Took(next, s0, past, s, On(Commit(false, false)), t1);
    Took(next, s0, trace, t1, Cancel, t2);
    trace := trace + [Cancel];
    Took(next, s0, trace, t2, FetchFail, t2.(phase := Down));
    trace := trace + [FetchFail];
    Took(next, s0, trace, t2.(phase := Down), Start, s.(phase := Fetching, pos := s.committed, cancelled := false));
    trace := trace + [Start];
  }

  /** The first event is quarantined and its commit lost; the second is handled and its commit
      lost; the next session claims the first afresh and handles it. */
  lemma LostCommitReorders(s0: State) returns (trace: seq<Step>, s: State)
    requires Init(s0) && s0.config.dedup && s0.config.canRelease && s0.config.dlq
    requires KeyAt(s0, 0).Some? && KeyAt(s0, 1).Some? && KeyAt(s0, 0) != KeyAt(s0, 1)
    ensures Run(Healthy(true), s0, trace) == Some(s)
    ensures s.handled == [1, 0] && s.dlq == [0] && s.committed == 0
  {
    var k0, k1 := KeyAt(s0, 0).value, KeyAt(s0, 1).value;
    var s1 := s0.(phase := Fetching);
    Took(Healthy(true), s0, [], s0, Start, s1);
    trace := QuarantinedUncommitted(s0, [] + [Start], s1, k0);
    var s2 := s1.(dlq := [0], pos := 1);
    assert s1.dlq + [0] == [0];
    trace := HandledAtOnce(s0, trace, s2, k1);
    var s3 := s2.(phase := Committing, claims := {} + {k1}, handled := [] + [1]);
    trace := NextSession(s0, trace, s3);
    var s4 := s3.(phase := Fetching, pos := 0);
    trace := HandledAtOnce(s0, trace, s4, k0);
    s := s4.(phase := Committing, claims := s4.claims + {k0}, handled := s4.handled + [0]);
  }

  /** Three steps into the first session a crash abandons the first record's claim. */
  lemma CrashAfterClaim(s0: State)
    requires Init(s0) && s0.config.dedup && KeyAt(s0, 0).Some?
    ensures Run(Next, s0, [Start] + [On(Fetch)] + [On(Claim(true, true))] + [Crash]) ==
            Some(s0.(claims := {KeyAt(s0, 0).value}, phase := Down))
    ensures Orphaned(s0, [Start] + [On(Fetch)] + [On(Claim(true, true))] + [Crash], KeyAt(s0, 0).value)
  {
    var k := KeyAt(s0, 0).value;
    var t1: seq<Step> := [Start];
    var t2 := t1 + [On(Fetch)];
    var t3 := t2 + [On(Claim(true, true))];
    var s1 := s0.(phase := Fetching);
    var s2 := s0.(phase := Claiming);
    var s3 := s0.(phase := Handling(1), claims := {k});
    assert t1 == [] + [Start] && s0.claims + {k} == {k};
    Took(Next, s0, [], s0, Start, s1);
    Took(Next, s0, t1, s1, On(Fetch), s2);
    Took(Next, s0, t2, s2, On(Claim(true, true)), s3);
    Took(Next, s0, t3, s3, Crash, s0.(phase := Down, claims := {k}));
    assert (t3 + [Crash])[..3] == t3;
    assert OrphanedAt(s0, t3 + [Crash], 3, KeyAt(s0, 0).value);
  }

  /** The timer of a pause fires. */
  lemma Woken(s0: State, past: seq<Step>, s: State)
    requires Run(Next, s0, past) == Some(s) && s.pos < |s.log| && (s.phase.Backoff? || s.phase.DlqBackoff?)
    ensures Run(Next, s0, past + [On(Wake)]) ==
            Some(s.(phase := if s.phase.Backoff? then Handling(s.phase.attempt + 1) else Publishing))
  {
    RunSnoc(Next, s0, past, On(Wake));
  }

  /** A pause ends in the cancelled context. */
  lemma GivenUp(s0: State, past: seq<Step>, s: State)
    requires Run(Next, s0, past) == Some(s) && s.pos < |s.log| && s.cancelled
    requires s.phase.Backoff? || s.phase.DlqBackoff? || (s.phase.Publishing? && !s.config.dlq)
    ensures Run(Next, s0, past + [On(Abandon)]) == Some(s.(phase := if s.phase.Backoff? then Releasing(true) else Down))
  {
    RunSnoc(Next, s0, past, On(Abandon));
  }

  lemma Tried(s0: State, past: seq<Step>, s: State, ok: bool)
    requires Run(Next, s0, past) == Some(s) && s.pos < |s.log| && s.phase.Handling?
    ensures var attempt := s.phase.attempt;
            var phase := if ok then Committing
                         else if attempt >= s.config.maxRetries then Releasing(false)
                         else Backoff(attempt);
            Run(Next, s0, past + [On(Handle(ok))]) ==
            Some(s.(handled := if ok then s.handled + [s.pos] else s.handled, phase := phase))
  {
    RunSnoc(Next, s0, past, On(Handle(ok)));
  }

  /** How one handler attempt ends. */
  datatype Attempted = Succeeded | Exhausted | Stopped | Again

  function PhaseAfter(outcome: Attempted, attempt: nat): Phase {
    match outcome
    case Succeeded => Committing
    case Exhausted => Publishing
    case Stopped => Down
    case Again => Handling(attempt + 1)
  }

  /** The consumer as it executes, with its broker, Redis, handler and context. patience
      counts the waits and failed fetches left before the context is cancelled. */
  class ConsumerGroup {
    const config: Config
    var log: seq<Message>
    var committed: nat
    var pos: nat
    var cancelled: bool
    var patience: nat
    var claims: set<string>
    var handled: seq<nat>
    var dlq: seq<nat>

    constructor (config: Config, log: seq<Message>, patience: nat)
      ensures this.config == config.(maxRetries := if config.maxRetries <= 0 then 5 else config.maxRetries)
      ensures this.log == log && Init(View(Down))
    {
      this.config := config.(maxRetries := if config.maxRetries <= 0 then 5 else config.maxRetries);
      this.log, this.patience := log, patience;
      committed, pos, cancelled, claims, handled, dlq := 0, 0, false, {}, [], [];
    }

    ghost function View(phase: Phase): State
      reads this
    {
      State(config, log, committed, pos, cancelled, claims, handled, dlq, phase)
    }

    /** A wait inside a select: the timer fires or the cancelled context is observed. */
    method Wait(ghost phase: Phase, ghost s0: State, ghost past: seq<Step>) returns (done: bool, ghost trace: seq<Step>)
      requires !phase.Down? && Run(Next, s0, past) == Some(View(phase))
      modifies `patience, `cancelled
      ensures Run(Next, s0, trace) == Some(View(phase))
      ensures done ==> cancelled
      ensures !done ==> patience < old(patience)
    {
      trace := past;
      var cancel: bool := *;
      if patience == 0 || cancel {
        cancelled := true;
        Took(Next, s0, past, old(View(phase)), Cancel, View(phase));
        trace := past + [Cancel];
      }
      done := *;
      if patience == 0 {
        done := true;
      } else if done && !cancelled {
        done := false;
      }
      if !done {
        patience := patience - 1;
      }
    }

    method SetNX(key: string) returns (isNew: bool, err: bool)
      modifies `claims
      ensures !err ==> isNew == (key !in old(claims)) && claims == old(claims) + {key}
      ensures err ==> claims == old(claims) || claims == old(claims) + {key}
    {
      err := *;
      isNew := key !in claims;
      var landed: bool := *;
      if !err || landed {
        claims := claims + {key};
      }
    }

    method CallHandler() returns (err: bool)
      modifies `handled
      ensures handled == if err then old(handled) else old(handled) + [pos]
    {
      err := *;
      if !err {
        handled := handled + [pos];
      }
    }

    method PublishPoison() returns (err: bool)
      modifies `dlq
      ensures dlq == old(dlq) + [pos] || (err && dlq == old(dlq))
    {
      err := *;
      var landed: bool := *;
      if !err || landed {
        dlq := dlq + [pos];
      }
    }

    /** Drops the claim after a failure, if there is a deduper that can; errors are ignored. */
    method ReleaseDedup(key: string, ghost cancelling: bool, ghost s0: State, ghost past: seq<Step>)
      returns (ghost trace: seq<Step>)
      requires pos < |log| && log[pos].Envelope? && key == Key(config.group, log[pos].id)
      requires Run(Next, s0, past) == Some(View(Releasing(cancelling)))
      modifies `claims
      ensures Run(Next, s0, trace) == Some(View(if cancelling then Down else Publishing))
      ensures claims == old(claims) || (config.dedup && config.canRelease && claims == old(claims) - {key})
    {
      var deleted := false;
      if config.dedup && config.canRelease {
        deleted := *;
        if deleted {
          claims := claims - {key};
        }
      }
      ghost var a := On(Release(deleted));
      Took(Next, s0, past, old(View(Releasing(cancelling))), a, View(if cancelling then Down else Publishing));
      trace := past + [a];
    }

    /** Blocks until the record is on the DLQ; fails only with the context cancelled. */
    method ToDLQ(ghost s0: State, ghost past: seq<Step>) returns (err: bool, ghost trace: seq<Step>)
      requires pos < |log| && Run(Next, s0, past) == Some(View(Publishing))
      modifies `dlq, `patience, `cancelled
      ensures Run(Next, s0, trace) == Some(View(if err then Down else Committing))
      ensures err ==> cancelled
      ensures !err ==> pos in dlq
    {
      trace := past;
      if !config.dlq {
        cancelled := true;
        Took(Next, s0, trace, old(View(Publishing)), Cancel, View(Publishing));
        trace := trace + [Cancel];
        GivenUp(s0, trace, View(Publishing));
        trace := trace + [On(Abandon)];
        return true, trace;
      }
      while true
        invariant Run(Next, s0, trace) == Some(View(Publishing))
        decreases patience
      {
        ghost var s := View(Publishing);
        var failed := PublishPoison();
        ghost var a := On(Publish(!failed, |dlq| > |s.dlq|));
        Took(Next, s0, trace, s, a, View(if failed then DlqBackoff else Committing));
        trace := trace + [a];
        if !failed {
          return false, trace;
        }
        var done;
        done, trace := Wait(DlqBackoff, s0, trace);
        if done {
          GivenUp(s0, trace, View(DlqBackoff));
          trace := trace + [On(Abandon)];
          return true, trace;
        }
        Woken(s0, trace, View(DlqBackoff));
        trace := trace + [On(Wake)];
      }
    }

    /** The pause after a failed attempt: either the next attempt is due, or the context was
        cancelled and the claim released. */
    method Pause(key: string, attempt: nat, ghost s0: State, ghost past: seq<Step>)
      returns (stopped: bool, ghost trace: seq<Step>)
      requires pos < |log| && log[pos].Envelope? && key == Key(config.group, log[pos].id)
      requires Run(Next, s0, past) == Some(View(Backoff(attempt)))
      modifies `claims, `patience, `cancelled
      ensures stopped ==> cancelled
      ensures !stopped ==> claims == old(claims)
      ensures Run(Next, s0, trace) == Some(View(if stopped then Down else Handling(attempt + 1)))
    {
      stopped, trace := Wait(Backoff(attempt), s0, past);
      if stopped {
        GivenUp(s0, trace, View(Backoff(attempt)));
        trace := trace + [On(Abandon)];
        trace := ReleaseDedup(key, true, s0, trace);
      } else {
        Woken(s0, trace, View(Backoff(attempt)));
        trace := trace + [On(Wake)];
      }
    }

    /** One handler call; after the last allowed failure the claim is released, else a pause follows. */
    method Try(attempt: nat, ghost s0: State, ghost past: seq<Step>) returns (failed: bool, ghost trace: seq<Step>)
      requires pos < |log| && Run(Next, s0, past) == Some(View(Handling(attempt)))
      modifies `handled
      ensures handled == if failed then old(handled) else old(handled) + [pos]
      ensures Run(Next, s0, trace) == Some(View(if !failed then Committing
                                                else if attempt >= config.maxRetries then Releasing(false)
                                                else Backoff(attempt)))
    {
      ghost var s := View(Handling(attempt));
      failed := CallHandler();
      Tried(s0, past, s, !failed);
      trace := past + [On(Handle(!failed))];
    }

    /** One attempt with what follows a failure: the release after the last, else the pause. */
    method Attempt(key: string, attempt: nat, ghost s0: State, ghost past: seq<Step>)
      returns (outcome: Attempted, ghost trace: seq<Step>)
      requires pos < |log| && log[pos].Envelope? && key == Key(config.group, log[pos].id)
      requires Run(Next, s0, past) == Some(View(Handling(attempt)))
      modifies `handled, `claims, `patience, `cancelled
      ensures Run(Next, s0, trace) == Some(View(PhaseAfter(outcome, attempt)))
      ensures handled == if outcome.Succeeded? then old(handled) + [pos] else old(handled)
      ensures outcome.Succeeded? || outcome.Again? ==> claims == old(claims)
      ensures outcome.Stopped? ==> cancelled
      ensures outcome.Again? ==> attempt < config.maxRetries
    {
      var failed, stopped;
      failed, trace := Try(attempt, s0, past);
      if !failed {
        return Succeeded, trace;
      }
      if attempt >= config.maxRetries {
        trace := ReleaseDedup(key, false, s0, trace);
        return Exhausted, trace;
      }
      stopped, trace := Pause(key, attempt, s0, trace);
      outcome := if stopped then Stopped else Again;
    }

    /** The handler retry loop, from its first attempt. */
    method Attempts(key: string, ghost s0: State, ghost past: seq<Step>)
      returns (ok: bool, stopped: bool, ghost trace: seq<Step>)
      requires pos < |log| && log[pos].Envelope? && key == Key(config.group, log[pos].id)
      requires Run(Next, s0, past) == Some(View(Handling(1)))
      modifies `handled, `claims, `patience, `cancelled
      ensures ok ==> handled == old(handled) + [pos] && claims == old(claims)
      ensures !ok ==> handled == old(handled)
      ensures stopped ==> cancelled && !ok
      ensures Run(Next, s0, trace) == Some(View(if ok then Committing else if stopped then Down else Publishing))
    {
      trace := past;
      var attempt := 1;
      while true
        invariant 1 <= attempt && handled == old(handled) && claims == old(claims)
        invariant Run(Next, s0, trace) == Some(View(Handling(attempt)))
        decreases config.maxRetries - attempt
      {
        var outcome;
        outcome, trace := Attempt(key, attempt, s0, trace);
        if !outcome.Again? {
          return outcome.Succeeded?, outcome.Stopped?, trace;
        }
        attempt := attempt + 1;
      }
    }

    /** One message: decode, claim, handle with retries, dead-letter. It errs only once the
        context is cancelled; otherwise the message was skipped as a duplicate of a held
        claim, handled, or put on the DLQ. */
    method Process(ghost s0: State, ghost past: seq<Step>) returns (err: bool, ghost trace: seq<Step>)
      requires pos < |log| && Run(Next, s0, past) == Some(View(Fetching))
      modifies `claims, `handled, `dlq, `patience, `cancelled
      ensures Run(Next, s0, trace) == Some(View(if err then Down else Committing))
      ensures err ==> cancelled
      ensures !err ==> pos in dlq || pos in handled ||
                       (log[pos].Envelope? && config.dedup && Key(config.group, log[pos].id) in old(claims))
    {
      ghost var fetched := if log[pos].Undecodable? then Publishing else if config.dedup then Claiming else Handling(1);
      Took(Next, s0, past, View(Fetching), On(Fetch), View(fetched));
      trace := past + [On(Fetch)];
      if log[pos].Undecodable? {
        err, trace := ToDLQ(s0, trace);
        return;
      }
      var key := Key(config.group, log[pos].id);
      if config.dedup {
        ghost var s := View(Claiming);
        var isNew, failed := SetNX(key);
        ghost var a := On(Claim(!failed, key in claims && (!failed || key !in s.claims)));
        assert key in s.claims ==> s.claims + {key} == s.claims;
        Took(Next, s0, trace, s, a, View(if failed || isNew then Handling(1) else Committing));
        trace := trace + [a];
        if !failed && !isNew {
          return false, trace;
        }
      }
      var ok, stopped;
      ok, stopped, trace := Attempts(key, s0, trace);
      if ok {
        return false, trace;
      }
      if stopped {
        return true, trace;
      }
      err, trace := ToDLQ(s0, trace);
    }

    /** Fetching blocks at the end of the log until cancellation, and may fail before. */
    method FetchMessage(ghost s0: State, ghost past: seq<Step>) returns (err: bool, ghost trace: seq<Step>)
      requires pos <= |log| && Run(Next, s0, past) == Some(View(Fetching))
      modifies `patience, `cancelled
      ensures err ==> Run(Next, s0, trace) == Some(View(if cancelled then Down else Fetching))
      ensures !err ==> pos < |log| && trace == past && unchanged(`patience) && unchanged(`cancelled)
      ensures err && !cancelled ==> patience < old(patience)
    {
      trace := past;
      err := *;
      if pos < |log| && !err {
        return;
      }
      err := true;
      if pos == |log| || patience == 0 {
        cancelled := true;
        Took(Next, s0, trace, old(View(Fetching)), Cancel, View(Fetching));
        trace := trace + [Cancel];
      } else {
        patience := patience - 1;
      }
      Took(Next, s0, trace, View(Fetching), FetchFail, View(if cancelled then Down else Fetching));
      trace := trace + [FetchFail];
    }

    method CommitMessage(ghost s0: State, ghost past: seq<Step>) returns (ghost trace: seq<Step>)
      requires pos < |log| && Run(Next, s0, past) == Some(View(Committing))
      modifies `committed, `pos
      ensures Run(Next, s0, trace) == Some(View(Fetching))
      ensures pos == old(pos) + 1 && committed in {old(committed), pos}
    {
      var err: bool := *;
      var landed: bool := *;
      landed := landed || !err;
      if landed {
        committed := pos + 1;
      }
      pos := pos + 1;
      ghost var a := On(Commit(!err, landed));
      Took(Next, s0, past, old(View(Committing)), a, View(Fetching));
      trace := past + [a];
    }

    method Begin() returns (ghost trace: seq<Step>)
      modifies `pos, `cancelled
      ensures Run(Next, old(View(Down)), trace) == Some(View(Fetching))
      ensures pos == committed
    {
      pos, cancelled := committed, false;
      RunSnoc(Next, old(View(Down)), [], Start);
      trace := [] + [Start];
    }

    /** The consume loop: it returns only with the context cancelled, never fetches past a
        message that Process could not dispose of, and is a run of the transition system. */
    method RunLoop() returns (ghost trace: seq<Step>)
      requires committed <= |log|
      modifies `pos, `cancelled, `committed, `patience, `claims, `handled, `dlq
      ensures Run(Next, old(View(Down)), trace) == Some(View(Down))
      ensures cancelled
    {
      ghost var s0 := View(Down);
      trace := Begin();
      while true
        invariant pos <= |log|
        invariant Run(Next, s0, trace) == Some(View(Fetching))
        decreases |log| - pos, patience
      {
        var err;
        err, trace := FetchMessage(s0, trace);
        if err {
          if cancelled {
            return;
          }
          continue;
        }
        err, trace := Process(s0, trace);
        if err {
          return;
        }
        trace := CommitMessage(s0, trace);
      }
    }
  }
}
