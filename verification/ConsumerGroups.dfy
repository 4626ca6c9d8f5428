/** Many Go consumer groups over one shared Redis. */
module ConsumerGroups {
  import opened Collections
  import opened Machine
  import opened Uuids
  import Member = GoConsumer

  /** The shared Redis and, per group, everything that is the group's own. A member's claims
      field is unused here: claims live in redis. */
  datatype State = State(redis: set<string>, members: map<string, Member.State>)

  datatype Step = Step(group: string, step: Member.Step)

  function Next(m: State, a: Step): Option<State> {
    if a.group !in m.members then None
    else
      match Member.Next(m.members[a.group].(claims := m.redis), a.step)
      case None => None
      case Some(s) => Some(State(s.claims, m.members[a.group := s.(claims := {})]))
  }

  ghost predicate KeyOfGroup(g: string, k: string) {
    exists u: Uuid :: k == Member.Key(g, u)
  }

  /** The part of Redis a group can read or write. */
  ghost function Own(g: string, redis: set<string>): set<string> {
    set k | k in redis && KeyOfGroup(g, k)
  }

  /** The group's view of the shared state, as the state of a group running alone. */
  ghost function Alone(m: State, g: string): Member.State
    requires g in m.members
  {
    m.members[g].(claims := Own(g, m.redis))
  }

  ghost predicate WellFormed(m: State) {
    forall g :: g in m.members ==> m.members[g].config.group == g
  }

  /** The steps of one group, in order. */
  function Solo(trace: seq<Step>, g: string): seq<Member.Step> {
    if trace == [] then []
    else
      var front, last := Solo(trace[..|trace| - 1], g), trace[|trace| - 1];
      if last.group == g then front + [last.step] else front
  }

  lemma OwnAfterClaim(g: string, redis: set<string>, u: Uuid)
    ensures Own(g, redis + {Member.Key(g, u)}) == Own(g, redis) + {Member.Key(g, u)}
    ensures Own(g, redis - {Member.Key(g, u)}) == Own(g, redis) - {Member.Key(g, u)}
    ensures Member.Key(g, u) in Own(g, redis) <==> Member.Key(g, u) in redis
  {
  }

  lemma ForeignAfterClaim(g: string, h: string, redis: set<string>, u: Uuid)
    requires g != h
    ensures Own(h, redis + {Member.Key(g, u)}) == Own(h, redis)
    ensures Own(h, redis - {Member.Key(g, u)}) == Own(h, redis)
  {
    assert !KeyOfGroup(h, Member.Key(g, u)) by {
      forall v: Uuid ensures Member.Key(g, u) != Member.Key(h, v) {
        if Member.Key(g, u) == Member.Key(h, v) {
          Member.KeyInjective(g, u, h, v);
          assert false;
        }
      }
    }
  }

  /** The two outcomes agree, the second holding just the group's own claims. */
  ghost predicate SameUpToClaims(shared: Option<Member.State>, alone: Option<Member.State>, g: string) {
    && (shared.Some? <==> alone.Some?)
    && (shared.Some? ==> alone.value == shared.value.(claims := Own(g, shared.value.claims)))
  }

  lemma RecordStepSeesOwn(s: Member.State, redis: set<string>, m: Member.Message, r: Member.RecordStep)
    ensures var g := s.config.group;
            SameUpToClaims(Member.NextOn(s.(claims := redis), m, r), Member.NextOn(s.(claims := Own(g, redis)), m,
                r), g)
  {
    var g := s.config.group;
    match r
    case Claim(ok, landed) =>
      if m.Envelope? { OwnAfterClaim(g, redis, m.id); }
    case Release(deleted) =>
      if m.Envelope? { OwnAfterClaim(g, redis, m.id); }
    case _ =>
  }

  /** A step does the same to the group's own view as to the shared Redis, and is enabled on
      the one exactly when it is enabled on the other. */
  lemma StepSeesOwn(s: Member.State, redis: set<string>, a: Member.Step)
    ensures var g := s.config.group;
            SameUpToClaims(Member.Next(s.(claims := redis), a), Member.Next(s.(claims := Own(g, redis)), a), g)
  {
    if a.On? && s.pos < |s.log| {
      RecordStepSeesOwn(s, redis, s.log[s.pos], a.step);
    }
  }

  lemma StepSparesOthers(s: Member.State, redis: set<string>, a: Member.Step, h: string)
    requires h != s.config.group && Member.Next(s.(claims := redis), a).Some?
    ensures Own(h, Member.Next(s.(claims := redis), a).value.claims) == Own(h, redis)
    ensures Member.Next(s.(claims := redis), a).value.config == s.config
  {
    if s.pos < |s.log| && s.log[s.pos].Envelope? {
      ForeignAfterClaim(s.config.group, h, redis, s.log[s.pos].id);
    }
  }

  lemma StepKeepsConfig(s: Member.State, a: Member.Step)
    requires Member.Next(s, a).Some?
    ensures Member.Next(s, a).value.config == s.config
  {
  }

  /** Non-interference: in any interleaving of any number of groups, each group's history is
      the run of that group alone on its own steps. */
  lemma {:induction false} GroupsDoNotInterfere(m0: State, trace: seq<Step>, m: State, g: string)
    requires WellFormed(m0) && Run(Next, m0, trace) == Some(m) && g in m0.members
    ensures WellFormed(m) && m.members.Keys == m0.members.Keys
    ensures Run(Member.Next, Alone(m0, g), Solo(trace, g)) == Some(Alone(m, g))
  {
    if trace != [] {
      var front, last := trace[..|trace| - 1], trace[|trace| - 1];
      var n := Run(Next, m0, front).value;
      GroupsDoNotInterfere(m0, front, n, g);
      var s := n.members[last.group];
      StepKeepsConfig(s.(claims := n.redis), last.step);
      if last.group == g {
        StepSeesOwn(s, n.redis, last.step);
        RunSnoc(Member.Next, Alone(m0, g), Solo(front, g), last.step);
      } else {
        StepSparesOthers(s, n.redis, last.step, g);
      }
    }
  }

  /** So every group keeps the single-group guarantee over the shared Redis. */
  lemma EveryGroupLosesNothing(m0: State, trace: seq<Step>, m: State, g: string)
    requires WellFormed(m0) && Run(Next, m0, trace) == Some(m) && g in m0.members
    requires Member.Init(Alone(m0, g)) && Member.Graceful(Alone(m0, g), Solo(trace, g))
    ensures g in m.members
    ensures var s := m.members[g];
            forall o: nat :: o < s.committed ==>
              o in s.dlq || (Member.KeyAt(s, o).Some? && Member.Handled(s, Member.KeyAt(s, o).value))
  {
    GroupsDoNotInterfere(m0, trace, m, g);
    var s, alone := m.members[g], Alone(m, g);
    Member.GracefulLosesNothing(Alone(m0, g), Solo(trace, g), alone);
    forall o: nat | o < s.committed
      ensures o in s.dlq || (Member.KeyAt(s, o).Some? && Member.Handled(s, Member.KeyAt(s, o).value))
    {
      assert Member.KeyAt(alone, o) == Member.KeyAt(s, o);
      if o !in s.dlq {
        var k := Member.KeyAt(s, o).value;
        var o': nat :| o' in alone.handled && Member.KeyAt(alone, o') == Some(k);
        assert Member.KeyAt(s, o') == Some(k);
      }
    }
  }
}
