/** End to end: the outbox relay feeding one topic partition and the Python consumer of that
    partition, interleaved in any order with appends, failures, crashes and pruning. */
module Pipeline {
  import opened Collections
  import opened Machine
  import opened Events
  import Keys
  import Relay
  import Consumer = PyConsumer

  /** The tenants whose key hashes to the partition under view. */
  type Partition = string -> bool

  datatype State = State(relay: Relay.State, consumer: Consumer.State, partition: Partition)

  datatype Step = RelayStep(r: Relay.Step) | ConsumerStep(c: Consumer.Step)

  function OnPartition(partition: Partition): Event -> bool {
    (e: Event) => partition(e.tenant)
  }

  /** The events on the partition, in broker order. */
  function PartitionEvents(r: Relay.State, partition: Partition): seq<Event> {
    Filter(OnPartition(partition), Relay.Messages(r))
  }

  /** A relayed event's tenant id is a text, so that the producer can encode it as a key. */
  function Wrap(e: Event): Consumer.Message {
    Consumer.Envelope(e, true)
  }

  function Next(s: State, a: Step): Option<State> {
    match a
    case RelayStep(r) =>
      (match Relay.Next(s.relay, r)
       case None => None
       case Some(relay) =>
         Some(s.(relay := relay,
                 consumer := s.consumer.(log := Map(Wrap, PartitionEvents(relay, s.partition))))))
    case ConsumerStep(c) =>
      if c.Arrive? then None
      else match Consumer.Next(s.consumer, c)
        case None => None
        case Some(consumer) => Some(s.(consumer := consumer))
  }

  ghost predicate Init(s: State) {
    s.relay == Relay.INIT && Consumer.Init(s.consumer) && s.consumer.log == []
  }

  ghost predicate Inv(s: State) {
    && Relay.Inv(s.relay)
    && Consumer.Inv(s.consumer)
    && s.consumer.log == Map(Wrap, PartitionEvents(s.relay, s.partition))
  }

  lemma RowsExist(r: Relay.State)
    requires Relay.Inv(r)
    ensures forall i: nat :: i in r.topic ==> i < |r.outbox|
  {
    var m: nat, p: nat :| Relay.InvAt(r, m, p);
    forall i: nat | i in r.topic ensures i < |r.outbox| {
      assert i in Range(0, p);
    }
  }

  lemma TopicGrows(r: Relay.State, a: Relay.Step)
    requires Relay.Next(r, a).Some?
    ensures var t := Relay.Next(r, a).value; r.topic <= t.topic && r.outbox <= t.outbox
  {
  }

  lemma MessagesGrow(r: Relay.State, t: Relay.State)
    requires r.topic <= t.topic && r.outbox <= t.outbox && forall i: nat :: i in r.topic ==> i < |r.outbox|
    ensures Relay.Messages(r) <= Relay.Messages(t)
  {
    forall k | 0 <= k < |r.topic| ensures Relay.Messages(r)[k] == Relay.Messages(t)[k] {
      assert r.topic[k] in r.topic;
    }
  }

  /** A relay step only extends what is on the partition. */
  lemma RelayExtends(r: Relay.State, a: Relay.Step, partition: Partition)
    requires Relay.Inv(r) && Relay.Next(r, a).Some?
    ensures Relay.Inv(Relay.Next(r, a).value)
    ensures PartitionEvents(r, partition) <= PartitionEvents(Relay.Next(r, a).value, partition)
  {
    RowsExist(r);
    var m: nat, p: nat :| Relay.InvAt(r, m, p);
    var m', p' := Relay.StepKeeps(r, a, m, p);
    var t := Relay.Next(r, a).value;
    TopicGrows(r, a);
    MessagesGrow(r, t);
    FilterPrefix(OnPartition(partition), Relay.Messages(r), Relay.Messages(t));
  }

  lemma StepKeeps(s: State, a: Step)
    requires Inv(s) && Next(s, a).Some?
    ensures Inv(Next(s, a).value)
  {
    var t := Next(s, a).value;
    match a
    case RelayStep(r) =>
      RelayExtends(s.relay, r, s.partition);
      var more := t.consumer.log[|s.consumer.log|..];
      assert t.consumer.log == s.consumer.log + more;
      Consumer.ArriveKeeps(s.consumer, more);
    case ConsumerStep(c) =>
      Consumer.StepKeeps(s.consumer, c);
  }

  lemma AlwaysInv(s0: State, trace: seq<Step>)
    requires Init(s0) && Run(Next, s0, trace).Some?
    ensures Inv(Run(Next, s0, trace).value)
  {
    assert Relay.InvAt(Relay.INIT, 0, 0);
    assert Relay.Messages(Relay.INIT) == [];
    forall t, a | Inv(t) && Next(t, a).Some? ensures Inv(Next(t, a).value) {
      StepKeeps(t, a);
    }
    RunInvariant(Next, Inv, s0, trace);
  }

  /** What the writers promise: every row carries an event id, and no two rows share a key. */
  ghost predicate FreshIds(outbox: seq<Event>) {
    && (forall e :: e in outbox ==> e.eventId != "")
    && (forall i, j :: 0 <= i < j < |outbox| ==> Consumer.Key(outbox[i]) != Consumer.Key(outbox[j]))
  }

  /** Distinct (tenant, event id) pairs are enough when tenant ids are colon-free. */
  lemma FreshPairsAreFreshIds(outbox: seq<Event>)
    requires forall e :: e in outbox ==> e.eventId != "" && Keys.ColonFree(e.tenant)
    requires forall i, j :: 0 <= i < j < |outbox| ==>
               outbox[i].tenant != outbox[j].tenant || outbox[i].eventId != outbox[j].eventId
    ensures FreshIds(outbox)
  {
    forall i, j | 0 <= i < j < |outbox| ensures Consumer.Key(outbox[i]) != Consumer.Key(outbox[j]) {
      Consumer.KeyNamesPair(outbox[i], outbox[j]);
    }
  }

  ghost predicate KeysNameEvents(events: seq<Event>) {
    && (forall e :: e in events ==> e.eventId != "")
    && (forall e, e' :: e in events && e' in events && Consumer.Key(e) == Consumer.Key(e') ==> e == e')
  }

  /** The event at a log offset. */
  function EventAt(log: seq<Consumer.Message>): nat -> Event {
    (o: nat) => if o < |log| && log[o].Envelope? then log[o].event else Event("", "", "")
  }

  /** Every application of the handler's effect, in time order. */
  function Effects(c: Consumer.State): seq<Event> {
    Map(EventAt(c.log), c.effects)
  }

  function Quarantined(c: Consumer.State): seq<Event> {
    Map(EventAt(c.log), c.dlq)
  }

  function Among(events: seq<Event>): Event -> bool {
    (e: Event) => e in events
  }

  lemma {:induction false} MapFilter<A(!new), B(!new)>(f: A -> B, p: A -> bool, q: B -> bool, s: seq<A>)
    requires forall x :: x in s ==> p(x) == q(f(x))
    ensures Map(f, Filter(p, s)) == Filter(q, Map(f, s))
  {
    if s != [] {
      var front, last := s[..|s| - 1], s[|s| - 1];
      FrontLast(s);
      MapFilter(f, p, q, front);
      MapSnoc(f, front, last);
      FilterSnoc(q, Map(f, front), f(last));
      FilterSnoc(p, front, last);
      MapSnoc(f, Filter(p, front), last);
    }
  }

  /** Folding over images is folding with the images taken on the way. */
  lemma {:induction false} FoldMap<S(!new), A(!new), B(!new)>(g: (S, A) -> S, h: (S, B) -> S, m: A -> B, st0: S,
      s: seq<A>)
    requires forall st, x :: x in s ==> g(st, x) == h(st, m(x))
    ensures Fold(g, st0, s) == Fold(h, st0, Map(m, s))
  {
    if s != [] {
      var front, last := s[..|s| - 1], s[|s| - 1];
      FrontLast(s);
      FoldMap(g, h, m, st0, front);
      MapSnoc(m, front, last);
      FoldSnoc(g, st0, front, last);
      FoldSnoc(h, st0, Map(m, front), m(last));
    }
  }

  lemma FoldApplyAt<S(!new)>(h: (S, Event) -> S, st0: S, log: seq<Consumer.Message>, offsets: seq<nat>)
    requires forall o: nat :: o in offsets ==> o < |log| && log[o].Envelope?
    ensures Fold(Consumer.ApplyAt(h, log), st0, offsets) == Fold(h, st0, Map(EventAt(log), offsets))
  {
    FoldMap<S, nat, Event>(Consumer.ApplyAt(h, log), h, EventAt(log), st0, offsets);
  }

  lemma FirstOffsetsSnoc(log: seq<Consumer.Message>, m: Consumer.Message)
    ensures Consumer.FirstOffsets(log + [m]) ==
            Consumer.FirstOffsets(log) + (if Consumer.First(log + [m], |log|) then [|log|] else [])
  {
    var n := |log|;
    assert Range(0, n + 1) == Range(0, n) + [n];
    FilterSnoc<nat>(Consumer.IsFirst(log + [m]), Range(0, n), n);
    var log' := log + [m];
    assert forall j: nat :: j < n ==> log'[j] == log[j];
    forall o: nat | o in Range(0, n) ensures Consumer.First(log', o) == Consumer.First(log, o) {
    }
    FilterAgree(Consumer.IsFirst(log + [m]), Consumer.IsFirst(log), Range(0, n));
  }

  lemma EventsStay(log: seq<Consumer.Message>, m: Consumer.Message)
    ensures Map(EventAt(log + [m]), Consumer.FirstOffsets(log)) == Map(EventAt(log), Consumer.FirstOffsets(log))
  {
    var offs := Consumer.FirstOffsets(log);
    forall k | 0 <= k < |offs| ensures EventAt(log + [m])(offs[k]) == EventAt(log)(offs[k]) {
      assert offs[k] in Range(0, |log|);
    }
  }

  lemma FirstEventsSnoc(front: seq<Event>, last: Event)
    requires KeysNameEvents(front + [last])
    requires var log := Map(Wrap, front); Map(EventAt(log), Consumer.FirstOffsets(log)) == FirstOccurrences(front)
    ensures var log := Map(Wrap, front) + [Wrap(last)];
            Map(EventAt(log), Consumer.FirstOffsets(log)) == FirstOccurrences(front + [last])
  {
    var log := Map(Wrap, front);
    EventsStay(log, Wrap(last));
    FirstOffsetsSnoc(log, Wrap(last));
    FirstOccurrencesSnoc(front, last);
    NewIsFirst(front, last);
    if last !in front {
      MapSnoc<nat, Event>(EventAt(log + [Wrap(last)]), Consumer.FirstOffsets(log), |log|);
    }
  }

  /** First records by key, read as events, are the first occurrences of the events. */
  lemma {:induction false} FirstEvents(events: seq<Event>)
    requires KeysNameEvents(events)
    ensures var log := Map(Wrap, events);
            Map(EventAt(log), Consumer.FirstOffsets(log)) == FirstOccurrences(events)
  {
    if events != [] {
      var front, last := events[..|events| - 1], events[|events| - 1];
      FrontLast(events);
      FirstEvents(front);
      MapSnoc(Wrap, front, last);
      FirstEventsSnoc(front, last);
    }
  }

  lemma NewIsFirst(front: seq<Event>, last: Event)
    requires KeysNameEvents(front + [last])
    ensures Consumer.First(Map(Wrap, front) + [Wrap(last)], |front|) <==> last !in front
  {
    var log := Map(Wrap, front) + [Wrap(last)];
    assert Consumer.KeyOf(log[|front|]) == Some(Consumer.Key(last));
    if last in front {
      var j :| 0 <= j < |front| && front[j] == last;
      assert log[j] == Wrap(last);
    }
    forall j: nat | j < |front| && last !in front ensures Consumer.KeyOf(log[j]) != Some(Consumer.Key(last)) {
      assert front[j] in front + [last] && last in front + [last];
    }
  }

  lemma {:induction false} MapFirstOccurrences<A(!new), B(!new)>(f: A -> B, s: seq<A>)
    requires forall x, y :: x in s && y in s && f(x) == f(y) ==> x == y
    ensures FirstOccurrences(Map(f, s)) == Map(f, FirstOccurrences(s))
  {
    if s != [] {
      var front, last := s[..|s| - 1], s[|s| - 1];
      FrontLast(s);
      MapFirstOccurrences(f, front);
      MapSnoc(f, front, last);
      FirstOccurrencesSnoc(Map(f, front), f(last));
      FirstOccurrencesSnoc(front, last);
      MapSnoc(f, FirstOccurrences(front), last);
      MappedIn(f, front, last);
    }
  }

  lemma MappedIn<A, B>(f: A -> B, s: seq<A>, x: A)
    requires forall y :: y in s && f(y) == f(x) ==> y == x
    ensures f(x) in Map(f, s) <==> x in s
  {
    if x in s {
      var k :| 0 <= k < |s| && s[k] == x;
      assert Map(f, s)[k] == f(x);
    }
    if f(x) in Map(f, s) {
      var k :| 0 <= k < |s| && Map(f, s)[k] == f(x);
      assert s[k] in s;
    }
  }

  lemma MessagesAreRows(r: Relay.State)
    requires Relay.Inv(r)
    ensures forall e :: e in Relay.Messages(r) ==> e in r.outbox
  {
    RowsExist(r);
    forall e | e in Relay.Messages(r) ensures e in r.outbox {
      var k :| 0 <= k < |r.topic| && Relay.Messages(r)[k] == e;
      assert r.topic[k] in r.topic;
    }
  }

  lemma FreshIdsNameEvents(outbox: seq<Event>, events: seq<Event>)
    requires FreshIds(outbox) && forall e :: e in events ==> e in outbox
    ensures KeysNameEvents(events)
  {
    forall e, e' | e in events && e' in events && Consumer.Key(e) == Consumer.Key(e') ensures e == e' {
      var i :| 0 <= i < |outbox| && outbox[i] == e;
      var j :| 0 <= j < |outbox| && outbox[j] == e';
    }
  }

  lemma RowEventInjective(outbox: seq<Event>, x: nat, y: nat)
    requires FreshIds(outbox) && x < |outbox| && y < |outbox|
    requires Relay.RowEvent(outbox)(x) == Relay.RowEvent(outbox)(y)
    ensures x == y
  {
    assert Consumer.Key(outbox[x]) == Consumer.Key(outbox[y]);
  }

  lemma MarkedAllMeansPublishedAll(r: Relay.State, m: nat, p: nat)
    requires Relay.InvAt(r, m, p) && forall i: nat :: i < |r.outbox| ==> i in r.publishedAt
    ensures p == |r.outbox|
  {
    if |r.outbox| > 0 {
      assert |r.outbox| - 1 in r.publishedAt;
    }
  }

  /** With fresh ids the distinct messages on the topic spell out a prefix of the outbox. */
  lemma DistinctMessages(r: Relay.State) returns (p: nat)
    requires Relay.Inv(r) && FreshIds(r.outbox)
    ensures p <= |r.outbox| && FirstOccurrences(Relay.Messages(r)) == r.outbox[..p]
    ensures (forall i: nat :: i < |r.outbox| ==> i in r.publishedAt) ==> p == |r.outbox|
  {
    RowsExist(r);
    var m: nat, q: nat :| Relay.InvAt(r, m, q);
    p := q;
    if forall i: nat :: i < |r.outbox| ==> i in r.publishedAt {
      MarkedAllMeansPublishedAll(r, m, p);
    }
    forall x: nat, y: nat | x in r.topic && y in r.topic && Relay.RowEvent(r.outbox)(x) == Relay.RowEvent(r.outbox)(y)
      ensures x == y
    {
      RowEventInjective(r.outbox, x, y);
    }
    MapFirstOccurrences(Relay.RowEvent(r.outbox), r.topic);
    assert Map(Relay.RowEvent(r.outbox), Range(0, p)) == r.outbox[..p];
  }

  /** The partition's distinct events are the partition's rows in a prefix of the outbox. */
  lemma DistinctEventsArePrefix(s: State)
    requires Inv(s) && FreshIds(s.relay.outbox)
    ensures var events := PartitionEvents(s.relay, s.partition);
            && KeysNameEvents(events)
            && FirstOccurrences(events) <= Filter(OnPartition(s.partition), s.relay.outbox)
            && ((forall i: nat :: i < |s.relay.outbox| ==> i in s.relay.publishedAt) ==>
                FirstOccurrences(events) == Filter(OnPartition(s.partition), s.relay.outbox))
  {
    var r, on := s.relay, OnPartition(s.partition);
    MessagesAreRows(r);
    FreshIdsNameEvents(r.outbox, PartitionEvents(r, s.partition));
    var p := DistinctMessages(r);
    FilterFirstOccurrences(on, Relay.Messages(r));
    FilterPrefix(on, r.outbox[..p], r.outbox);
    assert r.outbox[..|r.outbox|] == r.outbox;
  }

  /** The selected first records, read as events, are the first occurrences that had an effect. */
  lemma SelectedEvents(c: Consumer.State, events: seq<Event>)
    requires Consumer.Inv(c) && c.log == Map(Wrap, events) && KeysNameEvents(events)
    ensures Map(EventAt(c.log), Filter(Consumer.In(c.effects), Consumer.FirstOffsets(c.log))) ==
            Filter(Among(Effects(c)), FirstOccurrences(events))
  {
    FirstEvents(events);
    var firsts := Consumer.FirstOffsets(c.log);
    forall o: nat | o in firsts
      ensures Consumer.In(c.effects)(o) == Among(Effects(c))(EventAt(c.log)(o))
    {
      assert Consumer.First(c.log, o) && c.log[o] == Wrap(events[o]) && events[o] in events;
      if o in c.effects {
        var k :| 0 <= k < |c.effects| && c.effects[k] == o;
        assert Effects(c)[k] == events[o];
      }
      if events[o] in Effects(c) {
        var k :| 0 <= k < |c.effects| && Effects(c)[k] == events[o];
        var o' := c.effects[k];
        assert o' in c.effects && Consumer.First(c.log, o') && c.log[o'] == Wrap(events[o']);
        assert o == o';
      }
    }
    MapFilter(EventAt(c.log), Consumer.In(c.effects), Among(Effects(c)), firsts);
  }

  /** Whatever is committed had its effect or was quarantined. */
  lemma CommittedHasEvidence(c: Consumer.State, events: seq<Event>, o: nat)
    requires Consumer.Inv(c) && c.log == Map(Wrap, events) && KeysNameEvents(events)
    requires o < c.committed
    ensures events[o] in Effects(c) || events[o] in Quarantined(c)
  {
    assert c.log[o] == Wrap(events[o]) && events[o] in events;
    assert Consumer.Settled(c, o);
    var o': nat :| Consumer.Origin(c, Consumer.Key(events[o]), o');
    assert c.log[o'] == Wrap(events[o']) && events[o'] in events;
    if o' in c.effects {
      var k :| 0 <= k < |c.effects| && c.effects[k] == o';
      assert Effects(c)[k] == events[o];
    } else {
      var k :| 0 <= k < |c.dlq| && c.dlq[k] == o';
      assert Quarantined(c)[k] == events[o];
    }
  }

  /** The partition's rows of the outbox, in order. */
  function Rows(s: State): seq<Event> {
    Filter(OnPartition(s.partition), s.relay.outbox)
  }

  /** The distinct events of the partition, in order of first appearance. */
  function Seen(s: State): seq<Event> {
    FirstOccurrences(PartitionEvents(s.relay, s.partition))
  }

  /** The event had its effect or is quarantined. */
  ghost predicate Disposed(s: State, e: Event) {
    e in Effects(s.consumer) || e in Quarantined(s.consumer)
  }

  /** How far the consumer has come in its log: the committed records, and the one after them
      once it had its effect. */
  function Reached(c: Consumer.State): nat {
    if c.committed in c.effects then c.committed + 1 else c.committed
  }

  lemma EffectAt(c: Consumer.State, o: nat)
    requires o in c.effects
    ensures EventAt(c.log)(o) in Effects(c)
  {
    var k :| 0 <= k < |c.effects| && c.effects[k] == o;
    assert Effects(c)[k] == EventAt(c.log)(o);
  }

  lemma ReachedIsDisposed(c: Consumer.State, events: seq<Event>)
    requires Consumer.Inv(c) && c.log == Map(Wrap, events) && KeysNameEvents(events)
    ensures Reached(c) <= |events|
    ensures forall e :: e in events[..Reached(c)] ==> e in Effects(c) || e in Quarantined(c)
  {
    forall e | e in events[..Reached(c)] ensures e in Effects(c) || e in Quarantined(c) {
      var o: nat :| o < Reached(c) && events[o] == e;
      if o < c.committed {
        CommittedHasEvidence(c, events, o);
      } else {
        EffectAt(c, o);
      }
    }
  }

  lemma EffectsAreReached(c: Consumer.State, events: seq<Event>)
    requires Consumer.Inv(c) && c.log == Map(Wrap, events)
    ensures Reached(c) <= |events|
    ensures forall e :: e in Effects(c) ==> e in events[..Reached(c)]
  {
    forall e | e in Effects(c) ensures e in events[..Reached(c)] {
      var k :| 0 <= k < |c.effects| && Effects(c)[k] == e;
      var o := c.effects[k];
      assert o in c.effects && c.log[o] == Wrap(events[o]);
      assert events[..Reached(c)][o] == e;
    }
  }

  /** The distinct events the consumer has reached are a prefix of the distinct events. */
  lemma ReachedIsPrefix(c: Consumer.State, events: seq<Event>)
    requires Consumer.Inv(c) && c.log == Map(Wrap, events) && KeysNameEvents(events)
    ensures Reached(c) <= |events|
    ensures var reached := FirstOccurrences(events[..Reached(c)]);
            && reached <= FirstOccurrences(events)
            && (forall e :: e in reached ==> e in Effects(c) || e in Quarantined(c))
            && (forall e :: e in Effects(c) ==> e in reached)
            && Filter(Among(Effects(c)), reached) == Filter(Among(Effects(c)), FirstOccurrences(events))
  {
    ReachedIsDisposed(c, events);
    EffectsAreReached(c, events);
    FirstOccurrencesPrefix(events[..Reached(c)], events);
    FirstOccurrencesDistinct(events);
    FilterWithin(Among(Effects(c)), FirstOccurrences(events[..Reached(c)]), FirstOccurrences(events));
  }

  /** The same prefix on the partition's rows. */
  lemma ReachedRows(s: State) returns (n: nat)
    requires Inv(s) && FreshIds(s.relay.outbox)
    ensures KeysNameEvents(PartitionEvents(s.relay, s.partition))
    ensures Reached(s.consumer) <= |PartitionEvents(s.relay, s.partition)|
    ensures n <= |Rows(s)| && Rows(s)[..n] <= Seen(s) <= Rows(s)
    ensures Rows(s)[..n] == FirstOccurrences(PartitionEvents(s.relay, s.partition)[..Reached(s.consumer)])
    ensures forall e :: e in Rows(s)[..n] ==> Disposed(s, e)
    ensures forall e :: e in Effects(s.consumer) ==> e in Rows(s)[..n]
    ensures Filter(Among(Effects(s.consumer)), Rows(s)[..n]) == Filter(Among(Effects(s.consumer)), Seen(s))
  {
    var c, events := s.consumer, PartitionEvents(s.relay, s.partition);
    DistinctEventsArePrefix(s);
    ReachedIsPrefix(c, events);
    var reached := FirstOccurrences(events[..Reached(c)]);
    n := |reached|;
    assert Rows(s)[..n] == reached;
  }

  /** End to end. After any interleaving the handler's state is the fold of a prefix of the
      partition's rows, each once and in outbox order, without the quarantined ones that had no
      effect: some n exists such that each of the first n rows had its effect or is quarantined
      and no other row had an effect. Every committed record is one of those rows. */
  lemma EndToEnd<S(!new)>(s0: State, trace: seq<Step>, s: State, handler: (S, Event) -> S, st0: S) returns (n: nat)
    requires Init(s0) && Run(Next, s0, trace) == Some(s) && Idempotent(handler)
    requires FreshIds(s.relay.outbox)
    ensures n <= |Rows(s)| && Rows(s)[..n] <= Seen(s) <= Rows(s) && Distinct(Seen(s))
    ensures forall e :: e in Rows(s)[..n] ==> Disposed(s, e)
    ensures forall e :: e in Effects(s.consumer) ==> e in Rows(s)[..n]
    ensures Fold(handler, st0, Effects(s.consumer)) ==
            Fold(handler, st0, Filter(Among(Effects(s.consumer)), Rows(s)[..n]))
    ensures s.consumer.dlq == [] ==> Fold(handler, st0, Effects(s.consumer)) == Fold(handler, st0, Rows(s)[..n])
    ensures s.consumer.committed <= |PartitionEvents(s.relay, s.partition)|
    ensures forall o: nat :: o < s.consumer.committed ==> PartitionEvents(s.relay, s.partition)[o] in Rows(s)[..n]
  {
    AlwaysInv(s0, trace);
    var c, events := s.consumer, PartitionEvents(s.relay, s.partition);
    n := ReachedRows(s);
    FirstOccurrencesDistinct(events);
    EffectsFold(c, events, handler, st0);
    if c.dlq == [] {
      FilterAll(Among(Effects(c)), Rows(s)[..n]);
    }
    forall o: nat | o < c.committed ensures events[o] in Rows(s)[..n] {
      assert events[..Reached(c)][o] == events[o];
    }
  }

  lemma EffectsFold<S(!new)>(c: Consumer.State, events: seq<Event>, handler: (S, Event) -> S, st0: S)
    requires Consumer.Inv(c) && c.log == Map(Wrap, events) && KeysNameEvents(events) && Idempotent(handler)
    ensures Fold(handler, st0, Effects(c)) == Fold(handler, st0, Filter(Among(Effects(c)), FirstOccurrences(events)))
  {
    var offsets := Filter(Consumer.In(c.effects), Consumer.FirstOffsets(c.log));
    Consumer.EffectsSelectFirsts(c);
    FoldDestutter(Consumer.ApplyAt(handler, c.log), st0, c.effects);
    FoldApplyAt(handler, st0, c.log, c.effects);
    FoldApplyAt(handler, st0, c.log, offsets);
    SelectedEvents(c, events);
  }

  /** Once the outbox is drained and the log consumed, nothing is missing: every row of the
      partition had its effect or is quarantined, and with nothing quarantined the handler
      ends in the state of one pass over exactly those rows. */
  lemma DrainedIsComplete<S(!new)>(s0: State, trace: seq<Step>, s: State, handler: (S, Event) -> S, st0: S)
    requires Init(s0) && Run(Next, s0, trace) == Some(s) && Idempotent(handler) && FreshIds(s.relay.outbox)
    requires forall i: nat :: i < |s.relay.outbox| ==> i in s.relay.publishedAt
    requires s.consumer.committed == |s.consumer.log|
    ensures forall e :: e in s.relay.outbox && s.partition(e.tenant) ==> Disposed(s, e)
    ensures Fold(handler, st0, Effects(s.consumer)) == Fold(handler, st0, Filter(Among(Effects(s.consumer)), Rows(s)))
    ensures s.consumer.dlq == [] ==> Fold(handler, st0, Effects(s.consumer)) == Fold(handler, st0, Rows(s))
  {
    var n := EndToEnd(s0, trace, s, handler, st0);
    AlwaysInv(s0, trace);
    DistinctEventsArePrefix(s);
    var events := PartitionEvents(s.relay, s.partition);
    EffectsFold(s.consumer, events, handler, st0);
    forall e | e in Rows(s) ensures Disposed(s, e) {
      assert e in events;
      var o :| 0 <= o < |events| && events[o] == e;
    }
    if s.consumer.dlq == [] {
      FilterAll(Among(Effects(s.consumer)), Rows(s));
    }
  }

  function Only<S>(handler: (S, Event) -> S, tenant: string): (S, Event) -> S {
    (st: S, e: Event) => if e.tenant == tenant then handler(st, e) else st
  }

  lemma {:induction false} FoldOnly<S(!new)>(handler: (S, Event) -> S, tenant: string, st0: S, events: seq<Event>)
    ensures Fold(Only(handler, tenant), st0, events) == Fold(handler, st0, Filter(Relay.OfTenant(tenant), events))
  {
    if events != [] {
      var front, last := events[..|events| - 1], events[|events| - 1];
      assert events == front + [last];
      FoldOnly(handler, tenant, st0, front);
      FilterSnoc(Relay.OfTenant(tenant), front, last);
      FoldSnoc(handler, st0, Filter(Relay.OfTenant(tenant), front), last);
    }
  }

  /** One tenant's rows of the outbox, in order. */
  function TenantRows(s: State, tenant: string): seq<Event> {
    Filter(Relay.OfTenant(tenant), s.relay.outbox)
  }

  /** A tenant's rows are all on one partition. */
  lemma TenantRowsOnPartition(s: State, tenant: string)
    ensures Filter(Relay.OfTenant(tenant), Rows(s)) == if s.partition(tenant) then TenantRows(s, tenant) else []
  {
    var of, on := Relay.OfTenant(tenant), OnPartition(s.partition);
    FilterCommutes(of, on, s.relay.outbox);
    if s.partition(tenant) {
      FilterAll(on, TenantRows(s, tenant));
    } else {
      FilterNone(on, TenantRows(s, tenant));
    }
  }

  /** The same for the state of one tenant: it is the fold of a prefix of that tenant's rows of
      the outbox, each once and in order, without the quarantined ones that had no effect. */
  lemma TenantEndToEnd<S(!new)>(s0: State, trace: seq<Step>, s: State, handler: (S, Event) -> S, st0: S, tenant: string)
      returns (n: nat)
    requires Init(s0) && Run(Next, s0, trace) == Some(s) && Idempotent(handler)
    requires FreshIds(s.relay.outbox)
    ensures n <= |TenantRows(s, tenant)|
    ensures forall e :: e in TenantRows(s, tenant)[..n] ==> Disposed(s, e)
    ensures forall e :: e in Effects(s.consumer) && e.tenant == tenant ==> e in TenantRows(s, tenant)[..n]
    ensures Fold(handler, st0, Filter(Relay.OfTenant(tenant), Effects(s.consumer))) ==
            Fold(handler, st0, Filter(Among(Effects(s.consumer)), TenantRows(s, tenant)[..n]))
  {
    var only, of := Only(handler, tenant), Relay.OfTenant(tenant);
    assert Idempotent(only) by {
      forall st, e: Event ensures only(only(st, e), e) == only(st, e) {
        assert handler(handler(st, e), e) == handler(st, e);
      }
    }
    var m := EndToEnd(s0, trace, s, only, st0);
    var reached, effective := Rows(s)[..m], Among(Effects(s.consumer));
    FilterPrefix(of, reached, Rows(s));
    TenantRowsOnPartition(s, tenant);
    n := |Filter(of, reached)|;
    assert TenantRows(s, tenant)[..n] == Filter(of, reached);
    FoldOnly(handler, tenant, st0, Effects(s.consumer));
    FoldOnly(handler, tenant, st0, Filter(effective, reached));
    FilterCommutes(of, effective, reached);
  }
}
