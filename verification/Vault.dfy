/** UTF-8: the bytes of a text determine it. */
module Utf8 {
  import opened Collections

  function EncodeChar(c: char): seq<Byte> {
    EncodeScalar(c as nat)
  }

  function EncodeScalar(n: nat): seq<Byte>
    requires n < 0x20_0000
  {
    if n < 0x80 then [n]
    else if n < 0x800 then [0xC0 + n / 64, 0x80 + n % 64]
    else if n < 0x1_0000 then [0xE0 + n / 4096, 0x80 + n / 64 % 64, 0x80 + n % 64]
    else [0xF0 + n / 26_2144, 0x80 + n / 4096 % 64, 0x80 + n / 64 % 64, 0x80 + n % 64]
  }

  function Encode(s: string): seq<Byte> {
    if s == "" then [] else EncodeChar(s[0]) + Encode(s[1..])
  }

  lemma ScalarPrefix(m: nat, n: nat, x: seq<Byte>, y: seq<Byte>)
    requires m < 0x20_0000 && n < 0x20_0000 && EncodeScalar(m) + x == EncodeScalar(n) + y
    ensures m == n && x == y
  {
    var a, b := EncodeScalar(m), EncodeScalar(n);
    assert (a + x)[0] == a[0] && (b + y)[0] == b[0];
    assert |a| == |b|;
    assert a == (a + x)[..|a|] && b == (b + y)[..|a|];
    assert x == (a + x)[|a|..] && y == (b + y)[|a|..];
    ScalarInjective(m, n);
  }

  lemma ScalarInjective(m: nat, n: nat)
    requires m < 0x20_0000 && n < 0x20_0000 && EncodeScalar(m) == EncodeScalar(n)
    ensures m == n
  {
    var a, b := EncodeScalar(m), EncodeScalar(n);
    assert forall i :: 0 <= i < |a| ==> a[i] == b[i];
    if |a| == 2 {
      assert a[0] == b[0] && a[1] == b[1];
    } else if |a| == 3 {
      assert a[0] == b[0] && a[1] == b[1] && a[2] == b[2];
      Thirds(m);
      Thirds(n);
    } else if |a| == 4 {
      assert a[0] == b[0] && a[1] == b[1] && a[2] == b[2] && a[3] == b[3];
      Fourths(m);
      Fourths(n);
    }
  }

  lemma Halves(n: nat)
    ensures n == n / 64 * 64 + n % 64
  {
  }

  lemma Thirds(n: nat)
    ensures n == n / 4096 * 4096 + n / 64 % 64 * 64 + n % 64
  {
    Halves(n);
    Halves(n / 64);
    assert n / 4096 == n / 64 / 64;
  }

  lemma Fourths(n: nat)
    ensures n == n / 26_2144 * 26_2144 + n / 4096 % 64 * 4096 + n / 64 % 64 * 64 + n % 64
  {
    Thirds(n);
    Halves(n / 4096);
    assert n / 26_2144 == n / 4096 / 64;
  }

  lemma {:induction false} EncodeInjective(s: string, t: string)
    requires Encode(s) == Encode(t)
    ensures s == t
  {
    if s == "" {
      if t != "" { EncodeNonEmpty(t); }
    } else if t == "" {
      EncodeNonEmpty(s);
    } else {
      ScalarPrefix(s[0] as nat, t[0] as nat, Encode(s[1..]), Encode(t[1..]));
      EncodeInjective(s[1..], t[1..]);
      assert s == [s[0]] + s[1..] && t == [t[0]] + t[1..];
    }
  }

  lemma EncodeNonEmpty(s: string)
    requires s != ""
    ensures |Encode(s)| >= 1
  {
    assert |EncodeChar(s[0])| >= 1;
  }
}

/** Vault secrets with scheduled destruction: one key-value store that also holds the queue of
    pending destructions. */
module Vault {
  import opened Collections
  import opened Machine
  import opened Keys
  import Utf8
  import Base64Url

  /** A place in the store. */
  datatype Loc = Loc(mount: string, path: string)

  /** A field value: plain text, or an instant written in ISO form. */
  datatype Field = Text(s: string) | Instant(t: int)

  type Secret = map<string, Field>

  type Kv = map<Loc, Secret>

  const QUEUE := "_destroy_queue/"

  function StripSlashes(s: string): string {
    if s != "" && s[0] == '/' then StripSlashes(s[1..])
    else if s != "" && s[|s| - 1] == '/' then StripSlashes(s[..|s| - 1])
    else s
  }

  /** Position of the first slash at or after i, or the length. */
  function NextSlash(s: string, i: nat): (j: nat)
    requires i <= |s|
    ensures i <= j <= |s|
    decreases |s| - i
  {
    if i == |s| || s[i] == '/' then i else NextSlash(s, i + 1)
  }

  /** "mount/data/rel" or "mount/metadata/rel" to (mount, rel); anything else is a path under
      the mount "secret". */
  function ParseRef(ref: string): Loc {
    var p := StripSlashes(ref);
    var i := NextSlash(p, 0);
    if i == |p| then Loc("secret", p)
    else
      var j := NextSlash(p, i + 1);
      if j < |p| && (p[i + 1..j] == "data" || p[i + 1..j] == "metadata") then Loc(p[..i], p[j + 1..])
      else Loc("secret", p)
  }

  /** The queue's name for a target: base64 of "mount:path". */
  function Token(target: Loc): string {
    Base64Url.EncodePadded(Utf8.Encode(target.mount + ":" + target.path))
  }

  function QueueLoc(mount: string, target: Loc): Loc {
    Loc(mount, QUEUE + Token(target))
  }

  /** The place is in the queue's part of the default mount. */
  predicate InQueue(mount: string, l: Loc) {
    l.mount == mount && QUEUE <= l.path
  }

  function Entry(target: Loc, at: int): Secret {
    map["target_mount" := Text(target.mount), "target_path" := Text(target.path), "destroy_at" := Instant(at)]
  }

  /** Two targets share a queue place exactly when they read the same once joined. */
  lemma QueueLocCollides(mount: string, a: Loc, b: Loc)
    ensures QueueLoc(mount, a) == QueueLoc(mount, b) <==> a.mount + ":" + a.path == b.mount + ":" + b.path
  {
    if QueueLoc(mount, a) == QueueLoc(mount, b) {
      assert Token(a) == QueueLoc(mount, a).path[|QUEUE|..];
      assert Token(b) == QueueLoc(mount, b).path[|QUEUE|..];
      var x, y := a.mount + ":" + a.path, b.mount + ":" + b.path;
      Base64Url.PaddedRoundTrip(Utf8.Encode(x));
      Base64Url.PaddedRoundTrip(Utf8.Encode(y));
      Utf8.EncodeInjective(x, y);
    }
  }

  /** So with colon-free mounts every target has a queue place of its own. */
  lemma QueueLocInjective(mount: string, a: Loc, b: Loc)
    requires ColonFree(a.mount) && ColonFree(b.mount) && QueueLoc(mount, a) == QueueLoc(mount, b)
    ensures a == b
  {
    QueueLocCollides(mount, a, b);
    ColonCut(a.mount, a.path, b.mount, b.path);
  }

  datatype State = State(mount: string, kv: Kv)

  datatype Step =
    | Put(ref: string, data: Secret)
    | Delete(ref: string)
    | Schedule(ref: string, at: int)
    | Sweep(now: int)

  /** Queue places whose entry is due. */
  function Due(s: State, now: int): set<Loc> {
    set l | l in s.kv && InQueue(s.mount, l) && "destroy_at" in s.kv[l] && s.kv[l]["destroy_at"].Instant?
            && s.kv[l]["destroy_at"].t <= now
  }

  function TextOf(secret: Secret, name: string): string {
    if name in secret && secret[name].Text? then secret[name].s else ""
  }

  function TargetOf(secret: Secret): Loc {
    Loc(TextOf(secret, "target_mount"), TextOf(secret, "target_path"))
  }

  /** A sweep removes each due entry and its target. */
  function SweptKv(s: State, now: int): Kv {
    s.kv - Due(s, now) - (set l | l in Due(s, now) :: TargetOf(s.kv[l]))
  }

  function Merged(kv: Kv, l: Loc, data: Secret): Kv {
    kv[l := (if l in kv then kv[l] else map[]) + data]
  }

  function Apply(s: State, a: Step): State {
    match a
    case Put(ref, data) => s.(kv := Merged(s.kv, ParseRef(ref), data))
    case Delete(ref) => s.(kv := s.kv - {ParseRef(ref)})
    case Schedule(ref, at) => s.(kv := s.kv[QueueLoc(s.mount, ParseRef(ref)) := Entry(ParseRef(ref), at)])
    case Sweep(now) => s.(kv := SweptKv(s, now))
  }

  /** What reading a reference gives: an empty secret reads as absent. */
  function Read(s: State, ref: string): Option<Secret> {
    var l := ParseRef(ref);
    if l in s.kv && s.kv[l] != map[] then Some(s.kv[l]) else None
  }

  function FieldOf(secret: Option<Secret>, name: string): Option<Field> {
    if secret.Some? && name in secret.value then Some(secret.value[name]) else None
  }

  /** What each operation means for a later read of any reference outside the queue: a put is
      read back field by field over the older fields, a delete leaves nothing, whichever way the
      reference was spelled; everything else, and all of a schedule, leaves the read alone. */
  lemma ReadsBack(s: State, a: Step, ref: string, name: string)
    requires !a.Sweep? && !InQueue(s.mount, ParseRef(ref))
    ensures var was, now := FieldOf(Read(s, ref), name), FieldOf(Read(Apply(s, a), ref), name);
            now == if a.Schedule? || ParseRef(a.ref) != ParseRef(ref) then was
                   else if a.Delete? then None
                   else if name in a.data then Some(a.data[name])
                   else was
  {
    if a.Schedule? {
      QueuePlaceInQueue(s.mount, ParseRef(a.ref));
    }
  }

  /** The reference is no part of the queue, and its mount has no colon. */
  predicate Proper(mount: string, ref: string) {
    ':' !in ParseRef(ref).mount && !InQueue(mount, ParseRef(ref))
  }

  /** Steps callers are meant to take: only the store itself touches the queue. */
  function Next(s: State, a: Step): Option<State> {
    if a.Sweep? || Proper(s.mount, a.ref) then Some(Apply(s, a)) else None
  }

  /** The latest schedule of every target not yet swept, read off the history alone. */
  function Pending(trace: seq<Step>): map<Loc, int> {
    if trace == [] then map[]
    else NextPending(Pending(trace[..|trace| - 1]), trace[|trace| - 1])
  }

  /** Where a mount's queue keeps each target. */
  function PlaceIn(mount: string): Loc -> Loc {
    (target: Loc) => QueueLoc(mount, target)
  }

  /** All that the queue relies on: places are in the queue, one for each colon-free target. */
  ghost predicate Places(place: Loc -> Loc, mount: string) {
    && (forall t :: InQueue(mount, place(t)))
    && (forall a: Loc, b: Loc :: ColonFree(a.mount) && ColonFree(b.mount) && place(a) == place(b) ==> a == b)
  }

  lemma QueuePlaceInQueue(mount: string, target: Loc)
    ensures InQueue(mount, QueueLoc(mount, target))
  {
  }

  lemma PlaceInPlaces(mount: string)
    ensures Places(PlaceIn(mount), mount)
  {
    var place := PlaceIn(mount);
    forall t ensures InQueue(mount, place(t)) {
      QueuePlaceInQueue(mount, t);
    }
    forall a: Loc, b: Loc | ColonFree(a.mount) && ColonFree(b.mount) && place(a) == place(b) ensures a == b {
      QueueLocInjective(mount, a, b);
    }
  }

  /** The queue is exactly the pending schedules: one entry for each target, no other. */
  ghost predicate QueueIs(place: Loc -> Loc, s: State, pending: map<Loc, int>) {
    && (forall t :: t in pending ==>
          && ColonFree(t.mount) && !InQueue(s.mount, t)
          && place(t) in s.kv && s.kv[place(t)] == Entry(t, pending[t]))
    && (forall l :: l in s.kv && InQueue(s.mount, l) ==> exists t :: t in pending && l == place(t))
  }

  /** Which targets a sweep at now destroys, and which stay pending. */
  ghost function DueTargets(pending: map<Loc, int>, now: int): set<Loc> {
    set t | t in pending && pending[t] <= now
  }

  function StillPending(pending: map<Loc, int>, now: int): map<Loc, int> {
    map t | t in pending && pending[t] > now :: pending[t]
  }

  lemma EntryReads(t: Loc, at: int)
    ensures TargetOf(Entry(t, at)) == t && "destroy_at" in Entry(t, at) && Entry(t, at)["destroy_at"] == Instant(at)
  {
  }

  /** The due entries of a queue that holds exactly pending are those of the due targets. */
  lemma DueIsDueTargets(place: Loc -> Loc, s: State, pending: map<Loc, int>, now: int)
    requires Places(place, s.mount) && QueueIs(place, s, pending)
    ensures forall l :: l in Due(s, now) ==> exists t :: t in DueTargets(pending, now) && l == place(t)
    ensures forall t :: t in DueTargets(pending, now) ==> place(t) in Due(s, now) && TargetOf(s.kv[place(t)]) == t
  {
    forall l | l in Due(s, now) ensures exists t :: t in DueTargets(pending, now) && l == place(t) {
      var t :| t in pending && l == place(t);
      EntryReads(t, pending[t]);
    }
    forall t | t in DueTargets(pending, now) ensures place(t) in Due(s, now) && TargetOf(s.kv[place(t)]) == t {
      EntryReads(t, pending[t]);
    }
  }

  /** A sweep removes the due targets and their entries, and nothing else. */
  lemma SweepTakesDue(place: Loc -> Loc, s: State, pending: map<Loc, int>, now: int)
    requires Places(place, s.mount) && QueueIs(place, s, pending)
    ensures forall l :: l in SweptKv(s, now) <==>
              l in s.kv && l !in DueTargets(pending, now) && l !in Due(s, now)
    ensures forall l :: l in SweptKv(s, now) ==> SweptKv(s, now)[l] == s.kv[l]
  {
    DueIsDueTargets(place, s, pending, now);
    var gone := set l | l in Due(s, now) :: TargetOf(s.kv[l]);
    forall l ensures l in gone <==> l in DueTargets(pending, now) {
      if l in gone {
        var d :| d in Due(s, now) && l == TargetOf(s.kv[d]);
        var t :| t in DueTargets(pending, now) && d == place(t);
      }
      if l in DueTargets(pending, now) {
        assert place(l) in Due(s, now);
      }
    }
  }

  /** The entry of a target that is not due stays. */
  lemma EntryStays(place: Loc -> Loc, s: State, pending: map<Loc, int>, now: int, t: Loc)
    requires Places(place, s.mount) && QueueIs(place, s, pending) && t in pending && pending[t] > now
    requires forall l :: l in SweptKv(s, now) <==> l in s.kv && l !in DueTargets(pending, now) && l !in Due(s, now)
    ensures place(t) in SweptKv(s, now)
  {
    EntryReads(t, pending[t]);
    assert s.kv[place(t)] == Entry(t, pending[t]);
    assert InQueue(s.mount, place(t));
  }

  /** The entry of a due target goes. */
  lemma EntryGoes(place: Loc -> Loc, s: State, pending: map<Loc, int>, now: int, t: Loc)
    requires Places(place, s.mount) && QueueIs(place, s, pending) && t in pending && pending[t] <= now
    ensures place(t) in Due(s, now)
  {
    EntryReads(t, pending[t]);
    assert s.kv[place(t)] == Entry(t, pending[t]);
  }

  lemma SweepKeeps(place: Loc -> Loc, s: State, pending: map<Loc, int>, now: int)
    requires Places(place, s.mount) && QueueIs(place, s, pending)
    ensures QueueIs(place, Apply(s, Sweep(now)), StillPending(pending, now))
  {
    SweepTakesDue(place, s, pending, now);
    var u, left := Apply(s, Sweep(now)), StillPending(pending, now);
    forall t | t in left
      ensures ColonFree(t.mount) && !InQueue(u.mount, t) && place(t) in u.kv && u.kv[place(t)] == Entry(t, left[t])
    {
      EntryStays(place, s, pending, now, t);
    }
    forall l | l in u.kv && InQueue(u.mount, l) ensures exists t :: t in left && l == place(t) {
      var t :| t in pending && l == place(t);
      if pending[t] <= now {
        EntryGoes(place, s, pending, now, t);
      }
    }
  }

  lemma ScheduleKeeps(place: Loc -> Loc, s: State, pending: map<Loc, int>, target: Loc, at: int)
    requires Places(place, s.mount) && QueueIs(place, s, pending)
    requires ColonFree(target.mount) && !InQueue(s.mount, target)
    ensures QueueIs(place, s.(kv := s.kv[place(target) := Entry(target, at)]), pending[target := at])
  {
    var kv, more := s.kv[place(target) := Entry(target, at)], pending[target := at];
    forall t | t in more ensures kv[place(t)] == Entry(t, more[t]) {
      if place(t) == place(target) {
        assert t == target;
      }
    }
    forall l | l in kv && InQueue(s.mount, l) ensures exists t :: t in more && l == place(t) {
      if l == place(target) {
        assert target in more;
      } else {
        var t :| t in pending && l == place(t);
        assert t in more;
      }
    }
  }

  lemma OtherKeeps(place: Loc -> Loc, s: State, pending: map<Loc, int>, a: Step)
    requires Places(place, s.mount) && QueueIs(place, s, pending)
    requires (a.Put? || a.Delete?) && Proper(s.mount, a.ref)
    ensures QueueIs(place, Apply(s, a), pending)
  {
    forall t | t in pending ensures place(t) != ParseRef(a.ref) {
      assert InQueue(s.mount, place(t));
    }
  }

  /** Over every run of puts, deletes, schedules, reschedules and sweeps, the queue holds
      exactly one entry for each pending target, carrying its latest schedule. */
  lemma {:induction false} QueueIsPending(s0: State, trace: seq<Step>, s: State)
    requires (forall l :: l in s0.kv ==> !InQueue(s0.mount, l)) && Run(Next, s0, trace) == Some(s)
    ensures s.mount == s0.mount && QueueIs(PlaceIn(s.mount), s, Pending(trace))
  {
    if trace != [] {
      var n := |trace| - 1;
      var t := Run(Next, s0, trace[..n]).value;
      QueueIsPending(s0, trace[..n], t);
      PlaceInPlaces(t.mount);
      StepKeeps(PlaceIn(t.mount), t, Pending(trace[..n]), trace[n]);
    }
  }

  function NextPending(pending: map<Loc, int>, a: Step): map<Loc, int> {
    match a
    case Schedule(ref, at) => pending[ParseRef(ref) := at]
    case Sweep(now) => StillPending(pending, now)
    case _ => pending
  }

  lemma StepKeeps(place: Loc -> Loc, s: State, pending: map<Loc, int>, a: Step)
    requires place == PlaceIn(s.mount) && Places(place, s.mount) && QueueIs(place, s, pending) && Next(s, a).Some?
    ensures QueueIs(place, Next(s, a).value, NextPending(pending, a))
  {
    match a
    case Schedule(ref, at) =>
      assert place(ParseRef(ref)) == QueueLoc(s.mount, ParseRef(ref));
      ScheduleKeeps(place, s, pending, ParseRef(ref), at);
    case Sweep(now) => SweepKeeps(place, s, pending, now);
    case _ => OtherKeeps(place, s, pending, a);
  }

  /** What a sweep does after any run: it destroys a secret if and only if the latest schedule
      of that target is at or before now, leaves everything else as it was, counts one for
      each due target, and leaves no due entry; an immediate second sweep does nothing. */
  lemma SweepDestroysExactlyDue(s0: State, trace: seq<Step>, s: State, now: int)
    requires (forall l :: l in s0.kv ==> !InQueue(s0.mount, l)) && Run(Next, s0, trace) == Some(s)
    ensures var u := Apply(s, Sweep(now));
            && (forall l :: l in s.kv && !InQueue(s.mount, l) ==>
                  (l !in u.kv <==> l in Pending(trace) && Pending(trace)[l] <= now))
            && (forall l :: l in u.kv ==> l in s.kv && u.kv[l] == s.kv[l])
            && |Due(s, now)| == |DueTargets(Pending(trace), now)|
            && Due(u, now) == {}
            && Apply(u, Sweep(now)) == u
  {
    QueueIsPending(s0, trace, s);
    PlaceInPlaces(s.mount);
    SweepFacts(PlaceIn(s.mount), s, Pending(trace), now);
  }

  lemma SweepFacts(place: Loc -> Loc, s: State, pending: map<Loc, int>, now: int)
    requires Places(place, s.mount) && QueueIs(place, s, pending)
    ensures var u := Apply(s, Sweep(now));
            && (forall l :: l in s.kv && !InQueue(s.mount, l) ==> (l !in u.kv <==> l in pending && pending[l] <= now))
            && (forall l :: l in u.kv ==> l in s.kv && u.kv[l] == s.kv[l])
            && |Due(s, now)| == |DueTargets(pending, now)|
            && Due(u, now) == {}
            && Apply(u, Sweep(now)) == u
  {
    SweepTakesDue(place, s, pending, now);
    DueCount(place, s, pending, now);
    NothingDueAfter(place, s, pending, now);
  }

  lemma NothingDueAfter(place: Loc -> Loc, s: State, pending: map<Loc, int>, now: int)
    requires Places(place, s.mount) && QueueIs(place, s, pending)
    ensures var u := Apply(s, Sweep(now)); Due(u, now) == {} && SweptKv(u, now) == u.kv
  {
    SweepKeeps(place, s, pending, now);
    var u := Apply(s, Sweep(now));
    DueIsDueTargets(place, u, StillPending(pending, now), now);
    assert forall t :: t !in DueTargets(StillPending(pending, now), now);
    assert Due(u, now) == {};
  }

  lemma DueCount(place: Loc -> Loc, s: State, pending: map<Loc, int>, now: int)
    requires Places(place, s.mount) && QueueIs(place, s, pending)
    ensures |Due(s, now)| == |DueTargets(pending, now)|
  {
    DueIsDueTargets(place, s, pending, now);
    assert Due(s, now) == set t | t in DueTargets(pending, now) :: place(t);
    EntriesMatchTargets(place, s.mount, DueTargets(pending, now));
  }

  /** As many queue places as targets. */
  lemma {:induction false} EntriesMatchTargets(place: Loc -> Loc, mount: string, targets: set<Loc>)
    requires Places(place, mount) && forall t :: t in targets ==> ColonFree(t.mount)
    ensures |set t | t in targets :: place(t)| == |targets|
  {
    var places := set t | t in targets :: place(t);
    if targets != {} {
      var t :| t in targets;
      var rest := set x | x in targets - {t} :: place(x);
      EntriesMatchTargets(place, mount, targets - {t});
      assert places == rest + {place(t)};
      assert place(t) !in rest;
    }
  }

  /** Exactly when one schedule displaces another: of two targets scheduled one after the other,
      the first due by now and the second not, a sweep at now misses the first if and only if
      their mounts and paths join to the same text. */
  lemma ScheduleDisplaces(s: State, first: Loc, second: Loc, at1: int, at2: int, now: int)
    requires first in s.kv && !InQueue(s.mount, first) && !InQueue(s.mount, second) && first != second
    requires (forall l :: l in s.kv ==> !InQueue(s.mount, l)) && at1 <= now < at2
    ensures var once := s.kv[QueueLoc(s.mount, first) := Entry(first, at1)];
            var kv := once[QueueLoc(s.mount, second) := Entry(second, at2)];
            first in SweptKv(s.(kv := kv), now) <==>
            first.mount + ":" + first.path == second.mount + ":" + second.path
  {
    var p, q := QueueLoc(s.mount, first), QueueLoc(s.mount, second);
    var t := s.(kv := s.kv[p := Entry(first, at1)][q := Entry(second, at2)]);
    QueueLocCollides(s.mount, first, second);
    QueuePlaceInQueue(s.mount, first);
    QueuePlaceInQueue(s.mount, second);
    EntryReads(first, at1);
    EntryReads(second, at2);
    if p == q {
      assert Due(t, now) == {};
    } else {
      assert p in Due(t, now) && TargetOf(t.kv[p]) == first;
    }
  }

  /** What a sweep at now may remove. */
  function Doomed(s: State, now: int): set<Loc> {
    Due(s, now) + (set l | l in Due(s, now) :: TargetOf(s.kv[l]))
  }

  /** Everything in the queue is an entry for a target outside it. */
  ghost predicate TidyKv(mount: string, kv: Kv) {
    forall l :: l in kv && InQueue(mount, l) ==> exists t: Loc, at: int :: kv[l] == Entry(t, at) && !InQueue(mount, t)
  }

  lemma TidyEntry(mount: string, kv: Kv, l: Loc)
    requires TidyKv(mount, kv) && l in kv && InQueue(mount, l)
    ensures "target_mount" in kv[l] && kv[l]["target_mount"].Text?
    ensures "target_path" in kv[l] && kv[l]["target_path"].Text?
    ensures "destroy_at" in kv[l] && kv[l]["destroy_at"].Instant?
    ensures !InQueue(mount, TargetOf(kv[l]))
  {
    var t: Loc, at: int :| kv[l] == Entry(t, at) && !InQueue(mount, t);
    EntryReads(t, at);
  }

  /** Queue places and their targets. */
  function WithTargets(s: State, places: set<Loc>): set<Loc>
    requires places <= s.kv.Keys
  {
    places + (set d | d in places :: TargetOf(s.kv[d]))
  }

  /** The store once the listed places in done have been looked at. */
  function SweptPart(s: State, done: set<Loc>, now: int): Kv {
    s.kv - WithTargets(s, done * Due(s, now))
  }

  lemma SweptPartStep(s: State, done: set<Loc>, now: int, l: Loc)
    ensures l in Due(s, now) ==>
              SweptPart(s, done + {l}, now) == SweptPart(s, done, now) - {TargetOf(s.kv[l])} - {l}
    ensures l !in Due(s, now) ==> SweptPart(s, done + {l}, now) == SweptPart(s, done, now)
  {
    if l in Due(s, now) {
      assert (done + {l}) * Due(s, now) == done * Due(s, now) + {l};
      assert WithTargets(s, done * Due(s, now) + {l}) == WithTargets(s, done * Due(s, now)) + {l, TargetOf(s.kv[l])};
    } else {
      assert (done + {l}) * Due(s, now) == done * Due(s, now);
    }
  }

  lemma SweptPartAll(s: State, done: set<Loc>, now: int)
    requires done == QueuePlaces(s)
    ensures SweptPart(s, done, now) == SweptKv(s, now)
    ensures |done * Due(s, now)| == |Due(s, now)|
  {
    assert done * Due(s, now) == Due(s, now);
    assert SweptPart(s, done, now) == SweptKv(s, now);
  }

  lemma ListedStays(s: State, done: set<Loc>, now: int, l: Loc)
    requires TidyKv(s.mount, s.kv) && l in s.kv && InQueue(s.mount, l) && l !in done
    ensures l in SweptPart(s, done, now)
  {
    forall d | d in done * Due(s, now) ensures l != TargetOf(s.kv[d]) {
      TidyEntry(s.mount, s.kv, d);
    }
  }

  /** Only due entries and their targets are missing from kv, and nothing else changed. */
  ghost predicate PartlySwept(s: State, now: int, kv: Kv) {
    && TidyKv(s.mount, kv)
    && (forall l :: l in kv ==> l in s.kv && kv[l] == s.kv[l])
    && (forall l :: l in s.kv && l !in kv ==> l in Doomed(s, now))
  }

  lemma PartlySweptMore(s: State, now: int, kv: Kv, l: Loc)
    requires PartlySwept(s, now, kv) && l in Doomed(s, now)
    ensures PartlySwept(s, now, kv - {l})
  {
  }

  /** The places a listing of the queue returns. */
  function QueuePlaces(s: State): set<Loc> {
    set l | l in s.kv && InQueue(s.mount, l)
  }

  lemma SweepStart(s: State, now: int)
    requires TidyKv(s.mount, s.kv)
    ensures s.kv == SweptPart(s, {}, now) && PartlySwept(s, now, s.kv) && |{} * Due(s, now)| == 0
  {
    assert {} * Due(s, now) == {};
    assert WithTargets(s, {} * Due(s, now)) == {};
  }

  /** The store client over the server's key-value engine and its metadata stamps. */
  class VaultSecretsStore {
    const mount: string
    var kv: Kv
    var stamps: map<Loc, int>

    constructor (mount: string)
      ensures this.mount == mount && kv == map[] && stamps == map[] && Tidy()
    {
      this.mount := mount;
      kv, stamps := map[], map[];
    }

    ghost function View(): State
      reads this
    {
      State(mount, kv)
    }

    ghost predicate Tidy()
      reads this
    {
      TidyKv(mount, kv)
    }

    /** The secret at a reference; an empty one reads as absent. */
    method Get(ref: string) returns (data: Option<Secret>)
      ensures data == Read(View(), ref)
    {
      var l := ParseRef(ref);
      data := if l in kv && kv[l] != map[] then Some(kv[l]) else None;
    }

    /** Stores data merged over what is there. */
    method Put(ref: string, data: Secret)
      modifies `kv
      ensures View() == Apply(old(View()), Step.Put(ref, data))
      ensures old(Tidy()) && !InQueue(mount, ParseRef(ref)) ==> Tidy()
    {
      var existing := Get(ref);
      var merged := (if existing.Some? then existing.value else map[]) + data;
      kv := kv[ParseRef(ref) := merged];
    }

    method Delete(ref: string)
      modifies `kv, `stamps
      ensures View() == Apply(old(View()), Step.Delete(ref))
      ensures old(Tidy()) && !InQueue(mount, ParseRef(ref)) ==> Tidy()
      ensures stamps == old(stamps) - {ParseRef(ref)}
    {
      kv, stamps := kv - {ParseRef(ref)}, stamps - {ParseRef(ref)};
    }

    /** Stamps the secret's own metadata, if there is a secret, and enqueues the target; a
        second schedule for the target replaces the first. */
    method ScheduleDestroy(ref: string, at: int)
      modifies `kv, `stamps
      ensures View() == Apply(old(View()), Schedule(ref, at))
      ensures old(Tidy()) && !InQueue(mount, ParseRef(ref)) ==> Tidy()
      ensures stamps == if ParseRef(ref) in old(kv) then old(stamps)[ParseRef(ref) := at] else old(stamps)
    {
      var target := ParseRef(ref);
      if target in kv {
        stamps := stamps[target := at];
      }
      kv := kv[QueueLoc(mount, target) := Entry(target, at)];
    }

    method DeleteAll(l: Loc) returns (raised: bool)
      modifies `kv, `stamps
      ensures (kv == old(kv) - {l} && stamps == old(stamps) - {l}) || (raised && kv == old(kv) && stamps == old(stamps))
    {
      raised := *;
      var landed: bool := *;
      if !raised || landed {
        kv, stamps := kv - {l}, stamps - {l};
      }
    }

    /** One listed entry: if it is due, its target goes first and then the entry itself. */
    method SweepEntry(l: Loc, now: int) returns (due: bool, raised: bool)
      requires l in kv && "target_mount" in kv[l] && kv[l]["target_mount"].Text?
      requires "target_path" in kv[l] && kv[l]["target_path"].Text?
      requires "destroy_at" in kv[l] && kv[l]["destroy_at"].Instant?
      modifies `kv, `stamps
      ensures due <==> old(kv)[l]["destroy_at"].t <= now
      ensures !raised ==> kv == if due then old(kv) - {TargetOf(old(kv)[l])} - {l} else old(kv)
      ensures raised ==> due && (kv == old(kv) || kv == old(kv) - {TargetOf(old(kv)[l])}
                                 || kv == old(kv) - {TargetOf(old(kv)[l])} - {l})
    {
      var entry := kv[l];
      due, raised := entry["destroy_at"].t <= now, false;
      if due {
        raised := DeleteAll(Loc(entry["target_mount"].s, entry["target_path"].s));
        if raised {
          return;
        }
        raised := DeleteAll(l);
      }
    }

    /** The next listed place of a sweep that started in s0 and has looked at done. */
    method SweepListed(l: Loc, now: int, ghost s0: State, ghost done: set<Loc>) returns (due: bool, raised: bool)
      requires s0.mount == mount && TidyKv(mount, s0.kv) && l in s0.kv && InQueue(mount, l) && l !in done
      requires kv == SweptPart(s0, done, now) && PartlySwept(s0, now, kv)
      modifies `kv, `stamps
      ensures PartlySwept(s0, now, kv)
      ensures !raised ==> kv == SweptPart(s0, done + {l}, now) && (due <==> l in Due(s0, now))
    {
      ListedStays(s0, done, now, l);
      TidyEntry(mount, s0.kv, l);
      SweptPartStep(s0, done, now, l);
      if l in Due(s0, now) {
        PartlySweptMore(s0, now, kv, TargetOf(s0.kv[l]));
        PartlySweptMore(s0, now, kv - {TargetOf(s0.kv[l])}, l);
      }
      due, raised := SweepEntry(l, now);
    }

    /** The sweeper: for each entry of the queue as listed, destroy the target and drop the
        entry if it is due. A normal return is the specified sweep and counts its due entries;
        a server error in the middle has removed nothing but due entries and their targets. */
    method RunDueDestroys(now: int) returns (destroyed: nat, raised: bool)
      requires Tidy()
      modifies `kv, `stamps
      ensures Tidy() && PartlySwept(old(View()), now, kv)
      ensures !raised ==> View() == Apply(old(View()), Sweep(now)) && destroyed == |Due(old(View()), now)|
    {
      ghost var s0 := View();
      destroyed, raised := 0, false;
      var listing := QueuePlaces(State(mount, kv));
      ghost var done: set<Loc> := {};
      SweepStart(s0, now);
      while listing != {}
        invariant !raised && listing !! done
        invariant listing + done == QueuePlaces(s0)
        invariant kv == SweptPart(s0, done, now) && PartlySwept(s0, now, kv)
        invariant destroyed == |done * Due(s0, now)|
        decreases |listing|
      {
        var l :| l in listing;
        assert l in listing + done;
        MoveListed(listing, done, l);
        listing := listing - {l};
        var due;
        due, raised := SweepListed(l, now, s0, done);
        if raised {
          return;
        }
        CountStep(s0, done, now, l);
        destroyed := if due then destroyed + 1 else destroyed;
        done := done + {l};
      }
      SweptPartAll(s0, done, now);
    }
  }

  lemma MoveListed(listing: set<Loc>, done: set<Loc>, l: Loc)
    requires l in listing && listing !! done
    ensures (listing - {l}) + (done + {l}) == listing + done && (listing - {l}) !! (done + {l})
  {
  }

  lemma CountStep(s: State, done: set<Loc>, now: int, l: Loc)
    requires l !in done
    ensures |(done + {l}) * Due(s, now)| == |done * Due(s, now)| + if l in Due(s, now) then 1 else 0
  {
    assert (done + {l}) * Due(s, now) == done * Due(s, now) + (if l in Due(s, now) then {l} else {});
  }
}
