/**
 Grants and their deadlines (grants.rs).

 A clock reading gives the monotonic milliseconds and the wall time in nanoseconds; the wall clock may
 go back. Each call reads the clock once.
*/
module Grants {
  import opened Bytes

  type Client = nat
  type Secret = nat
  type Pair = (Client, Secret)

  datatype Time = Time(elapsed: nat, wall: int)

  datatype Deadline =
    | Elapsed(at: nat)
    | WallClock(time: int)
    | Unattended(wall: int, bound: nat)
    | Session

  const NANOS_PER_MILLI: nat := 1_000_000
  const MAX_DURATION: nat := (U64_MAX + 1) * 1_000_000_000 - 1

  function Until(deadline: int, now: int): nat { if deadline > now then deadline - now else 0 }

  /** `duration_millis` */
  function Millis(nanos: nat): nat { Saturate(nanos / NANOS_PER_MILLI) }

  /** `GrantDeadline::remaining`, in nanoseconds. */
  function Remaining(d: Deadline, now: Time): nat {
    match d
    case Elapsed(at) => Until(at, now.elapsed) * NANOS_PER_MILLI
    case WallClock(time) => Until(time, now.wall)
    case Unattended(wall, bound) =>
      var byWall, byElapsed := Until(wall, now.wall), Until(bound, now.elapsed) * NANOS_PER_MILLI;
      if byWall <= byElapsed then byWall else byElapsed
    case Session => MAX_DURATION
  }

  predicate Live(d: Deadline, now: Time) { Remaining(d, now) > 0 }

  type Table = map<Pair, Deadline>

  /** `purge_expired` */
  function Purge(m: Table, now: Time): Table { map p | p in m && Live(m[p], now) :: m[p] }

  /** Gives every listed secret the same deadline. */
  function GrantAll(m: Table, client: Client, secrets: seq<Secret>, d: Deadline): Table {
    map p | p in m.Keys + (set s | s in secrets :: (client, s)) :: if p.0 == client && p.1 in secrets then d else m[p]
  }

  datatype Op =
    | GrantFor(client: Client, secrets: seq<Secret>, lifetime: nat)
    | GrantUntil(client: Client, secrets: seq<Secret>, deadline: int)
    | GrantSession(client: Client, secrets: seq<Secret>)
    | GrantUnattendedUntil(client: Client, secrets: seq<Secret>, deadline: int)
    | RetainUnattended
    | RevokeClient(client: Client)
    | RevokeSecret(secret: Secret)
    | RevokePair(client: Client, secret: Secret)
    | RevokeAll
    | Observe   // any query: it purges and changes nothing else

  predicate IsGrant(op: Op) { op.GrantFor? || op.GrantUntil? || op.GrantSession? || op.GrantUnattendedUntil? }

  /** The deadline a grant made at `now` gets. */
  function DeadlineOf(op: Op, now: Time): Deadline
    requires IsGrant(op)
  {
    match op
    case GrantFor(_, _, lifetime) => Elapsed(Saturate(now.elapsed + Millis(lifetime)))
    case GrantUntil(_, _, deadline) => WallClock(deadline)
    case GrantSession(_, _) => Session
    case GrantUnattendedUntil(_, _, deadline) => Unattended(deadline, Saturate(now.elapsed + Millis(Until(deadline, now.wall))))
  }

  function Do(m: Table, op: Op, now: Time): Table {
    match op
    case GrantFor(client, secrets, _) => GrantAll(Purge(m, now), client, secrets, DeadlineOf(op, now))
    case GrantUntil(client, secrets, _) => GrantAll(Purge(m, now), client, secrets, DeadlineOf(op, now))
    case GrantSession(client, secrets) => GrantAll(Purge(m, now), client, secrets, DeadlineOf(op, now))
    case GrantUnattendedUntil(client, secrets, _) => GrantAll(Purge(m, now), client, secrets, DeadlineOf(op, now))
    case RetainUnattended => map p | p in Purge(m, now) && m[p].Unattended? :: m[p]
    case RevokeClient(client) => map p | p in m && p.0 != client :: m[p]
    case RevokeSecret(secret) => map p | p in m && p.1 != secret :: m[p]
    case RevokePair(client, secret) => Purge(m, now) - {(client, secret)}
    case RevokeAll => map[]
    case Observe => Purge(m, now)
  }

  // ----- whole histories -----

  datatype Moment = Moment(op: Op, now: Time)

  function Run(history: seq<Moment>): Table {
    if history == [] then map[]
    else var last := history[|history| - 1]; Do(Run(history[..|history| - 1]), last.op, last.now)
  }

  /** The call grants the pair. */
  predicate Gives(op: Op, p: Pair) { IsGrant(op) && p.0 == op.client && p.1 in op.secrets }

  /** The call looks at expiry. Revoking a client, a secret or everything does not. */
  predicate Observes(op: Op) { !op.RevokeClient? && !op.RevokeSecret? && !op.RevokeAll? }

  /** The call revokes the pair. */
  predicate Revokes(op: Op, p: Pair, d: Deadline) {
    || (op.RevokeClient? && op.client == p.0)
    || (op.RevokeSecret? && op.secret == p.1)
    || (op.RevokePair? && (op.client, op.secret) == p)
    || op.RevokeAll?
    || (op.RetainUnattended? && !d.Unattended?)
  }

  /** A pair with this deadline comes through the call unchanged. */
  predicate Keeps(m: Moment, p: Pair, d: Deadline) {
    !Gives(m.op, p) && !Revokes(m.op, p, d) && (Observes(m.op) ==> Live(d, m.now))
  }

  lemma OneCall(m: Table, op: Op, now: Time, p: Pair, d: Deadline)
    ensures (p in Do(m, op, now) && Do(m, op, now)[p] == d)
       <==> (if Gives(op, p) then DeadlineOf(op, now) == d else p in m && m[p] == d && Keeps(Moment(op, now), p, d))
  {
    hide Live;
  }

  /** The pair was granted with this deadline at moment `i` and came through every later call. */
  ghost predicate GrantedAt(history: seq<Moment>, p: Pair, d: Deadline, i: nat) {
    && i < |history| && Gives(history[i].op, p) && DeadlineOf(history[i].op, history[i].now) == d
    && forall j :: i < j < |history| ==> Keeps(history[j], p, d)
  }

  ghost predicate WasGranted(history: seq<Moment>, p: Pair, d: Deadline) {
    exists i: nat :: GrantedAt(history, p, d, i)
  }

  /** A pair is live with a deadline exactly when some call granted it with that deadline and since then
      no call revoked it, none granted it anew, and none observed it expired. */
  lemma {:induction false} LiveExactly(history: seq<Moment>, p: Pair, d: Deadline)
    ensures p in Run(history) && Run(history)[p] == d <==> WasGranted(history, p, d)
    decreases |history|
  {
    hide Do, Live, Gives, Revokes, Keeps, DeadlineOf;
    if history != [] {
      var n := |history| - 1;
      var before, last := history[..n], history[n];
      LiveExactly(before, p, d);
      OneCall(Run(before), last.op, last.now, p, d);
      if Gives(last.op, p) {
        GivenLast(history, p, d);
      } else {
        NotGivenLast(history, p, d);
      }
    }
  }

  lemma GivenLast(history: seq<Moment>, p: Pair, d: Deadline)
    requires history != [] && Gives(history[|history| - 1].op, p)
    ensures WasGranted(history, p, d) <==> DeadlineOf(history[|history| - 1].op, history[|history| - 1].now) == d
  {
    hide Live, Revokes;
    var n := |history| - 1;
    if DeadlineOf(history[n].op, history[n].now) == d { assert GrantedAt(history, p, d, n); }
    forall i: nat | GrantedAt(history, p, d, i) ensures i == n {}
  }

  lemma NotGivenLast(history: seq<Moment>, p: Pair, d: Deadline)
    requires history != [] && !Gives(history[|history| - 1].op, p)
    ensures WasGranted(history, p, d) <==> WasGranted(history[..|history| - 1], p, d) && Keeps(history[|history| - 1], p, d)
  {
    hide Live, Gives, Revokes, DeadlineOf, Keeps;
    var n := |history| - 1;
    var before := history[..n];
    if i: nat :| GrantedAt(history, p, d, i) {
      assert i < n;
      assert GrantedAt(before, p, d, i);
    }
    if Keeps(history[n], p, d) {
      if i: nat :| GrantedAt(before, p, d, i) {
        forall j | i < j < |history| ensures Keeps(history[j], p, d) {
          if j < n { assert before[j] == history[j]; }
        }
        assert GrantedAt(history, p, d, i);
      }
    }
  }

  /** A pair that is not there stays away until it is granted again, whatever the clocks do. */
  lemma {:induction false} MissingStaysMissing(history: seq<Moment>, p: Pair, n: nat)
    requires n <= |history| && p !in Run(history[..n])
    requires forall j :: n <= j < |history| ==> !Gives(history[j].op, p)
    ensures p !in Run(history)
    decreases |history|
  {
    hide Do, Live, Gives, DeadlineOf;
    if n == |history| {
      assert history[..n] == history;
    } else {
      var k := |history| - 1;
      assert history[..k][..n] == history[..n];
      MissingStaysMissing(history[..k], p, n);
      if p in Run(history) {
        OneCall(Run(history[..k]), history[k].op, history[k].now, p, Run(history)[p]);
      }
    }
  }

  /** While an unattended grant is live, every look at it was before both of its bounds: the wall time
      asked for, and as many milliseconds after the grant as then remained until that time. */
  lemma UnattendedIsBounded(history: seq<Moment>, p: Pair, wall: int, bound: nat)
    requires p in Run(history) && Run(history)[p] == Unattended(wall, bound)
    ensures exists i: nat :: GrantedAt(history, p, Unattended(wall, bound), i)
                        && bound == Saturate(history[i].now.elapsed + Millis(Until(wall, history[i].now.wall)))
                        && forall j :: i < j < |history| && Observes(history[j].op) ==> history[j].now.wall < wall && history[j].now.elapsed < bound
  {
    hide Run, Gives, Revokes;
    var d := Unattended(wall, bound);
    LiveExactly(history, p, d);
    var i: nat :| GrantedAt(history, p, d, i);
    forall j | i < j < |history| && Observes(history[j].op) ensures history[j].now.wall < wall && history[j].now.elapsed < bound {
      assert Keeps(history[j], p, d);
    }
  }

  /** Using a grant does not extend it: a deadline only changes by granting again. */
  lemma UseNeverExtends(history: seq<Moment>, p: Pair, n: nat)
    requires n <= |history| && p in Run(history)
    requires forall j :: n <= j < |history| ==> !Gives(history[j].op, p)
    ensures p in Run(history[..n]) && Run(history[..n])[p] == Run(history)[p]
  {
    hide Run, Live, Gives, Revokes, DeadlineOf, Keeps;
    var d := Run(history)[p];
    LiveExactly(history, p, d);
    var i: nat :| GrantedAt(history, p, d, i);
    assert i < n;
    assert GrantedAt(history[..n], p, d, i);
    LiveExactly(history[..n], p, d);
  }

  // ----- how long a grant lasts, in the words of whoever made it -----

  /** The moment comes before this deadline. */
  predicate Before(d: Deadline, now: Time) {
    match d
    case Elapsed(at) => now.elapsed < at
    case WallClock(time) => now.wall < time
    case Unattended(wall, bound) => now.wall < wall && now.elapsed < bound
    case Session => true
  }

  lemma LiveIsBefore(d: Deadline, now: Time)
    ensures Live(d, now) <==> Before(d, now)
  {}

  /** A grant made by `op` at `start` has not run out at `now`: not the lifetime that was given, counted in
      whole milliseconds, not the wall time, and for an unattended grant neither that wall time nor the
      time that was left until then. */
  predicate NotOver(op: Op, start: Time, now: Time)
    requires IsGrant(op)
  {
    match op
    case GrantFor(_, _, lifetime) => now.elapsed < Saturate(start.elapsed + Saturate(lifetime / 1_000_000))
    case GrantUntil(_, _, deadline) => now.wall < deadline
    case GrantSession(_, _) => true
    case GrantUnattendedUntil(_, _, deadline) =>
      && now.wall < deadline
      && now.elapsed < Saturate(start.elapsed + Saturate((if deadline > start.wall then deadline - start.wall else 0) / 1_000_000))
  }

  lemma DeadlineIsOver(op: Op, start: Time, now: Time)
    requires IsGrant(op)
    ensures Before(DeadlineOf(op, start), now) <==> NotOver(op, start, now)
    ensures DeadlineOf(op, start).Unattended? <==> op.GrantUnattendedUntil?
  {}

  /** The call takes the pair away, or gives it anew. */
  predicate Touches(op: Op, p: Pair, unattended: bool) {
    match op
    case GrantFor(client, secrets, _) => p.0 == client && p.1 in secrets
    case GrantUntil(client, secrets, _) => p.0 == client && p.1 in secrets
    case GrantSession(client, secrets) => p.0 == client && p.1 in secrets
    case GrantUnattendedUntil(client, secrets, _) => p.0 == client && p.1 in secrets
    case RetainUnattended => !unattended
    case RevokeClient(client) => p.0 == client
    case RevokeSecret(secret) => p.1 == secret
    case RevokePair(client, secret) => p == (client, secret)
    case RevokeAll => true
    case Observe => false
  }

  lemma UntouchedKeeps(m: Moment, p: Pair, d: Deadline)
    ensures Keeps(m, p, d) <==> !Touches(m.op, p, d.Unattended?) && (Observes(m.op) ==> Before(d, m.now))
  {
    hide Live, Before;
    LiveIsBefore(d, m.now);
  }

  /** A grant that no later call touches is there if and only if every later look at the grants came before
      it was over. */
  lemma GrantLastsExactly(history: seq<Moment>, i: nat, p: Pair)
    requires i < |history| && IsGrant(history[i].op) && p.0 == history[i].op.client && p.1 in history[i].op.secrets
    requires forall j :: i < j < |history| ==> !Touches(history[j].op, p, history[i].op.GrantUnattendedUntil?)
    ensures p in Run(history) <==>
              forall j :: i < j < |history| && Observes(history[j].op) ==> NotOver(history[i].op, history[i].now, history[j].now)
  {
    hide Run, DeadlineOf, Observes, Keeps, NotOver, Before, Touches, Gives;
    var start := history[i];
    var d := DeadlineOf(start.op, start.now);
    GivesMeans(start.op, p);
    forall j | i < j < |history|
      ensures Keeps(history[j], p, d) <==> (Observes(history[j].op) ==> NotOver(start.op, start.now, history[j].now))
    {
      DeadlineIsOver(start.op, start.now, history[j].now);
      UntouchedKeeps(history[j], p, d);
    }
    LiveExactly(history, p, d);
    if p in Run(history) {
      OnlyGrant(history, i, p, Run(history)[p]);
    } else {
      assert !GrantedAt(history, p, d, i);
    }
  }

  lemma GivesMeans(op: Op, p: Pair)
    ensures Gives(op, p) <==> IsGrant(op) && p.0 == op.client && p.1 in op.secrets
    ensures forall unattended :: Gives(op, p) ==> Touches(op, p, unattended)
  {}

  lemma GivenIsNotKept(m: Moment, p: Pair, d: Deadline)
    requires Gives(m.op, p)
    ensures !Keeps(m, p, d)
  {}

  /** A pair not given again since `i` has what `i` gave it, and came through all that followed. */
  lemma OnlyGrant(history: seq<Moment>, i: nat, p: Pair, e: Deadline)
    requires i < |history| && Gives(history[i].op, p) && p in Run(history) && Run(history)[p] == e
    requires forall j :: i < j < |history| ==> !Touches(history[j].op, p, history[i].op.GrantUnattendedUntil?)
    ensures e == DeadlineOf(history[i].op, history[i].now)
    ensures forall j :: i < j < |history| ==> Keeps(history[j], p, e)
  {
    hide Run, DeadlineOf, Observes, Live, Touches, Gives, Revokes;
    LiveExactly(history, p, e);
    var k: nat :| GrantedAt(history, p, e, k);
    GivesMeans(history[k].op, p);
    GivenIsNotKept(history[i], p, e);
  }

  // ----- the store -----

  function MissingIn(m: Table, client: Client, secrets: seq<Secret>): (r: set<Secret>) {
    set s | s in secrets && (client, s) !in m
  }

  function MissingUnattendedIn(m: Table, client: Client, secrets: seq<Secret>): (r: set<Secret>) {
    set s | s in secrets && !((client, s) in m && m[(client, s)].Unattended?)
  }

  predicate HasUnattendedIn(m: Table, client: Client) {
    exists p :: p in m && p.0 == client && m[p].Unattended?
  }

  /** The elements that satisfy `f`, in order. */
  function Filter(s: seq<Secret>, f: Secret -> bool): (r: seq<Secret>)
    ensures forall x :: x in r <==> x in s && f(x)
    decreases |s|
  {
    if s == [] then []
    else
      var front := Filter(s[..|s| - 1], f);
      if f(s[|s| - 1]) then front + [s[|s| - 1]] else front
  }

  lemma GrantAllStep(m: Table, client: Client, secrets: seq<Secret>, d: Deadline, i: nat)
    requires i < |secrets|
    ensures GrantAll(m, client, secrets[..i], d)[(client, secrets[i]) := d] == GrantAll(m, client, secrets[..i + 1], d)
  {
    assert forall s :: s in secrets[..i + 1] <==> s in secrets[..i] || s == secrets[i];
  }

  lemma PurgeTwice(m: Table, now: Time)
    ensures Purge(Purge(m, now), now) == Purge(m, now)
  {
    hide Live;
  }

  lemma MissingMeans(m: Table, client: Client, secrets: seq<Secret>)
    ensures forall s :: s in MissingIn(m, client, secrets) <==> s in secrets && (client, s) !in m
  {}

  /** A list with the elements of a set is empty when the set is. */
  lemma SameElements(list: seq<Secret>, all: set<Secret>)
    requires forall s :: s in list <==> s in all
    ensures list == [] <==> all == {}
  {
    if list != [] { assert list[0] in all; }
    if s :| s in all { assert s in list; }
  }

  lemma {:induction false} FilterAgrees(s: seq<Secret>, f: Secret -> bool, g: Secret -> bool)
    requires forall x :: x in s ==> f(x) == g(x)
    ensures Filter(s, f) == Filter(s, g)
    decreases |s|
  {
    if s != [] { FilterAgrees(s[..|s| - 1], f, g); }
  }

  class GrantStore {
    const lifetime: nat
    var deadlines: Table
    /** Every call so far. */
    ghost var history: seq<Moment>

    ghost predicate Valid() reads this`deadlines, this`history { deadlines == Run(history) }

    constructor (lifetime: nat)
      ensures Valid() && history == [] && this.lifetime == lifetime
    {
      this.lifetime := lifetime;
      deadlines := map[];
      history := [];
    }

    method PurgeExpired(now: Time)
      modifies this`deadlines
      ensures deadlines == Purge(old(deadlines), now)
    {
      deadlines := map p | p in deadlines && Live(deadlines[p], now) :: deadlines[p];
    }

    /** The loop that inserts one deadline for each secret. */
    method Insert(client: Client, secrets: seq<Secret>, d: Deadline)
      modifies this`deadlines
      ensures deadlines == GrantAll(old(deadlines), client, secrets, d)
    {
      for i := 0 to |secrets|
        invariant deadlines == GrantAll(old(deadlines), client, secrets[..i], d)
      {
        hide GrantAll;
        GrantAllStep(old(deadlines), client, secrets, d, i);
        deadlines := deadlines[(client, secrets[i]) := d];
      }
      assert secrets[..|secrets|] == secrets;
    }

    ghost method Note(op: Op, now: Time)
      requires deadlines == Do(Run(history), op, now)
      modifies this`history
      ensures Valid() && history == old(history) + [Moment(op, now)]
    {
      hide Do;
      history := history + [Moment(op, now)];
      assert history[..|history| - 1] == old(history);
    }

    method GrantFor(client: Client, secrets: seq<Secret>, lifetime: nat, now: Time)
      requires Valid()
      modifies this
      ensures Valid() && history == old(history) + [Moment(Op.GrantFor(client, secrets, lifetime), now)]
      ensures deadlines == Do(old(deadlines), Op.GrantFor(client, secrets, lifetime), now)
    {
      PurgeExpired(now);
      var deadline := Saturate(now.elapsed + Millis(lifetime));
      Insert(client, secrets, Elapsed(deadline));
      Note(Op.GrantFor(client, secrets, lifetime), now);
    }

    method Grant(client: Client, secrets: seq<Secret>, now: Time)
      requires Valid()
      modifies this
      ensures Valid() && history == old(history) + [Moment(Op.GrantFor(client, secrets, lifetime), now)]
      ensures deadlines == Do(old(deadlines), Op.GrantFor(client, secrets, lifetime), now)
    {
      GrantFor(client, secrets, lifetime, now);
    }

    method GrantUntil(client: Client, secrets: seq<Secret>, deadline: int, now: Time)
      requires Valid()
      modifies this
      ensures Valid() && history == old(history) + [Moment(Op.GrantUntil(client, secrets, deadline), now)]
      ensures deadlines == Do(old(deadlines), Op.GrantUntil(client, secrets, deadline), now)
    {
      PurgeExpired(now);
      Insert(client, secrets, WallClock(deadline));
      Note(Op.GrantUntil(client, secrets, deadline), now);
    }

    method GrantSession(client: Client, secrets: seq<Secret>, now: Time)
      requires Valid()
      modifies this
      ensures Valid() && history == old(history) + [Moment(Op.GrantSession(client, secrets), now)]
      ensures deadlines == Do(old(deadlines), Op.GrantSession(client, secrets), now)
    {
      PurgeExpired(now);
      Insert(client, secrets, Deadline.Session);
      Note(Op.GrantSession(client, secrets), now);
    }

    method GrantUnattendedUntil(client: Client, secrets: seq<Secret>, deadline: int, now: Time)
      requires Valid()
      modifies this
      ensures Valid() && history == old(history) + [Moment(Op.GrantUnattendedUntil(client, secrets, deadline), now)]
      ensures deadlines == Do(old(deadlines), Op.GrantUnattendedUntil(client, secrets, deadline), now)
    {
      PurgeExpired(now);
      var elapsed := Saturate(now.elapsed + Millis(Until(deadline, now.wall)));
      Insert(client, secrets, Unattended(deadline, elapsed));
      Note(Op.GrantUnattendedUntil(client, secrets, deadline), now);
    }

    /** A query that needs nothing but the purge. */
    method Look(now: Time)
      requires Valid()
      modifies this
      ensures Valid() && history == old(history) + [Moment(Observe, now)]
      ensures deadlines == Do(old(deadlines), Observe, now)
    {
      PurgeExpired(now);
      Note(Observe, now);
    }

    method RetainUnattended(now: Time)
      requires Valid()
      modifies this
      ensures Valid() && history == old(history) + [Moment(Op.RetainUnattended, now)]
      ensures deadlines == Do(old(deadlines), Op.RetainUnattended, now)
      ensures forall p :: p in deadlines ==> deadlines[p].Unattended?
    {
      PurgeExpired(now);
      deadlines := map p | p in deadlines && deadlines[p].Unattended? :: deadlines[p];
      Note(Op.RetainUnattended, now);
    }

    method RevokeClient(client: Client, ghost now: Time)
      requires Valid()
      modifies this
      ensures Valid() && history == old(history) + [Moment(Op.RevokeClient(client), now)]
      ensures deadlines == Do(old(deadlines), Op.RevokeClient(client), now)
      ensures forall p :: p in deadlines <==> p in old(deadlines) && p.0 != client
    {
      deadlines := map p | p in deadlines && p.0 != client :: deadlines[p];
      Note(Op.RevokeClient(client), now);
    }

    method RevokeSecret(secret: Secret, ghost now: Time)
      requires Valid()
      modifies this
      ensures Valid() && history == old(history) + [Moment(Op.RevokeSecret(secret), now)]
      ensures deadlines == Do(old(deadlines), Op.RevokeSecret(secret), now)
      ensures forall p :: p in deadlines <==> p in old(deadlines) && p.1 != secret
    {
      deadlines := map p | p in deadlines && p.1 != secret :: deadlines[p];
      Note(Op.RevokeSecret(secret), now);
    }

    method RevokeAll(ghost now: Time)
      requires Valid()
      modifies this
      ensures Valid() && deadlines == map[] && history == old(history) + [Moment(Op.RevokeAll, now)]
      ensures deadlines == Do(old(deadlines), Op.RevokeAll, now)
    {
      deadlines := map[];
      Note(Op.RevokeAll, now);
    }

    method RevokePair(client: Client, secret: Secret, now: Time) returns (revoked: bool)
      requires Valid()
      modifies this
      ensures Valid() && history == old(history) + [Moment(Op.RevokePair(client, secret), now)]
      ensures deadlines == Do(old(deadlines), Op.RevokePair(client, secret), now)
      ensures (client, secret) !in deadlines
      ensures revoked <==> (client, secret) in old(deadlines) && Live(old(deadlines)[(client, secret)], now)
    {
      PurgeExpired(now);
      revoked := (client, secret) in deadlines;
      deadlines := deadlines - {(client, secret)};
      Note(Op.RevokePair(client, secret), now);
    }

    method Missing(client: Client, secrets: seq<Secret>, now: Time) returns (r: seq<Secret>)
      requires Valid()
      modifies this
      ensures Valid() && history == old(history) + [Moment(Observe, now)]
      ensures deadlines == Do(old(deadlines), Observe, now)
      ensures forall s :: s in r <==> s in MissingIn(deadlines, client, secrets)
      ensures forall i, j :: 0 <= i < j < |r| ==> r[i] != r[j]
    {
      PurgeExpired(now);
      var m := deadlines;
      r := [];
      for i := 0 to |secrets|
        invariant forall s :: s in r <==> s in secrets[..i] && (client, s) !in m
        invariant forall i, j :: 0 <= i < j < |r| ==> r[i] != r[j]
      {
        assert secrets[..i + 1] == secrets[..i] + [secrets[i]];
        if secrets[i] !in r && (client, secrets[i]) !in m { r := r + [secrets[i]]; }
      }
      assert secrets[..|secrets|] == secrets;
      Note(Observe, now);
    }

    method MissingUnattended(client: Client, secrets: seq<Secret>, now: Time) returns (r: seq<Secret>)
      requires Valid()
      modifies this
      ensures Valid() && history == old(history) + [Moment(Observe, now)]
      ensures deadlines == Do(old(deadlines), Observe, now)
      ensures forall s :: s in r <==> s in MissingUnattendedIn(deadlines, client, secrets)
    {
      PurgeExpired(now);
      var m := deadlines;
      r := Filter(secrets, s => !((client, s) in m && m[(client, s)].Unattended?));
      Note(Observe, now);
    }

    method HasUnattended(client: Client, now: Time) returns (r: bool)
      requires Valid()
      modifies this
      ensures Valid() && history == old(history) + [Moment(Observe, now)]
      ensures deadlines == Do(old(deadlines), Observe, now)
      ensures r == HasUnattendedIn(deadlines, client)
    {
      PurgeExpired(now);
      r := HasUnattendedIn(deadlines, client);
      Note(Observe, now);
    }
  }
}
