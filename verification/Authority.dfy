/** The singleton write authority: one leased row that at most one process holds. */
module Authority {
  import opened Model
  import opened Protocol
  import opened Invariant
  import opened History
  import opened Registry
  import opened Executor
  import opened Text

  datatype Mode = Operator | Automatic

  datatype Row = Row(mode: Option<Mode>, owner: Option<Id>, target: Option<string>, expiresAt: Option<int>)

  const VACANT := Row(None, None, None, None)

  /** One call that may change the row; `at` is the time the caller has read before. */
  datatype Move =
    | Acquire(owner: Id, mode: Mode, target: string, seconds: int, at: int)
    | Release(owner: Id, mode: Mode)

  predicate Accepted(m: Move) {
    m.Acquire? ==> Normalized(m.target) && 30 <= m.seconds <= 7200
  }

  /** The condition of the update in `acquire_write_authority`. */
  predicate Admits(row: Row, owner: Id, at: int) {
    || row.owner.None? || row.expiresAt.None?
    || row.expiresAt.value <= at || row.owner == Some(owner)
  }

  predicate Grants(row: Row, m: Move) {
    m.Acquire? && Accepted(m) && Admits(row, m.owner, m.at)
  }

  function Step(row: Row, m: Move): Row {
    match m
    case Acquire(owner, mode, target, seconds, at) =>
      if Grants(row, m) then Row(Some(mode), Some(owner), Some(target), Some(at + seconds)) else row
    case Release(owner, mode) =>
      if row.owner == Some(owner) && row.mode == Some(mode) then VACANT else row
  }

  function Replay(row: Row, moves: seq<Move>): Row {
    if moves == [] then row else Step(Replay(row, moves[..|moves| - 1]), moves[|moves| - 1])
  }

  /** The condition of `assert_write_authority`. */
  predicate HeldBy(row: Row, owner: Id, mode: Mode, now: int) {
    row.owner == Some(owner) && row.mode == Some(mode) && row.expiresAt.Some? && row.expiresAt.value > now
  }

  datatype Answer<+T> = Ok(value: T) | Invalid

  class WriteAuthority {
    var mode: Option<Mode>
    var owner: Option<Id>
    var target: Option<string>
    var expiresAt: Option<int>

    function Columns(): Row
      reads this
    {
      Row(mode, owner, target, expiresAt)
    }

    constructor ()
      ensures Columns() == VACANT
    {
      mode, owner, target, expiresAt := None, None, None, None;
    }

    /** `made` is the UUID made up for a caller that brings no owner id. */
    method AcquireWriteAuthority(role: Mode, purpose: string, seconds: int, given: Option<Id>, made: Id, now: int)
      returns (r: Answer<Option<Id>>)
      modifies this
      ensures var me := if given.Some? then given.value else made;
        var m := Acquire(me, role, purpose, seconds, now);
        && Columns() == Step(old(Columns()), m)
        && r == (if !Accepted(m) then Invalid
                 else if Admits(old(Columns()), me, now) then Ok(Some(me)) else Ok(None))
      ensures r.Ok? && r.value.Some? ==> forall t :: now <= t < now + seconds ==>
        HeldBy(Columns(), r.value.value, role, t)
    {
      if !Normalized(purpose) || !(30 <= seconds <= 7200) {
        return Invalid;
      }
      var me := if given.Some? then given.value else made;
      if owner.None? || expiresAt.None? || expiresAt.value <= now || owner == Some(me) {
        mode, owner, target, expiresAt := Some(role), Some(me), Some(purpose), Some(now + seconds);
        return Ok(Some(me));
      }
      return Ok(None);
    }

    method AssertWriteAuthority(who: Id, role: Mode, now: int) returns (held: bool)
      ensures held <==> HeldBy(Columns(), who, role, now)
    {
      held := owner == Some(who) && mode == Some(role) && expiresAt.Some? && expiresAt.value > now;
    }

    method RenewWriteAuthority(who: Id, role: Mode, purpose: string, seconds: int, now: int)
      returns (r: Answer<bool>)
      modifies this
      ensures Columns() == Step(old(Columns()), Acquire(who, role, purpose, seconds, now))
      ensures r == Ok(true) <==> Grants(old(Columns()), Acquire(who, role, purpose, seconds, now))
      ensures r == Invalid <==> !Accepted(Acquire(who, role, purpose, seconds, now))
    {
      var acquired := AcquireWriteAuthority(role, purpose, seconds, Some(who), who, now);
      match acquired
      case Invalid => r := Invalid;
      case Ok(holder) => r := Ok(holder == Some(who));
    }

    method ReleaseWriteAuthority(who: Id, role: Mode) returns (released: bool)
      modifies this
      ensures Columns() == Step(old(Columns()), Release(who, role))
      ensures released <==> old(owner) == Some(who) && old(mode) == Some(role)
    {
      released := owner == Some(who) && mode == Some(role);
      if released {
        mode, owner, target, expiresAt := None, None, None, None;
      }
    }
  }

  // ------------------------------------------------------- mutual exclusion

  /** The owner changes the row itself: a new acquisition, or a release in its mode. */
  predicate OwnMove(m: Move, owner: Id, mode: Mode) {
    m.owner == owner && (m.Acquire? || m.mode == mode)
  }

  /** After a grant at `t` for `seconds`, whatever all others try before `t + seconds`,
      in whatever order, leaves the row as it is. */
  lemma {:induction false} GrantShutsOut(row: Row, grant: Move, moves: seq<Move>)
    requires Grants(row, grant)
    requires forall i :: 0 <= i < |moves| ==>
      && !OwnMove(moves[i], grant.owner, grant.mode)
      && (moves[i].Acquire? ==> moves[i].at < grant.at + grant.seconds)
    ensures Replay(Step(row, grant), moves) == Step(row, grant)
    decreases |moves|
  {
    if moves != [] {
      GrantShutsOut(row, grant, moves[..|moves| - 1]);
    }
  }

  /** So in all that time no other owner is granted the authority or found to hold it,
      and the one it was granted to is. */
  lemma OthersShutOut(row: Row, grant: Move, moves: seq<Move>, other: Move, mode: Mode, now: int)
    requires Grants(row, grant) && other.owner != grant.owner
    requires forall i :: 0 <= i < |moves| ==>
      && !OwnMove(moves[i], grant.owner, grant.mode)
      && (moves[i].Acquire? ==> moves[i].at < grant.at + grant.seconds)
    requires now < grant.at + grant.seconds && (other.Acquire? ==> other.at < grant.at + grant.seconds)
    ensures var after := Replay(Step(row, grant), moves);
      && !Grants(after, other) && Step(after, other) == after
      && !HeldBy(after, other.owner, mode, now)
      && HeldBy(after, grant.owner, grant.mode, now)
  {
    GrantShutsOut(row, grant, moves);
  }

  // ----------------------------------------- what a successful renewal proves

  /** The owner is the only one to hold the row throughout. */
  ghost predicate Sole(row: Row, moves: seq<Move>, owner: Id) {
    forall i :: 0 <= i <= |moves| ==> Replay(row, moves[..i]).owner == Some(owner)
  }

  /** What others do, round by round, each followed by one renewal of the owner. */
  function Weave(between: seq<seq<Move>>, renewals: seq<Move>): seq<Move>
    requires |between| == |renewals|
  {
    if renewals == [] then [] else between[0] + [renewals[0]] + Weave(between[1..], renewals[1..])
  }

  /** Moves of others, whose clocks are not ahead of the owner's next renewal. */
  ghost predicate ByOthers(moves: seq<Move>, owner: Id, now: int) {
    forall m :: m in moves ==> m.owner != owner && (m.Acquire? ==> m.at <= now)
  }

  ghost predicate Fair(between: seq<seq<Move>>, renewals: seq<Move>, owner: Id) {
    && |between| == |renewals|
    && forall i :: 0 <= i < |renewals| ==> renewals[i].Acquire? && ByOthers(between[i], owner, renewals[i].at)
  }

  /** Every renewal is granted. */
  ghost predicate AllGranted(row: Row, between: seq<seq<Move>>, renewals: seq<Move>)
    requires |between| == |renewals|
    decreases |renewals|
  {
    renewals == []
    || (var met := Replay(row, between[0]);
        Grants(met, renewals[0]) && AllGranted(Step(met, renewals[0]), between[1..], renewals[1..]))
  }

  /** Acquisitions of one owner. */
  predicate Renewals(first: Move, renewals: seq<Move>) {
    && first.Acquire?
    && forall m :: m in renewals ==> m.Acquire? && Accepted(m) && m.owner == first.owner
  }

  /** Each renewal comes before the owner's grant before it has run out. */
  predicate Timely(first: Move, renewals: seq<Move>)
    requires Renewals(first, renewals)
    decreases |renewals|
  {
    renewals == []
    || (renewals[0].at < first.at + first.seconds && Timely(renewals[0], renewals[1..]))
  }

  lemma {:induction false} ReplayConcat(row: Row, a: seq<Move>, b: seq<Move>)
    ensures Replay(row, a + b) == Replay(Replay(row, a), b)
    decreases |b|
  {
    if b == [] {
      assert a + b == a;
    } else {
      var n := |b| - 1;
      assert (a + b)[..|a + b| - 1] == a + b[..n];
      ReplayConcat(row, a, b[..n]);
    }
  }

  lemma ReplayOne(row: Row, moves: seq<Move>, m: Move)
    ensures Replay(row, moves + [m]) == Step(Replay(row, moves), m)
  {
    assert (moves + [m])[..|moves|] == moves;
  }

  lemma SoleConcat(row: Row, a: seq<Move>, b: seq<Move>, owner: Id)
    requires Sole(row, a, owner) && Sole(Replay(row, a), b, owner)
    ensures Sole(row, a + b, owner)
  {
    hide Replay;
    forall i | 0 <= i <= |a + b| ensures Replay(row, (a + b)[..i]).owner == Some(owner) {
      if i <= |a| {
        assert (a + b)[..i] == a[..i];
      } else {
        assert (a + b)[..i] == a + b[..i - |a|];
        ReplayConcat(row, a, b[..i - |a|]);
      }
    }
  }

  /** Until a timely renewal others cannot even touch the row. */
  lemma RoundIsSole(row: Row, grant: Move, moves: seq<Move>, renewal: Move)
    requires Grants(row, grant) && Renewals(grant, [renewal]) && renewal.at < grant.at + grant.seconds
    requires ByOthers(moves, grant.owner, renewal.at)
    ensures Replay(Step(row, grant), moves) == Step(row, grant)
    ensures Sole(Step(row, grant), moves + [renewal], grant.owner)
    ensures Grants(Step(row, grant), renewal)
  {
    assert renewal in [renewal];
    var held := Step(row, grant);
    forall i | 0 <= i <= |moves| ensures Replay(held, moves[..i]) == held {
      forall k | 0 <= k < i
        ensures !OwnMove(moves[..i][k], grant.owner, grant.mode)
        ensures moves[..i][k].Acquire? ==> moves[..i][k].at < grant.at + grant.seconds
      {
        assert moves[k] in moves;
      }
      GrantShutsOut(row, grant, moves[..i]);
    }
    assert moves[..|moves|] == moves;
    ReplayOne(held, moves, renewal);
    hide Replay;
    forall i | 0 <= i <= |moves + [renewal]| ensures Replay(held, (moves + [renewal])[..i]).owner == Some(grant.owner) {
      if i <= |moves| {
        assert (moves + [renewal])[..i] == moves[..i];
      } else {
        assert (moves + [renewal])[..i] == moves + [renewal];
      }
    }
  }

  /** An owner who renews each time before its own lease has run out is the only owner
      throughout, whatever others try in between. */
  lemma {:induction false} TimelyOwnerStays(row: Row, first: Move, renewals: seq<Move>, between: seq<seq<Move>>)
    requires Grants(row, first) && Renewals(first, renewals) && Timely(first, renewals)
    requires Fair(between, renewals, first.owner)
    ensures Sole(Step(row, first), Weave(between, renewals), first.owner)
    ensures AllGranted(Step(row, first), between, renewals)
    decreases |renewals|
  {
    if renewals == [] {
      assert Weave(between, renewals) == [];
    } else {
      var held, next := Step(row, first), renewals[0];
      RoundIsSole(row, first, between[0], next);
      ReplayOne(held, between[0], next);
      TimelyOwnerStays(held, next, renewals[1..], between[1..]);
      SoleConcat(held, between[0] + [next], Weave(between[1..], renewals[1..]), first.owner);
    }
  }

  /** What others can do once a lease has run out: take the authority and give it back. */
  function Theft(other: Id, target: string, at: int): seq<Move> {
    [Acquire(other, Automatic, target, 30, at), Release(other, Automatic)]
  }

  lemma TheftSucceeds(row: Row, grant: Move, other: Id, at: int)
    requires Grants(row, grant) && other != grant.owner && at >= grant.at + grant.seconds
    ensures var moves := Theft(other, grant.target, at);
      && ByOthers(moves, grant.owner, at)
      && Replay(Step(row, grant), moves[..1]).owner == Some(other)
      && Replay(Step(row, grant), moves) == VACANT
  {
    var held, moves := Step(row, grant), Theft(other, grant.target, at);
    ReplayOne(held, [], moves[0]);
    ReplayOne(held, [moves[0]], moves[1]);
    assert [] + [moves[0]] == moves[..1] == [moves[0]];
    assert moves == [moves[0]] + [moves[1]];
  }

  function Nothing(n: nat): seq<seq<Move>> {
    seq(n, _ => [])
  }

  /** An owner whom nobody disturbs is granted every renewal, late or not. */
  lemma {:induction false} UndisturbedIsGranted(row: Row, first: Move, renewals: seq<Move>)
    requires Grants(row, first) && Renewals(first, renewals)
    ensures AllGranted(Step(row, first), Nothing(|renewals|), renewals)
    ensures Fair(Nothing(|renewals|), renewals, first.owner)
    decreases |renewals|
  {
    if renewals != [] {
      assert Nothing(|renewals|)[1..] == Nothing(|renewals[1..]|);
      UndisturbedIsGranted(Step(row, first), renewals[0], renewals[1..]);
    }
  }

  /** A single late renewal leaves room for another owner that no renewal notices. */
  lemma {:induction false} LateOwnerIsRobbed(row: Row, first: Move, renewals: seq<Move>, other: Id)
    returns (between: seq<seq<Move>>)
    requires Grants(row, first) && Renewals(first, renewals) && !Timely(first, renewals) && other != first.owner
    ensures Fair(between, renewals, first.owner) && AllGranted(Step(row, first), between, renewals)
    ensures !Sole(Step(row, first), Weave(between, renewals), first.owner)
    decreases |renewals|
  {
    var held, next, rest := Step(row, first), renewals[0], renewals[1..];
    if next.at >= first.at + first.seconds {
      var theft := Theft(other, first.target, next.at);
      TheftSucceeds(row, first, other, next.at);
      UndisturbedIsGranted(VACANT, next, rest);
      between := [theft] + Nothing(|rest|);
      assert between[1..] == Nothing(|rest|);
      assert Weave(between, renewals)[..1] == theft[..1];
      assert Replay(held, Weave(between, renewals)[..1]).owner != Some(first.owner);
    } else {
      var more := LateOwnerIsRobbed(held, next, rest, other);
      between := [[]] + more;
      assert between[1..] == more;
      assert Weave(between, renewals) == [next] + Weave(more, rest);
      var i :| 0 <= i <= |Weave(more, rest)|
        && Replay(Step(held, next), Weave(more, rest)[..i]).owner != Some(first.owner);
      var moves := Weave(between, renewals);
      assert moves[..i + 1] == [next] + Weave(more, rest)[..i];
      ReplayConcat(held, [next], Weave(more, rest)[..i]);
      ReplayOne(held, [], next);
      assert [] + [next] == [next];
    }
  }

  /** So renewals that have all been granted prove that nobody else has held the authority
      in between, exactly if each of them came before the owner's own lease had run out:
      the update asks for the owner, not for the lease, so it cannot tell a late renewal. */
  lemma RenewalsProveIff(row: Row, first: Move, renewals: seq<Move>, other: Id)
    requires Grants(row, first) && Renewals(first, renewals) && other != first.owner
    ensures
      (forall between :: Fair(between, renewals, first.owner) && AllGranted(Step(row, first), between, renewals) ==>
        Sole(Step(row, first), Weave(between, renewals), first.owner))
      <==> Timely(first, renewals)
  {
    hide Fair, AllGranted, Sole, Weave, Timely, Step;
    if Timely(first, renewals) {
      forall between | Fair(between, renewals, first.owner)
        ensures |between| == |renewals| && Sole(Step(row, first), Weave(between, renewals), first.owner)
      {
        FairIsLong(between, renewals, first.owner);
        TimelyOwnerStays(row, first, renewals, between);
      }
    } else {
      var between := LateOwnerIsRobbed(row, first, renewals, other);
    }
  }

  lemma FairIsLong(between: seq<seq<Move>>, renewals: seq<Move>, owner: Id)
    requires Fair(between, renewals, owner)
    ensures |between| == |renewals|
  {
  }

  /** The concrete case: renewing late is granted, though another owner has come and gone. */
  lemma RenewalIsNoFence(a: Id, b: Id, target: string)
    requires a != b && Normalized(target)
    ensures var taken := Step(VACANT, Acquire(a, Operator, target, 30, 0));
      var lost := Step(taken, Acquire(b, Automatic, target, 30, 40));
      var vacated := Step(lost, Release(b, Automatic));
      var renewed := Acquire(a, Operator, target, 30, 50);
      && HeldBy(taken, a, Operator, 29)
      && HeldBy(lost, b, Automatic, 41)
      && Grants(vacated, renewed) && HeldBy(Step(vacated, renewed), a, Operator, 51)
  {
  }

  // ---------------------------------------------------- the callback's guard

  function OperatorTarget(cluster: string, vmid: int): string {
    cluster + ":" + IntText(vmid)
  }

  const CALLBACK_TARGETS := {"adoption_executor", "route:execute_adoption_claim",
                             "route:reconcile_adoption_execution"}

  lemma LastColon(a: string, x: string, b: string, y: string)
    requires ':' !in x && ':' !in y && a + ":" + x == b + ":" + y
    ensures |a| <= |b|
  {
    var s := a + ":" + x;
    assert s[|a|] == ':';
    assert s == b + ":" + y;
    assert forall k :: |b| < k < |s| ==> s[k] == y[k - |b| - 1];
  }

  /** The target text of an operator names one guest only, even though a cluster name may
      itself contain colons. */
  lemma TargetNamesGuest(c: string, m: int, d: string, n: int)
    requires OperatorTarget(c, m) == OperatorTarget(d, n)
    ensures c == d && m == n
  {
    IntTextHasNoColon(m);
    IntTextHasNoColon(n);
    LastColon(c, IntText(m), d, IntText(n));
    LastColon(d, IntText(n), c, IntText(m));
    var s := OperatorTarget(c, m);
    assert c == s[..|c|] && d == s[..|d|];
    assert IntText(m) == s[|c| + 1..] && IntText(n) == s[|d| + 1..];
    IntTextInjective(m, n);
  }

  predicate AuthorityServes(row: Row, now: int, guest: Guest) {
    && row.owner.Some? && row.expiresAt.Some? && row.expiresAt.value > now
    && (|| (row.mode == Some(Operator) && row.target == Some(OperatorTarget(guest.cluster, guest.vmid)))
        || (row.mode == Some(Automatic) && row.target.Some? && row.target.value in CALLBACK_TARGETS))
  }

  predicate ExactClaim(w: World, claim: Id, generation: int, guest: Guest, vmRef: Id, instance: string) {
    && claim in w.claims && w.claims[claim].generation == generation && w.claims[claim].guest == guest
    && (|| w.claims[claim].state == Reserved
        || (w.claims[claim].state == Bound && w.claims[claim].vmRef == Some(vmRef)
            && w.claims[claim].instance == Some(instance)))
  }

  predicate ExactExecution(w: World, claim: Id, generation: int, vmRef: Id, instance: string, proof: CallbackProof) {
    && ForClaim(w, vmRef, claim, generation)
    && w.execs[vmRef].state in {DeploySubmitting, DeploySubmitted, SubmissionUnknown, DeploySucceeded,
                                StartSubmitting, StartSubmitted, StartUnknown}
    && w.execs[vmRef].vmRef in {None, Some(vmRef)} && w.execs[vmRef].instance in {None, Some(instance)}
    && ProofMatches(Some(w.execs[vmRef]), proof)
  }

  /** `assert_operator_bind_callback_authority` */
  predicate CallbackAllowed(row: Row, now: int, w: World, claim: Id, generation: int, guest: Guest,
                            vmRef: Id, instance: string, proof: CallbackProof)
  {
    && AuthorityServes(row, now, guest)
    && ExactClaim(w, claim, generation, guest, vmRef, instance)
    && ExactExecution(w, claim, generation, vmRef, instance, proof)
  }

  lemma OneForClaim(w: World, claim: Id, generation: int, e: Id)
    requires Inv(w) && ForClaim(w, e, claim, generation)
    ensures forall d: Id :: ForClaim(w, d, claim, generation) <==> d == e
  {
    hide Inv;
    forall d: Id | ForClaim(w, d, claim, generation) ensures d == e {
      OneExecution(w, e, Some(d), claim, generation);
    }
  }

  /** The claim is bound to the one execution of this generation, and `proof` is of its plan. */
  ghost predicate BoundToOwn(w: World, claim: Id, generation: int, guest: Guest, vmRef: Id,
                             instance: string, proof: CallbackProof)
  {
    && BoundTo(w, claim, generation, guest, vmRef, instance)
    && vmRef in w.execs && (forall e: Id :: ForClaim(w, e, claim, generation) <==> e == vmRef)
    && ProofMatches(Some(w.execs[vmRef]), proof)
  }

  /** A bind that the guard admitted, and that takes effect at any later time, binds the
      claim to the one execution of its own current generation, whose plan the caller has
      proved to know. */
  lemma AdmittedBindIsOwn(row: Row, now: int, w: World, v: World, claim: Id, generation: int,
                          guest: Guest, vmRef: Id, instance: string, proof: CallbackProof)
    requires Inv(w) && Inv(v) && Later(w, v)
    requires CallbackAllowed(row, now, w, claim, generation, guest, vmRef, instance, proof)
    requires Enabled(v, Protocol.Registry(Bind(claim, generation, guest.manifest, vmRef, instance)))
    ensures BoundToOwn(Apply(v, Protocol.Registry(Bind(claim, generation, guest.manifest, vmRef, instance))),
                       claim, generation, guest, vmRef, instance, proof)
  {
    hide Inv, Later, Apply, Enabled, ForClaim, ExactExecution, ExactClaim, AuthorityServes, ProofMatches, BoundTo;
    ProofStays(w, v, claim, generation, vmRef, instance, proof);
    OneForClaim(v, claim, generation, vmRef);
    BindBinds(w, v, claim, generation, guest, vmRef, instance);
    SameExecutions(v, Apply(v, Protocol.Registry(Bind(claim, generation, guest.manifest, vmRef, instance))),
                   claim, generation);
  }

  lemma ProofStays(w: World, v: World, claim: Id, generation: int, vmRef: Id, instance: string,
                   proof: CallbackProof)
    requires Later(w, v) && ExactExecution(w, claim, generation, vmRef, instance, proof)
    ensures ForClaim(v, vmRef, claim, generation) && ProofMatches(Some(v.execs[vmRef]), proof)
  {
    RowLater(w, v, vmRef);
  }

  lemma BindBinds(w: World, v: World, claim: Id, generation: int, guest: Guest, vmRef: Id, instance: string)
    requires Later(w, v) && ExactClaim(w, claim, generation, guest, vmRef, instance)
    requires Enabled(v, Protocol.Registry(Bind(claim, generation, guest.manifest, vmRef, instance)))
    ensures var u := Apply(v, Protocol.Registry(Bind(claim, generation, guest.manifest, vmRef, instance)));
      u.execs == v.execs && BoundTo(u, claim, generation, guest, vmRef, instance)
  {
    hide Later, Apply, Enabled;
    ClaimLater(w, v, claim);
    BindKeeps(v, Bind(claim, generation, guest.manifest, vmRef, instance));
  }

  lemma SameExecutions(w: World, v: World, claim: Id, generation: int)
    requires v.execs == w.execs
    ensures forall e: Id :: ForClaim(v, e, claim, generation) <==> ForClaim(w, e, claim, generation)
    ensures forall e: Id :: ForClaim(v, e, claim, generation) ==> e in v.execs
  {
  }

  lemma BindKeeps(w: World, ev: RegistryEvent)
    requires ev.Bind? && Enabled(w, Protocol.Registry(ev))
    ensures At(w, ev.claim, ev.generation, Reserved) && w.claims[ev.claim].guest.manifest == ev.manifest
    ensures var v := Apply(w, Protocol.Registry(ev));
      && v.execs == w.execs && v.claims.Keys == w.claims.Keys
      && v.claims[ev.claim] == w.claims[ev.claim].(state := Bound, vmRef := Some(ev.vmRef),
                                                   instance := Some(ev.instance))
  {
  }

  /** Without the guard a bind need not name an execution at all: the registry asks for no
      proof then, and accepts any VM that no other claim refers to. */
  lemma BindAloneProvesNothing(w: World, claim: Id, generation: int, vmRef: Id, instance: string)
    requires At(w, claim, generation, Reserved) && w.claims[claim].vmRef.None?
    requires FreeVmRef(w, claim, vmRef) && vmRef !in w.execs
    ensures var bind := Protocol.Registry(Bind(claim, generation, w.claims[claim].guest.manifest, vmRef, instance));
      && ProofMatches(ExecutionOf(w, vmRef, claim, generation), CallbackProof(None, None))
      && Enabled(w, bind) && At(Apply(w, bind), claim, generation, Bound)
      && Apply(w, bind).claims[claim].vmRef == Some(vmRef) && vmRef !in Apply(w, bind).execs
  {
  }

  /** The registry lets this bind through: it brings the proof, and its update matches. */
  predicate LetThrough(w: World, bind: RegistryEvent, proof: CallbackProof) {
    && bind.Bind? && Enabled(w, Protocol.Registry(bind))
    && ProofMatches(ExecutionOf(w, bind.vmRef, bind.claim, bind.generation), proof)
  }

  /** In every reachable state, what the registry lets through with this proof is the
      execution of the claim's generation. */
  ghost predicate Identifies(proof: CallbackProof) {
    forall events: seq<Event>, bind: RegistryEvent ::
      bind.Bind? && LetThrough(Run(EMPTY_WORLD, events), bind, proof) ==>
      ForClaim(Run(EMPTY_WORLD, events), bind.vmRef, bind.claim, bind.generation)
  }

  lemma ProofNames(w: World, bind: RegistryEvent, proof: CallbackProof)
    requires LetThrough(w, bind, proof) && proof != CallbackProof(None, None)
    ensures ForClaim(w, bind.vmRef, bind.claim, bind.generation)
  {
    hide Enabled;
  }

  lemma FreshClaimIsBare(guest: Guest, json: string)
    requires guest.manifest == Sha256(json)
    ensures var w := Run(EMPTY_WORLD, [Protocol.Registry(InsertClaim(0, guest, json))]);
      At(w, 0, 1, Reserved) && w.claims[0].guest == guest && w.claims.Keys == {0}
      && w.claims[0].vmRef.None? && w.execs == map[]
  {
    var insert := Protocol.Registry(InsertClaim(0, guest, json));
    RunStep(EMPTY_WORLD, [], insert);
    assert [] + [insert] == [insert];
  }

  /** So a bind without the guard names an execution of its own generation exactly if the
      callback brings a proof at all. */
  lemma ProofIdentifiesIff(proof: CallbackProof)
    ensures Identifies(proof) <==> proof != CallbackProof(None, None)
  {
    hide Run, LetThrough, ForClaim;
    if proof == CallbackProof(None, None) {
      var guest := Guest("c", "n", 1, Sha256("m"));
      var events := [Protocol.Registry(InsertClaim(0, guest, "m"))];
      var w := Run(EMPTY_WORLD, events);
      FreshClaimIsBare(guest, "m");
      var bind := Bind(0, 1, guest.manifest, 1, "i");
      BareBindPasses(w, bind);
    } else {
      forall events: seq<Event>, bind: RegistryEvent
        | bind.Bind? && LetThrough(Run(EMPTY_WORLD, events), bind, proof)
        ensures ForClaim(Run(EMPTY_WORLD, events), bind.vmRef, bind.claim, bind.generation)
      {
        ProofNames(Run(EMPTY_WORLD, events), bind, proof);
      }
    }
  }

  lemma BareBindPasses(w: World, bind: RegistryEvent)
    requires bind.Bind? && At(w, bind.claim, bind.generation, Reserved)
    requires w.claims[bind.claim].guest.manifest == bind.manifest && w.claims[bind.claim].vmRef.None?
    requires w.claims.Keys == {bind.claim} && w.execs == map[]
    ensures LetThrough(w, bind, CallbackProof(None, None))
    ensures !ForClaim(w, bind.vmRef, bind.claim, bind.generation)
  {
    BindAloneProvesNothing(w, bind.claim, bind.generation, bind.vmRef, bind.instance);
  }
}
