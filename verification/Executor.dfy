/** The executor's calls: creating and leasing an execution, explicit operator requests,
    and the transactional end of a cleanup. */
module Executor {
  import opened Model
  import opened WorkerStep
  import opened Protocol
  import opened Invariant
  import opened WorkInvariant
  import opened History
  import opened Progress
  import opened Database
  import opened Registry

  lemma RowLater(w: World, v: World, e: Id)
    requires Later(w, v) && e in w.execs
    ensures e in v.execs && RowFollows(w.execs[e], v.execs[e])
  {
  }

  // --------------------------------------------------------------- creating

  /** The execution of this claim generation, made from exactly this plan. */
  predicate Runs(w: World, e: Id, claim: Id, generation: int, plan: Plan) {
    && e in w.execs && w.execs[e].claim == claim && w.execs[e].generation == generation
    && w.execs[e].plan.json == plan.json
  }

  lemma CreateEffect(w: World, ev: WorkEvent)
    requires ev.CreateExecution? && Enabled(w, Work(ev))
    ensures Runs(Apply(w, Work(ev)), ev.exec, ev.claim, ev.generation, ev.plan)
  {
  }

  lemma CreateAlwaysAnswers(w: World, ev: WorkEvent)
    requires ev.CreateExecution? && ev.claim in w.claims
    requires 1 <= ev.generation <= w.claims[ev.claim].generation
    ensures Enabled(w, Work(ev)) || Violates(w, Work(ev))
  {
  }

  predicate ForClaim(w: World, e: Id, claim: Id, generation: int) {
    e in w.execs && w.execs[e].claim == claim && w.execs[e].generation == generation
  }

  lemma ForClaimStays(w: World, v: World, e: Id, claim: Id, generation: int)
    requires Later(w, v) && ForClaim(w, e, claim, generation)
    ensures ForClaim(v, e, claim, generation) && v.execs[e].plan == w.execs[e].plan
  {
    RowLater(w, v, e);
  }

  /** The row of the claim generation, if there is one by now; there is never a second. */
  method FindExecution(db: Database, claim: Id, generation: int) returns (found: Option<Id>)
    requires db.Valid()
    modifies db`world, db`trace
    ensures db.Valid() && old(db.trace) <= db.trace && Later(old(db.world), db.world)
    ensures found.Some? ==> ForClaim(db.world, found.value, claim, generation)
    ensures forall e: Id :: ForClaim(old(db.world), e, claim, generation) ==> found == Some(e)
  {
    hide Inv, Later, Run;
    ghost var w := db.world;
    db.Interfere();
    if e: Id :| e in db.world.execs && ForClaim(db.world, e, claim, generation) {
      found := Some(e);
    } else {
      found := None;
    }
    forall e: Id | ForClaim(w, e, claim, generation) ensures found == Some(e) {
      ForClaimStays(w, db.world, e, claim, generation);
      OneExecution(db.world, e, found, claim, generation);
    }
  }

  lemma OneExecution(w: World, e: Id, found: Option<Id>, claim: Id, generation: int)
    requires Inv(w) && ForClaim(w, e, claim, generation)
    requires found.Some? ==> ForClaim(w, found.value, claim, generation)
    ensures found.Some? ==> found == Some(e)
  {
  }

  method TryCreate(db: Database, exec: Id, claim: Id, generation: int, plan: Plan)
    returns (pass: Pass<Id>, ghost applied: bool)
    requires db.Valid() && claim in db.world.claims
    modifies db
    ensures db.Valid() && old(db.trace) <= db.trace && claim in db.world.claims
    ensures pass == Again ==> !applied
    ensures db.own == Recorded(old(db.own), applied, Work(CreateExecution(exec, claim, generation, plan)))
    ensures db.tries <= old(db.tries) + 1
    ensures applied && pass.result.Ok? ==> pass.result.value == exec
    ensures pass.Finish? && pass.result.Ok? ==> Runs(db.world, pass.result.value, claim, generation, plan)
  {
    hide Inv, Later, Run, Apply, Enabled, Violates;
    applied := false;
    ghost var w := db.world;
    var existing := FindExecution(db, claim, generation);
    ClaimLater(w, db.world, claim);
    var c := db.world.claims[claim];
    if c.generation != generation || c.state != Reserved {
      return Finish(Err(Conflict)), applied;
    }
    if existing.Some? {
      return Finish(if db.world.execs[existing.value].plan.json == plan.json
                    then Ok(existing.value) else Err(Conflict)), applied;
    }
    ghost var x := db.world;
    assert 1 <= generation by { ClaimFacts(x, claim); }
    var held := db.Guard();
    ClaimLater(x, db.world, claim);
    if !held {
      return Finish(Err(AuthorityLost)), applied;
    }
    ghost var u := db.world;
    var create := CreateExecution(exec, claim, generation, plan);
    var outcome;
    outcome, applied := db.Submit(Work(create));
    CreateAlwaysAnswers(u, create);
    ClaimLater(u, db.world, claim);
    if applied {
      CreateEffect(u, create);
    }
    ghost var v := db.world;
    assert applied ==> ForClaim(v, exec, claim, generation);
    var winner := FindExecution(db, claim, generation);
    ClaimLater(v, db.world, claim);
    if applied {
      ForClaimStays(v, db.world, exec, claim, generation);
    }
    if outcome == Fatal {
      return Finish(Err(DatabaseFailed)), applied;
    }
    if outcome == Committed {
      return Finish(Ok(exec)), applied;
    }
    if winner.Some? {
      return Finish(if db.world.execs[winner.value].plan.json == plan.json
                    then Ok(winner.value) else Err(Conflict)), applied;
    }
    return (if outcome == Duplicate then Finish(Err(Conflict)) else Again), applied;
  }

  /** Success names the one execution of the claim generation, which runs exactly this
      plan. Of at most three commits one at most takes effect, and then the answer is the
      row it made. */
  method CreateExecutionFor(db: Database, claim: Id, generation: int, plan: Plan)
    returns (r: Result<Id>, ghost commits: nat, ghost made: Id)
    requires db.Valid()
    modifies db
    ensures db.Valid() && old(db.trace) <= db.trace
    ensures commits <= 1 && db.tries <= old(db.tries) + ATTEMPTS
    ensures db.own == Recorded(old(db.own), commits == 1,
      Work(CreateExecution(made, claim, generation, plan)))
    ensures r.Ok? ==> Runs(db.world, r.value, claim, generation, plan)
    ensures r.Ok? && commits == 1 ==> r.value == made
  {
    hide Inv, Later, Run;
    commits, made := 0, 0;
    db.Interfere();
    if claim !in db.world.claims {
      return Err(Invalid), commits, made;
    }
    var exec := FreshId(db);
    made := exec;
    var attempt := 0;
    while attempt < ATTEMPTS
      invariant db.Valid() && old(db.trace) <= db.trace && commits == 0
      invariant db.own == old(db.own) && db.tries <= old(db.tries) + attempt && attempt <= ATTEMPTS
      invariant claim in db.world.claims && made == exec
    {
      var pass, applied := TryCreate(db, exec, claim, generation, plan);
      commits := if applied then 1 else 0;
      if pass.Finish? {
        return pass.result, commits, made;
      }
      attempt := attempt + 1;
    }
    return Err(Conflict), commits, made;
  }

  // ---------------------------------------------------------------- leasing

  predicate Leased(w: World, e: Id, lease: Id) {
    && e in w.execs && Active(w.execs[e].state)
    && w.execs[e].lease.Some? && w.execs[e].lease.value.id == lease
    && lease in w.leaseFor && w.leaseFor[lease] == e
  }

  /** The lease UUID has been made up for this row, and no work has begun under it. */
  predicate Minted(w: World, e: Id, lease: Id) {
    lease in w.leaseFor && w.leaseFor[lease] == e && lease !in w.workers
  }

  lemma MintedStays(w: World, v: World, e: Id, lease: Id)
    requires Later(w, v) && SameCall(w, v, lease) && Minted(w, e, lease)
    ensures Minted(v, e, lease)
  {
  }

  lemma AcquireEffect(w: World, e: Id, lease: Id, at: int, seconds: int)
    requires Inv(w) && Minted(w, e, lease)
    requires Enabled(w, Work(AcquireExecution(lease, at, seconds)))
    ensures Minted(Apply(w, Work(AcquireExecution(lease, at, seconds))), e, lease)
  {
    hide Inv;
  }

  predicate IsLeasing(ev: Event, lease: Id, seconds: int) {
    ev.Work? && ev.work.AcquireExecution? && ev.work.lease == lease && ev.work.seconds == seconds
  }

  /** Nothing, or a lease made up for this row and then nothing but leasings of the row under
      it, at most one for each attempt. */
  predicate Leases(before: seq<Event>, after: seq<Event>, e: Id, lease: Id, seconds: int) {
    || after == before
    || (&& before < after && |after| <= |before| + 1 + ATTEMPTS
        && after[|before|] == Work(MintWorkerLease(lease, e))
        && forall i :: |before| < i < |after| ==> IsLeasing(after[i], lease, seconds))
  }

  lemma LeasesAreSilent(before: seq<Event>, after: seq<Event>, e: Id, lease: Id, seconds: int)
    requires Leases(before, after, e, lease, seconds)
    ensures Silent(before, after)
  {
  }

  method TryLease(db: Database, e: Id, lease: Id, seconds: int) returns (pass: Pass<Option<Id>>)
    requires db.Valid() && Minted(db.world, e, lease)
    modifies db
    ensures db.Valid() && old(db.trace) <= db.trace && Later(old(db.world), db.world)
    ensures Minted(db.world, e, lease)
    ensures old(db.own) <= db.own && |db.own| <= |old(db.own)| + 1 && db.tries <= old(db.tries) + 1
    ensures |db.own| > |old(db.own)| ==> IsLeasing(db.own[|old(db.own)|], lease, seconds)
    ensures pass.Finish? && pass.result.Ok? && pass.result.value.Some? ==>
      pass.result.value.value == lease && Leased(db.world, e, lease)
  {
    hide Inv, Later, Run, Apply, Enabled, Violates;
    var now := db.world.now;
    ghost var w := db.world;
    var held := db.GuardWith(lease);
    MintedStays(w, db.world, e, lease);
    if !held {
      return Finish(Err(AuthorityLost));
    }
    ghost var u := db.world;
    var outcome, applied := db.Submit(Work(AcquireExecution(lease, now, seconds)));
    LaterTransitive(w, u, db.world);
    if applied {
      AcquireEffect(u, e, lease, now, seconds);
    }
    if outcome == Fatal {
      return Finish(Err(DatabaseFailed));
    }
    ghost var v := db.world;
    db.InterfereWith(lease);
    LaterTransitive(w, v, db.world);
    MintedStays(v, db.world, e, lease);
    if e !in db.world.execs || !Active(db.world.execs[e].state) {
      return Finish(Ok(None));
    }
    var row := db.world.execs[e];
    if row.lease.Some? && row.lease.value.id == lease {
      return Finish(Ok(Some(lease)));
    }
    if row.lease.Some? && row.lease.value.expiresAt >= db.world.now {
      return Finish(Ok(None));
    }
    return Again;
  }

  lemma MintEffect(w: World, lease: Id, e: Id)
    requires Inv(w) && lease !in w.issued && e in w.execs
    ensures Enabled(w, Work(MintWorkerLease(lease, e)))
    ensures Minted(Apply(w, Work(MintWorkerLease(lease, e))), e, lease)
  {
    hide Inv;
    Issued(w);
    if lease in w.workers {
      WorkerFacts(w, lease);
    }
    MintIs(w, lease, e);
  }

  lemma MintIs(w: World, lease: Id, e: Id)
    requires lease !in w.issued && e in w.execs && lease !in w.workers
    ensures Enabled(w, Work(MintWorkerLease(lease, e)))
    ensures Minted(Apply(w, Work(MintWorkerLease(lease, e))), e, lease)
  {
  }

  /** `Some(lease)` means that the row is active and leased to this caller alone, under the
      one lease that the call has made up. It does nothing but lease the row under it. */
  method AcquireExecutionLease(db: Database, e: Id, seconds: int)
    returns (r: Result<Option<Id>>, ghost made: Id)
    requires db.Valid()
    modifies db
    ensures db.Valid() && old(db.trace) <= db.trace && Later(old(db.world), db.world)
    ensures Leases(old(db.own), db.own, e, made, seconds) && db.tries <= old(db.tries) + ATTEMPTS
    ensures r.Ok? && r.value.Some? ==>
      r.value.value == made && Leased(db.world, e, made) && Minted(db.world, e, made)
  {
    hide Inv, Later, Run, Apply, Enabled;
    made := 0;
    ghost var w := db.world;
    LaterAlone(w, 0);
    if e !in db.world.execs {
      return Ok(None), made;
    }
    var lease := FreshId(db);
    made := lease;
    MintEffect(db.world, lease, e);
    db.Perform(Work(MintWorkerLease(lease, e)));
    var attempt := 0;
    while attempt < ATTEMPTS
      invariant db.Valid() && old(db.trace) <= db.trace && Later(w, db.world)
      invariant db.tries <= old(db.tries) + attempt && attempt <= ATTEMPTS
      invariant old(db.own) < db.own && |db.own| <= |old(db.own)| + 1 + attempt
      invariant db.own[|old(db.own)|] == Work(MintWorkerLease(lease, e))
      invariant forall i :: |old(db.own)| < i < |db.own| ==> IsLeasing(db.own[i], lease, seconds)
      invariant Minted(db.world, e, lease)
    {
      ghost var u := db.world;
      var pass := TryLease(db, e, lease, seconds);
      LaterTransitive(w, u, db.world);
      if pass.Finish? {
        return pass.result, made;
      }
      attempt := attempt + 1;
    }
    return Ok(None), made;
  }

  // --------------------------------------------------------- explicit retry

  /** `_claim_is_bound` */
  predicate ClaimIsBound(w: World, e: Id)
    requires e in w.execs
  {
    var row := w.execs[e];
    && row.claim in w.claims && w.claims[row.claim].generation == row.generation
    && w.claims[row.claim].state in {Bound, Managed} && w.claims[row.claim].vmRef == Some(e)
  }

  /** The claim is still reserved, and bound to nothing. */
  predicate ClaimIsFree(w: World, e: Id)
    requires e in w.execs
  {
    var row := w.execs[e];
    row.claim in w.claims && w.claims[row.claim].state == Reserved && Unbound(w.claims[row.claim])
  }

  /** The state an operator's retry moves to, given the live VM and the claim. */
  function RetryTarget(w: World, e: Id, state: ExecState, vms: Sighting): (to: Option<ExecState>)
    requires e in w.execs
    ensures to.Some? ==> RetryEdge(state, to.value)
    ensures to == Some(Planned) <==> state == SubmissionUnknown && vms == Absent
    ensures to == Some(Verifying) <==> state == StartUnknown && vms.Exact? && vms.power == RunningVm
    ensures to == Some(DeploySucceeded) <==>
      && Stopped(vms)
      && (state == SubmissionUnknown || (state == StartUnknown && (ClaimIsFree(w, e) || ClaimIsBound(w, e))))
  {
    match state
    case SubmissionUnknown =>
      (match vms
       case Absent => Some(Planned)
       case Exact(StoppedVm, _) => Some(DeploySucceeded)
       case _ => None)
    case StartUnknown =>
      (match vms
       case Exact(RunningVm, _) => Some(Verifying)
       case Exact(StoppedVm, _) =>
         if ClaimIsFree(w, e) || ClaimIsBound(w, e) then Some(DeploySucceeded) else None
       case _ => None)
    case _ => None
  }

  predicate Idle(w: World, e: Id, s: ExecState) {
    InState(w, e, s) && w.execs[e].lease.None?
  }

  lemma RetryExits(w: World, e: Id, was: ExecState, to: ExecState)
    requires Enabled(w, Request(Retry(e, was, to)))
    ensures Exits(w, Request(Retry(e, was, to)), e, was)
    ensures InState(Apply(w, Request(Retry(e, was, to))), e, to)
  {
  }

  method TryRetry(db: Database, e: Id, was: ExecState, to: ExecState)
    returns (pass: Pass<Execution>, ghost applied: bool)
    requires db.Valid() && e in db.world.execs
    modifies db
    ensures db.Valid() && old(db.trace) <= db.trace && Later(old(db.world), db.world)
    ensures e in db.world.execs
    ensures db.own == Recorded(old(db.own), applied, Request(Retry(e, was, to)))
    ensures db.tries <= old(db.tries) + 1
    ensures applied ==> RetryEdge(was, to)
    ensures CountExits(db.start, old(db.trace), e, was) + Unspent(applied)
         <= CountExits(db.start, db.trace, e, was)
    ensures pass.Finish? && pass.result.Ok? ==>
      && pass.result.value == db.world.execs[e]
      && db.world.execs[e].state == to && db.world.execs[e].lease.None?
  {
    hide Inv, Later, Run, Apply, Enabled, Violates, CountExits, Exits;
    applied := false;
    ghost var t := db.trace;
    ghost var w := db.world;
    var held := db.Guard();
    RowLater(w, db.world, e);
    ExitsGrow(db.start, t, db.trace, e, was);
    if !held {
      return Finish(Err(AuthorityLost)), applied;
    }
    ghost var u := db.world;
    t := db.trace;
    var outcome;
    outcome, applied := db.Submit(Request(Retry(e, was, to)));
    if applied {
      RetryIsEdge(u, e, was, to);
      RetryExits(u, e, was, to);
      ExitCounted(db.start, t, Request(Retry(e, was, to)), e, was);
    }
    RowLater(u, db.world, e);
    LaterTransitive(w, u, db.world);
    if outcome == Fatal {
      return Finish(Err(DatabaseFailed)), applied;
    }
    ghost var v := db.world;
    t := db.trace;
    db.Interfere();
    ExitsGrow(db.start, t, db.trace, e, was);
    RowLater(v, db.world, e);
    LaterTransitive(w, v, db.world);
    var current := db.world.execs[e];
    if current.state == to && current.lease.None? {
      return Finish(Ok(current)), applied;
    }
    if current.state == was && current.lease.None? {
      return Again, applied;
    }
    return Finish(Err(Conflict)), applied;
  }

  lemma RetryIsEdge(w: World, e: Id, was: ExecState, to: ExecState)
    requires Enabled(w, Request(Retry(e, was, to)))
    ensures RetryEdge(was, to)
  {
  }

  /** Leaving a state `n` times takes as many returns to it, but for the first. */
  lemma ReturnsBound(w: World, before: seq<Event>, after: seq<Event>, e: Id, s: ExecState, n: nat)
    requires CountExits(w, before, e, s) + n <= CountExits(w, after, e, s)
    ensures CountEntries(w, before, e, s) + n <= 1 + CountEntries(w, after, e, s)
  {
    hide InState;
    VisitBalance(w, before, e, s);
    VisitBalance(w, after, e, s);
  }

  method RetryLoop(db: Database, e: Id, was: ExecState, to: ExecState)
    returns (r: Result<Execution>, ghost applied: nat)
    requires db.Valid() && e in db.world.execs
    modifies db
    ensures db.Valid() && old(db.trace) <= db.trace && Later(old(db.world), db.world)
    ensures r.Ok? ==> Idle(db.world, e, to) && r.value == db.world.execs[e]
    ensures Repeated(old(db.own), db.own, applied, Request(Retry(e, was, to)))
    ensures applied <= ATTEMPTS && db.tries <= old(db.tries) + ATTEMPTS
    ensures CountEntries(db.start, old(db.trace), e, was) + applied
         <= 1 + CountEntries(db.start, db.trace, e, was)
  {
    hide Inv, Later, Run, CountExits, CountEntries;
    applied := 0;
    ghost var w, t := db.world, db.trace;
    LaterAlone(w, 0);
    ExitsGrow(db.start, t, t, e, was);
    var attempt := 0;
    while attempt < ATTEMPTS
      invariant db.Valid() && old(db.trace) <= db.trace && e in db.world.execs
      invariant Later(w, db.world)
      invariant applied <= attempt <= ATTEMPTS && db.tries <= old(db.tries) + attempt
      invariant Repeated(old(db.own), db.own, applied, Request(Retry(e, was, to)))
      invariant CountExits(db.start, t, e, was) + applied <= CountExits(db.start, db.trace, e, was)
    {
      ghost var u := db.world;
      var pass;
      ghost var took;
      pass, took := TryRetry(db, e, was, to);
      LaterTransitive(w, u, db.world);
      applied := applied + Unspent(took);
      if pass.Finish? {
        ReturnsBound(db.start, t, db.trace, e, was, applied);
        return pass.result, applied;
      }
      attempt := attempt + 1;
    }
    ReturnsBound(db.start, t, db.trace, e, was, applied);
    return Err(Conflict), applied;
  }

  /** Success means the row is idle in the state the retry was to move it to: `was` is what
      it was in when the call began, and the target follows from the live VM and the claim as
      they stood in `judged`. The call makes this one transition and no other. It may make it
      more than once, but at most once more than others put the row back into `was`
      meanwhile: the transition itself leaves that state. */
  method RequestExecutionRetry(db: Database, e: Id, vms: Sighting)
    returns (r: Result<Execution>, ghost was: ExecState, ghost to: ExecState, ghost applied: nat,
             ghost seen: World, ghost judged: World)
    requires db.Valid()
    modifies db
    ensures db.Valid() && old(db.trace) <= db.trace && Later(old(db.world), db.world)
    ensures Later(old(db.world), seen) && Later(seen, judged) && Later(judged, db.world)
    ensures applied > 0 || r.Ok? ==>
      && InState(seen, e, was) && e in judged.execs && RetryTarget(judged, e, was, vms) == Some(to)
    ensures r.Ok? ==> Idle(db.world, e, to) && r.value == db.world.execs[e]
    ensures Repeated(old(db.own), db.own, applied, Request(Retry(e, was, to)))
    ensures applied <= ATTEMPTS && db.tries <= old(db.tries) + ATTEMPTS
    ensures CountEntries(db.start, old(db.trace), e, was) + applied
         <= 1 + CountEntries(db.start, db.trace, e, was)
  {
    hide Inv, Later, Run, CountExits, CountEntries, RetryTarget;
    was, to, applied := Planned, Planned, 0;
    ghost var w, t := db.world, db.trace;
    db.Interfere();
    seen, judged := db.world, db.world;
    LaterAlone(seen, 0);
    EntriesGrow(db.start, t, db.trace, e, was);
    if e !in db.world.execs {
      return Err(Invalid), was, to, applied, seen, judged;
    }
    var state := db.world.execs[e].state;
    was := state;
    EntriesGrow(db.start, t, db.trace, e, was);
    if state !in {SubmissionUnknown, StartUnknown} {
      return Err(Conflict), was, to, applied, seen, judged;
    }
    db.Interfere();
    judged := db.world;
    RowLater(seen, judged, e);
    LaterTransitive(w, seen, judged);
    LaterAlone(judged, 0);
    EntriesGrow(db.start, t, db.trace, e, was);
    var row := db.world.execs[e];
    if row.claim !in db.world.claims || db.world.claims[row.claim].generation != row.generation {
      return Err(Conflict), was, to, applied, seen, judged;
    }
    var target := RetryTarget(db.world, e, state, vms);
    if target.None? {
      return Err(Conflict), was, to, applied, seen, judged;
    }
    to := target.value;
    r, applied := RetryLoop(db, e, state, target.value);
    LaterTransitive(w, judged, db.world);
  }

  // ------------------------------------ one call can make its transition twice

  const LEASE_SECONDS := 60

  /** A worker leases an idle row and loads it. */
  function Pickup(w: World, e: Id, lease: Id): seq<Event> {
    [Work(MintWorkerLease(lease, e)), Work(AcquireExecution(lease, w.now, LEASE_SECONDS)), Work(BeginWork(lease))]
  }

  function PickedUp(row: Execution, now: int, lease: Id): Execution {
    row.(lease := Some(WorkerLease(lease, now + LEASE_SECONDS)), attempts := row.attempts + 1)
  }

  lemma RunThree(w: World, a: Event, b: Event, c: Event)
    ensures Run(w, [a, b, c]) == Apply(Apply(Apply(w, a), b), c)
  {
    hide Apply;
    RunStep(w, [], a);
    RunStep(w, [a], b);
    RunStep(w, [a, b], c);
    assert [] + [a] == [a] && [a] + [b] == [a, b] && [a, b] + [c] == [a, b, c];
  }

  lemma MintRow(w: World, e: Id, lease: Id)
    requires lease !in w.issued && e in w.execs
    ensures var v := Apply(w, Work(MintWorkerLease(lease, e)));
      && v.execs == w.execs && v.now == w.now && v.workers == w.workers
      && lease in v.leaseFor && v.leaseFor[lease] == e
  {
  }

  lemma AcquireRow(w: World, e: Id, lease: Id)
    requires Minted(w, e, lease) && e in w.execs && Active(w.execs[e].state) && w.execs[e].lease.None?
    ensures var v := Apply(w, Work(AcquireExecution(lease, w.now, LEASE_SECONDS)));
      && Minted(v, e, lease) && v.execs == w.execs[e := PickedUp(w.execs[e], w.now, lease)] && v.now == w.now
  {
  }

  lemma BeginRow(w: World, e: Id, lease: Id)
    requires Leased(w, e, lease) && Minted(w, e, lease)
    ensures var v := Apply(w, Work(BeginWork(lease)));
      && v.execs == w.execs && v.now == w.now
      && lease in v.workers && v.workers[lease] == Worker(e, w.execs[e], Observing)
  {
  }

  lemma PickupRuns(w: World, e: Id, lease: Id)
    requires Inv(w) && lease !in w.issued && e in w.execs
    requires Active(w.execs[e].state) && w.execs[e].lease.None?
    ensures var v := Run(w, Pickup(w, e, lease));
      && v.execs == w.execs[e := PickedUp(w.execs[e], w.now, lease)] && v.now == w.now
      && lease in v.workers && v.workers[lease] == Worker(e, v.execs[e], Observing)
  {
    hide Inv, Apply;
    var a, b, c := Work(MintWorkerLease(lease, e)), Work(AcquireExecution(lease, w.now, LEASE_SECONDS)),
                   Work(BeginWork(lease));
    RunThree(w, a, b, c);
    MintEffect(w, lease, e);
    MintRow(w, e, lease);
    AcquireRow(Apply(w, a), e, lease);
    BeginRow(Apply(Apply(w, a), b), e, lease);
  }

  /** What the worker saves is exactly what it made of the row it has just loaded. */
  lemma FreshSave(w: World, e: Id, lease: Id, seen: Observation)
    requires e in w.execs && lease in w.workers && w.workers[lease] == Worker(e, w.execs[e], Observing)
    requires Current(w, lease) && React(w.execs[e], e, seen).Save?
    ensures var v := Apply(w, Work(SaveObservation(lease, seen)));
      && e in v.execs && v.execs[e].state == React(w.execs[e], e, seen).row.state
      && v.execs[e].lease == React(w.execs[e], e, seen).row.lease
  {
    hide React;
  }

  /** The row is picked up once and put back, idle, into what the worker makes of it. */
  lemma PutBack(w: World, e: Id, s: ExecState, lease: Id, seen: Observation, t: ExecState)
    requires Inv(w) && Idle(w, e, s) && Active(s) && lease !in w.issued
    requires var row := PickedUp(w.execs[e], w.now, lease);
      Becomes(row, e, seen, t) && React(row, e, seen).row.lease.None?
    ensures Idle(Run(w, Pickup(w, e, lease) + [Work(SaveObservation(lease, seen))]), e, t)
  {
    hide Inv, React;
    PickupRuns(w, e, lease);
    var v := Run(w, Pickup(w, e, lease));
    hide Run, Apply;
    RunStep(w, Pickup(w, e, lease), Work(SaveObservation(lease, seen)));
    FreshSave(v, e, lease, seen);
  }

  lemma RetryRow(w: World, e: Id, was: ExecState, to: ExecState)
    requires Idle(w, e, was) && RetryEdge(was, to)
    ensures Enabled(w, Request(Retry(e, was, to))) && Exits(w, Request(Retry(e, was, to)), e, was)
    ensures var v := Apply(w, Request(Retry(e, was, to))); Idle(v, e, to) && v.issued == w.issued
  {
  }

  /** When the commit of a retry takes effect but is reported as failed, a worker may lease
      the row before it is read again, find the VM not yet stopped and put the row back into
      `submission_unknown`. The call then goes on and makes the same transition a second
      time: "one request retries at most once" is false, from every such row. */
  lemma SecondRetry(w: World, e: Id, lease: Id, instance: string)
    requires Inv(w) && Idle(w, e, SubmissionUnknown) && lease !in w.issued
    ensures var retry := Request(Retry(e, SubmissionUnknown, Planned));
      var put := Work(SaveObservation(lease, Saw(Exact(RunningVm, instance))));
      var v := Run(Apply(w, retry), Pickup(Apply(w, retry), e, lease) + [put]);
      && Exits(w, retry, e, SubmissionUnknown)
      && Idle(v, e, SubmissionUnknown) && Exits(v, retry, e, SubmissionUnknown)
  {
    hide Inv, Run, Apply, Exits;
    var retry := Request(Retry(e, SubmissionUnknown, Planned));
    RetryRow(w, e, SubmissionUnknown, Planned);
    var u := Apply(w, retry);
    StepKeepsInv(w, retry);
    PutBack(u, e, Planned, lease, Saw(Exact(RunningVm, instance)), SubmissionUnknown);
    var put := Work(SaveObservation(lease, Saw(Exact(RunningVm, instance))));
    RetryRow(Run(u, Pickup(u, e, lease) + [put]), e, SubmissionUnknown, Planned);
  }
}
