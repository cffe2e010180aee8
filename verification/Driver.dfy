/** The one-shot operator: `adopt_one` drives one execution to the end, or stops. */
module Driver {
  import opened Model
  import opened Protocol
  import opened Invariant
  import opened WorkInvariant
  import opened History
  import opened Safety
  import opened Fencing
  import opened Progress
  import opened Database
  import opened Registry
  import opened Executor

  datatype Stop =
    | Timeout
    | NotResumable
    | NotManaged
    | NeedsRecovery
    | NoProgress
    | CallFailed

  datatype Answer<+T> = Done(value: T) | Stopped(reason: Stop)

  predicate Resumable(s: ExecState) {
    s in {Planned, DeploySubmitting, DeploySubmitted, DeploySucceeded, SubmissionUnknown,
          StartSubmitting, StartSubmitted, StartUnknown, Verifying}
  }

  predicate Ambiguous(s: ExecState) {
    s in {DeploySubmitting, SubmissionUnknown, StartSubmitting, StartUnknown}
  }

  // ------------------------------------------------------- while it is driven

  /** Nobody puts an execution of this claim back, and nobody reserves the claim anew. */
  predicate Quiet(w: World, events: seq<Event>, c: Id) {
    && Renewals(w, events, c) == 0
    && forall e :: e in w.execs && w.execs[e].claim == c ==> CountRewinds(w, events, e) == 0
  }

  /** The execution of the current generation of the claim. */
  predicate IsCurrent(w: World, c: Id, e: Id) {
    && c in w.claims && ForClaim(w, e, c, w.claims[c].generation)
  }

  /** It still is, and has not gone back. */
  predicate Onward(w: World, v: World, c: Id, e: Id) {
    && IsCurrent(w, c, e) && IsCurrent(v, c, e)
    && Descends(w.execs[e].state, v.execs[e].state)
  }

  lemma OnwardTransitive(u: World, v: World, w: World, c: Id, e: Id)
    requires Onward(u, v, c, e) && Onward(v, w, c, e)
    ensures Onward(u, w, c, e)
  {
    hide Descends;
    DescendsTransitive(u.execs[e].state, v.execs[e].state, w.execs[e].state);
  }

  lemma QuietRun(w: World, events: seq<Event>, c: Id, e: Id)
    requires Inv(w) && IsCurrent(w, c, e) && Quiet(w, events, c)
    ensures Onward(w, Run(w, events), c, e)
  {
    hide Inv, Later, Run, CountRewinds, Renewals, CountMoves;
    RunIsLater(w, events);
    GenerationCountsRenewals(w, events, c);
    ForClaimStays(w, Run(w, events), e, c, w.claims[c].generation);
    RunPays(w, events, e);
    RowLater(w, Run(w, events), e);
    if CountMoves(w, events, e) == 0 {
      StillRow(w, events, e);
    }
  }

  /** A row that never changes its state only moves around within a cleanup, if at all. */
  lemma {:induction false} StillRow(w: World, events: seq<Event>, e: Id)
    requires Inv(w) && e in w.execs && CountMoves(w, events, e) == 0
    ensures e in Run(w, events).execs && Idles(w.execs[e].state, Run(w, events).execs[e].state)
    decreases |events|
  {
    hide Inv, Apply;
    if events != [] {
      var before := events[..|events| - 1];
      StillRow(w, before, e);
      RunKeepsInv(w, before);
      StepIsLater(Run(w, before), events[|events| - 1]);
      RowLater(Run(w, before), Apply(Run(w, before), events[|events| - 1]), e);
    }
  }

  lemma DescendsTransitive(a: ExecState, b: ExecState, c: ExecState)
    requires Descends(a, b) && Descends(b, c)
    ensures Descends(a, c)
  {
    hide GivenUp, Rank, Descends, Idles;
    DescendsByRank(a, b);
    DescendsByRank(b, c);
    DescendsByRank(a, c);
  }

  lemma DescendsByRank(a: ExecState, b: ExecState)
    ensures Descends(a, b) <==> a == b || (Rank(a) == 1 && Rank(b) == 1) || Rank(b) < Rank(a)
  {
    hide GivenUp, Rank;
    GivenUpRank(a);
    GivenUpRank(b);
  }

  lemma GivenUpRank(s: ExecState)
    ensures GivenUp(s) <==> Rank(s) == 1
  {
  }

  /** Any quiet run: of this process's own reconciliation, and of everybody else. */
  method Elapse(db: Database, c: Id)
    requires db.Valid()
    modifies db
    ensures db.Valid() && old(db.trace) <= db.trace && Later(old(db.world), db.world)
    ensures forall e: Id :: IsCurrent(old(db.world), c, e) ==> Onward(old(db.world), db.world, c, e)
    ensures c in old(db.world).claims ==>
      c in db.world.claims && db.world.claims[c].generation == old(db.world).claims[c].generation
  {
    hide Inv, Later, Run, Quiet, IsCurrent, Onward;
    var events: seq<Event> := *;
    if !Quiet(db.world, events, c) {
      events := [];
      NothingIsQuiet(db.world, c);
    }
    ghost var w := db.world;
    RunConcat(db.start, db.trace, events);
    RunIsLater(w, events);
    forall e: Id | IsCurrent(w, c, e)
      ensures Onward(w, Run(w, events), c, e)
    {
      QuietRun(w, events, c, e);
    }
    if c in w.claims {
      QuietGeneration(w, events, c);
    }
    db.world := Run(db.world, events);
    db.trace := db.trace + events;
  }

  lemma QuietGeneration(w: World, events: seq<Event>, c: Id)
    requires Inv(w) && c in w.claims && Quiet(w, events, c)
    ensures var v := Run(w, events); c in v.claims && v.claims[c].generation == w.claims[c].generation
  {
    hide Inv, Run, Renewals, CountRewinds;
    GenerationCountsRenewals(w, events, c);
  }

  lemma NothingIsQuiet(w: World, c: Id)
    ensures Quiet(w, [], c)
  {
  }

  // ------------------------------------------------------------ loading a state

  datatype State = NoClaim | ClaimOnly(claim: Claim) | Complete(claim: Claim, id: Id, row: Execution)

  /** `_load_target_state`: first the claim, then the execution of its generation. */
  method LoadState(db: Database, c: Id) returns (state: State, ghost first: World)
    requires db.Valid()
    modifies db
    ensures db.Valid() && old(db.trace) <= db.trace && Later(old(db.world), db.world)
    ensures Inv(first) && Later(first, db.world)
    ensures state.Complete? ==>
      && c in first.claims && state.claim == first.claims[c]
      && IsCurrent(db.world, c, state.id) && state.row == db.world.execs[state.id]
      && ForClaim(db.world, state.id, c, state.claim.generation)
    ensures forall e: Id :: IsCurrent(old(db.world), c, e) ==>
      state.Complete? && state.id == e && Onward(old(db.world), db.world, c, e)
  {
    hide Inv, Later, Run, Onward, ForClaim;
    ghost var w := db.world;
    Elapse(db, c);
    first := db.world;
    ghost var x := db.world;
    if c !in db.world.claims {
      LaterAlone(x, 0);
      assert c !in w.claims by { if c in w.claims { ClaimLater(w, x, c); } }
      return NoClaim, first;
    }
    var claim := db.world.claims[c];
    Elapse(db, c);
    LaterTransitive(w, x, db.world);
    if e: Id :| e in db.world.execs && ForClaim(db.world, e, c, claim.generation) {
      state := Complete(claim, e, db.world.execs[e]);
    } else {
      state := ClaimOnly(claim);
    }
    forall e: Id | IsCurrent(w, c, e)
      ensures state.Complete? && state.id == e && Onward(w, db.world, c, e)
    {
      OnwardIsCurrent(w, x, c, e);
      OnwardIsCurrent(x, db.world, c, e);
      OnwardTransitive(w, x, db.world, c, e);
      CurrentIsOne(db.world, c, e);
    }
  }

  lemma OnwardIsCurrent(w: World, v: World, c: Id, e: Id)
    requires Onward(w, v, c, e)
    ensures IsCurrent(v, c, e)
  {
  }

  lemma CurrentIsOne(w: World, c: Id, e: Id)
    requires Inv(w) && IsCurrent(w, c, e)
    ensures e in w.execs
    ensures forall d: Id :: ForClaim(w, d, c, w.claims[c].generation) <==> d == e
  {
    hide Inv;
    forall d: Id | ForClaim(w, d, c, w.claims[c].generation) ensures d == e {
      OneExecution(w, e, Some(d), c, w.claims[c].generation);
    }
  }

  // ------------------------------------------------------------ the driver loop

  /** A managed claim of which this execution is the only one. */
  lemma ManagedByIts(first: World, last: World, c: Id, e: Id)
    requires Inv(first) && Inv(last) && Later(first, last)
    requires c in first.claims && first.claims[c].state == Managed
    requires ForClaim(last, e, c, first.claims[c].generation)
    ensures ManagedAs(first, c, e)
  {
    hide Inv, Later;
    OwnedByInv(first, c);
    var own := first.claims[c].vmRef.value;
    assert Serves(first, own, c);
    ForClaimStays(first, last, own, c, first.claims[c].generation);
    OneExecution(last, e, Some(own), c, first.claims[c].generation);
  }

  lemma ResumableRank(s: ExecState)
    ensures Resumable(s) ==> 2 <= Rank(s) <= 10
  {
  }

  lemma OnwardRank(w: World, v: World, c: Id, e: Id)
    requires Onward(w, v, c, e)
    ensures IsCurrent(w, c, e) && IsCurrent(v, c, e)
    ensures e in w.execs && e in v.execs && Rank(v.execs[e].state) <= Rank(w.execs[e].state)
  {
    hide Rank, GivenUp;
    GivenUpRank(w.execs[e].state);
    GivenUpRank(v.execs[e].state);
  }

  lemma OnwardAlone(w: World, c: Id, e: Id)
    requires IsCurrent(w, c, e)
    ensures Onward(w, w, c, e)
  {
  }

  lemma OnlyForward(w: World, v: World, c: Id, e: Id)
    requires Onward(w, v, c, e) && Resumable(w.execs[e].state)
    requires v.execs[e].state != w.execs[e].state
    ensures Rank(v.execs[e].state) < Rank(w.execs[e].state)
  {
    hide Rank, GivenUp;
    GivenUpRank(w.execs[e].state);
    GivenUpRank(v.execs[e].state);
    ResumableRank(w.execs[e].state);
  }

  /** `wait_for_job`: the job is over, or the deadline has passed. */
  method AwaitJob(db: Database, c: Id, ghost e: Id) returns (finished: bool)
    requires db.Valid() && IsCurrent(db.world, c, e)
    modifies db
    ensures db.Valid() && old(db.trace) <= db.trace && Later(old(db.world), db.world)
    ensures Onward(old(db.world), db.world, c, e)
  {
    hide Inv, Later, Run;
    Elapse(db, c);
    finished := *;
  }

  /** The `reconcile` function the driver is given, and the states it has been called in. */
  class Reconciler {
    var calls: seq<ExecState>

    /** This worker's step and whatever else happens meanwhile, or an error. */
    method Reconcile(db: Database, c: Id, ghost e: Id, current: ExecState) returns (answered: bool)
      requires db.Valid() && IsCurrent(db.world, c, e)
      modifies db, this
      ensures db.Valid() && old(db.trace) <= db.trace && Later(old(db.world), db.world)
      ensures Onward(old(db.world), db.world, c, e)
      ensures calls == old(calls) + [current]
    {
      hide Inv, Later, Run;
      calls := calls + [current];
      Elapse(db, c);
      answered := *;
    }
  }

  ghost predicate Falling(visited: seq<ExecState>) {
    forall i, j :: 0 <= i < j < |visited| ==> Rank(visited[j]) < Rank(visited[i])
  }

  /** One round from a loaded, resumable state: wait for its job, reconcile, and insist
      on progress. */
  method Round(db: Database, reconciler: Reconciler, c: Id, e: Id, current: ExecState)
    returns (stop: Option<Stop>)
    requires db.Valid() && IsCurrent(db.world, c, e) && Resumable(current)
    requires e in db.world.execs && db.world.execs[e].state == current
    modifies db, reconciler
    ensures db.Valid() && old(db.trace) <= db.trace && Later(old(db.world), db.world)
    ensures reconciler.calls == old(reconciler.calls)
         || reconciler.calls == old(reconciler.calls) + [current]
    ensures stop.None? ==> reconciler.calls == old(reconciler.calls) + [current]
    ensures stop.None? ==>
      IsCurrent(db.world, c, e) && e in db.world.execs && Rank(db.world.execs[e].state) < Rank(current)
  {
    hide Inv, Later, Run, Rank, Resumable, Onward, IsCurrent;
    ghost var s := db.world;
    OnwardAlone(s, c, e);
    LaterAlone(s, 0);
    if current == DeploySubmitted || current == StartSubmitted {
      var finished := AwaitJob(db, c, e);
      if !finished {
        return Some(Timeout);
      }
    }
    ghost var x := db.world;
    OnwardIsCurrent(s, x, c, e);
    var answered := reconciler.Reconcile(db, c, e, current);
    LaterTransitive(s, x, db.world);
    OnwardTransitive(s, x, db.world, c, e);
    if !answered {
      return Some(CallFailed);
    }
    ghost var y := db.world;
    OnwardIsCurrent(s, y, c, e);
    var updated;
    ghost var again;
    updated, again := LoadState(db, c);
    LaterTransitive(s, y, db.world);
    OnwardTransitive(s, y, db.world, c, e);
    OnwardRank(s, db.world, c, e);
    if updated.row.state == current {
      return Some(if Ambiguous(current) then NeedsRecovery else NoProgress);
    }
    OnlyForward(s, db.world, c, e);
    return None;
  }

  /** As long as nobody puts the execution back, `reconcile` is called at most once for each
      state, the ambiguous ones included and each time from a state further on, so the loop
      is over after nine calls whatever the clock says. It only answers once the execution
      has succeeded under a claim managed as its own. */
  method DriveExecution(db: Database, reconciler: Reconciler, c: Id)
    returns (r: Answer<State>, ghost first: World)
    requires db.Valid()
    modifies db, reconciler
    ensures db.Valid() && old(db.trace) <= db.trace && Later(old(db.world), db.world)
    ensures old(reconciler.calls) <= reconciler.calls
    ensures var calls := reconciler.calls[|old(reconciler.calls)|..];
      Falling(calls) && |calls| <= 9 && forall s :: s in calls ==> Resumable(s)
    ensures r.Done? ==>
      && r.value.Complete? && r.value.claim.state == Managed && r.value.row.state == Succeeded
      && ManagedAs(first, c, r.value.id) && first.claims[c] == r.value.claim
      && r.value.id in db.world.execs && db.world.execs[r.value.id] == r.value.row
  {
    hide Inv, Later, Run, Rank, Resumable, Onward, IsCurrent;
    var observed: set<ExecState> := {};
    ghost var w := db.world;
    ghost var calls: seq<ExecState> := [];
    ghost var bound := 11;
    ghost var e := 0;
    LaterAlone(w, 0);
    while true
      invariant db.Valid() && old(db.trace) <= db.trace && Later(w, db.world)
      invariant reconciler.calls == old(reconciler.calls) + calls
      invariant 2 <= bound && |calls| + bound <= 11
      invariant Falling(calls) && forall s :: s in calls ==> bound <= Rank(s) && Resumable(s)
      invariant forall s :: s in observed ==> bound <= Rank(s)
      invariant calls == [] ==> bound == 11
      invariant calls != [] ==>
        IsCurrent(db.world, c, e) && e in db.world.execs && Rank(db.world.execs[e].state) < bound
      decreases bound
    {
      assert reconciler.calls[|old(reconciler.calls)|..] == calls;
      var late: bool := *;
      if late {
        return Stopped(Timeout), w;
      }
      var state;
      ghost var u := db.world;
      state, first := LoadState(db, c);
      LaterTransitive(w, u, db.world);
      if !state.Complete? {
        return Stopped(NotResumable), first;
      }
      if calls != [] {
        OnwardRank(u, db.world, c, e);
      }
      e := state.id;
      var current := state.row.state;
      if current == Succeeded {
        if state.claim.state != Managed {
          return Stopped(NotManaged), first;
        }
        ManagedByIts(first, db.world, c, state.id);
        return Done(state), first;
      }
      if !Resumable(current) {
        return Stopped(NotResumable), first;
      }
      ResumableRank(current);
      if Ambiguous(current) {
        if current in observed {
          assert false;
          return Stopped(NeedsRecovery), first;
        }
        observed := observed + {current};
      }
      ghost var s := db.world;
      var stop := Round(db, reconciler, c, state.id, current);
      LaterTransitive(w, s, db.world);
      FallsOn(calls, bound, current);
      if stop.Some? {
        ghost var made := reconciler.calls[|old(reconciler.calls)|..];
        assert made == calls || made == calls + [current];
        return Stopped(stop.value), first;
      }
      calls := calls + [current];
      bound := Rank(current);
    }
  }

  lemma FallsOn(calls: seq<ExecState>, bound: nat, current: ExecState)
    requires Falling(calls) && forall s :: s in calls ==> bound <= Rank(s)
    requires Rank(current) < bound
    ensures Falling(calls + [current])
  {
    hide Rank;
  }
}
