/** `reconcile_execution`: one leased step of a worker, with at most one external call. */
module WorkerLoop {
  import opened Model
  import opened WorkerStep
  import opened Protocol
  import opened Invariant
  import opened WorkInvariant
  import opened History
  import opened Progress
  import opened Database
  import opened Registry
  import opened Executor
  import opened Cleanup

  /** The worker with this lease has loaded the row in this state and called nothing yet. */
  predicate Looking(w: World, e: Id, lease: Id, state: ExecState) {
    && InPhase(w, lease, Observing) && w.workers[lease].exec == e
    && w.workers[lease].seen.state == state
  }

  /** The step is over: the lease is given back and the row is where it was or further. */
  predicate Stepped(w: World, e: Id, lease: Id, state: ExecState) {
    && e in w.execs && !Holds(w.execs[e], lease)
    && Descends(state, w.execs[e].state)
  }

  lemma LookingStays(w: World, v: World, e: Id, lease: Id, state: ExecState)
    requires SameCall(w, v, lease) && Looking(w, e, lease, state)
    ensures Looking(v, e, lease, state)
  {
  }

  lemma BeginEffect(w: World, e: Id, lease: Id)
    requires Leased(w, e, lease) && Minted(w, e, lease)
    ensures Enabled(w, Work(BeginWork(lease)))
    ensures Looking(Apply(w, Work(BeginWork(lease))), e, lease, w.execs[e].state)
  {
  }

  lemma SaveEffect(w: World, e: Id, lease: Id, state: ExecState, seen: Observation)
    requires Inv(w) && Looking(w, e, lease, state)
    requires Enabled(w, Work(SaveObservation(lease, seen)))
    ensures Stepped(Apply(w, Work(SaveObservation(lease, seen))), e, lease, state)
  {
    hide Inv;
    var worker := w.workers[lease];
    WorkerFacts(w, lease);
    ReactMoves(worker.seen, worker.exec, seen);
    ReactDescends(worker.seen, worker.exec, seen);
    FlushDescends(w.execs[worker.exec], worker.seen, Reacts(w, lease, seen).row);
  }

  /** `commit_current` on a row that records what was seen. */
  method SaveSeen(db: Database, e: Id, lease: Id, ghost state: ExecState, seen: Observation)
    returns (r: Result<()>, ghost at: World)
    requires db.Valid() && Looking(db.world, e, lease, state)
    modifies db
    ensures db.Valid() && old(db.trace) <= db.trace
    ensures Later(old(db.world), at) && Later(at, db.world)
    ensures db.own == old(db.own) || db.own == old(db.own) + [Work(SaveObservation(lease, seen))]
    ensures r.Ok? ==> db.own == old(db.own) + [Work(SaveObservation(lease, seen))]
    ensures r.Ok? ==> Stepped(at, e, lease, state)
  {
    hide Inv, Later, Run, Apply, Enabled, Violates, Stepped;
    ghost var w := db.world;
    var held := db.GuardWith(lease);
    LookingStays(w, db.world, e, lease, state);
    ghost var u := db.world;
    at := u;
    LaterAlone(u, 0);
    if !held {
      return Err(AuthorityLost), at;
    }
    var outcome, applied := db.Submit(Work(SaveObservation(lease, seen)));
    at := db.world;
    LaterTransitive(w, u, at);
    if applied {
      SaveEffect(u, e, lease, state, seen);
    }
    LaterAlone(at, 0);
    match outcome
    case Committed => r := Ok(());
    case Retryable => r := Err(DatabaseFailed);
    case Fatal => r := Err(DatabaseFailed);
    case _ => r := Err(Conflict);
  }

  // ------------------------------------------------------- the external call

  datatype Job = Deployment | Start

  function Arming(job: Job, lease: Id): Event {
    Work(if job == Deployment then ArmDeploy(lease) else ArmStart(lease))
  }

  function Calling(job: Job, lease: Id): Event {
    Work(if job == Deployment then CallDeploy(lease) else CallStart(lease))
  }

  function Recording(job: Job, lease: Id, reply: Reply): Event {
    Work(if job == Deployment then FinishDeploy(lease, reply) else FinishStart(lease, reply))
  }

  /** The state a job starts from. */
  function Before(job: Job): ExecState {
    if job == Deployment then Planned else DeploySucceeded
  }

  predicate Armed(w: World, e: Id, lease: Id, job: Job) {
    && InPhase(w, lease, if job == Deployment then DeployArmed else StartArmed)
    && w.workers[lease].exec == e
  }

  predicate Called(w: World, e: Id, lease: Id, job: Job) {
    && InPhase(w, lease, if job == Deployment then DeployCalled else StartCalled)
    && w.workers[lease].exec == e
  }

  lemma ArmEffect(w: World, e: Id, lease: Id, job: Job)
    requires Looking(w, e, lease, Before(job)) && Enabled(w, Arming(job, lease))
    ensures Armed(Apply(w, Arming(job, lease)), e, lease, job)
  {
  }

  lemma CallEffect(w: World, e: Id, lease: Id, job: Job)
    requires Inv(w) && Armed(w, e, lease, job)
    ensures Enabled(w, Calling(job, lease))
    ensures Called(Apply(w, Calling(job, lease)), e, lease, job)
  {
    hide Inv;
    WorkerFacts(w, lease);
  }

  lemma RecordEffect(w: World, e: Id, lease: Id, job: Job, reply: Reply)
    requires Inv(w) && Called(w, e, lease, job) && Enabled(w, Recording(job, lease, reply))
    ensures Stepped(Apply(w, Recording(job, lease, reply)), e, lease, Before(job))
  {
    hide Inv;
    WorkerFacts(w, lease);
  }

  predicate IsRecord(ev: Event, job: Job, lease: Id) {
    && ev.Work?
    && match job
       case Deployment => ev.work.FinishDeploy? && ev.work.lease == lease
       case Start => ev.work.FinishStart? && ev.work.lease == lease
  }

  /** What a worker that makes a call does, up to where it stops: commit to the call, make
      it, write its answer down. */
  predicate Calls(before: seq<Event>, after: seq<Event>, job: Job, lease: Id, calls: nat) {
    && before <= after && |after| <= |before| + 3
    && (|after| > |before| ==> after[|before|] == Arming(job, lease))
    && (|after| > |before| + 1 ==> after[|before| + 1] == Calling(job, lease))
    && (|after| > |before| + 2 ==> IsRecord(after[|before| + 2], job, lease))
    && calls == (if |after| > |before| + 1 then 1 else 0)
  }

  lemma CallsSend(before: seq<Event>, after: seq<Event>, job: Job, lease: Id, calls: nat)
    requires Calls(before, after, job, lease, calls)
    ensures Externals(after) == Externals(before) + (if calls == 1 then [Calling(job, lease)] else [])
  {
    hide Externals, Arming, Calling, External, IsRecord;
    OnlyTheCallIsSent(job, lease);
    var n := |before|;
    if |after| <= n + 1 {
      assert Silent(before, after);
      SilentSendsNothing(before, after);
    } else {
      var called := after[..n + 2];
      assert called == (before + [Arming(job, lease)]) + [Calling(job, lease)];
      ExternalsStep(before, Arming(job, lease));
      ExternalsStep(before + [Arming(job, lease)], Calling(job, lease));
      assert Silent(called, after);
      SilentSendsNothing(called, after);
    }
  }

  lemma OnlyTheCallIsSent(job: Job, lease: Id)
    ensures External(Calling(job, lease)) && !External(Arming(job, lease))
    ensures forall ev :: IsRecord(ev, job, lease) ==> !External(ev)
  {
  }

  /** The call has been made: write its answer down while the lease is still current. */
  method RecordAnswer(db: Database, e: Id, lease: Id, job: Job)
    returns (r: Result<()>, ghost at: World)
    requires db.Valid() && Called(db.world, e, lease, job)
    modifies db
    ensures db.Valid() && old(db.trace) <= db.trace
    ensures Later(old(db.world), at) && Later(at, db.world)
    ensures old(db.own) <= db.own && |db.own| <= |old(db.own)| + 1
    ensures |db.own| > |old(db.own)| ==> IsRecord(db.own[|old(db.own)|], job, lease)
    ensures r.Ok? ==> |db.own| > |old(db.own)|
    ensures r.Ok? ==> Stepped(at, e, lease, Before(job))
  {
    hide Inv, Later, Run, Apply, Enabled, Violates, Stepped;
    ghost var w := db.world;
    var held := db.GuardWith(lease);
    ghost var u := db.world;
    at := u;
    LaterAlone(u, 0);
    if !held {
      return Err(AuthorityLost), at;
    }
    var reply: Reply := *;
    var outcome, applied := db.Submit(Recording(job, lease, reply));
    at := db.world;
    LaterTransitive(w, u, at);
    if applied {
      RecordEffect(u, e, lease, job, reply);
    }
    LaterAlone(at, 0);
    match outcome
    case Committed => r := Ok(());
    case Retryable => r := Err(DatabaseFailed);
    case Fatal => r := Err(DatabaseFailed);
    case _ => r := Err(Conflict);
  }

  /** The part of it once the worker is committed to the call. */
  predicate Sends(before: seq<Event>, after: seq<Event>, job: Job, lease: Id, calls: nat) {
    && before <= after && |after| <= |before| + 2
    && (|after| > |before| ==> after[|before|] == Calling(job, lease))
    && (|after| > |before| + 1 ==> IsRecord(after[|before| + 1], job, lease))
    && calls == (if |after| > |before| then 1 else 0)
  }

  lemma ArmedThenSends(before: seq<Event>, after: seq<Event>, job: Job, lease: Id, calls: nat)
    requires Sends(before + [Arming(job, lease)], after, job, lease, calls)
    ensures Calls(before, after, job, lease, calls)
  {
    hide Arming, Calling, IsRecord;
  }

  lemma OnlyArmed(before: seq<Event>, job: Job, lease: Id)
    ensures Calls(before, before, job, lease, 0) && Calls(before, before + [Arming(job, lease)], job, lease, 0)
  {
    hide Arming, Calling, IsRecord;
  }

  /** Committed to the call: check the lease once more, call, and record the answer. */
  method SendArmed(db: Database, e: Id, lease: Id, job: Job)
    returns (r: Result<()>, ghost at: World, ghost calls: nat)
    requires db.Valid() && Armed(db.world, e, lease, job)
    modifies db
    ensures db.Valid() && old(db.trace) <= db.trace
    ensures Later(old(db.world), at) && Later(at, db.world)
    ensures Sends(old(db.own), db.own, job, lease, calls)
    ensures r.Ok? ==> |db.own| == |old(db.own)| + 2
    ensures r.Ok? ==> Stepped(at, e, lease, Before(job))
  {
    hide Inv, Later, Run, Apply, Enabled, Violates, Stepped, Calling, IsRecord;
    calls := 0;
    ghost var w := db.world;
    var held := db.GuardWith(lease);
    at := db.world;
    LaterAlone(at, 0);
    if !held {
      return Err(AuthorityLost), at, calls;
    }
    if !Current(db.world, lease) {
      return Err(Conflict), at, calls;
    }
    db.InterfereWith(lease);
    LaterTransitive(w, at, db.world);
    CallEffect(db.world, e, lease, job);
    ghost var u := db.world;
    db.Perform(Calling(job, lease));
    calls := 1;
    LaterTransitive(w, u, db.world);
    u := db.world;
    r, at := RecordAnswer(db, e, lease, job);
    LaterTransitive(w, u, at);
  }

  /** Commit to the call, check the lease once more, call, and record the answer: nothing
      else, in this order and each at most once. A crash or a lost lease in between leaves
      the row in the ambiguous state. */
  method CallOnce(db: Database, e: Id, lease: Id, job: Job)
    returns (r: Result<()>, ghost at: World, ghost calls: nat)
    requires db.Valid() && Looking(db.world, e, lease, Before(job))
    modifies db
    ensures db.Valid() && old(db.trace) <= db.trace
    ensures Later(old(db.world), at) && Later(at, db.world)
    ensures Calls(old(db.own), db.own, job, lease, calls)
    ensures r.Ok? ==> |db.own| == |old(db.own)| + 3
    ensures r.Ok? ==> Stepped(at, e, lease, Before(job))
  {
    hide Inv, Later, Run, Apply, Enabled, Violates, Stepped, Arming, Calls, Sends, Armed;
    calls := 0;
    ghost var w, own := db.world, db.own;
    OnlyArmed(own, job, lease);
    var held := db.GuardWith(lease);
    LookingStays(w, db.world, e, lease, Before(job));
    ghost var u := db.world;
    at := u;
    LaterAlone(u, 0);
    if !held {
      return Err(AuthorityLost), at, calls;
    }
    var outcome, applied := db.Submit(Arming(job, lease));
    at := db.world;
    LaterTransitive(w, u, at);
    LaterAlone(at, 0);
    if outcome != Committed {
      return Err(if outcome in {Retryable, Fatal} then DatabaseFailed else Conflict), at, calls;
    }
    ArmEffect(u, e, lease, job);
    u := db.world;
    r, at, calls := SendArmed(db, e, lease, job);
    LaterTransitive(w, u, at);
    ArmedThenSends(own, db.own, job, lease, calls);
  }

  // ------------------------------------------------------------ activation

  predicate IsPromotion(ev: Event, claim: Id, generation: int, lease: Id) {
    && ev.Registry? && ev.registry.Promote? && ev.registry.claim == claim
    && ev.registry.generation == generation && ev.registry.lease == lease
  }

  /** At most one event: the promotion of this claim generation under this lease. */
  predicate OnlyPromotes(before: seq<Event>, after: seq<Event>, claim: Id, generation: int, lease: Id) {
    && before <= after && |after| <= |before| + 1
    && (|after| > |before| ==> IsPromotion(after[|before|], claim, generation, lease))
  }

  /** `activate_adoption_claim`, as the worker calls it: every refusal reads as a conflict. */
  method ActivateExecutionClaim(db: Database, claim: Id, generation: int, e: Id, lease: Id)
    returns (r: Result<()>)
    requires db.Valid()
    modifies db
    ensures db.Valid() && old(db.trace) <= db.trace && Later(old(db.world), db.world)
    ensures SameCall(old(db.world), db.world, lease)
    ensures OnlyPromotes(old(db.own), db.own, claim, generation, lease)
    ensures r.Ok? ==> At(db.world, claim, generation, Managed)
  {
    hide Inv, Later, Run;
    ghost var w := db.world;
    db.InterfereWith(lease);
    if claim !in db.world.claims || db.world.claims[claim].generation != generation {
      return Err(Conflict);
    }
    var c := db.world.claims[claim];
    if c.state == Managed {
      return Ok(());
    }
    if c.state != Bound || c.vmRef.None? {
      return Err(Conflict);
    }
    var exact: bool := *;      // the live VM against claim, execution and plan
    if !exact {
      return Err(Conflict);
    }
    ghost var u := db.world;
    var activated, commits := ActivateBoundClaim(db, claim, generation, c.vmRef.value, e, lease);
    LaterTransitive(w, u, db.world);
    match activated
    case Ok(_) => r := Ok(());
    case Err(NotFound) => r := Err(Conflict);
    case Err(Invalid) => r := Err(Conflict);
    case Err(error) => r := Err(error);
  }

  lemma SeeEffect(w: World, e: Id, lease: Id)
    requires Looking(w, e, lease, Verifying)
    requires At(w, w.workers[lease].seen.claim, w.workers[lease].seen.generation, Managed)
    ensures Enabled(w, Work(SeePromotion(lease)))
    ensures InPhase(Apply(w, Work(SeePromotion(lease))), lease, WorkerPhase.Promoted)
    ensures Apply(w, Work(SeePromotion(lease))).workers[lease].exec == e
  {
  }

  lemma SucceedEffect(w: World, e: Id, lease: Id)
    requires InPhase(w, lease, WorkerPhase.Promoted) && w.workers[lease].exec == e
    requires Enabled(w, Work(Succeed(lease)))
    ensures Stepped(Apply(w, Work(Succeed(lease))), e, lease, Verifying)
    ensures Apply(w, Work(Succeed(lease))).execs[e].state == Succeeded
    ensures Apply(w, Work(Succeed(lease))).execs[e].lease.None?
  {
  }

  lemma VerifyingDescends(w: World, v: World, e: Id)
    requires Later(w, v) && e in w.execs && w.execs[e].state in {Verifying, Succeeded}
    ensures e in v.execs && Descends(Verifying, v.execs[e].state)
  {
    RowLater(w, v, e);
  }

  predicate Succeeds(w: World, e: Id, own: seq<Event>, lease: Id) {
    && e in w.execs && w.execs[e].state == Succeeded && w.execs[e].lease.None?
    && Work(SeePromotion(lease)) in own && own != [] && own[|own| - 1] == Work(Succeed(lease))
  }

  /** What a worker does about a started guest: promote the claim, and then either take note
      of the promotion and succeed, or leave a note. */
  predicate Verifies(before: seq<Event>, after: seq<Event>, row: Execution, lease: Id) {
    && before <= after
    && exists k :: |before| <= k <= |after|
         && OnlyPromotes(before, after[..k], row.claim, row.generation, lease) && Concludes(after[k..], lease)
  }

  predicate Concludes(events: seq<Event>, lease: Id) {
    events in {[], [Work(SeePromotion(lease))], [Work(SeePromotion(lease)), Work(Succeed(lease))],
               [Work(SaveObservation(lease, ActivationPending))]}
  }

  lemma VerifiesFrom(before: seq<Event>, mid: seq<Event>, after: seq<Event>, row: Execution, lease: Id)
    requires OnlyPromotes(before, mid, row.claim, row.generation, lease)
    requires mid <= after && Concludes(after[|mid|..], lease)
    ensures Verifies(before, after, row, lease)
  {
    hide OnlyPromotes, Concludes;
    assert after[..|mid|] == mid;
    PromotesGrow(before, mid, row, lease);
  }

  lemma PromotesGrow(before: seq<Event>, mid: seq<Event>, row: Execution, lease: Id)
    requires OnlyPromotes(before, mid, row.claim, row.generation, lease)
    ensures before <= mid
  {
  }

  lemma VerifyingIsSilent(before: seq<Event>, after: seq<Event>, row: Execution, lease: Id)
    requires Verifies(before, after, row, lease)
    ensures Silent(before, after)
  {
    var k :| |before| <= k <= |after|
      && OnlyPromotes(before, after[..k], row.claim, row.generation, lease) && Concludes(after[k..], lease);
    forall i | |before| <= i < |after| ensures !External(after[i]) {
      if i < k {
        assert after[i] == after[..k][i];
      } else {
        assert after[i] == after[k..][i - k];
      }
    }
  }

  lemma SuccessConcludes(own: seq<Event>, lease: Id)
    ensures var see := own + [Work(SeePromotion(lease))];
      && own <= see && Concludes(see[|own|..], lease)
      && own <= see + [Work(Succeed(lease))] && Concludes((see + [Work(Succeed(lease))])[|own|..], lease)
    ensures Concludes([], lease) && own[|own|..] == []
  {
    var see := own + [Work(SeePromotion(lease))];
    assert see[|own|..] == [Work(SeePromotion(lease))];
    assert (see + [Work(Succeed(lease))])[|own|..] == [Work(SeePromotion(lease)), Work(Succeed(lease))];
  }

  lemma NoteConcludes(own: seq<Event>, lease: Id)
    ensures var note := own + [Work(SaveObservation(lease, ActivationPending))];
      own <= note && Concludes(note[|own|..], lease)
    ensures Concludes([], lease) && own[|own|..] == []
  {
    var note := own + [Work(SaveObservation(lease, ActivationPending))];
    assert note[|own|..] == [Work(SaveObservation(lease, ActivationPending))];
  }

  lemma SucceedsNow(w: World, e: Id, own: seq<Event>, lease: Id)
    requires e in w.execs && w.execs[e].state == Succeeded && w.execs[e].lease.None?
    ensures var after := own + [Work(SeePromotion(lease))] + [Work(Succeed(lease))];
      own <= after && Succeeds(w, e, after[|own|..], lease)
  {
    var after := own + [Work(SeePromotion(lease))] + [Work(Succeed(lease))];
    assert after[|own|..] == [Work(SeePromotion(lease)), Work(Succeed(lease))];
  }

  /** The claim has been seen promoted: take note of it, and set the row to `succeeded`. */
  method TakeSuccess(db: Database, e: Id, lease: Id) returns (r: Result<()>, ghost at: World)
    requires db.Valid() && Looking(db.world, e, lease, Verifying)
    requires At(db.world, db.world.workers[lease].seen.claim, db.world.workers[lease].seen.generation, Managed)
    modifies db
    ensures db.Valid() && old(db.trace) <= db.trace
    ensures Later(old(db.world), at) && Later(at, db.world)
    ensures old(db.own) <= db.own && Concludes(db.own[|old(db.own)|..], lease)
    ensures r.Ok? ==> Succeeds(at, e, db.own[|old(db.own)|..], lease)
    ensures r.Ok? ==> Stepped(at, e, lease, Verifying)
  {
    hide Inv, Later, Run, Apply, Enabled, Violates, Stepped, Succeeds, Concludes, At;
    ghost var w, own := db.world, db.own;
    SuccessConcludes(own, lease);
    SeeEffect(w, e, lease);
    db.Perform(Work(SeePromotion(lease)));
    ghost var u := db.world;
    var held := db.GuardWith(lease);
    LaterTransitive(w, u, db.world);
    u := db.world;
    at := u;
    LaterAlone(u, 0);
    if !held {
      return Err(AuthorityLost), at;
    }
    var outcome, applied := db.Submit(Work(Succeed(lease)));
    LaterTransitive(w, u, db.world);
    at := db.world;
    LaterAlone(at, 0);
    if applied {
      SucceedEffect(u, e, lease);
      SucceedsNow(at, e, own, lease);
    }
    match outcome
    case Committed => r := Ok(());
    case Retryable => r := Err(DatabaseFailed);
    case Fatal => r := Err(DatabaseFailed);
    case _ => r := Err(Conflict);
  }

  /** The activation has not gone through: note it, if the lease is still this worker's. */
  method NotePending(db: Database, e: Id, lease: Id) returns (r: Result<()>, ghost at: World)
    requires db.Valid() && Looking(db.world, e, lease, Verifying)
    requires e in db.world.execs && db.world.execs[e].state in {Verifying, Succeeded}
    modifies db
    ensures db.Valid() && old(db.trace) <= db.trace
    ensures Later(old(db.world), at) && Later(at, db.world)
    ensures db.own == old(db.own) || db.own == old(db.own) + [Work(SaveObservation(lease, ActivationPending))]
    ensures r.Ok? && db.own == old(db.own) ==> e in at.execs && !Holds(at.execs[e], lease)
    ensures r.Ok? ==> Stepped(at, e, lease, Verifying)
  {
    hide Inv, Later, Run, Stepped;
    ghost var w := db.world;
    db.InterfereWith(lease);
    LookingStays(w, db.world, e, lease, Verifying);
    at := db.world;
    LaterAlone(at, 0);
    VerifyingDescends(w, at, e);
    if !(e in db.world.execs && Holds(db.world.execs[e], lease)) {
      NotHeld(at, e, lease);
      return Ok(()), at;
    }
    ghost var u := db.world;
    r, at := SaveSeen(db, e, lease, Verifying, ActivationPending);
    LaterTransitive(w, u, at);
  }

  /** An answer means one of three things: this worker saw the claim promoted and then set
      the row to `succeeded`; or it left a note that the activation is pending; or the lease
      was no longer its own and it wrote nothing to the row. */
  method Verify(db: Database, e: Id, lease: Id) returns (r: Result<()>, ghost at: World)
    requires db.Valid() && Looking(db.world, e, lease, Verifying)
    requires e in db.world.execs && db.world.execs[e].state == Verifying
    modifies db
    ensures db.Valid() && old(db.trace) <= db.trace
    ensures Later(old(db.world), at) && Later(at, db.world)
    ensures Verifies(old(db.own), db.own, old(db.world).workers[lease].seen, lease)
    ensures r.Ok? ==>
      var row, added := old(db.world).workers[lease].seen, db.own[|old(db.own)|..];
      || Succeeds(at, e, added, lease)
      || (added != [] && added[|added| - 1] == Work(SaveObservation(lease, ActivationPending)))
      || (&& e in at.execs && !Holds(at.execs[e], lease)
          && OnlyPromotes(old(db.own), db.own, row.claim, row.generation, lease))
    ensures r.Ok? ==> Stepped(at, e, lease, Verifying)
  {
    hide Inv, Later, Run, Stepped, Succeeds, Concludes, Verifies, IsPromotion;
    ghost var w, own := db.world, db.own;
    var row := db.world.workers[lease].seen;
    var activated := ActivateExecutionClaim(db, row.claim, row.generation, e, lease);
    LookingStays(w, db.world, e, lease, Verifying);
    ghost var u, mid := db.world, db.own;
    NoteConcludes(mid, lease);
    at := u;
    LaterAlone(u, 0);
    if activated.Err? && activated.error != Conflict {
      VerifiesFrom(own, mid, db.own, row, lease);
      return Err(activated.error), at;
    }
    if activated.Err? {
      RowLater(w, u, e);
      r, at := NotePending(db, e, lease);
    } else {
      r, at := TakeSuccess(db, e, lease);
      if r.Ok? {
        SucceedsAfter(at, e, own, mid, db.own, lease);
      }
    }
    VerifiesFrom(own, mid, db.own, row, lease);
    LaterTransitive(w, u, at);
  }

  lemma SucceedsAfter(w: World, e: Id, a: seq<Event>, b: seq<Event>, c: seq<Event>, lease: Id)
    requires a <= b <= c && Succeeds(w, e, c[|b|..], lease)
    ensures Succeeds(w, e, c[|a|..], lease)
  {
    assert c[|a|..] == c[|a|..|b|] + c[|b|..];
  }

  lemma NotHeld(w: World, e: Id, lease: Id)
    requires e in w.execs && !Holds(w.execs[e], lease) && Descends(Verifying, w.execs[e].state)
    ensures Stepped(w, e, lease, Verifying)
  {
  }

  // ------------------------------------------------------------ the whole step

  lemma RolledBackStepped(w: World, e: Id, lease: Id, state: ExecState)
    requires e in w.execs && RolledBackWith(w, e, w.execs[e].claim, w.execs[e].generation)
    requires GivenUp(state)
    ensures Stepped(w, e, lease, state)
  {
  }

  lemma ReleaseOnlyCleanups(row: Execution, id: Id, seen: Observation)
    ensures React(row, id, seen) == ReleaseUnbound ==> GivenUp(row.state)
    ensures React(row, id, seen) == ArmDeployment ==> row.state == Planned
    ensures React(row, id, seen) == ArmStarting ==> row.state == DeploySucceeded
  {
  }

  lemma CallsOnce(before: seq<Event>, after: seq<Event>, job: Job, lease: Id, calls: nat)
    requires Calls(before, after, job, lease, calls)
    ensures calls <= 1
    ensures Calling(job, lease) == Work(if job == Deployment then CallDeploy(lease) else CallStart(lease))
  {
  }

  lemma QuietEvents(lease: Id, seen: Observation)
    ensures !External(Work(BeginWork(lease))) && !External(Work(ReleaseCleanup(lease)))
    ensures !External(Work(SaveObservation(lease, seen)))
  {
  }

  lemma OneSilent(before: seq<Event>, after: seq<Event>, ev: Event)
    requires (after == before || after == before + [ev]) && !External(ev)
    ensures Externals(after) == Externals(before)
  {
    assert Silent(before, after);
    SilentSendsNothing(before, after);
  }

  /** The requests to CloudStack of one step. */
  function Sent(lease: Id, deploys: nat, starts: nat): seq<Event> {
    if deploys > 0 then [Work(CallDeploy(lease))] else if starts > 0 then [Work(CallStart(lease))] else []
  }

  /** The step of a worker that holds the lease and has loaded the row. */
  method Advance(db: Database, e: Id, lease: Id, ghost state: ExecState)
    returns (r: Result<()>, ghost at: World, ghost deploys: nat, ghost starts: nat)
    requires db.Valid() && Looking(db.world, e, lease, state)
    requires e in db.world.execs && db.world.execs[e].state == state
    modifies db
    ensures db.Valid() && old(db.trace) <= db.trace
    ensures Later(old(db.world), at) && Later(at, db.world)
    ensures deploys + starts <= 1
    ensures Externals(db.own) == Externals(old(db.own)) + Sent(lease, deploys, starts)
    ensures deploys > 0 ==> state == Planned
    ensures starts > 0 ==> state == DeploySucceeded
    ensures r.Ok? ==> Stepped(at, e, lease, state)
  {
    hide Inv, Later, Run, Apply, Enabled, Violates, Stepped, React, SameCall, Externals, External, Calls,
         Succeeds, Verifies, OnlyPromotes;
    deploys, starts := 0, 0;
    ghost var w, own := db.world, db.own;
    if db.world.workers[lease].seen.state == Verifying {
      r, at := Verify(db, e, lease);
      VerifyingIsSilent(own, db.own, w.workers[lease].seen, lease);
      SilentSendsNothing(own, db.own);
      return;
    }
    db.InterfereWith(lease);
    ghost var u := db.world;
    LookingStays(w, u, e, lease, state);
    RowLater(w, u, e);
    at := u;
    LaterAlone(u, 0);
    var seen: Observation := *;      // what CloudStack shows, or tells of the job
    var row := db.world.workers[lease].seen;
    ReleaseOnlyCleanups(row, e, seen);
    QuietEvents(lease, seen);
    match React(row, e, seen)
    case Save(_) =>
      r, at := SaveSeen(db, e, lease, state, seen);
      LaterTransitive(w, u, at);
      OneSilent(own, db.own, Work(SaveObservation(lease, seen)));
    case ArmDeployment =>
      r, at, deploys := CallOnce(db, e, lease, Deployment);
      LaterTransitive(w, u, at);
      CallsSend(own, db.own, Deployment, lease, deploys);
      CallsOnce(own, db.own, Deployment, lease, deploys);
    case ArmStarting =>
      r, at, starts := CallOnce(db, e, lease, Start);
      LaterTransitive(w, u, at);
      CallsSend(own, db.own, Start, lease, starts);
      CallsOnce(own, db.own, Start, lease, starts);
    case ReleaseUnbound =>
      var released;
      ghost var commits;
      released, commits, at := FinalizeCleanupRelease(db, e, lease);
      OneSilent(own, db.own, Work(ReleaseCleanup(lease)));
      if released.Ok? {
        LaterTransitive(w, u, at);
        RolledBackStepped(at, e, lease, state);
        r := Ok(());
      } else {
        at := db.world;
        LaterTransitive(w, u, at);
        LaterAlone(at, 0);
        r := Err(released.error);
      }
    case Nothing =>
      r := Err(Conflict);            // CloudStack could not be asked
  }

  /** One call of a worker sends CloudStack one request at most: a deployment from `planned`,
      a start from `deploy_succeeded`, both under its own lease. An answer means that its
      lease is given back, with the row in the state it was acquired in or further on. */
  method ReconcileExecution(db: Database, e: Id, seconds: int)
    returns (r: Result<Option<Execution>>, ghost begun: World, ghost at: World,
             ghost lease: Id, ghost deploys: nat, ghost starts: nat)
    requires db.Valid()
    modifies db
    ensures db.Valid() && old(db.trace) <= db.trace
    ensures Later(old(db.world), begun) && Later(begun, at) && Later(at, db.world)
    ensures deploys + starts <= 1
    ensures Externals(db.own) == Externals(old(db.own)) + Sent(lease, deploys, starts)
    ensures deploys > 0 ==> e in begun.execs && begun.execs[e].state == Planned
    ensures starts > 0 ==> e in begun.execs && begun.execs[e].state == DeploySucceeded
    ensures r.Ok? && r.value.Some? ==>
      && e in db.world.execs && r.value.value == db.world.execs[e]
      && Leased(begun, e, lease) && Stepped(at, e, lease, begun.execs[e].state)
  {
    hide Inv, Later, Run, Apply, Enabled, Stepped, Externals, External;
    deploys, starts, lease := 0, 0, 0;
    ghost var w, own := db.world, db.own;
    var acquired;
    ghost var made;
    acquired, made := AcquireExecutionLease(db, e, seconds);
    LeasesAreSilent(own, db.own, e, made, seconds);
    SilentSendsNothing(own, db.own);
    begun, at := db.world, db.world;
    LaterAlone(begun, 0);
    if acquired.Err? {
      return Err(acquired.error), begun, at, lease, 0, 0;
    }
    if acquired.value.None? {
      return Ok(None), begun, at, lease, 0, 0;
    }
    lease := acquired.value.value;
    BeginEffect(db.world, e, lease);
    ExternalsStep(db.own, Work(BeginWork(lease)));
    QuietEvents(lease, JobPending);
    db.Perform(Work(BeginWork(acquired.value.value)));
    BeginKeepsRow(begun, e, lease);
    ghost var u := db.world;
    var advanced;
    advanced, at, deploys, starts := Advance(db, e, acquired.value.value, begun.execs[e].state);
    LaterTransitive(begun, u, at);
    if advanced.Err? {
      return Err(advanced.error), begun, at, lease, deploys, starts;
    }
    ghost var v := db.world;
    db.InterfereWith(acquired.value.value);
    LaterTransitive(at, v, db.world);
    LaterTransitive(begun, at, db.world);
    RowLater(begun, db.world, e);
    r := Ok(Some(db.world.execs[e]));
  }

  lemma BeginKeepsRow(w: World, e: Id, lease: Id)
    requires Leased(w, e, lease) && Minted(w, e, lease)
    ensures Apply(w, Work(BeginWork(lease))).execs == w.execs
  {
    BeginEffect(w, e, lease);
  }
}
