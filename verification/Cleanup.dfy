/** Giving up a deployment: the operator's request, the extension's delete callback and
    the release of the claim once the VM is gone. */
module Cleanup {
  import opened Model
  import opened WorkerStep
  import opened Protocol
  import opened Invariant
  import opened WorkInvariant
  import opened History
  import opened Progress
  import opened Database
  import opened Registry
  import opened Executor

  // ------------------------------------------------------- the callback

  /** The claim generation can no longer be bound: it is set aside for deletion or over. */
  predicate Doomed(w: World, claim: Id, generation: int) {
    && claim in w.claims
    && (|| w.claims[claim].generation > generation
        || (w.claims[claim].generation == generation
            && w.claims[claim].state in {CleaningUp, Released}))
  }

  lemma DoomedStays(w: World, v: World, claim: Id, generation: int)
    requires Later(w, v) && Doomed(w, claim, generation)
    ensures Doomed(v, claim, generation)
  {
    assert Follows(w.claims[claim], v.claims[claim]);
  }

  /** The complete identity both rows must show before the VM's metadata may go. */
  predicate CleanupIdentity(w: World, e: Id, claim: Id, generation: int, guest: Guest, instance: string) {
    && e in w.execs && claim in w.claims
    && w.execs[e].claim == claim && w.execs[e].generation == generation
    && w.execs[e].state in {CleanupSubmitting, CleanupAuthorized, CleanupSubmitted}
    && w.execs[e].vmRef == Some(e) && w.execs[e].instance == Some(instance)
    && w.claims[claim].generation == generation && w.claims[claim].guest == guest
    && Unbound(w.claims[claim])
  }

  /** What the callback may act on: that identity, with the claim set aside. */
  predicate Authorized(w: World, e: Id, claim: Id, generation: int, guest: Guest, instance: string) {
    CleanupIdentity(w, e, claim, generation, guest, instance) && w.claims[claim].state == CleaningUp
  }

  lemma AuthorizeEffect(w: World, ev: RequestEvent)
    requires ev.AuthorizeCleanup? && Enabled(w, Request(ev))
    ensures !Doomed(w, ev.claim, ev.generation)
    ensures Authorized(Apply(w, Request(ev)), ev.exec, ev.claim, ev.generation, ev.guest, ev.instance)
    ensures Doomed(Apply(w, Request(ev)), ev.claim, ev.generation)
  {
  }

  lemma AuthorizedIsDoomed(w: World, e: Id, claim: Id, generation: int, guest: Guest, instance: string)
    requires Authorized(w, e, claim, generation, guest, instance)
    ensures Doomed(w, claim, generation)
  {
  }

  method TryAuthorize(db: Database, e: Id, claim: Id, generation: int, guest: Guest, instance: string)
    returns (pass: Pass<Id>, ghost applied: bool, ghost at: World)
    requires db.Valid()
    modifies db
    ensures db.Valid() && old(db.trace) <= db.trace && Later(old(db.world), db.world)
    ensures applied ==> !Doomed(old(db.world), claim, generation) && Doomed(db.world, claim, generation)
    ensures db.own == Recorded(old(db.own), applied, Request(AuthorizeCleanup(e, claim, generation, guest, instance)))
    ensures db.tries <= old(db.tries) + 1
    ensures pass.Finish? && pass.result.Ok? ==>
      && pass.result.value == e && Later(old(db.world), at) && Later(at, db.world)
      && Authorized(at, e, claim, generation, guest, instance)
  {
    hide Inv, Later, Run, Apply, Enabled, Violates, Doomed, CleanupIdentity;
    applied := false;
    ghost var w := db.world;
    db.Interfere();
    at := db.world;
    LaterAlone(at, 0);
    if e !in db.world.execs || claim !in db.world.claims {
      return Finish(Err(Invalid)), applied, at;
    }
    if !CleanupIdentity(db.world, e, claim, generation, guest, instance) {
      return Finish(Err(Conflict)), applied, at;
    }
    if db.world.claims[claim].state == CleaningUp {
      return Finish(Ok(e)), applied, at;
    }
    if db.world.claims[claim].state != Reserved {
      return Finish(Err(Conflict)), applied, at;
    }
    var held := db.Guard();
    LaterTransitive(w, at, db.world);
    if !held {
      return Finish(Err(AuthorityLost)), applied, at;
    }
    ghost var u := db.world;
    var authorize := AuthorizeCleanup(e, claim, generation, guest, instance);
    var outcome;
    outcome, applied := db.Submit(Request(authorize));
    at := db.world;
    LaterTransitive(w, u, at);
    if applied {
      AuthorizeEffect(u, authorize);
      assert !Doomed(w, claim, generation) by {
        if Doomed(w, claim, generation) { DoomedStays(w, u, claim, generation); }
      }
    }
    if outcome == Fatal {
      LaterAlone(at, 0);
      return Finish(Err(DatabaseFailed)), applied, at;
    }
    db.Interfere();
    LaterTransitive(w, at, db.world);
    if applied {
      DoomedStays(at, db.world, claim, generation);
    }
    return (if outcome == Committed then Finish(Ok(e)) else Again), applied, at;
  }

  /** A permitted delete names the execution's own VM, and by then the claim has been set
      aside for good: from that moment on it can no longer be bound. Of at most three commits
      one at most takes effect, and it is the authorisation that was asked for. */
  method AuthorizeCleanupDelete(db: Database, e: Id, claim: Id, generation: int, guest: Guest,
                                instance: string)
    returns (r: Result<Id>, ghost commits: nat, ghost at: World)
    requires db.Valid()
    modifies db
    ensures db.Valid() && old(db.trace) <= db.trace
    ensures commits <= 1 && db.tries <= old(db.tries) + ATTEMPTS
    ensures db.own == Recorded(old(db.own), commits == 1,
      Request(AuthorizeCleanup(e, claim, generation, guest, instance)))
    ensures commits == 1 ==> Doomed(db.world, claim, generation)
    ensures r.Ok? ==>
      && r.value == e && Later(old(db.world), at) && Later(at, db.world)
      && Authorized(at, e, claim, generation, guest, instance)
      && Doomed(db.world, claim, generation)
  {
    hide Inv, Later, Run, Doomed, Authorized;
    commits := 0;
    ghost var w := db.world;
    at := w;
    LaterAlone(w, 0);
    var attempt := 0;
    while attempt < ATTEMPTS
      invariant db.Valid() && old(db.trace) <= db.trace && commits <= 1
      invariant db.own == Recorded(old(db.own), commits == 1,
        Request(AuthorizeCleanup(e, claim, generation, guest, instance)))
      invariant db.tries <= old(db.tries) + attempt && attempt <= ATTEMPTS
      invariant Later(w, db.world)
      invariant commits == 1 ==> Doomed(db.world, claim, generation)
    {
      ghost var u := db.world;
      var pass;
      ghost var applied;
      pass, applied, at := TryAuthorize(db, e, claim, generation, guest, instance);
      LaterTransitive(w, u, db.world);
      if commits == 1 {
        DoomedStays(u, db.world, claim, generation);
      }
      commits := if applied then commits + 1 else commits;
      if pass.Finish? {
        if pass.result.Ok? {
          LaterTransitive(w, u, at);
          AuthorizedIsDoomed(at, e, claim, generation, guest, instance);
          DoomedStays(at, db.world, claim, generation);
        }
        return pass.result, commits, at;
      }
      attempt := attempt + 1;
    }
    return Err(Conflict), commits, at;
  }

  // --------------------------------------------------- releasing the claim

  /** Both rows of a finished rollback. */
  predicate RolledBackWith(w: World, e: Id, claim: Id, generation: int) {
    && ForClaim(w, e, claim, generation) && w.execs[e].state == RolledBack && w.execs[e].lease.None?
    && At(w, claim, generation, Released)
  }

  predicate Releasable(w: World, e: Id, lease: Id) {
    && e in w.execs && w.execs[e].claim in w.claims
    && w.execs[e].state in {CleanupSubmitting, CleanupAuthorized, CleanupSubmitted}
    && w.execs[e].lease.Some? && w.execs[e].lease.value.id == lease
    && w.execs[e].lease.value.expiresAt >= w.now
    && w.claims[w.execs[e].claim].generation == w.execs[e].generation
    && w.claims[w.execs[e].claim].state in {Reserved, CleaningUp}
    && Unbound(w.claims[w.execs[e].claim])
  }

  lemma ReleaseEffect(w: World, lease: Id)
    requires Enabled(w, Work(ReleaseCleanup(lease)))
    ensures var e := w.workers[lease].exec;
      && RolledBackWith(Apply(w, Work(ReleaseCleanup(lease))), e, w.execs[e].claim, w.execs[e].generation)
      && w.execs[e].state != RolledBack
      && lease !in Apply(w, Work(ReleaseCleanup(lease))).workers
  {
  }

  lemma ReleaseNeedsWorker(w: World, lease: Id)
    requires lease !in w.workers
    ensures !Enabled(w, Work(ReleaseCleanup(lease)))
  {
  }

  lemma AlreadyReleased(w: World, e: Id)
    requires Inv(w) && e in w.execs && w.execs[e].claim in w.claims
    requires w.execs[e].state == RolledBack && w.claims[w.execs[e].claim].state == Released
    requires w.claims[w.execs[e].claim].generation == w.execs[e].generation
    ensures RolledBackWith(w, e, w.execs[e].claim, w.execs[e].generation)
  {
    hide Inv;
    RowFacts(w, e);
  }

  lemma SameIdentityOfRow(w: World, v: World, e: Id)
    requires Later(w, v) && e in w.execs
    ensures e in v.execs && v.execs[e].claim == w.execs[e].claim && v.execs[e].generation == w.execs[e].generation
  {
    RowLater(w, v, e);
  }

  /** One pass of `_finalize_cleanup_release`, for the worker with this lease. */
  method TryRelease(db: Database, e: Id, lease: Id)
    returns (pass: Pass<Id>, ghost applied: bool, ghost at: World)
    requires db.Valid() && e in db.world.execs
    requires lease in db.world.workers ==> db.world.workers[lease].exec == e
    modifies db
    ensures db.Valid() && old(db.trace) <= db.trace && Later(old(db.world), db.world)
    ensures lease in db.world.workers ==>
      lease in old(db.world).workers && db.world.workers[lease] == old(db.world).workers[lease]
    ensures applied ==> lease in old(db.world).workers && lease !in db.world.workers
    ensures db.own == Recorded(old(db.own), applied, Work(ReleaseCleanup(lease)))
    ensures db.tries <= old(db.tries) + 1
    ensures pass.Finish? && pass.result.Ok? ==>
      && e in at.execs && Later(old(db.world), at) && Later(at, db.world)
      && RolledBackWith(at, e, at.execs[e].claim, at.execs[e].generation)
  {
    hide Inv, Later, Run, Apply, Enabled, Violates, Releasable, RolledBackWith, RowFollows;
    applied := false;
    ghost var w := db.world;
    db.InterfereWith(lease);
    SameIdentityOfRow(w, db.world, e);
    at := db.world;
    LaterAlone(at, 0);
    var row := db.world.execs[e];
    if row.claim !in db.world.claims || db.world.claims[row.claim].generation != row.generation {
      return Finish(Err(Conflict)), applied, at;
    }
    if row.state == RolledBack && db.world.claims[row.claim].state == Released {
      AlreadyReleased(db.world, e);
      return Finish(Ok(e)), applied, at;
    }
    if !Releasable(db.world, e, lease) {
      return Finish(Err(Conflict)), applied, at;
    }
    var held := db.GuardWith(lease);
    LaterTransitive(w, at, db.world);
    SameIdentityOfRow(w, db.world, e);
    if !held {
      return Finish(Err(AuthorityLost)), applied, at;
    }
    ghost var u := db.world;
    var outcome;
    outcome, applied := db.Submit(Work(ReleaseCleanup(lease)));
    at := db.world;
    LaterTransitive(w, u, at);
    SameIdentityOfRow(u, at, e);
    if applied {
      if lease !in u.workers {
        ReleaseNeedsWorker(u, lease);
      }
      ReleaseEffect(u, lease);
    }
    if outcome == Fatal {
      LaterAlone(at, 0);
      return Finish(Err(DatabaseFailed)), applied, at;
    }
    db.InterfereWith(lease);
    LaterTransitive(w, at, db.world);
    match outcome
    case Committed => return Finish(Ok(e)), applied, at;
    case Retryable => return Again, applied, at;
    case _ => return Finish(Err(Conflict)), applied, at;
  }

  /** Success means that the execution was rolled back together with its claim. Of at most
      three commits one at most takes effect, and it is this worker's release. */
  method FinalizeCleanupRelease(db: Database, e: Id, lease: Id)
    returns (r: Result<Id>, ghost commits: nat, ghost at: World)
    requires db.Valid() && e in db.world.execs
    requires lease in db.world.workers ==> db.world.workers[lease].exec == e
    modifies db
    ensures db.Valid() && old(db.trace) <= db.trace && Later(old(db.world), db.world)
    ensures commits <= 1 && db.tries <= old(db.tries) + ATTEMPTS
    ensures db.own == Recorded(old(db.own), commits == 1, Work(ReleaseCleanup(lease)))
    ensures r.Ok? ==>
      && e in at.execs && Later(old(db.world), at) && Later(at, db.world)
      && RolledBackWith(at, e, at.execs[e].claim, at.execs[e].generation)
      && Doomed(db.world, at.execs[e].claim, at.execs[e].generation)
  {
    hide Inv, Later, Run, Doomed;
    commits := 0;
    ghost var w := db.world;
    at := w;
    LaterAlone(w, 0);
    var attempt := 0;
    while attempt < ATTEMPTS
      invariant db.Valid() && old(db.trace) <= db.trace && commits <= 1
      invariant db.own == Recorded(old(db.own), commits == 1, Work(ReleaseCleanup(lease)))
      invariant db.tries <= old(db.tries) + attempt && attempt <= ATTEMPTS
      invariant Later(w, db.world) && e in db.world.execs
      invariant lease in db.world.workers ==> commits == 0 && db.world.workers[lease].exec == e
    {
      ghost var u := db.world;
      var pass;
      ghost var applied;
      pass, applied, at := TryRelease(db, e, lease);
      LaterTransitive(w, u, db.world);
      RowLater(u, db.world, e);
      commits := if applied then commits + 1 else commits;
      if pass.Finish? {
        if pass.result.Ok? {
          LaterTransitive(w, u, at);
          ReleasedIsDoomed(at, at.execs[e].claim, at.execs[e].generation);
          DoomedStays(at, db.world, at.execs[e].claim, at.execs[e].generation);
        }
        return pass.result, commits, at;
      }
      attempt := attempt + 1;
    }
    return Err(Conflict), commits, at;
  }

  lemma ReleasedIsDoomed(w: World, claim: Id, generation: int)
    requires At(w, claim, generation, Released)
    ensures Doomed(w, claim, generation)
  {
  }

  // --------------------------------------------------- the operator's request

  /** What an operator's cleanup is allowed on: an unbound claim of this generation, and
      exactly one stopped VM. `vms` is the sighting with the network check left out. */
  predicate Allowed(w: World, e: Id, vms: Sighting) {
    && e in w.execs && w.execs[e].state == CleanupRequired
    && w.execs[e].claim in w.claims
    && w.claims[w.execs[e].claim].generation == w.execs[e].generation
    && w.claims[w.execs[e].claim].state in {Reserved, CleaningUp}
    && Unbound(w.claims[w.execs[e].claim])
    && vms.Exact? && vms.power == StoppedVm && vms.instance != ""
  }

  lemma CleanupEffect(w: World, ev: RequestEvent)
    requires ev.RequestCleanup? && Enabled(w, Request(ev))
    ensures var v := Apply(w, Request(ev));
      ev.attempt in v.cleaners && v.cleaners[ev.attempt] == Cleaner(ev.exec, CleanupWon)
  {
  }

  lemma CleanupExits(w: World, ev: RequestEvent)
    requires ev.RequestCleanup? && Enabled(w, Request(ev))
    ensures Exits(w, Request(ev), ev.exec, CleanupRequired)
  {
  }

  /** Where a won transition leads: `Some` token means this call may destroy. */
  method TryCleanup(db: Database, e: Id, instance: string)
    returns (pass: Pass<Option<Id>>, ghost applied: bool, ghost token: Id)
    requires db.Valid() && e in db.world.execs
    modifies db
    ensures db.Valid() && old(db.trace) <= db.trace && Later(old(db.world), db.world)
    ensures e in db.world.execs
    ensures db.own == Recorded(old(db.own), applied, Request(RequestCleanup(token, e, instance)))
    ensures db.tries <= old(db.tries) + 1
    ensures CountExits(db.start, old(db.trace), e, CleanupRequired) + Unspent(applied)
         <= CountExits(db.start, db.trace, e, CleanupRequired)
    ensures pass.Finish? && pass.result == Ok(None) ==> GivenUp(db.world.execs[e].state)
    ensures pass.Finish? && pass.result.Ok? && pass.result.value.Some? ==>
      && applied && pass.result.value == Some(token) && token in db.world.cleaners
      && db.world.cleaners[token] == Cleaner(e, CleanupWon)
  {
    hide Inv, Later, Run, Apply, Enabled, Violates, CountExits, Exits;
    applied, token := false, 0;
    ghost var w, t := db.world, db.trace;
    var held := db.Guard();
    RowLater(w, db.world, e);
    ExitsGrow(db.start, t, db.trace, e, CleanupRequired);
    if !held {
      return Finish(Err(AuthorityLost)), applied, token;
    }
    ghost var u := db.world;
    t := db.trace;
    var attempt := FreshId(db);
    token := attempt;
    var request := RequestCleanup(attempt, e, instance);
    var outcome;
    outcome, applied := db.Submit(Request(request));
    if applied {
      CleanupExits(u, request);
      ExitCounted(db.start, t, Request(request), e, CleanupRequired);
    }
    LaterTransitive(w, u, db.world);
    RowLater(u, db.world, e);
    if outcome == Committed {
      CleanupEffect(u, request);
      return Finish(Ok(Some(attempt))), applied, token;
    }
    if outcome == Fatal {
      return Finish(Err(DatabaseFailed)), applied, token;
    }
    ghost var v := db.world;
    t := db.trace;
    db.Interfere();
    ExitsGrow(db.start, t, db.trace, e, CleanupRequired);
    LaterTransitive(w, v, db.world);
    RowLater(v, db.world, e);
    var row := db.world.execs[e];
    if row.state == CleanupSubmitting && row.vmRef == Some(e) && row.instance == Some(instance) {
      return (if outcome == Retryable then Finish(Ok(None)) else Finish(Err(Conflict))), applied, token;
    }
    if row.state == CleanupRequired && row.lease.None? {
      return Again, applied, token;
    }
    return Finish(Err(Conflict)), applied, token;
  }

  lemma LoadEffect(w: World, t: Id)
    requires Inv(w) && t in w.cleaners && w.cleaners[t].phase == CleanupWon
    ensures Enabled(w, Request(LoadCleanup(t)))
    ensures var v := Apply(w, Request(LoadCleanup(t)));
      && t in v.cleaners && v.cleaners[t].exec == w.cleaners[t].exec
      && v.cleaners[t].phase.CleanupLoaded?
  {
    hide Inv;
    AttemptFacts(w, t);
  }

  lemma DestroyEffect(w: World, t: Id)
    requires Inv(w) && t in w.cleaners && w.cleaners[t].phase.CleanupLoaded?
    ensures Enabled(w, Request(CallDestroy(t)))
    ensures var v := Apply(w, Request(CallDestroy(t)));
      && t in v.cleaners && v.cleaners[t].exec == w.cleaners[t].exec
      && v.cleaners[t].phase.DestroyCalled?
  {
    hide Inv;
    AttemptFacts(w, t);
  }

  lemma FinishEffect(w: World, t: Id, reply: Reply)
    requires Inv(w) && t in w.cleaners && w.cleaners[t].phase.DestroyCalled?
    ensures Enabled(w, Request(FinishCleanup(t, reply)))
    ensures t !in Apply(w, Request(FinishCleanup(t, reply))).cleaners
  {
    hide Inv;
    AttemptFacts(w, t);
  }

  predicate IsAnswer(ev: Event, t: Id) {
    ev.Request? && ev.request.FinishCleanup? && ev.request.attempt == t
  }

  /** Nothing, or the write that follows a destroy request. */
  predicate Answered(before: seq<Event>, after: seq<Event>, t: Id) {
    && before <= after && |after| <= |before| + 1
    && (|after| > |before| ==> IsAnswer(after[|before|], t))
  }

  /** The answer is written down whatever the row has become meanwhile. */
  method WriteAnswer(db: Database, e: Id, t: Id) returns (r: Result<Execution>)
    requires db.Valid() && e in db.world.execs
    requires t in db.world.cleaners && db.world.cleaners[t].exec == e
    requires db.world.cleaners[t].phase.DestroyCalled?
    modifies db
    ensures db.Valid() && old(db.trace) <= db.trace && Later(old(db.world), db.world)
    ensures !ArmedCleaner(db.world, t, e)
    ensures Answered(old(db.own), db.own, t) && db.tries <= old(db.tries) + 1
    ensures r.Ok? ==> e in db.world.execs && r.value == db.world.execs[e] && GivenUp(r.value.state)
  {
    hide Inv, Later, Run, Apply, Enabled, Violates, GivenUp;
    ghost var w := db.world;
    var held := db.GuardWith(t);
    if !held {
      return Err(AuthorityLost);
    }
    var reply: Reply := *;
    FinishEffect(db.world, t, reply);
    ghost var u := db.world;
    var outcome, applied := db.Submit(Request(FinishCleanup(t, reply)));
    LaterTransitive(w, u, db.world);
    if outcome != Committed {
      return Err(DatabaseFailed);
    }
    GivenUpStays(u, db.world, t);
    ghost var v := db.world;
    db.InterfereWith(t);
    LaterTransitive(w, v, db.world);
    GivenUpRow(v, db.world, e);
    return Ok(db.world.execs[e]);
  }

  lemma GivenUpStays(w: World, v: World, t: Id)
    requires Inv(w) && Later(w, v) && t in w.cleaners
    ensures var e := w.cleaners[t].exec; e in v.execs && GivenUp(v.execs[e].state)
  {
    AttemptFacts(w, t);
    hide Inv;
    RowLater(w, v, w.cleaners[t].exec);
  }

  lemma GivenUpRow(w: World, v: World, e: Id)
    requires Later(w, v) && e in w.execs && GivenUp(w.execs[e].state)
    ensures e in v.execs && GivenUp(v.execs[e].state)
  {
    RowLater(w, v, e);
  }

  /** What the winner of a cleanup does, up to where it stops: load the row, send the one
      destroy request, write the answer down. */
  predicate Destroys(before: seq<Event>, after: seq<Event>, t: Id, destroys: nat) {
    && before <= after && |before| + 1 <= |after| <= |before| + 3
    && after[|before|] == Request(LoadCleanup(t))
    && (|after| > |before| + 1 ==> after[|before| + 1] == Request(CallDestroy(t)))
    && (|after| > |before| + 2 ==> IsAnswer(after[|before| + 2], t))
    && destroys == (if |after| > |before| + 1 then 1 else 0)
  }

  /** The won attempt: load the row, send the one destroy request, write the answer down. */
  method DestroyOnce(db: Database, e: Id, t: Id) returns (r: Result<Execution>, ghost destroys: nat)
    requires db.Valid() && e in db.world.execs
    requires t in db.world.cleaners && db.world.cleaners[t] == Cleaner(e, CleanupWon)
    modifies db
    ensures db.Valid() && old(db.trace) <= db.trace && Later(old(db.world), db.world)
    ensures Destroys(old(db.own), db.own, t, destroys) && db.tries <= old(db.tries) + 1
    ensures destroys == 0 <==> ArmedCleaner(db.world, t, e)
    ensures r.Ok? ==> destroys == 1
    ensures r.Ok? ==> e in db.world.execs && r.value == db.world.execs[e] && GivenUp(r.value.state)
  {
    hide Inv, Later, Run, Apply, Enabled, Violates, GivenUp;
    destroys := 0;
    ghost var w := db.world;
    db.InterfereWith(t);
    LoadEffect(db.world, t);
    ghost var u := db.world;
    db.Perform(Request(LoadCleanup(t)));
    LaterTransitive(w, u, db.world);
    u := db.world;
    var held := db.GuardWith(t);
    LaterTransitive(w, u, db.world);
    if !held {
      return Err(AuthorityLost), destroys;
    }
    DestroyEffect(db.world, t);
    u := db.world;
    db.Perform(Request(CallDestroy(t)));
    destroys := 1;
    LaterTransitive(w, u, db.world);
    RowLater(w, db.world, e);
    u := db.world;
    r := WriteAnswer(db, e, t);
    LaterTransitive(w, u, db.world);
  }

  predicate IsCleanup(ev: Event, e: Id, instance: string) {
    ev.Request? && ev.request.RequestCleanup? && ev.request.exec == e && ev.request.instance == instance
  }

  /** The whole call: it moves the row out of `cleanup_required`, `wins` times, and after
      the last of these, and in its name, it may destroy. */
  predicate Cleans(before: seq<Event>, after: seq<Event>, e: Id, instance: string, wins: nat, destroys: nat) {
    && before <= after && |before| + wins <= |after|
    && (forall i :: |before| <= i < |before| + wins ==> IsCleanup(after[i], e, instance))
    && if |after| == |before| + wins then destroys == 0
       else && wins > 0
            && Destroys(after[..|before| + wins], after, after[|before| + wins - 1].request.attempt, destroys)
  }

  /** At most one destroy request is sent, and only after this very call has moved the row
      out of `cleanup_required`, having seen an exact, stopped VM and an unbound claim. It
      may do so more than once, but at most once more than others put the row back there
      meanwhile. */
  method RequestExecutionCleanup(db: Database, e: Id, vms: Sighting)
    returns (r: Result<Execution>, ghost wins: nat, ghost destroys: nat, ghost seen: World)
    requires db.Valid()
    modifies db
    ensures db.Valid() && old(db.trace) <= db.trace
    ensures if vms.Exact? then Cleans(old(db.own), db.own, e, vms.instance, wins, destroys)
            else db.own == old(db.own) && wins == 0
    ensures destroys <= 1 && destroys <= wins <= ATTEMPTS && db.tries <= old(db.tries) + ATTEMPTS + 1
    ensures CountEntries(db.start, old(db.trace), e, CleanupRequired) + wins
         <= 1 + CountEntries(db.start, db.trace, e, CleanupRequired)
    ensures wins > 0 ==> Allowed(seen, e, vms) && Later(old(db.world), seen) && Later(seen, db.world)
    ensures r.Ok? ==> e in db.world.execs && r.value == db.world.execs[e] && GivenUp(r.value.state)
  {
    hide Inv, Later, Run, CountExits, CountEntries, Destroys;
    wins, destroys := 0, 0;
    ghost var w, t := db.world, db.trace;
    db.Interfere();
    seen := db.world;
    LaterAlone(seen, 0);
    EntriesGrow(db.start, t, db.trace, e, CleanupRequired);
    if e !in db.world.execs {
      return Err(Invalid), wins, destroys, seen;
    }
    if !Allowed(db.world, e, vms) {
      return Err(if vms.Exact? && vms.instance == "" then Invalid else Conflict), wins, destroys, seen;
    }
    ExitsGrow(db.start, t, db.trace, e, CleanupRequired);
    var attempt := 0;
    while attempt < ATTEMPTS
      invariant db.Valid() && old(db.trace) <= db.trace && Later(seen, db.world)
      invariant destroys == 0 && wins <= attempt <= ATTEMPTS && e in db.world.execs
      invariant db.tries <= old(db.tries) + attempt
      invariant old(db.own) <= db.own && |db.own| == |old(db.own)| + wins
      invariant forall i :: |old(db.own)| <= i < |db.own| ==> IsCleanup(db.own[i], e, vms.instance)
      invariant CountExits(db.start, t, e, CleanupRequired) + wins
             <= CountExits(db.start, db.trace, e, CleanupRequired)
    {
      ghost var u := db.world;
      var pass;
      ghost var applied, token;
      pass, applied, token := TryCleanup(db, e, vms.instance);
      LaterTransitive(seen, u, db.world);
      wins := if applied then wins + 1 else wins;
      ReturnsBound(db.start, t, db.trace, e, CleanupRequired, wins);
      if pass.Finish? {
        if pass.result.Err? {
          return Err(pass.result.error), wins, destroys, seen;
        }
        if pass.result.value.None? {
          return Ok(db.world.execs[e]), wins, destroys, seen;
        }
        u := db.world;
        ghost var before, since := db.own, db.trace;
        r, destroys := DestroyOnce(db, e, pass.result.value.value);
        LaterTransitive(seen, u, db.world);
        EntriesGrow(db.start, since, db.trace, e, CleanupRequired);
        DestroysFacts(before, db.own, token, destroys);
        assert db.own[..|before|] == before;
        return r, wins, destroys, seen;
      }
      attempt := attempt + 1;
    }
    ReturnsBound(db.start, t, db.trace, e, CleanupRequired, wins);
    return Err(Conflict), wins, destroys, seen;
  }

  lemma DestroysFacts(before: seq<Event>, after: seq<Event>, t: Id, destroys: nat)
    requires Destroys(before, after, t, destroys)
    ensures before <= after && |before| < |after| && destroys <= 1
  {
  }

  lemma CleanupRow(w: World, attempt: Id, e: Id, instance: string)
    requires Idle(w, e, CleanupRequired) && attempt !in w.issued
    ensures var cleanup := Request(RequestCleanup(attempt, e, instance));
      var v := Apply(w, cleanup);
      && Exits(w, cleanup, e, CleanupRequired)
      && Idle(v, e, CleanupSubmitting) && v.issued == w.issued + {attempt}
  {
  }

  /** When the commit of a cleanup takes effect but is reported as failed, a worker may lease
      the row before it is read again, see several VMs of its identity and give it up anew.
      The call goes on and wins a second time: "one request wins once" is false, from every
      such row. */
  lemma SecondWin(w: World, e: Id, attempt: Id, again: Id, lease: Id, instance: string)
    requires Inv(w) && Idle(w, e, CleanupRequired)
    requires attempt !in w.issued && lease !in w.issued && attempt != lease
    ensures var cleanup := Request(RequestCleanup(attempt, e, instance));
      var put := Work(SaveObservation(lease, Saw(Several)));
      var v := Run(Apply(w, cleanup), Pickup(Apply(w, cleanup), e, lease) + [put]);
      && Exits(w, cleanup, e, CleanupRequired) && Idle(v, e, CleanupRequired)
      && (again !in v.issued ==> Exits(v, Request(RequestCleanup(again, e, instance)), e, CleanupRequired))
  {
    hide Inv, Run, Apply, Exits;
    var cleanup := Request(RequestCleanup(attempt, e, instance));
    var put := Work(SaveObservation(lease, Saw(Several)));
    CleanupRow(w, attempt, e, instance);
    var u := Apply(w, cleanup);
    StepKeepsInv(w, cleanup);
    PutBack(u, e, CleanupSubmitting, lease, Saw(Several), CleanupRequired);
    var v := Run(u, Pickup(u, e, lease) + [put]);
    if again !in v.issued {
      CleanupRow(v, again, e, instance);
    }
  }
}
