/** Leases for managed operations: granted under a fence, recovered once they have run
    out, and completed only by the lease that raised the fence. */
module Operations {
  import opened Model
  import opened Protocol
  import opened Invariant
  import opened WorkInvariant
  import opened History
  import opened Database
  import opened Registry

  const ACTIONS := {"console", "start", "stop", "reboot",
                    "create_snapshot", "restore_snapshot", "delete_snapshot"}

  datatype Identity = Identity(claim: Id, generation: int, guest: Guest, vmRef: Id, instance: string)

  predicate Matches(w: World, i: Identity)
    requires i.claim in w.claims
  {
    LifecycleIdentity(w.claims[i.claim], i.generation, i.guest, i.vmRef, i.instance)
  }

  /** `validated_claim_state`: the lifecycle state, for the complete identity only. */
  function ValidatedState(w: World, i: Identity): (r: Result<ClaimState>)
    ensures r.Ok? <==>
      && WellFormed(i.generation, i.guest, i.instance)
      && i.claim in w.claims && Matches(w, i)
      && w.claims[i.claim].state in {Bound, Managed, Operating, Retiring}
    ensures r.Ok? ==> At(w, i.claim, i.generation, r.value)
    ensures r == Err(NotFound) ==> i.claim !in w.claims
  {
    if !WellFormed(i.generation, i.guest, i.instance) then Err(Invalid)
    else if i.claim !in w.claims then Err(NotFound)
    else if !Matches(w, i) then Err(Invalid)
    else if w.claims[i.claim].state !in {Bound, Managed, Operating, Retiring} then Err(Conflict)
    else Ok(w.claims[i.claim].state)
  }

  // -------------------------------------------------------------- granting

  lemma GrantEffect(w: World, ev: RegistryEvent)
    requires ev.GrantOperation? && Enabled(w, Registry(ev))
    ensures var v := Apply(w, Registry(ev));
      && At(v, ev.claim, ev.generation, Operating) && v.claims[ev.claim].fence == Some(ev.lease)
      && ev.lease in v.leases
      && v.leases[ev.lease] ==
         OperationLease(ev.claim, ev.generation, ev.action, ev.at + OPERATION_LEASE_SECONDS)
  {
  }

  // --------------------------------------------- how often a fence is raised

  predicate Operates(w: World, c: Id) {
    c in w.claims && w.claims[c].state == Operating
  }

  predicate RaisesFence(w: World, ev: Event, c: Id) {
    !Operates(w, c) && Operates(Apply(w, ev), c)
  }

  predicate ClearsFence(w: World, ev: Event, c: Id) {
    Operates(w, c) && !Operates(Apply(w, ev), c)
  }

  function CountRaised(w: World, events: seq<Event>, c: Id): nat {
    if events == [] then 0
    else
      var before := events[..|events| - 1];
      CountRaised(w, before, c) + Unspent(RaisesFence(Run(w, before), events[|events| - 1], c))
  }

  function CountCleared(w: World, events: seq<Event>, c: Id): nat {
    if events == [] then 0
    else
      var before := events[..|events| - 1];
      CountCleared(w, before, c) + Unspent(ClearsFence(Run(w, before), events[|events| - 1], c))
  }

  /** Fences of a claim are raised and cleared in turns. */
  lemma {:induction false} FenceBalance(w: World, events: seq<Event>, c: Id)
    ensures Unspent(Operates(Run(w, events), c)) + CountCleared(w, events, c)
         == Unspent(Operates(w, c)) + CountRaised(w, events, c)
    decreases |events|
  {
    hide Apply, Operates;
    if events != [] {
      FenceBalance(w, events[..|events| - 1], c);
    }
  }

  lemma {:induction false} RaisedGrow(w: World, before: seq<Event>, after: seq<Event>, c: Id)
    requires before <= after
    ensures CountRaised(w, before, c) <= CountRaised(w, after, c)
    decreases |after|
  {
    if before != after {
      RaisedGrow(w, before, after[..|after| - 1], c);
    }
  }

  lemma RaisedCounted(w: World, events: seq<Event>, ev: Event, c: Id)
    requires RaisesFence(Run(w, events), ev, c)
    ensures CountRaised(w, events + [ev], c) == CountRaised(w, events, c) + 1
  {
    assert (events + [ev])[..|events|] == events;
  }

  lemma GrantRaises(w: World, ev: RegistryEvent)
    requires ev.GrantOperation? && Enabled(w, Registry(ev))
    ensures RaisesFence(w, Registry(ev), ev.claim)
  {
  }

  /** Raising a fence `n` times takes as many clearings, but for the first. */
  lemma ClearingsBound(w: World, before: seq<Event>, after: seq<Event>, c: Id, n: nat)
    requires CountRaised(w, before, c) + n <= CountRaised(w, after, c)
    ensures CountCleared(w, before, c) + n <= 1 + CountCleared(w, after, c)
  {
    hide Operates;
    FenceBalance(w, before, c);
    FenceBalance(w, after, c);
  }

  /** A fence is cleared by nothing but a completion or a recovery of the very lease that
      raised it, or a retirement, and for the last two the lease must have run out. */
  lemma ClearedHow(w: World, ev: Event, c: Id)
    requires Inv(w) && ClearsFence(w, ev, c)
    ensures ev.Registry? && ev.registry.claim == c && w.claims[c].fence.Some?
    ensures
      || ev.registry == CompleteOperation(c, w.claims[c].generation, w.claims[c].fence.value)
      || (&& Expired(w, c, w.claims[c].fence.value)
          && (ev.registry == RecoverOperation(c, w.claims[c].generation, w.claims[c].fence.value)
              || (ev.registry.Retire? && ev.registry.fence == w.claims[c].fence)))
  {
    hide RegistryEnabled, RegistryEffect, WorkEnabled, WorkEffect, RequestEnabled, RequestEffect;
    ClaimFacts(w, c);
    Issued(w);
    hide Inv;
    match ev
    case Registry(r) => ClearedByRegistry(w, r, c);
    case Work(k) => WorkKeepsOperating(w, k, c);
    case Request(q) => RequestKeepsOperating(w, q, c);
    case Tick(_) =>
  }

  lemma ClearedByRegistry(w: World, r: RegistryEvent, c: Id)
    requires RegistryEnabled(w, r) && Operates(w, c) && c in w.issued && w.claims[c].fence.Some?
    requires !Operates(RegistryEffect(w, r), c)
    ensures r.claim == c
    ensures
      || r == CompleteOperation(c, w.claims[c].generation, w.claims[c].fence.value)
      || (&& Expired(w, c, w.claims[c].fence.value)
          && (r == RecoverOperation(c, w.claims[c].generation, w.claims[c].fence.value)
              || (r.Retire? && r.fence == w.claims[c].fence)))
  {
  }

  lemma WorkKeepsOperating(w: World, k: WorkEvent, c: Id)
    requires Operates(w, c)
    ensures WorkEnabled(w, k) ==> Operates(WorkEffect(w, k), c)
  {
  }

  lemma RequestKeepsOperating(w: World, q: RequestEvent, c: Id)
    requires Operates(w, c)
    ensures RequestEnabled(w, q) ==> Operates(RequestEffect(w, q), c)
  {
  }

  // ------------------------------------------------------- what one call does

  predicate IsGrant(ev: Event, i: Identity, action: string) {
    && ev.Registry? && ev.registry.GrantOperation? && ev.registry.claim == i.claim
    && ev.registry.generation == i.generation && ev.registry.action == action
  }

  predicate IsRecovery(ev: Event, i: Identity) {
    && ev.Registry? && ev.registry.RecoverOperation? && ev.registry.claim == i.claim
    && ev.registry.generation == i.generation
  }

  /** Nothing but grants and recoveries of this claim generation. */
  predicate Leasing(before: seq<Event>, after: seq<Event>, i: Identity, action: string) {
    && before <= after
    && forall k :: |before| <= k < |after| ==> IsGrant(after[k], i, action) || IsRecovery(after[k], i)
  }

  function GrantsIn(events: seq<Event>): nat {
    if events == [] then 0
    else
      var last := events[|events| - 1];
      GrantsIn(events[..|events| - 1]) + Unspent(last.Registry? && last.registry.GrantOperation?)
  }

  lemma GrantsStep(events: seq<Event>, ev: Event)
    ensures GrantsIn(events + [ev]) == GrantsIn(events) + Unspent(ev.Registry? && ev.registry.GrantOperation?)
  {
    assert (events + [ev])[..|events|] == events;
  }

  /** The fence the caller was granted, as it stands in the database. */
  predicate Granted(w: World, i: Identity, lease: Id, action: string) {
    && At(w, i.claim, i.generation, Operating) && w.claims[i.claim].fence == Some(lease)
    && lease in w.leases && w.leases[lease].claim == i.claim
    && w.leases[lease].generation == i.generation && w.leases[lease].action == action
    && w.leases[lease].expiresAt <= w.now + OPERATION_LEASE_SECONDS
  }

  /** One pass adds at most one event, and the grants among them raise the fence. */
  ghost predicate PassDid(start: World, t0: seq<Event>, own0: seq<Event>, t1: seq<Event>, own1: seq<Event>,
                          i: Identity, action: string)
  {
    && t0 <= t1 && Leasing(own0, own1, i, action) && |own1| <= |own0| + 1
    && CountRaised(start, t0, i.claim) + GrantsIn(own1) <= CountRaised(start, t1, i.claim) + GrantsIn(own0)
  }

  lemma PassDidNothing(start: World, t0: seq<Event>, own: seq<Event>, t1: seq<Event>, i: Identity, action: string)
    requires t0 <= t1
    ensures PassDid(start, t0, own, t1, own, i, action)
  {
    RaisedGrow(start, t0, t1, i.claim);
  }

  lemma PassRecovered(start: World, t0: seq<Event>, own: seq<Event>, t1: seq<Event>, ev: Event,
                      i: Identity, action: string)
    requires t0 <= t1 && IsRecovery(ev, i)
    ensures PassDid(start, t0, own, t1, own + [ev], i, action)
  {
    RaisedGrow(start, t0, t1, i.claim);
    GrantsStep(own, ev);
  }

  lemma PassGranted(start: World, t0: seq<Event>, own: seq<Event>, t: seq<Event>, ev: Event,
                    i: Identity, action: string)
    requires t0 <= t && IsGrant(ev, i, action) && Enabled(Run(start, t), ev)
    ensures PassDid(start, t0, own, t + [ev], own + [ev], i, action)
  {
    hide Enabled, Apply, Run;
    RaisedGrow(start, t0, t, i.claim);
    GrantRaises(Run(start, t), ev.registry);
    RaisedCounted(start, t, ev, i.claim);
    GrantsStep(own, ev);
  }

  /** A claim that is operating: take its lease away if it has run out. */
  method TryRecover(db: Database, i: Identity, ghost action: string) returns (pass: Pass<Id>)
    requires db.Valid() && i.claim in db.world.claims
    modifies db
    ensures db.Valid() && old(db.trace) <= db.trace && Later(old(db.world), db.world)
    ensures PassDid(db.start, old(db.trace), old(db.own), db.trace, db.own, i, action)
    ensures db.tries <= old(db.tries) + 1
    ensures pass.Finish? ==> pass.result.Err? && pass.result.error != NotFound
  {
    hide Inv, Later, Run, Apply, Enabled, Violates, PassDid;
    ghost var t, own := db.trace, db.own;
    PassDidNothing(db.start, t, own, t, i, action);
    var c := db.world.claims[i.claim];
    if c.fence.None? || !Expired(db.world, i.claim, c.fence.value) {
      LaterAlone(db.world, 0);
      return Finish(Err(Conflict));
    }
    ghost var w := db.world;
    var held := db.Guard();
    PassDidNothing(db.start, t, own, db.trace, i, action);
    if !held {
      return Finish(Err(AuthorityLost));
    }
    ghost var u := db.world;
    var recover := Registry(RecoverOperation(i.claim, i.generation, c.fence.value));
    var outcome, applied := db.Submit(recover);
    LaterTransitive(w, u, db.world);
    PassRecovered(db.start, t, own, db.trace, recover, i, action);
    return if outcome in {Fatal, Retryable} then Finish(Err(DatabaseFailed)) else Again;
  }

  /** The claim is managed: raise the fence. */
  method TryGrant(db: Database, i: Identity, action: string) returns (pass: Pass<Id>)
    requires db.Valid()
    modifies db
    ensures db.Valid() && old(db.trace) <= db.trace && Later(old(db.world), db.world)
    ensures PassDid(db.start, old(db.trace), old(db.own), db.trace, db.own, i, action)
    ensures db.tries <= old(db.tries) + 1
    ensures pass.Finish? && pass.result.Ok? ==>
      && Granted(db.world, i, pass.result.value, action) && pass.result.value !in old(db.world).issued
      && EndsWithGrant(old(db.own), db.own, i, pass.result.value, action)
    ensures pass != Finish(Err(NotFound))
  {
    hide Inv, Later, Run, Apply, Enabled, Violates, PassDid;
    ghost var t, own := db.trace, db.own;
    var now := db.world.now;
    ghost var w := db.world;
    var held := db.Guard();
    PassDidNothing(db.start, t, own, db.trace, i, action);
    if !held {
      return Finish(Err(AuthorityLost));
    }
    ghost var u, tu := db.world, db.trace;
    var lease := FreshId(db);
    ClockAndIds(w, u);
    var grant := GrantOperation(i.claim, i.generation, lease, action, now);
    var outcome, applied := db.Submit(Registry(grant));
    LaterTransitive(w, u, db.world);
    ClockAndIds(u, db.world);
    if applied {
      assert u == Run(db.start, tu);
      PassGranted(db.start, t, own, tu, Registry(grant), i, action);
      GrantEffect(u, grant);
    }
    match outcome
    case Committed => return Finish(Ok(lease));
    case Duplicate => return Finish(Err(Conflict));
    case Fatal => return Finish(Err(DatabaseFailed));
    case NoRow => return Again;
    case Retryable => return Again;
  }

  /** The last thing that was done is this grant. */
  predicate EndsWithGrant(before: seq<Event>, after: seq<Event>, i: Identity, lease: Id, action: string) {
    |after| > |before| && IsGrant(after[|after| - 1], i, action) && after[|after| - 1].registry.lease == lease
  }

  method TryAcquire(db: Database, i: Identity, action: string) returns (pass: Pass<Id>)
    requires db.Valid()
    modifies db
    ensures db.Valid() && old(db.trace) <= db.trace && Later(old(db.world), db.world)
    ensures PassDid(db.start, old(db.trace), old(db.own), db.trace, db.own, i, action)
    ensures db.tries <= old(db.tries) + 1
    ensures pass.Finish? && pass.result.Ok? ==>
      && Granted(db.world, i, pass.result.value, action) && pass.result.value !in old(db.world).issued
      && EndsWithGrant(old(db.own), db.own, i, pass.result.value, action)
    ensures pass == Finish(Err(NotFound)) ==> i.claim !in old(db.world).claims
  {
    hide Inv, Later, Run, Granted, IsGrant, CountRaised, GrantsIn, Leasing;
    ghost var w, t, own := db.world, db.trace, db.own;
    db.Interfere();
    PassDidNothing(db.start, t, own, db.trace, i, action);
    var state := ValidatedState(db.world, i);
    if state.Err? {
      assert state == Err(NotFound) ==> i.claim !in w.claims by {
        if i.claim in w.claims { ClaimLater(w, db.world, i.claim); }
      }
      return Finish(Err(state.error));
    }
    ghost var x := db.world;
    db.Interfere();
    PassDidNothing(db.start, t, own, db.trace, i, action);
    LaterTransitive(w, x, db.world);
    ClaimLater(x, db.world, i.claim);
    if state.value !in {Operating, Managed} {
      return Finish(Err(Conflict));
    }
    ghost var y, ty := db.world, db.trace;
    ClockAndIds(w, y);
    if state.value == Operating {
      pass := TryRecover(db, i, action);
    } else {
      pass := TryGrant(db, i, action);
    }
    LaterTransitive(w, y, db.world);
    PassSince(db.start, t, ty, own, db.trace, db.own, i, action);
  }

  lemma PassSince(start: World, t0: seq<Event>, t1: seq<Event>, own0: seq<Event>, t2: seq<Event>, own2: seq<Event>,
                  i: Identity, action: string)
    requires t0 <= t1 && PassDid(start, t1, own0, t2, own2, i, action)
    ensures PassDid(start, t0, own0, t2, own2, i, action)
  {
    hide Leasing, GrantsIn;
    RaisedGrow(start, t0, t1, i.claim);
  }

  lemma ClockAndIds(w: World, v: World)
    requires Later(w, v)
    ensures w.now <= v.now && w.issued <= v.issued
  {
  }

  /** Success hands out the fence that is in the database, under a lease never used before:
      the last thing the call did was this grant. The call does nothing but grant and recover
      leases of this claim generation. It may grant more than once, and its grant may outlive
      a refusal, but it grants at most once more than fences of the claim are cleared
      meanwhile, by whatever completion, recovery or retirement. */
  method AcquireManagedOperationLease(db: Database, i: Identity, action: string)
    returns (r: Result<Id>)
    requires db.Valid()
    modifies db
    ensures db.Valid() && old(db.trace) <= db.trace
    ensures Leasing(old(db.own), db.own, i, action)
    ensures |db.own| <= |old(db.own)| + ATTEMPTS && db.tries <= old(db.tries) + ATTEMPTS
    ensures CountCleared(db.start, old(db.trace), i.claim) + GrantsIn(db.own)
         <= 1 + CountCleared(db.start, db.trace, i.claim) + GrantsIn(old(db.own))
    ensures r.Ok? ==> action in ACTIONS && Granted(db.world, i, r.value, action)
    ensures r.Ok? ==> EndsWithGrant(old(db.own), db.own, i, r.value, action)
    ensures r.Ok? ==> r.value !in old(db.world).issued
    ensures r == Err(NotFound) ==> i.claim !in old(db.world).claims
  {
    hide Inv, Later, Run, Granted, IsGrant, CountRaised, CountCleared, GrantsIn;
    ghost var w, t, own := db.world, db.trace, db.own;
    GrantsBound(db.start, t, own, t, own, i);
    if i.generation <= 0 || action !in ACTIONS {
      return Err(Invalid);
    }
    LaterAlone(w, 0);
    var attempt := 0;
    while attempt < ATTEMPTS
      invariant db.Valid() && old(db.trace) <= db.trace && Later(w, db.world)
      invariant Leasing(own, db.own, i, action) && |db.own| <= |own| + attempt
      invariant attempt <= ATTEMPTS && db.tries <= old(db.tries) + attempt
      invariant CountRaised(db.start, t, i.claim) + GrantsIn(db.own)
             <= CountRaised(db.start, db.trace, i.claim) + GrantsIn(own)
    {
      ghost var u, mid := db.world, db.own;
      var pass := TryAcquire(db, i, action);
      LaterTransitive(w, u, db.world);
      GrantsBound(db.start, t, own, db.trace, db.own, i);
      if pass.Finish? {
        if i.claim in w.claims {
          ClaimLater(w, u, i.claim);
        }
        ClockAndIds(w, u);
        return pass.result;
      }
      attempt := attempt + 1;
    }
    GrantsBound(db.start, t, own, db.trace, db.own, i);
    return Err(Conflict);
  }

  lemma {:induction false} GrantsGrow(before: seq<Event>, after: seq<Event>)
    requires before <= after
    ensures GrantsIn(before) <= GrantsIn(after)
    decreases |after|
  {
    if before != after {
      GrantsGrow(before, after[..|after| - 1]);
    }
  }

  lemma GrantsBound(w: World, t0: seq<Event>, own0: seq<Event>, t1: seq<Event>, own1: seq<Event>, i: Identity)
    requires own0 <= own1
    requires CountRaised(w, t0, i.claim) + GrantsIn(own1) <= CountRaised(w, t1, i.claim) + GrantsIn(own0)
    ensures CountCleared(w, t0, i.claim) + GrantsIn(own1) <= 1 + CountCleared(w, t1, i.claim) + GrantsIn(own0)
  {
    GrantsGrow(own0, own1);
    ClearingsBound(w, t0, t1, i.claim, GrantsIn(own1) - GrantsIn(own0));
  }

  // --------------------------------------- what a failed report leaves behind

  function Grant(w: World, i: Identity, lease: Id, action: string): Event {
    Registry(GrantOperation(i.claim, i.generation, lease, action, w.now))
  }

  lemma GrantLeaves(w: World, i: Identity, lease: Id, action: string)
    requires At(w, i.claim, i.generation, Managed) && w.claims[i.claim].fence.None? && Matches(w, i)
    requires lease !in w.issued && forall l :: l in w.leases ==> w.leases[l].claim != i.claim
    ensures Enabled(w, Grant(w, i, lease, action))
    ensures var v := Apply(w, Grant(w, i, lease, action));
      && At(v, i.claim, i.generation, Operating) && v.claims[i.claim].fence == Some(lease) && Matches(v, i)
      && lease in v.leases && v.leases[lease].claim == i.claim
      && v.leases[lease].expiresAt == w.now + OPERATION_LEASE_SECONDS
      && v.now == w.now && v.issued == w.issued + {lease}
  {
  }

  lemma RecoverLeaves(w: World, i: Identity, lease: Id)
    requires At(w, i.claim, i.generation, Operating) && w.claims[i.claim].fence == Some(lease) && Matches(w, i)
    requires Expired(w, i.claim, lease)
    ensures var recover := Registry(RecoverOperation(i.claim, i.generation, lease)); var v := Apply(w, recover);
      && Enabled(w, recover) && v.issued == w.issued
      && At(v, i.claim, i.generation, Managed) && v.claims[i.claim].fence.None? && Matches(v, i)
  {
  }

  lemma UnfencedHasNoLease(w: World, c: Id)
    requires Inv(w) && c in w.claims && w.claims[c].fence.None?
    ensures forall l :: l in w.leases ==> w.leases[l].claim != c
  {
    ClaimFacts(w, c);
    hide Inv;
  }

  /** When the commit of a grant takes effect but is reported as failed, the next attempt
      finds the claim operating under a lease that has not run out, and refuses: whoever asks,
      the lease that nobody was told of holds the claim for its full two hours. */
  lemma GrantLeftBehind(w: World, i: Identity, lease: Id, action: string, elapsed: nat)
    requires Inv(w) && WellFormed(i.generation, i.guest, i.instance)
    requires At(w, i.claim, i.generation, Managed) && Matches(w, i) && lease !in w.issued
    ensures var v := Run(w, [Grant(w, i, lease, action), Tick(elapsed)]);
      && ValidatedState(v, i) == Ok(Operating) && v.claims[i.claim].fence == Some(lease)
      && (Expired(v, i.claim, lease) <==> elapsed >= OPERATION_LEASE_SECONDS)
  {
    hide Inv, Apply, Run;
    ClaimFacts(w, i.claim);
    UnfencedHasNoLease(w, i.claim);
    GrantLeaves(w, i, lease, action);
    RunPair(w, Grant(w, i, lease, action), Tick(elapsed));
    TickLeaves(Apply(w, Grant(w, i, lease, action)), elapsed);
  }

  lemma TickLeaves(w: World, elapsed: nat)
    ensures Apply(w, Tick(elapsed)) == w.(now := w.now + elapsed)
  {
  }

  lemma RunPair(w: World, a: Event, b: Event)
    ensures Run(w, [a, b]) == Apply(Apply(w, a), b)
  {
    hide Apply;
    RunStep(w, [], a);
    RunStep(w, [a], b);
    assert [] + [a] == [a] && [a] + [b] == [a, b];
  }

  /** And when it has run out, the same call recovers it and grants a second time: "one call
      grants at most once" is false, from every managed claim. */
  lemma SecondGrant(w: World, i: Identity, lease: Id, again: Id, action: string)
    requires Inv(w) && At(w, i.claim, i.generation, Managed) && Matches(w, i)
    requires lease !in w.issued && again !in w.issued && again != lease
    ensures var v := Run(w, [Grant(w, i, lease, action), Tick(OPERATION_LEASE_SECONDS)]);
      var recover := Registry(RecoverOperation(i.claim, i.generation, lease));
      var u := Apply(v, recover);
      && Enabled(w, Grant(w, i, lease, action)) && Enabled(v, recover)
      && Enabled(u, Grant(u, i, again, action))
  {
    hide Inv, Apply, Run, Enabled;
    ClaimFacts(w, i.claim);
    UnfencedHasNoLease(w, i.claim);
    GrantLeaves(w, i, lease, action);
    var first := Apply(w, Grant(w, i, lease, action));
    RunPair(w, Grant(w, i, lease, action), Tick(OPERATION_LEASE_SECONDS));
    TickLeaves(first, OPERATION_LEASE_SECONDS);
    var v := first.(now := first.now + OPERATION_LEASE_SECONDS);
    RecoverLeaves(v, i, lease);
    var recover := Registry(RecoverOperation(i.claim, i.generation, lease));
    RunKeepsInv(w, [Grant(w, i, lease, action), Tick(OPERATION_LEASE_SECONDS)]);
    StepKeepsInv(v, recover);
    UnfencedHasNoLease(Apply(v, recover), i.claim);
    GrantLeaves(Apply(v, recover), i, again, action);
  }

  // ------------------------------------------------------------ completing

  /** What completing a lease changes, and all that it changes. */
  predicate Completed(before: World, after: World, i: Identity, lease: Id) {
    && At(before, i.claim, i.generation, Operating)
    && before.claims[i.claim].fence == Some(lease)
    && At(after, i.claim, i.generation, Managed) && after.claims[i.claim].fence.None?
    && after.leases == before.leases - {lease}
  }

  /** The call does nothing, or this one completion: it clears the fence of exactly the lease
      it names. An answer without it is the state the claim was in, with no lease row left to
      complete. Either way no lease of this name is left on the claim. */
  method CompleteManagedOperationLease(db: Database, i: Identity, action: string, lease: Id)
    returns (r: Result<ClaimState>, ghost done: bool, ghost before: World, ghost seen: World)
    requires db.Valid()
    modifies db
    ensures db.Valid() && old(db.trace) <= db.trace
    ensures db.own == Recorded(old(db.own), done, Registry(CompleteOperation(i.claim, i.generation, lease)))
    ensures db.tries <= old(db.tries) + 1
    ensures done ==> Later(old(db.world), before) && Completed(before, db.world, i, lease)
    ensures r.Ok? && done ==> r.value == Managed
    ensures r.Ok? && !done ==>
      && Later(old(db.world), seen) && Later(seen, db.world)
      && ValidatedState(seen, i) == r && r.value in {Managed, Retiring}
    ensures r.Ok? ==>
      (lease in db.world.leases ==> db.world.leases[lease].claim != i.claim)
  {
    hide Inv, Later, Run, Apply, Enabled, Violates, Completed;
    done := false;
    ghost var w := db.world;
    before, seen := w, w;
    LaterAlone(w, 0);
    if i.generation <= 0 || action !in ACTIONS {
      return Err(Invalid), done, before, seen;
    }
    db.Interfere();
    seen := db.world;
    var state := ValidatedState(db.world, i);
    if state.Err? {
      return Err(state.error), done, before, seen;
    }
    db.Interfere();
    LaterTransitive(w, seen, db.world);
    ClaimLater(seen, db.world, i.claim);
    if !exists l :: l in db.world.leases && db.world.leases[l].claim == i.claim {
      r := if state.value in {Managed, Retiring} then Ok(state.value) else Err(Conflict);
      return r, done, before, seen;
    }
    var row :| row in db.world.leases && db.world.leases[row].claim == i.claim;
    if row != lease || db.world.leases[row].action != action
       || db.world.leases[row].generation != i.generation {
      return Err(Invalid), done, before, seen;
    }
    ghost var y := db.world;
    var held := db.Guard();
    LaterTransitive(w, y, db.world);
    if !held {
      return Err(AuthorityLost), done, before, seen;
    }
    before := db.world;
    var complete := CompleteOperation(i.claim, i.generation, lease);
    var outcome;
    outcome, done := db.Submit(Registry(complete));
    if done {
      CompletedBy(before, complete, i);
    }
    match outcome
    case Committed => r := Ok(Managed);
    case NoRow => r := Err(Conflict);
    case Duplicate => r := Err(Conflict);
    case Retryable => r := Err(DatabaseFailed);
    case Fatal => r := Err(DatabaseFailed);
  }

  lemma CompletedBy(w: World, ev: RegistryEvent, i: Identity)
    requires ev.CompleteOperation? && ev == CompleteOperation(i.claim, i.generation, ev.lease)
    requires Enabled(w, Registry(ev))
    ensures Completed(w, Apply(w, Registry(ev)), i, ev.lease)
    ensures ev.lease !in Apply(w, Registry(ev)).leases
  {
  }
}
