/** The claim registry's calls, each a bounded retry loop around one conditional update.

    Every method below only moves the database along a run of the protocol, so all
    whole-run theorems hold across it. `commits` counts how often its own update took
    effect, whatever the caller was told about that commit: `own` lists those updates. */
module Registry {
  import opened Model
  import opened Protocol
  import opened Invariant
  import opened History
  import opened Database
  import opened Text

  const ATTEMPTS := 3

  predicate WellFormed(generation: int, guest: Guest, instance: string) {
    && generation > 0 && Normalized(guest.cluster) && Normalized(guest.node)
    && Normalized(instance)
  }

  lemma ClaimLater(w: World, v: World, c: Id)
    requires Later(w, v) && c in w.claims
    ensures c in v.claims && Follows(w.claims[c], v.claims[c])
  {
  }

  method FreshId(db: Database) returns (id: Id)
    ensures id !in db.world.issued
  {
    var used := db.world.issued;
    id := 0;
    ghost var left := used;
    while id in used
      invariant forall k: Id :: k < id ==> k !in left
      invariant left <= used && forall k :: k in used && k !in left ==> k < id
      decreases left
    {
      left := left - {id};
      id := id + 1;
    }
  }

  // ------------------------------------------------------------------ bind

  datatype CallbackProof = CallbackProof(plan: Option<Digest>, overrides: Option<string>)

  /** `_execution_callback_binding_matches`: with no execution, or a legacy plan, no
      partial proof may be offered; otherwise it must be exact. */
  predicate ProofMatches(execution: Option<Execution>, proof: CallbackProof) {
    if execution.None? || execution.value.plan.overrides.None?
    then proof.plan.None? && proof.overrides.None?
    else
      && proof.plan == Some(Sha256(execution.value.plan.json))
      && proof.overrides == execution.value.plan.overrides
  }

  function ExecutionOf(w: World, exec: Id, claim: Id, generation: int): Option<Execution> {
    if exec in w.execs && w.execs[exec].claim == claim && w.execs[exec].generation == generation
    then Some(w.execs[exec]) else None
  }

  predicate BoundTo(w: World, claim: Id, generation: int, guest: Guest, vmRef: Id, instance: string) {
    && At(w, claim, generation, Bound) && w.claims[claim].guest == guest
    && w.claims[claim].vmRef == Some(vmRef) && w.claims[claim].instance == Some(instance)
  }

  lemma BindEffect(w: World, ev: RegistryEvent)
    requires ev.Bind? && Enabled(w, Registry(ev))
    ensures var v := Apply(w, Registry(ev));
      && At(w, ev.claim, ev.generation, Reserved)
      && At(v, ev.claim, ev.generation, Bound)
      && v.claims[ev.claim].vmRef == Some(ev.vmRef)
      && v.claims[ev.claim].instance == Some(ev.instance)
  {
  }

  /** One pass of a retry loop: a final answer, or another pass. */
  datatype Pass<+T> = Finish(result: Result<T>) | Again

  method TryBind(db: Database, claim: Id, generation: int, manifest: Digest, vmRef: Id, instance: string)
    returns (pass: Pass<Claim>, ghost applied: bool)
    requires db.Valid() && claim in db.world.claims
    modifies db
    ensures db.Valid() && old(db.trace) <= db.trace && Later(old(db.world), db.world)
    ensures claim in db.world.claims
    ensures pass == Again ==> !applied
    ensures db.own == Recorded(old(db.own), applied, Registry(Bind(claim, generation, manifest, vmRef, instance)))
    ensures db.tries <= old(db.tries) + 1
    ensures pass != Finish(Err(NotFound))
    ensures pass.Finish? && pass.result.Ok? ==>
      && At(db.world, claim, generation, Bound)
      && pass.result.value == db.world.claims[claim]
      && db.world.claims[claim].vmRef == Some(vmRef)
      && db.world.claims[claim].instance == Some(instance)
  {
    hide Inv, Later, Run, Apply, Enabled, Violates;
    applied := false;
    ghost var w := db.world;
    var held := db.Guard();
    ClaimLater(w, db.world, claim);
    if !held {
      return Finish(Err(AuthorityLost)), applied;
    }
    ghost var u := db.world;
    var bind := Bind(claim, generation, manifest, vmRef, instance);
    var outcome;
    outcome, applied := db.Submit(Registry(bind));
    if applied {
      BindEffect(u, bind);
    }
    ghost var v := db.world;
    LaterTransitive(w, u, v);
    ClaimLater(u, v, claim);
    if outcome == Duplicate {
      return Finish(Err(Conflict)), applied;
    }
    if outcome == Fatal {
      return Finish(Err(DatabaseFailed)), applied;
    }
    db.Interfere();
    LaterTransitive(w, v, db.world);
    ClaimLater(v, db.world, claim);
    var current := db.world.claims[claim];
    if current.state == Bound && current.generation == generation
       && current.guest.manifest == manifest
       && current.vmRef == Some(vmRef) && current.instance == Some(instance) {
      return Finish(Ok(current)), applied;
    }
    if current.state == Reserved && current.generation == generation
       && current.guest.manifest == manifest {
      return Again, applied;
    }
    return Finish(Err(Conflict)), applied;
  }

  /** Succeeds only when the claim is bound to exactly this VM. Of at most three commits one
      at most takes effect, and it is the bind that was asked for. */
  method BindClaim(db: Database, claim: Id, generation: int, guest: Guest, vmRef: Id,
                   instance: string, proof: CallbackProof)
    returns (r: Result<Claim>, ghost commits: nat)
    requires db.Valid()
    modifies db
    ensures db.Valid() && old(db.trace) <= db.trace && Later(old(db.world), db.world)
    ensures commits <= 1 && db.tries <= old(db.tries) + ATTEMPTS
    ensures db.own == Recorded(old(db.own), commits == 1,
      Registry(Bind(claim, generation, guest.manifest, vmRef, instance)))
    ensures r.Ok? ==> BoundTo(db.world, claim, generation, guest, vmRef, instance)
                      && r.value == db.world.claims[claim]
    ensures r == Err(NotFound) ==> claim !in old(db.world).claims
  {
    hide Inv, Later, Run;
    commits := 0;
    ghost var start := db.world;
    LaterAlone(start, 0);
    if !WellFormed(generation, guest, instance) {
      return Err(Invalid), 0;
    }
    db.Interfere();
    if !ProofMatches(ExecutionOf(db.world, vmRef, claim, generation), proof) {
      return Err(Invalid), 0;
    }
    if claim !in db.world.claims {
      if claim in old(db.world).claims {
        ClaimLater(old(db.world), db.world, claim);
      }
      return Err(NotFound), 0;
    }
    ghost var seen := db.world;
    var c := db.world.claims[claim];
    if c.generation != generation || c.guest != guest {
      return Err(Invalid), 0;
    }
    if c.state == Bound {
      return (if c.vmRef == Some(vmRef) && c.instance == Some(instance) then Ok(c) else Err(Conflict)), 0;
    }
    if c.state != Reserved {
      return Err(Conflict), 0;
    }
    LaterAlone(seen, 0);
    var attempt := 0;
    while attempt < ATTEMPTS
      invariant db.Valid() && old(db.trace) <= db.trace && commits == 0
      invariant db.own == old(db.own) && db.tries <= old(db.tries) + attempt && attempt <= ATTEMPTS
      invariant Later(start, db.world) && Later(seen, db.world) && claim in db.world.claims
    {
      ghost var w := db.world;
      var pass, applied := TryBind(db, claim, generation, guest.manifest, vmRef, instance);
      LaterTransitive(seen, w, db.world);
      commits := if applied then 1 else 0;
      LaterTransitive(start, seen, db.world);
      if pass.Finish? {
        ClaimLater(seen, db.world, claim);
        return pass.result, commits;
      }
      attempt := attempt + 1;
    }
    return Err(Conflict), commits;
  }

  // -------------------------------------------------------------- activate

  predicate ManagedAt(w: World, claim: Id, generation: int, vmRef: Id) {
    At(w, claim, generation, Managed) && w.claims[claim].vmRef == Some(vmRef)
  }

  /** The leased execution an activation needs, read under the row lock. */
  predicate LeasedVerifying(w: World, exec: Id, claim: Id, generation: int, lease: Id) {
    && ExecutionOf(w, exec, claim, generation).Some?
    && w.execs[exec].state == Verifying
    && w.execs[exec].lease.Some? && w.execs[exec].lease.value.id == lease
    && w.execs[exec].lease.value.expiresAt > w.now
  }

  lemma PromoteEffect(w: World, ev: RegistryEvent)
    requires ev.Promote? && Enabled(w, Registry(ev))
    ensures var v := Apply(w, Registry(ev)); ManagedAt(v, ev.claim, ev.generation, ev.vmRef)
  {
  }

  lemma SameCallAlone(w: World, t: Id)
    ensures SameCall(w, w, t)
  {
  }

  lemma SameCallTransitive(a: World, b: World, c: World, t: Id)
    requires SameCall(a, b, t) && SameCall(b, c, t)
    ensures SameCall(a, c, t)
  {
  }

  lemma PromoteIsNoCall(ev: RegistryEvent, t: Id)
    ensures !Uses(Registry(ev), t)
  {
  }

  method TryActivate(db: Database, claim: Id, generation: int, vmRef: Id, lease: Id)
    returns (pass: Pass<Claim>, ghost applied: bool)
    requires db.Valid() && claim in db.world.claims
    modifies db
    ensures db.Valid() && old(db.trace) <= db.trace && Later(old(db.world), db.world)
    ensures claim in db.world.claims && SameCall(old(db.world), db.world, lease)
    ensures pass == Again ==> !applied
    ensures db.own == Recorded(old(db.own), applied, Registry(Promote(claim, generation, vmRef, lease)))
    ensures db.tries <= old(db.tries) + 1
    ensures pass != Finish(Err(NotFound))
    ensures pass.Finish? && pass.result.Ok? ==>
      ManagedAt(db.world, claim, generation, vmRef) && pass.result.value == db.world.claims[claim]
  {
    hide Inv, Later, Run, Apply, Enabled, Violates, LeasedVerifying, SameCall;
    SameCallAlone(db.world, lease);
    applied := false;
    ghost var w := db.world;
    var held := db.GuardWith(lease);
    ClaimLater(w, db.world, claim);
    if !held {
      return Finish(Err(AuthorityLost)), applied;
    }
    if !LeasedVerifying(db.world, vmRef, claim, generation, lease) {
      return Finish(Err(Conflict)), applied;
    }
    ghost var x := db.world;
    held := db.GuardWith(lease);
    SameCallTransitive(w, x, db.world, lease);
    LaterTransitive(w, x, db.world);
    ClaimLater(w, db.world, claim);
    if !held {
      return Finish(Err(AuthorityLost)), applied;
    }
    ghost var u := db.world;
    var promote := Promote(claim, generation, vmRef, lease);
    var outcome;
    outcome, applied := db.Submit(Registry(promote));
    PromoteIsNoCall(promote, lease);
    StepLeavesCall(u, Registry(promote), lease);
    SameCallAlone(u, lease);
    SameCallTransitive(w, u, db.world, lease);
    if applied {
      PromoteEffect(u, promote);
    }
    ghost var v := db.world;
    LaterTransitive(w, u, v);
    ClaimLater(u, v, claim);
    if outcome == Fatal {
      return Finish(Err(DatabaseFailed)), applied;
    }
    db.InterfereWith(lease);
    SameCallTransitive(w, v, db.world, lease);
    LaterTransitive(w, v, db.world);
    ClaimLater(v, db.world, claim);
    var current := db.world.claims[claim];
    var exact := current.generation == generation && current.vmRef == Some(vmRef);
    if exact && current.state == Managed {
      return Finish(Ok(current)), applied;
    }
    if exact && current.state == Bound {
      return Again, applied;
    }
    return Finish(Err(Conflict)), applied;
  }

  /** Succeeds only when the claim is managed under exactly this VM. Of at most three commits
      one at most takes effect, and it is the promotion under this very lease. */
  method ActivateBoundClaim(db: Database, claim: Id, generation: int, vmRef: Id, exec: Id, lease: Id)
    returns (r: Result<Claim>, ghost commits: nat)
    requires db.Valid()
    modifies db
    ensures db.Valid() && old(db.trace) <= db.trace && Later(old(db.world), db.world)
    ensures SameCall(old(db.world), db.world, lease)
    ensures commits <= 1 && db.tries <= old(db.tries) + ATTEMPTS
    ensures db.own == Recorded(old(db.own), commits == 1, Registry(Promote(claim, generation, vmRef, lease)))
    ensures r.Ok? ==> ManagedAt(db.world, claim, generation, vmRef) && r.value == db.world.claims[claim]
    ensures r.Ok? ==> vmRef == exec
    ensures r == Err(NotFound) ==> claim !in old(db.world).claims
  {
    hide Inv, Later, Run;
    commits := 0;
    ghost var w := db.world;
    LaterAlone(w, 0);
    if generation <= 0 || vmRef != exec {
      return Err(Invalid), 0;
    }
    db.InterfereWith(lease);
    if claim !in db.world.claims {
      if claim in old(db.world).claims {
        ClaimLater(old(db.world), db.world, claim);
      }
      return Err(NotFound), 0;
    }
    var c := db.world.claims[claim];
    if c.generation != generation || c.vmRef != Some(vmRef) {
      return Err(Invalid), 0;
    }
    if c.state == Managed {
      return Ok(c), 0;
    }
    if c.state != Bound {
      return Err(Conflict), 0;
    }
    var attempt := 0;
    while attempt < ATTEMPTS
      invariant db.Valid() && old(db.trace) <= db.trace && commits == 0
      invariant db.own == old(db.own) && db.tries <= old(db.tries) + attempt && attempt <= ATTEMPTS
      invariant claim in db.world.claims
      invariant Later(w, db.world) && SameCall(w, db.world, lease)
    {
      ghost var u := db.world;
      var pass, applied := TryActivate(db, claim, generation, vmRef, lease);
      LaterTransitive(w, u, db.world);
      commits := if applied then 1 else 0;
      if pass.Finish? {
        return pass.result, commits;
      }
      attempt := attempt + 1;
    }
    return Err(Conflict), commits;
  }

  // ---------------------------------------------------------------- retire

  predicate LifecycleIdentity(c: Claim, generation: int, guest: Guest, vmRef: Id, instance: string) {
    && c.generation == generation && c.guest == guest
    && c.vmRef == Some(vmRef) && c.instance == Some(instance)
  }

  /** The generation is over as far as a live identity is concerned. */
  predicate Retired(w: World, claim: Id, generation: int) {
    && claim in w.claims
    && (|| w.claims[claim].generation > generation
        || (w.claims[claim].generation == generation && w.claims[claim].state in {Retiring, Released}))
  }

  lemma RetiredStays(w: World, v: World, claim: Id, generation: int)
    requires Later(w, v) && Retired(w, claim, generation)
    ensures Retired(v, claim, generation)
  {
    assert Follows(w.claims[claim], v.claims[claim]);
  }

  lemma RetireEffect(w: World, ev: RegistryEvent)
    requires ev.Retire? && Enabled(w, Registry(ev))
    ensures !Retired(w, ev.claim, ev.generation)
    ensures Retired(Apply(w, Registry(ev)), ev.claim, ev.generation)
  {
  }

  /** A lease row that was seen expired is still expired while the fence names it: so the
      statement of the source, which does not look at the lease row again, retires an
      operating claim under the same condition as one that does. */
  lemma ExpiredStays(w: World, v: World, claim: Id, generation: int, lease: Id)
    requires Inv(w) && Inv(v) && Later(w, v) && Expired(w, claim, lease)
    requires At(v, claim, generation, Operating) && v.claims[claim].fence == Some(lease)
    ensures Expired(v, claim, lease)
  {
    Issued(w);
    assert lease in v.leases;
    hide Inv;
  }

  /** The tombstone of exactly this identity. */
  predicate Tombstone(w: World, claim: Id, generation: int, guest: Guest, vmRef: Id, instance: string) {
    && At(w, claim, generation, Retiring)
    && LifecycleIdentity(w.claims[claim], generation, guest, vmRef, instance)
  }

  /** An update that retires this identity, from whatever live state. */
  predicate IsRetire(ev: Event, claim: Id, generation: int, guest: Guest, vmRef: Id, instance: string) {
    && ev.Registry? && ev.registry.Retire?
    && ev == Registry(Retire(claim, generation, ev.registry.from, ev.registry.fence, guest, vmRef, instance))
  }

  lemma RetireTombstone(w: World, ev: RegistryEvent)
    requires ev.Retire? && Enabled(w, Registry(ev))
    ensures Tombstone(Apply(w, Registry(ev)), ev.claim, ev.generation, ev.guest, ev.vmRef, ev.instance)
  {
  }

  /** What the update of the source matches: nothing is said of the lease row. */
  predicate RetireMatches(w: World, ev: RegistryEvent)
    requires ev.Retire?
  {
    && At(w, ev.claim, ev.generation, ev.from) && w.claims[ev.claim].fence == ev.fence
    && LifecycleIdentity(w.claims[ev.claim], ev.generation, ev.guest, ev.vmRef, ev.instance)
  }

  /** The lease was checked in `seen`, the update runs in `w`. */
  lemma MatchedRetires(seen: World, w: World, ev: RegistryEvent)
    requires ev.Retire? && ev.from in {Bound, Managed, Operating}
    requires Inv(seen) && Inv(w) && Later(seen, w)
    requires ev.from == Operating ==> ev.fence.Some? && Expired(seen, ev.claim, ev.fence.value)
    ensures Enabled(w, Registry(ev)) <==> RetireMatches(w, ev)
  {
    hide Inv, Later, Expired;
    if RetireMatches(w, ev) && ev.from == Operating {
      ExpiredStays(seen, w, ev.claim, ev.generation, ev.fence.value);
    }
  }

  method TryRetire(db: Database, claim: Id, generation: int, guest: Guest, vmRef: Id, instance: string)
    returns (pass: Pass<Claim>, ghost applied: bool, ghost at: World, ghost retire: Event)
    requires db.Valid()
    modifies db
    ensures db.Valid() && old(db.trace) <= db.trace
    ensures Later(old(db.world), at) && Later(at, db.world)
    ensures Later(old(db.world), db.world)
    ensures applied ==> !Retired(old(db.world), claim, generation) && Retired(db.world, claim, generation)
    ensures IsRetire(retire, claim, generation, guest, vmRef, instance)
    ensures db.own == Recorded(old(db.own), applied, retire) && db.tries <= old(db.tries) + 1
    ensures pass.Finish? && pass.result.Ok? ==>
      && Tombstone(at, claim, generation, guest, vmRef, instance)
      && claim in db.world.claims && pass.result.value == db.world.claims[claim]
    ensures pass == Finish(Err(NotFound)) ==> claim !in old(db.world).claims
  {
    hide Inv, Later, Run, Apply, Enabled, Violates, Retired, Expired;
    applied := false;
    ghost var w := db.world;
    db.Interfere();
    at, retire := db.world, Registry(Retire(claim, generation, Bound, None, guest, vmRef, instance));
    LaterAlone(at, 0);
    if claim !in db.world.claims {
      assert claim !in w.claims by { if claim in w.claims { ClaimLater(w, db.world, claim); } }
      return Finish(Err(NotFound)), applied, at, retire;
    }
    var c := db.world.claims[claim];
    if !LifecycleIdentity(c, generation, guest, vmRef, instance) {
      return Finish(Err(Invalid)), applied, at, retire;
    }
    if c.state == Retiring {
      return Finish(Ok(c)), applied, at, retire;
    }
    if c.state == Operating {
      if c.fence.None? || !Expired(db.world, claim, c.fence.value) {
        return Finish(Err(Conflict)), applied, at, retire;
      }
    } else if c.state !in {Bound, Managed} || c.fence.Some? {
      return Finish(Err(Conflict)), applied, at, retire;
    }
    var held := db.Guard();
    LaterTransitive(w, at, db.world);
    if !held {
      return Finish(Err(AuthorityLost)), applied, at, retire;
    }
    ghost var u := db.world;
    var update := Retire(claim, generation, c.state, c.fence, guest, vmRef, instance);
    retire := Registry(update);
    var outcome;
    outcome, applied := db.Submit(Registry(update));
    MatchedRetires(at, u, update);
    assert outcome in {NoRow, Duplicate} ==> !RetireMatches(u, update);
    at := db.world;
    LaterTransitive(w, u, at);
    LaterAlone(at, 0);
    if applied {
      RetireEffect(u, update);
      RetireTombstone(u, update);
      assert !Retired(w, claim, generation) by {
        if Retired(w, claim, generation) { RetiredStays(w, u, claim, generation); }
      }
    }
    if outcome == Fatal {
      return Finish(Err(DatabaseFailed)), applied, at, retire;
    }
    db.Interfere();
    LaterTransitive(w, at, db.world);
    if applied {
      RetiredStays(at, db.world, claim, generation);
    }
    if outcome == Committed {
      RetiredHasRow(db.world, claim, generation);
      return Finish(Ok(db.world.claims[claim])), applied, at, retire;
    }
    return Again, applied, at, retire;
  }

  lemma TombstoneRetired(w: World, claim: Id, generation: int, guest: Guest, vmRef: Id, instance: string)
    requires Tombstone(w, claim, generation, guest, vmRef, instance)
    ensures Retired(w, claim, generation)
  {
  }

  lemma RetiredHasRow(w: World, claim: Id, generation: int)
    requires Retired(w, claim, generation)
    ensures claim in w.claims
  {
  }

  /** Success means that at some moment of the call the claim stood as the tombstone of
      exactly this identity; it may already have been released, and reserved anew, by the
      time the row is read back. Of at most three commits one at most takes effect. */
  method RetireClaim(db: Database, claim: Id, generation: int, guest: Guest, vmRef: Id, instance: string)
    returns (r: Result<Claim>, ghost commits: nat, ghost at: World, ghost retire: Event)
    requires db.Valid()
    modifies db
    ensures db.Valid() && old(db.trace) <= db.trace
    ensures commits <= 1 && db.tries <= old(db.tries) + ATTEMPTS
    ensures IsRetire(retire, claim, generation, guest, vmRef, instance)
    ensures db.own == Recorded(old(db.own), commits == 1, retire)
    ensures r.Ok? ==>
      && Later(old(db.world), at) && Later(at, db.world)
      && Tombstone(at, claim, generation, guest, vmRef, instance)
      && Retired(db.world, claim, generation) && r.value == db.world.claims[claim]
    ensures commits == 1 ==> Retired(db.world, claim, generation)
    ensures r == Err(NotFound) ==> claim !in old(db.world).claims
  {
    hide Inv, Later, Run, Retired, Tombstone;
    commits := 0;
    ghost var w := db.world;
    at, retire := w, Registry(Retire(claim, generation, Bound, None, guest, vmRef, instance));
    LaterAlone(w, 0);
    if !WellFormed(generation, guest, instance) {
      return Err(Invalid), 0, at, retire;
    }
    var attempt := 0;
    while attempt < ATTEMPTS
      invariant db.Valid() && old(db.trace) <= db.trace && commits <= 1
      invariant Later(w, db.world)
      invariant commits == 1 ==> Retired(db.world, claim, generation)
      invariant IsRetire(retire, claim, generation, guest, vmRef, instance)
      invariant db.own == Recorded(old(db.own), commits == 1, retire)
      invariant db.tries <= old(db.tries) + attempt && attempt <= ATTEMPTS
    {
      ghost var u := db.world;
      var pass;
      ghost var applied, tried;
      pass, applied, at, tried := TryRetire(db, claim, generation, guest, vmRef, instance);
      LaterTransitive(w, u, at);
      LaterTransitive(w, u, db.world);
      if commits == 1 {
        RetiredStays(u, db.world, claim, generation);
      }
      commits := if applied then commits + 1 else commits;
      retire := if applied then tried else retire;
      if pass.Finish? {
        if claim in w.claims {
          ClaimLater(w, u, claim);
        }
        if pass.result.Ok? {
          TombstoneRetired(at, claim, generation, guest, vmRef, instance);
          RetiredStays(at, db.world, claim, generation);
        }
        return pass.result, commits, at, retire;
      }
      attempt := attempt + 1;
    }
    return Err(Conflict), commits, at, retire;
  }

  // -------------------------------------------------------------- finalize

  predicate ReleasedAt(w: World, claim: Id, generation: int, vmRef: Id) {
    At(w, claim, generation, Released) && w.claims[claim].vmRef == Some(vmRef)
  }

  lemma FinalizeEffect(w: World, ev: RegistryEvent)
    requires ev.FinalizeRetiring? && Enabled(w, Registry(ev))
    ensures ReleasedAt(Apply(w, Registry(ev)), ev.claim, ev.generation, ev.vmRef)
  {
  }

  method TryFinalize(db: Database, claim: Id, generation: int, vmRef: Id)
    returns (pass: Pass<Claim>, ghost applied: bool)
    requires db.Valid() && claim in db.world.claims
    modifies db
    ensures db.Valid() && old(db.trace) <= db.trace && Later(old(db.world), db.world)
    ensures claim in db.world.claims
    ensures pass == Again ==> !applied
    ensures db.own == Recorded(old(db.own), applied, Registry(FinalizeRetiring(claim, generation, vmRef)))
    ensures db.tries <= old(db.tries) + 1
    ensures pass != Finish(Err(NotFound))
    ensures pass.Finish? && pass.result.Ok? ==>
      ReleasedAt(db.world, claim, generation, vmRef) && pass.result.value == db.world.claims[claim]
  {
    hide Inv, Later, Run, Apply, Enabled, Violates;
    applied := false;
    ghost var w := db.world;
    var held := db.Guard();
    ClaimLater(w, db.world, claim);
    if !held {
      return Finish(Err(AuthorityLost)), applied;
    }
    ghost var u := db.world;
    var finalize := FinalizeRetiring(claim, generation, vmRef);
    var outcome;
    outcome, applied := db.Submit(Registry(finalize));
    if applied {
      FinalizeEffect(u, finalize);
    }
    ghost var v := db.world;
    LaterTransitive(w, u, v);
    ClaimLater(u, v, claim);
    if outcome == Fatal {
      return Finish(Err(DatabaseFailed)), applied;
    }
    db.Interfere();
    LaterTransitive(w, v, db.world);
    ClaimLater(v, db.world, claim);
    var current := db.world.claims[claim];
    if current.generation == generation && current.vmRef == Some(vmRef) {
      if current.state == Released {
        return Finish(Ok(current)), applied;
      }
      if current.state == Retiring {
        return Again, applied;
      }
    }
    return Finish(Err(Conflict)), applied;
  }

  /** Succeeds only when the tombstone of this VM is released, in the generation the call
      read at the start. Of at most three commits one at most takes effect. */
  method FinalizeRetiringClaim(db: Database, claim: Id, vmRef: Id)
    returns (r: Result<Claim>, ghost commits: nat, ghost generation: int)
    requires db.Valid()
    modifies db
    ensures db.Valid() && old(db.trace) <= db.trace
    ensures commits <= 1 && db.tries <= old(db.tries) + ATTEMPTS
    ensures db.own == Recorded(old(db.own), commits == 1,
      Registry(FinalizeRetiring(claim, generation, vmRef)))
    ensures r.Ok? ==> ReleasedAt(db.world, claim, generation, vmRef) && r.value == db.world.claims[claim]
    ensures r == Err(NotFound) ==> claim !in old(db.world).claims
  {
    hide Inv, Later, Run;
    commits, generation := 0, 0;
    db.Interfere();
    if claim !in db.world.claims {
      if claim in old(db.world).claims {
        ClaimLater(old(db.world), db.world, claim);
      }
      return Err(NotFound), commits, generation;
    }
    var c := db.world.claims[claim];
    generation := c.generation;
    if c.vmRef != Some(vmRef) {
      return Err(Invalid), commits, generation;
    }
    if c.state == Released {
      return Ok(c), commits, generation;
    }
    if c.state != Retiring {
      return Err(Conflict), commits, generation;
    }
    var attempt := 0;
    while attempt < ATTEMPTS
      invariant db.Valid() && old(db.trace) <= db.trace && commits == 0
      invariant db.own == old(db.own) && db.tries <= old(db.tries) + attempt && attempt <= ATTEMPTS
      invariant claim in db.world.claims && generation == c.generation
    {
      var pass, applied := TryFinalize(db, claim, c.generation, vmRef);
      commits := if applied then 1 else 0;
      if pass.Finish? {
        return pass.result, commits, generation;
      }
      attempt := attempt + 1;
    }
    return Err(Conflict), commits, generation;
  }
}
