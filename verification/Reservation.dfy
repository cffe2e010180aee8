/** `reserve_claim`: insert the claim of a placement, refresh it while it is still pristine,
    or reserve it anew once it has been released. */
module Reservation {
  import opened Model
  import opened Text
  import opened Protocol
  import opened Invariant
  import opened WorkInvariant
  import opened History
  import opened Database
  import opened Registry

  // ------------------------------------------------ releases and re-reservations

  predicate Releases(w: World, ev: Event, c: Id) {
    && c in w.claims && w.claims[c].state != Released
    && c in Apply(w, ev).claims && Apply(w, ev).claims[c].state == Released
  }

  predicate ReReserves(w: World, ev: Event, c: Id) {
    Enabled(w, ev) && ev.Registry? && ev.registry.ReReserve? && ev.registry.claim == c
  }

  function CountReleases(w: World, events: seq<Event>, c: Id): nat {
    if events == [] then 0
    else
      var before := events[..|events| - 1];
      CountReleases(w, before, c) + Unspent(Releases(Run(w, before), events[|events| - 1], c))
  }

  function CountReReserves(w: World, events: seq<Event>, c: Id): nat {
    if events == [] then 0
    else
      var before := events[..|events| - 1];
      CountReReserves(w, before, c) + Unspent(ReReserves(Run(w, before), events[|events| - 1], c))
  }

  predicate IsReleased(w: World, c: Id) {
    c in w.claims && w.claims[c].state == Released
  }

  lemma ReleasedByRegistry(w: World, r: RegistryEvent, c: Id)
    requires RegistryEnabled(w, r) && IsReleased(w, c) && c in w.issued
    ensures IsReleased(RegistryEffect(w, r), c) <==> !(r.ReReserve? && r.claim == c)
  {
  }

  lemma ReReserveWasReleased(w: World, ev: Event, c: Id)
    requires ReReserves(w, ev, c)
    ensures IsReleased(w, c) && !IsReleased(Apply(w, ev), c)
  {
  }

  lemma ReleasedByWork(w: World, k: WorkEvent, c: Id)
    requires WorkEnabled(w, k) && IsReleased(w, c)
    ensures IsReleased(WorkEffect(w, k), c)
  {
  }

  lemma ReleasedByRequest(w: World, q: RequestEvent, c: Id)
    requires RequestEnabled(w, q) && IsReleased(w, c)
    ensures IsReleased(RequestEffect(w, q), c)
  {
  }

  lemma UnknownStaysUnreleased(w: World, ev: Event, c: Id)
    requires c !in w.claims
    ensures !IsReleased(Apply(w, ev), c)
  {
    hide RegistryEnabled, RegistryEffect, WorkEnabled, WorkEffect, RequestEnabled, RequestEffect;
    if Enabled(w, ev) {
      match ev
      case Tick(_) =>
      case Registry(r) => UnknownToRegistry(w, r, c);
      case Work(k) => UnknownToWork(w, k, c);
      case Request(q) => UnknownToRequest(w, q, c);
    }
  }

  lemma UnknownToRegistry(w: World, r: RegistryEvent, c: Id)
    requires RegistryEnabled(w, r) && c !in w.claims
    ensures !IsReleased(RegistryEffect(w, r), c)
  {
  }

  lemma UnknownToWork(w: World, k: WorkEvent, c: Id)
    requires WorkEnabled(w, k) && c !in w.claims
    ensures c !in WorkEffect(w, k).claims
  {
  }

  lemma UnknownToRequest(w: World, q: RequestEvent, c: Id)
    requires RequestEnabled(w, q) && c !in w.claims
    ensures c !in RequestEffect(w, q).claims
  {
  }

  lemma ReleaseBalanceStep(w: World, ev: Event, c: Id)
    requires Inv(w)
    ensures Unspent(IsReleased(Apply(w, ev), c)) + Unspent(ReReserves(w, ev, c))
         == Unspent(IsReleased(w, c)) + Unspent(Releases(w, ev, c))
  {
    hide Inv, Apply, Enabled, RegistryEnabled, RegistryEffect, WorkEnabled, WorkEffect, RequestEnabled, RequestEffect,
         ReReserves;
    Issued(w);
    if ReReserves(w, ev, c) {
      ReReserveWasReleased(w, ev, c);
    } else if c !in w.claims {
      UnknownStaysUnreleased(w, ev, c);
    } else if IsReleased(w, c) {
      ReleasedStays(w, ev, c);
    }
  }

  lemma ReleasedStays(w: World, ev: Event, c: Id)
    requires IsReleased(w, c) && c in w.issued && !ReReserves(w, ev, c)
    ensures IsReleased(Apply(w, ev), c)
  {
    hide RegistryEnabled, RegistryEffect, WorkEnabled, WorkEffect, RequestEnabled, RequestEffect;
    if Enabled(w, ev) {
      match ev
      case Tick(_) =>
      case Registry(r) => ReleasedByRegistry(w, r, c);
      case Work(k) => ReleasedByWork(w, k, c);
      case Request(q) => ReleasedByRequest(w, q, c);
    }
  }

  /** Releases and re-reservations of a claim alternate. */
  lemma {:induction false} ReleaseBalance(w: World, events: seq<Event>, c: Id)
    requires Inv(w)
    ensures Unspent(IsReleased(Run(w, events), c)) + CountReReserves(w, events, c)
         == Unspent(IsReleased(w, c)) + CountReleases(w, events, c)
    decreases |events|
  {
    hide Inv, Apply, IsReleased, Releases, ReReserves;
    if events != [] {
      var before := events[..|events| - 1];
      ReleaseBalance(w, before, c);
      RunIsLater(w, before);
      ReleaseBalanceStep(Run(w, before), events[|events| - 1], c);
    }
  }

  lemma {:induction false} ReReservesGrow(w: World, before: seq<Event>, after: seq<Event>, c: Id)
    requires before <= after
    ensures CountReReserves(w, before, c) <= CountReReserves(w, after, c)
    decreases |after|
  {
    if before != after {
      ReReservesGrow(w, before, after[..|after| - 1], c);
    }
  }

  lemma ReReserveCounted(w: World, events: seq<Event>, ev: Event, c: Id)
    requires ReReserves(Run(w, events), ev, c)
    ensures CountReReserves(w, events + [ev], c) == CountReReserves(w, events, c) + 1
  {
    assert (events + [ev])[..|events|] == events;
  }

  // ----------------------------------------------------------- the reservation

  predicate Placed(w: World, c: Id, guest: Guest) {
    c in w.claims && w.claims[c].guest.cluster == guest.cluster && w.claims[c].guest.vmid == guest.vmid
  }

  /** `is_same_reservation` */
  predicate SameReservation(c: Claim, guest: Guest, json: string) {
    && c.state == Reserved && c.guest.node == guest.node
    && c.guest.manifest == guest.manifest && c.manifestJson == json
  }

  function Pristine(guest: Guest, json: string, generation: int): Claim {
    Claim(guest, json, generation, Reserved, None, None, None)
  }

  /** The claim is reserved for exactly this guest and manifest, bound to nothing. */
  predicate ReservedAs(w: World, c: Id, guest: Guest, json: string) {
    c in w.claims && w.claims[c] == Pristine(guest, json, w.claims[c].generation)
  }

  lemma SameIsReserved(w: World, c: Id, guest: Guest, json: string)
    requires Inv(w) && Placed(w, c, guest) && SameReservation(w.claims[c], guest, json)
    ensures ReservedAs(w, c, guest, json)
  {
    ClaimFacts(w, c);
    hide Inv;
  }

  /** At some moment between `from` and `to` the claim stood reserved just so. */
  ghost predicate Stood(from: World, at: World, to: World, c: Id, guest: Guest, json: string) {
    Later(from, at) && Later(at, to) && ReservedAs(at, c, guest, json)
  }

  lemma StoodEarlier(first: World, from: World, at: World, to: World, c: Id, guest: Guest, json: string)
    requires Later(first, from) && Stood(from, at, to, c, guest, json)
    ensures Stood(first, at, to, c, guest, json)
  {
    hide Later, ReservedAs;
    LaterTransitive(first, from, at);
  }

  // --------------------------------------------------- what the call itself does

  predicate IsInsert(ev: Event, guest: Guest, json: string) {
    ev.Registry? && ev.registry.InsertClaim? && ev.registry.guest == guest && ev.registry.json == json
  }

  /** The event advances the generation of the claim, to this node and manifest. */
  predicate IsRenewal(ev: Event, c: Id, node: string, json: string) {
    && ev.Registry? && (ev.registry.RefreshClaim? || ev.registry.ReReserve?)
    && ev.registry.claim == c && ev.registry.node == node && ev.registry.json == json
  }

  /** Nothing but renewals of this claim, `n` of them. */
  predicate Renewing(before: seq<Event>, after: seq<Event>, n: nat, c: Id, node: string, json: string) {
    && before <= after && |after| == |before| + n
    && forall i :: |before| <= i < |after| ==> IsRenewal(after[i], c, node, json)
  }

  /** The insert, if it took effect, and then nothing but renewals of the one claim. */
  predicate Reserves(before: seq<Event>, after: seq<Event>, inserted: bool, n: nat, c: Id, guest: Guest, json: string) {
    var k := |before| + Unspent(inserted);
    && before <= after && k <= |after|
    && (inserted ==> IsInsert(after[|before|], guest, json))
    && Renewing(after[..k], after, n, c, guest.node, json)
  }

  lemma ReservesFrom(before: seq<Event>, mid: seq<Event>, after: seq<Event>, insert: Event, inserted: bool,
                     n: nat, c: Id, guest: Guest, json: string)
    requires mid == Recorded(before, inserted, insert) && IsInsert(insert, guest, json)
    requires Renewing(mid, after, n, c, guest.node, json)
    ensures Reserves(before, after, inserted, n, c, guest, json)
  {
    assert after[..|before| + Unspent(inserted)] == mid;
  }

  lemma PlacedStays(w: World, v: World, c: Id, guest: Guest)
    requires Later(w, v) && Placed(w, c, guest)
    ensures Placed(v, c, guest)
  {
    ClaimLater(w, v, c);
  }

  lemma PlacedOnce(w: World, a: Id, b: Id, guest: Guest)
    requires Inv(w) && Placed(w, a, guest) && Placed(w, b, guest)
    ensures a == b
  {
  }

  /** `load_existing`: the claim row of the placement, read after other actors have run. */
  method LoadExisting(db: Database, guest: Guest) returns (found: Option<Id>)
    requires db.Valid()
    modifies db`world, db`trace
    ensures db.Valid() && old(db.trace) <= db.trace && Later(old(db.world), db.world)
    ensures found.Some? ==> Placed(db.world, found.value, guest)
    ensures found.None? ==> forall c: Id :: !Placed(db.world, c, guest)
    ensures forall c: Id :: Placed(old(db.world), c, guest) ==> found == Some(c)
  {
    hide Inv, Later, Run;
    ghost var w := db.world;
    db.Interfere();
    if c: Id :| c in db.world.claims && Placed(db.world, c, guest) {
      found := Some(c);
    } else {
      found := None;
    }
    forall c: Id | Placed(w, c, guest) ensures found == Some(c) {
      PlacedStays(w, db.world, c, guest);
      if found.Some? {
        PlacedOnce(db.world, c, found.value, guest);
      }
    }
  }

  // --------------------------------------------------------------- the insert

  datatype Step = Answer(result: Result<Id>) | GoOn

  lemma InsertEffect(w: World, ev: RegistryEvent)
    requires ev.InsertClaim? && Enabled(w, Registry(ev))
    ensures var v := Apply(w, Registry(ev));
      ev.claim in v.claims && v.claims[ev.claim] == Pristine(ev.guest, ev.json, 1)
  {
  }

  method TryInsert(db: Database, guest: Guest, json: string)
    returns (step: Step, ghost inserted: bool, ghost insert: Event, ghost at: World)
    requires db.Valid() && guest.manifest == Sha256(json)
    modifies db
    ensures db.Valid() && old(db.trace) <= db.trace && Later(old(db.world), db.world)
    ensures IsInsert(insert, guest, json)
    ensures db.own == Recorded(old(db.own), inserted, insert) && db.tries <= old(db.tries) + 1
    ensures step.Answer? && step.result.Ok? ==>
      Stood(old(db.world), at, db.world, step.result.value, guest, json)
  {
    hide Inv, Later, Run, Apply, Enabled, Violates;
    ghost var w := db.world;
    at, inserted, insert := w, false, Registry(InsertClaim(0, guest, json));
    var held := db.Guard();
    if !held {
      return Answer(Err(AuthorityLost)), inserted, insert, at;
    }
    ghost var u := db.world;
    var id := FreshId(db);
    var event := InsertClaim(id, guest, json);
    insert := Registry(event);
    var outcome;
    outcome, inserted := db.Submit(Registry(event));
    at := db.world;
    LaterTransitive(w, u, at);
    if outcome == Fatal {
      return Answer(Err(DatabaseFailed)), inserted, insert, at;
    }
    if outcome != Committed {
      return GoOn, inserted, insert, at;
    }
    InsertEffect(u, event);
    db.Interfere();
    LaterTransitive(w, at, db.world);
    return Answer(Ok(id)), inserted, insert, at;
  }

  // -------------------------------------------------------------- the refresh

  predicate Refreshable(w: World, c: Id)
    requires c in w.claims
  {
    && w.claims[c].state == Reserved && Unbound(w.claims[c]) && w.claims[c].fence.None?
    && NoExecutionOf(w, c)
  }

  predicate Renewed(w: World, c: Id, generation: int) {
    c in w.claims && w.claims[c].generation > generation
  }

  lemma RefreshEffect(w: World, ev: RegistryEvent)
    requires ev.RefreshClaim? && Enabled(w, Registry(ev))
    ensures Renewed(Apply(w, Registry(ev)), ev.claim, ev.generation)
  {
  }

  lemma RenewedStays(w: World, v: World, c: Id, generation: int)
    requires Later(w, v) && Renewed(w, c, generation)
    ensures Renewed(v, c, generation)
  {
    ClaimLater(w, v, c);
  }

  method TryRefresh(db: Database, c: Id, stale: int, guest: Guest, json: string)
    returns (step: Step, ghost applied: bool)
    requires db.Valid() && Placed(db.world, c, guest)
    modifies db
    ensures db.Valid() && old(db.trace) <= db.trace && Later(old(db.world), db.world)
    ensures Placed(db.world, c, guest)
    ensures db.own == Recorded(old(db.own), applied, Registry(RefreshClaim(c, stale, guest.node, json)))
    ensures db.tries <= old(db.tries) + 1
    ensures step == GoOn ==> !applied
    ensures step.Answer? && step.result.Ok? ==> step.result == Ok(c) && ReservedAs(db.world, c, guest, json)
  {
    hide Inv, Later, Run, Apply, Enabled, Violates;
    applied := false;
    ghost var w := db.world;
    var held := db.Guard();
    PlacedStays(w, db.world, c, guest);
    if !held {
      return Answer(Err(AuthorityLost)), applied;
    }
    ghost var u := db.world;
    var refresh := RefreshClaim(c, stale, guest.node, json);
    var outcome;
    outcome, applied := db.Submit(Registry(refresh));
    ghost var v := db.world;
    LaterTransitive(w, u, v);
    PlacedStays(u, v, c, guest);
    if applied {
      RefreshEffect(u, refresh);
    }
    if outcome == Fatal {
      return Answer(Err(DatabaseFailed)), applied;
    }
    var existing := LoadExisting(db, guest);
    LaterTransitive(w, v, db.world);
    if applied {
      RenewedStays(v, db.world, c, stale);
    }
    if SameReservation(db.world.claims[c], guest, json) {
      SameIsReserved(db.world, c, guest, json);
      return Answer(Ok(c)), applied;
    }
    if outcome == Committed || db.world.claims[c].state != Reserved
       || db.world.claims[c].generation != stale {
      return Answer(Err(Conflict)), applied;
    }
    return GoOn, applied;
  }

  method RefreshLoop(db: Database, c: Id, stale: int, guest: Guest, json: string)
    returns (r: Result<Id>, ghost advances: nat)
    requires db.Valid() && Placed(db.world, c, guest)
    modifies db
    ensures db.Valid() && old(db.trace) <= db.trace && Later(old(db.world), db.world)
    ensures advances <= 1 && Renewing(old(db.own), db.own, advances, c, guest.node, json)
    ensures db.tries <= old(db.tries) + ATTEMPTS
    ensures r.Ok? ==> r == Ok(c) && ReservedAs(db.world, c, guest, json)
  {
    hide Inv, Later, Run, ReservedAs, Placed;
    advances := 0;
    ghost var w := db.world;
    LaterAlone(w, 0);
    var attempt := 0;
    while attempt < ATTEMPTS
      invariant db.Valid() && old(db.trace) <= db.trace && advances == 0
      invariant db.own == old(db.own) && db.tries <= old(db.tries) + attempt && attempt <= ATTEMPTS
      invariant Placed(db.world, c, guest) && Later(w, db.world)
    {
      ghost var u := db.world;
      var step, applied := TryRefresh(db, c, stale, guest, json);
      LaterTransitive(w, u, db.world);
      advances := if applied then 1 else 0;
      if step.Answer? {
        return step.result, advances;
      }
      attempt := attempt + 1;
    }
    return Err(Conflict), advances;
  }

  // ---------------------------------------------------- reserving a released one

  method TryRenew(db: Database, c: Id, generation: int, guest: Guest, json: string)
    returns (step: Step, ghost applied: bool)
    requires db.Valid() && Placed(db.world, c, guest)
    modifies db
    ensures db.Valid() && old(db.trace) <= db.trace && Later(old(db.world), db.world)
    ensures Placed(db.world, c, guest)
    ensures db.own == Recorded(old(db.own), applied, Registry(ReReserve(c, generation, guest.node, json)))
    ensures db.tries <= old(db.tries) + 1
    ensures CountReReserves(db.start, old(db.trace), c) + Unspent(applied)
         <= CountReReserves(db.start, db.trace, c)
    ensures step.Answer? && step.result.Ok? ==> step.result == Ok(c) && ReservedAs(db.world, c, guest, json)
  {
    hide Inv, Later, Run, Apply, Enabled, Violates, CountReReserves, ReReserves;
    applied := false;
    ghost var t := db.trace;
    ghost var w := db.world;
    var held := db.Guard();
    PlacedStays(w, db.world, c, guest);
    ReReservesGrow(db.start, t, db.trace, c);
    if !held {
      return Answer(Err(AuthorityLost)), applied;
    }
    ghost var u := db.world;
    ghost var tu := db.trace;
    var renew := ReReserve(c, generation, guest.node, json);
    var outcome;
    outcome, applied := db.Submit(Registry(renew));
    ghost var v := db.world;
    ghost var tv := db.trace;
    LaterTransitive(w, u, v);
    PlacedStays(u, v, c, guest);
    if applied {
      IsReReserve(u, renew);
      ReReserveCounted(db.start, tu, Registry(renew), c);
    }
    if outcome == Fatal {
      return Answer(Err(DatabaseFailed)), applied;
    }
    var existing := LoadExisting(db, guest);
    LaterTransitive(w, v, db.world);
    ReReservesGrow(db.start, tv, db.trace, c);
    if SameReservation(db.world.claims[c], guest, json) {
      SameIsReserved(db.world, c, guest, json);
      return Answer(Ok(c)), applied;
    }
    if outcome == Committed || db.world.claims[c].state != Released {
      return Answer(Err(Conflict)), applied;
    }
    return GoOn, applied;
  }

  lemma IsReReserve(w: World, ev: RegistryEvent)
    requires ev.ReReserve? && Enabled(w, Registry(ev))
    ensures ReReserves(w, Registry(ev), ev.claim)
  {
  }

  method RenewLoop(db: Database, c: Id, guest: Guest, json: string)
    returns (r: Result<Id>, ghost advances: nat)
    requires db.Valid() && Placed(db.world, c, guest)
    modifies db
    ensures db.Valid() && old(db.trace) <= db.trace && Later(old(db.world), db.world)
    ensures Renewing(old(db.own), db.own, advances, c, guest.node, json)
    ensures advances <= ATTEMPTS && db.tries <= old(db.tries) + ATTEMPTS
    ensures CountReReserves(db.start, old(db.trace), c) + advances
         <= CountReReserves(db.start, db.trace, c)
    ensures r.Ok? ==> r == Ok(c) && ReservedAs(db.world, c, guest, json)
  {
    hide Inv, Later, Run, ReservedAs, CountReReserves;
    advances := 0;
    ghost var w := db.world;
    LaterAlone(w, 0);
    var attempt := 0;
    while attempt < ATTEMPTS
      invariant db.Valid() && old(db.trace) <= db.trace && Placed(db.world, c, guest)
      invariant Later(w, db.world)
      invariant Renewing(old(db.own), db.own, advances, c, guest.node, json)
      invariant advances <= attempt <= ATTEMPTS && db.tries <= old(db.tries) + attempt
      invariant CountReReserves(db.start, old(db.trace), c) + advances
             <= CountReReserves(db.start, db.trace, c)
    {
      ghost var u := db.world;
      var step, applied := TryRenew(db, c, db.world.claims[c].generation, guest, json);
      LaterTransitive(w, u, db.world);
      advances := advances + Unspent(applied);
      if step.Answer? {
        return step.result, advances;
      }
      attempt := attempt + 1;
    }
    return Err(Conflict), advances;
  }

  // ------------------------------------------------------------- the whole call

  /** The part of the call after the insert has failed: whatever is there by now. */
  method Renew(db: Database, guest: Guest, json: string)
    returns (r: Result<Id>, ghost target: Id, ghost advances: nat, ghost at: World)
    requires db.Valid()
    modifies db
    ensures db.Valid() && old(db.trace) <= db.trace && Later(old(db.world), db.world)
    ensures Renewing(old(db.own), db.own, advances, target, guest.node, json)
    ensures advances <= ATTEMPTS && db.tries <= old(db.tries) + ATTEMPTS
    ensures r.Ok? ==> r.value == target && Stood(old(db.world), at, db.world, target, guest, json)
    ensures CountReleases(db.start, old(db.trace), target) + advances
         <= 1 + CountReleases(db.start, db.trace, target)
  {
    hide Inv, Later, Run, ReservedAs, CountReReserves, CountReleases, Placed, Refreshable;
    target, advances := 0, 0;
    ghost var w, t := db.world, db.trace;
    var existing := LoadExisting(db, guest);
    at := db.world;
    LaterAlone(at, 0);
    ReleasesGrow(db.start, t, db.trace, target);
    if existing.None? {
      return Err(Conflict), target, advances, at;
    }
    var c := existing.value;
    target := c;
    ReleasesGrow(db.start, t, db.trace, c);
    assert c in db.world.claims by { PlacedIsKnown(db.world, c, guest); }
    if SameReservation(db.world.claims[c], guest, json) {
      SameIsReserved(db.world, c, guest, json);
      return Ok(c), target, advances, at;
    }
    ghost var u, s := db.world, db.trace;
    if Refreshable(db.world, c) {
      r, advances := RefreshLoop(db, c, db.world.claims[c].generation, guest, json);
      ReleasesGrow(db.start, t, db.trace, c);
    } else if db.world.claims[c].state != Released {
      return Err(Conflict), target, advances, at;
    } else {
      r, advances := RenewLoop(db, c, guest, json);
      ReleaseBalance(db.start, s, c);
      ReleaseBalance(db.start, db.trace, c);
      ReleasesGrow(db.start, t, s, c);
    }
    at := db.world;
    LaterTransitive(w, u, at);
    LaterAlone(at, 0);
  }

  /** Success means that at some moment of the call the placement stood reserved with exactly
      this manifest. Beyond one insert the call does nothing but advance the generation of
      the one claim, at most once more than that claim is released by others meanwhile. */
  method ReserveClaim(db: Database, guest: Guest, json: string)
    returns (r: Result<Id>, ghost target: Id, ghost inserted: bool, ghost advances: nat, ghost at: World)
    requires db.Valid()
    modifies db
    ensures db.Valid() && old(db.trace) <= db.trace
    ensures r.Ok? ==> Stood(old(db.world), at, db.world, r.value, guest, json)
    ensures Reserves(old(db.own), db.own, inserted, advances, target, guest, json)
    ensures advances <= ATTEMPTS && db.tries <= old(db.tries) + 1 + ATTEMPTS
    ensures CountReleases(db.start, old(db.trace), target) + advances
         <= 1 + CountReleases(db.start, db.trace, target)
  {
    hide Inv, Later, Run, ReservedAs, CountReleases, Stood, IsInsert, IsRenewal;
    target, inserted, advances := 0, false, 0;
    ghost var w, t, own := db.world, db.trace, db.own;
    at := w;
    if !Normalized(guest.cluster) || !Normalized(guest.node) || guest.vmid <= 0
       || guest.manifest != Sha256(json) {
      return Err(Invalid), target, inserted, advances, at;
    }
    var step;
    ghost var insert;
    step, inserted, insert, at := TryInsert(db, guest, json);
    ghost var mid := db.own;
    ReleasesGrow(db.start, t, db.trace, target);
    if step.Answer? {
      ReservesFrom(own, mid, db.own, insert, inserted, 0, target, guest, json);
      return step.result, target, inserted, advances, at;
    }
    ghost var u, s := db.world, db.trace;
    r, target, advances, at := Renew(db, guest, json);
    ReleasesGrow(db.start, t, s, target);
    ReservesFrom(own, mid, db.own, insert, inserted, advances, target, guest, json);
    if r.Ok? {
      StoodEarlier(w, u, at, db.world, target, guest, json);
    }
  }

  lemma PlacedIsKnown(w: World, c: Id, guest: Guest)
    requires Placed(w, c, guest)
    ensures c in w.claims
  {
  }

  lemma {:induction false} ReleasesGrow(w: World, before: seq<Event>, after: seq<Event>, c: Id)
    requires before <= after
    ensures CountReleases(w, before, c) <= CountReleases(w, after, c)
    decreases |after|
  {
    if before != after {
      ReleasesGrow(w, before, after[..|after| - 1], c);
    }
  }

  // ---------------------------------------------- one call can advance twice

  function FourSteps(w: World, a: Event, b: Event, c: Event, d: Event): World {
    Apply(Apply(Apply(Apply(w, a), b), c), d)
  }

  lemma RunFour(w: World, a: Event, b: Event, c: Event, d: Event)
    ensures Run(w, [a, b, c, d]) == FourSteps(w, a, b, c, d)
  {
    hide Apply;
    RunStep(w, [], a);
    RunStep(w, [a], b);
    RunStep(w, [a, b], c);
    RunStep(w, [a, b, c], d);
    assert [] + [a] == [a] && [a] + [b] == [a, b];
    assert [a, b] + [c] == [a, b, c] && [a, b, c] + [d] == [a, b, c, d];
  }

  lemma RenewRow(w: World, c: Id, g: int, node: string, json: string)
    requires At(w, c, g, Released) && w.claims[c].fence.None?
    ensures Apply(w, Registry(ReReserve(c, g, node, json))).claims
         == w.claims[c := Pristine(w.claims[c].guest.(node := node, manifest := Sha256(json)), json, g + 1)]
  {
  }

  lemma BindRow(w: World, c: Id, g: int, manifest: Digest, vmRef: Id)
    requires At(w, c, g, Reserved) && w.claims[c].guest.manifest == manifest
    requires w.claims[c].vmRef.None? && FreeVmRef(w, c, vmRef)
    ensures Apply(w, Registry(Bind(c, g, manifest, vmRef, "i"))).claims
         == w.claims[c := w.claims[c].(state := Bound, vmRef := Some(vmRef), instance := Some("i"))]
  {
  }

  lemma RetireRow(w: World, c: Id, g: int, vmRef: Id)
    requires At(w, c, g, Bound) && w.claims[c].fence.None?
    requires w.claims[c].vmRef == Some(vmRef) && w.claims[c].instance == Some("i")
    ensures Apply(w, Registry(Retire(c, g, Bound, None, w.claims[c].guest, vmRef, "i"))).claims
         == w.claims[c := w.claims[c].(state := Retiring)]
  {
  }

  lemma FinalizeRow(w: World, c: Id, g: int, vmRef: Id)
    requires At(w, c, g, Retiring) && w.claims[c].vmRef == Some(vmRef)
    ensures Apply(w, Registry(FinalizeRetiring(c, g, vmRef))).claims
         == w.claims[c := w.claims[c].(state := Released)]
  {
  }

  /** When the commit of a re-reservation takes effect but is reported as failed, others
      may bind, retire and release the claim before the row is read again. It is then
      `released` once more, the loop goes on, and its next update advances the generation
      a second time: "one call advances at most once" is false. */
  lemma SecondAdvance(w: World, c: Id, node: string, json: string, vmRef: Id)
    requires Inv(w) && IsReleased(w, c) && FreeVmRef(w, c, vmRef)
    ensures var g := w.claims[c].generation;
      var guest := w.claims[c].guest.(node := node, manifest := Sha256(json));
      var renew := Registry(ReReserve(c, g, node, json));
      var others := [Registry(Bind(c, g + 1, Sha256(json), vmRef, "i")),
                     Registry(Retire(c, g + 1, Bound, None, guest, vmRef, "i")),
                     Registry(FinalizeRetiring(c, g + 1, vmRef))];
      var v := Run(w, [renew] + others);
      && IsReleased(v, c)
      && var again := Apply(v, Registry(ReReserve(c, g + 1, node, json)));
         c in again.claims && again.claims[c].generation == g + 2
  {
    hide Inv, Run, Apply;
    ClaimFacts(w, c);
    var g := w.claims[c].generation;
    var guest := w.claims[c].guest.(node := node, manifest := Sha256(json));
    var renew := Registry(ReReserve(c, g, node, json));
    var bind := Registry(Bind(c, g + 1, Sha256(json), vmRef, "i"));
    var retire := Registry(Retire(c, g + 1, Bound, None, guest, vmRef, "i"));
    var finalize := Registry(FinalizeRetiring(c, g + 1, vmRef));
    assert [renew] + [bind, retire, finalize] == [renew, bind, retire, finalize];
    RunFour(w, renew, bind, retire, finalize);
    RenewRow(w, c, g, node, json);
    var w1 := Apply(w, renew);
    BindRow(w1, c, g + 1, Sha256(json), vmRef);
    var w2 := Apply(w1, bind);
    RetireRow(w2, c, g + 1, vmRef);
    var w3 := Apply(w2, retire);
    FinalizeRow(w3, c, g + 1, vmRef);
    var w4 := Apply(w3, finalize);
    RenewRow(w4, c, g + 1, node, json);
  }
}
