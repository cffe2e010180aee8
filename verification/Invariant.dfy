/** What every step of the adoption protocol keeps, whatever actor takes it. */
module Invariant {
  import opened Model
  import opened Protocol

  // ----------------------------------------------------------------- claims

  ghost predicate ClaimShape(c: Claim) {
    && 1 <= c.generation
    && c.guest.manifest == Sha256(c.manifestJson)
    && (c.state in {Reserved, CleaningUp} ==> Unbound(c))
    && (c.state in {Bound, Managed, Operating, Retiring} ==> c.vmRef.Some? && c.instance.Some?)
    && (c.state == Operating <==> c.fence.Some?)
  }

  ghost predicate Claims(w: World) {
    forall c :: c in w.claims ==> c in w.issued && ClaimShape(w.claims[c])
  }

  ghost predicate Conflicting(a: Claim, b: Claim) {
    || (a.guest.cluster == b.guest.cluster && a.guest.vmid == b.guest.vmid)
    || (a.vmRef.Some? && a.vmRef == b.vmRef)
  }

  /** Both uniqueness constraints of the claim table. */
  ghost predicate Distinct(w: World) {
    forall a, b :: a in w.claims && b in w.claims && a != b ==> !Conflicting(w.claims[a], w.claims[b])
  }

  /** A fenced claim has its lease row, and there is no other lease row at all. */
  ghost predicate Fenced(w: World) {
    && (forall c :: c in w.claims && w.claims[c].fence.Some? ==>
          && w.claims[c].fence.value in w.leases
          && w.leases[w.claims[c].fence.value].claim == c
          && w.leases[w.claims[c].fence.value].generation == w.claims[c].generation)
    && (forall l :: l in w.leases ==>
          && l in w.issued
          && w.leases[l].claim in w.claims
          && w.claims[w.leases[l].claim].fence == Some(l))
  }

  // ------------------------------------------------------------- executions

  /** The claim an execution was made for has not gone back to an older generation. */
  ghost predicate Rooted(w: World, e: Id)
    requires e in w.execs
  {
    && w.execs[e].claim in w.claims
    && 1 <= w.execs[e].generation <= w.claims[w.execs[e].claim].generation
  }

  ghost predicate Execs(w: World) {
    && (forall e :: e in w.execs ==> e in w.issued && Rooted(w, e))
    && (forall d, e :: d in w.execs && e in w.execs && d != e ==>
          !(w.execs[d].claim == w.execs[e].claim && w.execs[d].generation == w.execs[e].generation))
  }

  ghost predicate Serves(w: World, e: Id, c: Id) {
    && e in w.execs && c in w.claims
    && w.execs[e].claim == c && w.execs[e].generation == w.claims[c].generation
  }

  /** A managed identity is backed by the execution that deployed it. */
  ghost predicate BackedClaim(w: World, c: Id)
    requires c in w.claims
  {
    w.claims[c].state in {Managed, Operating} ==>
      && w.claims[c].vmRef.Some?
      && Serves(w, w.claims[c].vmRef.value, c)
      && w.execs[w.claims[c].vmRef.value].state in {Verifying, Succeeded}
  }

  ghost predicate Backed(w: World) {
    forall c :: c in w.claims ==> BackedClaim(w, c)
  }

  ghost predicate CleanedBy(w: World, e: Id, c: Id) {
    Serves(w, e, c) && CleanupPhase(w.execs[e].state)
  }

  /** A claim set aside for deletion belongs to an execution that is being deleted. */
  ghost predicate CleanupOwned(w: World) {
    forall c :: c in w.claims && w.claims[c].state == CleaningUp ==> exists e :: CleanedBy(w, e, c)
  }

  /** An execution is rolled back only together with its claim. */
  ghost predicate RolledBackReleased(w: World) {
    forall e :: e in w.execs && w.execs[e].state == RolledBack && w.execs[e].claim in w.claims
      && w.execs[e].generation == w.claims[w.execs[e].claim].generation
      ==> w.claims[w.execs[e].claim].state == Released
  }

  // -------------------------------------------------------- in-flight calls

  predicate Holds(row: Execution, lease: Id) {
    row.lease.Some? && row.lease.value.id == lease
  }

  predicate GivenUp(s: ExecState) {
    CleanupPhase(s) || s == RolledBack
  }

  /** What a worker that still holds the lease knows about the row. */
  ghost predicate Tracks(row: Execution, worker: Worker) {
    match worker.phase
    case Observing =>
      || row.state == worker.seen.state
      || (GivenUp(worker.seen.state) && GivenUp(row.state))
    case DeployArmed => row.state == DeploySubmitting
    case DeployCalled => row.state == DeploySubmitting
    case StartArmed => row.state == StartSubmitting
    case StartCalled => row.state == StartSubmitting
    case Promoted => row.state == Verifying
  }

  ghost predicate WorkerOk(w: World, l: Id)
    requires l in w.workers
  {
    var worker := w.workers[l];
    && l in w.leaseFor && w.leaseFor[l] == worker.exec && worker.exec in w.execs
    && worker.seen.claim == w.execs[worker.exec].claim
    && worker.seen.generation == w.execs[worker.exec].generation
    && (Holds(w.execs[worker.exec], l) ==>
          Holds(worker.seen, l) && Tracks(w.execs[worker.exec], worker))
  }

  /** Only an active row is leased, to a worker that was minted for it. */
  ghost predicate LeaseMinted(w: World, e: Id)
    requires e in w.execs
  {
    w.execs[e].lease.Some? ==>
      && Active(w.execs[e].state)
      && w.execs[e].lease.value.id in w.leaseFor && w.leaseFor[w.execs[e].lease.value.id] == e
  }

  ghost predicate Workers(w: World) {
    && (forall l :: l in w.leaseFor ==> l in w.issued)
    && (forall e :: e in w.execs ==> LeaseMinted(w, e))
    && (forall l :: l in w.workers ==> WorkerOk(w, l))
  }

  ghost predicate Cleaners(w: World) {
    forall a :: a in w.cleaners ==>
      a in w.issued && w.cleaners[a].exec in w.execs && GivenUp(w.execs[w.cleaners[a].exec].state)
  }

  // ------------------------------------------------------------------ calls

  predicate BeforeStart(s: ExecState) {
    s in {Planned, DeploySubmitting, DeploySubmitted, SubmissionUnknown, DeploySucceeded}
  }

  function Unspent(b: bool): nat {
    if b then 1 else 0
  }

  /** Calls made, calls armed and the one still to be armed stay within the budget
      of one plus the explicit retries. */
  ghost predicate WithinBudget(row: Execution, l: Ledger) {
    && l.deployCalls + |l.deployArmed| + Unspent(row.state == Planned) <= 1 + l.replans
    && l.startCalls + |l.startArmed| + Unspent(BeforeStart(row.state)) <= 1 + l.restarts
    && l.destroyCalls + |l.destroyArmed| <= l.cleanupEntries
  }

  ghost predicate ArmedWorker(w: World, l: Id, e: Id, phase: WorkerPhase) {
    InPhase(w, l, phase) && w.workers[l].exec == e
  }

  ghost predicate ArmedCleaner(w: World, a: Id, e: Id) {
    a in w.cleaners && w.cleaners[a].exec == e && !w.cleaners[a].phase.DestroyCalled?
  }

  ghost predicate LedgerOk(w: World, e: Id)
    requires e in w.execs && e in w.ledgers
  {
    && WithinBudget(w.execs[e], w.ledgers[e])
    && (forall l :: l in w.ledgers[e].deployArmed <==> ArmedWorker(w, l, e, DeployArmed))
    && (forall l :: l in w.ledgers[e].startArmed <==> ArmedWorker(w, l, e, StartArmed))
    && (forall a :: a in w.ledgers[e].destroyArmed <==> ArmedCleaner(w, a, e))
  }

  ghost predicate Ledgers(w: World) {
    && w.ledgers.Keys == w.execs.Keys
    && forall e :: e in w.execs ==> LedgerOk(w, e)
  }

  ghost predicate Inv(w: World) {
    && Claims(w) && Distinct(w) && Fenced(w)
    && Execs(w) && Backed(w) && CleanupOwned(w) && RolledBackReleased(w)
    && Workers(w) && Cleaners(w) && Ledgers(w)
  }

  lemma EmptyInv()
    ensures Inv(EMPTY_WORLD)
  {
  }

  // -------------------------------------------------------- registry events

  /** How one transaction may change a claim row, as far as executions care. */
  ghost predicate ClaimMove(o: Claim, n: Claim) {
    || (n.generation == o.generation + 1 && n.state == Reserved)
    || (n.generation == o.generation && o.state != Released
        && (o.state == CleaningUp ==> n.state == Released))
  }

  ghost predicate OnlyClaims(w: World, v: World) {
    && v.execs == w.execs && v.leaseFor == w.leaseFor && v.workers == w.workers
    && v.cleaners == w.cleaners && v.ledgers == w.ledgers && w.issued <= v.issued
  }

  lemma ExecsUnderClaim(w: World, v: World, c: Id)
    requires Execs(w) && CleanupOwned(w) && RolledBackReleased(w)
    requires OnlyClaims(w, v)
    requires c in v.claims && v.claims == w.claims[c := v.claims[c]]
    requires 1 <= v.claims[c].generation
    requires if c in w.claims then ClaimMove(w.claims[c], v.claims[c]) else v.claims[c].state == Reserved
    requires v.claims[c].state == CleaningUp ==> exists e :: CleanedBy(v, e, c)
    ensures Execs(v) && CleanupOwned(v) && RolledBackReleased(v)
  {
    assert forall e :: e in w.execs ==> Rooted(w, e);
    forall k | k in v.claims && v.claims[k].state == CleaningUp
      ensures exists e :: CleanedBy(v, e, k)
    {
      if k != c {
        var e :| CleanedBy(w, e, k);
        assert CleanedBy(v, e, k);
      }
    }
  }

  lemma CallsUnderClaim(w: World, v: World)
    requires Workers(w) && Cleaners(w) && Ledgers(w) && OnlyClaims(w, v)
    ensures Workers(v) && Cleaners(v) && Ledgers(v)
  {
    hide Workers, LedgerOk;
    WorkersUnderClaim(w, v);
    forall e | e in v.execs ensures LedgerOk(v, e) {
      LedgerUnderCalls(w, v, e);
    }
  }

  /** The ledger of an execution whose row and calls are untouched. */
  lemma LedgerUnderCalls(w: World, v: World, e: Id)
    requires e in w.execs && e in w.ledgers && LedgerOk(w, e)
    requires e in v.execs && e in v.ledgers && v.execs[e] == w.execs[e] && v.ledgers[e] == w.ledgers[e]
    requires forall l :: l in w.workers && w.workers[l].exec == e ==> l in v.workers && v.workers[l] == w.workers[l]
    requires forall l :: l in v.workers && v.workers[l].exec == e ==> l in w.workers && v.workers[l] == w.workers[l]
    requires forall a :: a in w.cleaners && w.cleaners[a].exec == e ==>
      a in v.cleaners && v.cleaners[a] == w.cleaners[a]
    requires forall a :: a in v.cleaners && v.cleaners[a].exec == e ==>
      a in w.cleaners && v.cleaners[a] == w.cleaners[a]
    ensures LedgerOk(v, e)
  {
    hide WithinBudget;
    forall l ensures ArmedWorker(v, l, e, DeployArmed) <==> ArmedWorker(w, l, e, DeployArmed) {}
    forall l ensures ArmedWorker(v, l, e, StartArmed) <==> ArmedWorker(w, l, e, StartArmed) {}
    forall a ensures ArmedCleaner(v, a, e) <==> ArmedCleaner(w, a, e) {}
  }

  lemma WorkersUnderClaim(w: World, v: World)
    requires Workers(w) && OnlyClaims(w, v)
    ensures Workers(v)
  {
    forall l | l in v.workers ensures WorkerOk(v, l) {
      assert WorkerOk(w, l);
    }
    forall e | e in v.execs ensures LeaseMinted(v, e) {
      assert LeaseMinted(w, e);
    }
  }

  ghost predicate ClaimReplaced(w: World, v: World, c: Id) {
    && OnlyClaims(w, v)
    && c in v.claims && c in v.issued && v.claims == w.claims[c := v.claims[c]]
  }

  lemma DistinctUnderClaim(w: World, v: World, c: Id)
    requires Distinct(w) && ClaimReplaced(w, v, c)
    requires forall b :: b in w.claims && b != c ==> !Conflicting(v.claims[c], w.claims[b])
    ensures Distinct(v)
  {
  }

  lemma BackedUnderClaim(w: World, v: World, c: Id)
    requires Backed(w) && ClaimReplaced(w, v, c) && BackedClaim(v, c)
    ensures Backed(v)
  {
    forall k | k in v.claims ensures BackedClaim(v, k) {
      if k != c {
        assert BackedClaim(w, k);
      }
    }
  }

  lemma InvUnderClaim(w: World, v: World, c: Id)
    requires Inv(w) && ClaimReplaced(w, v, c)
    requires ClaimShape(v.claims[c])
    requires if c in w.claims then ClaimMove(w.claims[c], v.claims[c]) else v.claims[c].state == Reserved
    requires forall b :: b in w.claims && b != c ==> !Conflicting(v.claims[c], w.claims[b])
    requires v.claims[c].state == CleaningUp ==> exists e :: CleanedBy(v, e, c)
    requires Fenced(v) && BackedClaim(v, c)
    ensures Inv(v)
  {
    assert Claims(v);
    DistinctUnderClaim(w, v, c);
    BackedUnderClaim(w, v, c);
    ExecsUnderClaim(w, v, c);
    CallsUnderClaim(w, v);
  }

  /** Rows that keep their fence keep every lease. */
  lemma FencesUnderClaim(w: World, v: World, c: Id)
    requires Fenced(w) && ClaimReplaced(w, v, c) && v.leases == w.leases
    requires if c in w.claims
             then v.claims[c].fence == w.claims[c].fence
                  && (v.claims[c].fence.None? || v.claims[c].generation == w.claims[c].generation)
             else v.claims[c].fence.None?
    ensures Fenced(v)
  {
  }

  lemma FenceDropped(w: World, v: World, c: Id)
    requires Fenced(w) && ClaimReplaced(w, v, c)
    requires c in w.claims && w.claims[c].fence.Some? && v.claims[c].fence.None?
    requires v.leases == w.leases - {w.claims[c].fence.value}
    ensures Fenced(v)
  {
    forall k | k in v.claims && v.claims[k].fence.Some?
      ensures v.claims[k].fence.value in v.leases
    {
      assert w.leases[w.claims[k].fence.value].claim == k;
    }
  }

  lemma FenceRaised(w: World, v: World, c: Id, lease: Id)
    requires Fenced(w) && ClaimReplaced(w, v, c)
    requires c in w.claims && w.claims[c].fence.None? && v.claims[c].fence == Some(lease)
    requires lease !in w.leases && lease in v.issued && lease in v.leases
    requires v.leases == w.leases[lease := v.leases[lease]]
    requires v.leases[lease].claim == c && v.leases[lease].generation == v.claims[c].generation
    ensures Fenced(v)
  {
  }

  lemma KnownClaim(w: World, c: Id)
    requires Inv(w) && c in w.claims
    ensures ClaimShape(w.claims[c]) && BackedClaim(w, c) && Fenced(w) && c in w.issued
    ensures forall b :: b in w.claims && b != c ==> !Conflicting(w.claims[c], w.claims[b])
  {
  }

  lemma InsertKeepsInv(w: World, ev: RegistryEvent)
    requires Inv(w) && RegistryEnabled(w, ev) && ev.InsertClaim?
    ensures Inv(RegistryEffect(w, ev))
  {
    var v := RegistryEffect(w, ev);
    assert ev.claim !in w.claims;
    FencesUnderClaim(w, v, ev.claim);
    InvUnderClaim(w, v, ev.claim);
  }

  lemma RenewKeepsInv(w: World, ev: RegistryEvent)
    requires Inv(w) && RegistryEnabled(w, ev) && (ev.RefreshClaim? || ev.ReReserve?)
    ensures Inv(RegistryEffect(w, ev))
  {
    var v := RegistryEffect(w, ev);
    assert ClaimShape(w.claims[ev.claim]);
    FencesUnderClaim(w, v, ev.claim);
    forall b | b in w.claims && b != ev.claim
      ensures !Conflicting(v.claims[ev.claim], w.claims[b])
    {
      assert !Conflicting(w.claims[ev.claim], w.claims[b]);
    }
    InvUnderClaim(w, v, ev.claim);
  }

  lemma BindKeepsInv(w: World, ev: RegistryEvent)
    requires Inv(w) && RegistryEnabled(w, ev) && ev.Bind?
    ensures Inv(RegistryEffect(w, ev))
  {
    var v := RegistryEffect(w, ev);
    assert ClaimShape(w.claims[ev.claim]);
    FencesUnderClaim(w, v, ev.claim);
    forall b | b in w.claims && b != ev.claim
      ensures !Conflicting(v.claims[ev.claim], w.claims[b])
    {
      assert !Conflicting(w.claims[ev.claim], w.claims[b]);
    }
    InvUnderClaim(w, v, ev.claim);
  }

  /** Events that keep both identity columns cannot create a conflict. */
  lemma SameIdentityKeepsInv(w: World, v: World, c: Id)
    requires Inv(w) && ClaimReplaced(w, v, c) && c in w.claims
    requires v.claims[c].guest == w.claims[c].guest && v.claims[c].vmRef == w.claims[c].vmRef
    requires ClaimShape(v.claims[c]) && ClaimMove(w.claims[c], v.claims[c])
    requires v.claims[c].state == CleaningUp ==> exists e :: CleanedBy(v, e, c)
    requires Fenced(v) && BackedClaim(v, c)
    ensures Inv(v)
  {
    hide Inv, Fenced, BackedClaim;
    KnownClaim(w, c);
    forall b | b in w.claims && b != c ensures !Conflicting(v.claims[c], w.claims[b]) {
      assert !Conflicting(w.claims[c], w.claims[b]);
    }
    InvUnderClaim(w, v, c);
  }

  lemma PromoteKeepsInv(w: World, ev: RegistryEvent)
    requires Inv(w) && RegistryEnabled(w, ev) && ev.Promote?
    ensures Inv(RegistryEffect(w, ev))
  {
    hide Inv, Fenced;
    var v := RegistryEffect(w, ev);
    KnownClaim(w, ev.claim);
    FencesUnderClaim(w, v, ev.claim);
    SameIdentityKeepsInv(w, v, ev.claim);
  }

  lemma RetireKeepsInv(w: World, ev: RegistryEvent)
    requires Inv(w) && RegistryEnabled(w, ev) && (ev.Retire? || ev.FinalizeRetiring?)
    ensures Inv(RegistryEffect(w, ev))
  {
    hide Inv, Fenced;
    var v := RegistryEffect(w, ev);
    KnownClaim(w, ev.claim);
    if ev.Retire? && ev.from == Operating {
      FenceDropped(w, v, ev.claim);
    } else {
      FencesUnderClaim(w, v, ev.claim);
    }
    SameIdentityKeepsInv(w, v, ev.claim);
  }

  lemma GrantKeepsInv(w: World, ev: RegistryEvent)
    requires Inv(w) && RegistryEnabled(w, ev) && ev.GrantOperation?
    ensures Inv(RegistryEffect(w, ev))
  {
    hide Inv;
    var v := RegistryEffect(w, ev);
    KnownClaim(w, ev.claim);
    FenceRaised(w, v, ev.claim, ev.lease);
    SameIdentityKeepsInv(w, v, ev.claim);
  }

  lemma EndOperationKeepsInv(w: World, ev: RegistryEvent)
    requires Inv(w) && RegistryEnabled(w, ev)
    requires ev.RecoverOperation? || ev.CompleteOperation?
    ensures Inv(RegistryEffect(w, ev))
  {
    hide Inv, Fenced;
    var v := RegistryEffect(w, ev);
    KnownClaim(w, ev.claim);
    FenceDropped(w, v, ev.claim);
    SameIdentityKeepsInv(w, v, ev.claim);
  }

  lemma RegistryKeepsInv(w: World, ev: RegistryEvent)
    requires Inv(w) && RegistryEnabled(w, ev)
    ensures Inv(RegistryEffect(w, ev))
  {
    match ev
    case InsertClaim(_, _, _) => InsertKeepsInv(w, ev);
    case RefreshClaim(_, _, _, _) => RenewKeepsInv(w, ev);
    case ReReserve(_, _, _, _) => RenewKeepsInv(w, ev);
    case Bind(_, _, _, _, _) => BindKeepsInv(w, ev);
    case Promote(_, _, _, _) => PromoteKeepsInv(w, ev);
    case Retire(_, _, _, _, _, _, _) => RetireKeepsInv(w, ev);
    case FinalizeRetiring(_, _, _) => RetireKeepsInv(w, ev);
    case GrantOperation(_, _, _, _, _) => GrantKeepsInv(w, ev);
    case RecoverOperation(_, _, _) => EndOperationKeepsInv(w, ev);
    case CompleteOperation(_, _, _) => EndOperationKeepsInv(w, ev);
  }

  // ---------------------------------------------- execution-row transactions

  ghost predicate SameState(o: Execution, n: Execution) {
    n.state == o.state || (GivenUp(o.state) && GivenUp(n.state))
  }

  /** How one transaction may change an execution row, as far as claims care. */
  ghost predicate RowMove(o: Execution, n: Execution) {
    && n.claim == o.claim && n.generation == o.generation
    && (o.state in {Verifying, Succeeded} ==> n.state in {Verifying, Succeeded})
    && (GivenUp(o.state) ==> GivenUp(n.state))
  }

  ghost predicate RowReplaced(w: World, v: World, e: Id) {
    && v.claims == w.claims && v.leases == w.leases && w.issued <= v.issued
    && e in w.execs && e in v.execs && v.execs == w.execs[e := v.execs[e]]
    && RowMove(w.execs[e], v.execs[e])
  }

  lemma ExecsUnderRow(w: World, v: World, e: Id)
    requires Execs(w) && RowReplaced(w, v, e)
    ensures Execs(v)
  {
    assert forall d :: d in w.execs ==> Rooted(w, d);
  }

  lemma BackedUnderRow(w: World, v: World, e: Id)
    requires Backed(w) && RowReplaced(w, v, e)
    ensures Backed(v)
  {
    forall c | c in v.claims ensures BackedClaim(v, c) {
      assert BackedClaim(w, c);
    }
  }

  /** A row is rolled back only once its claim is released. */
  ghost predicate RollbackJustified(w: World, v: World, e: Id)
    requires RowReplaced(w, v, e)
  {
    v.execs[e].state == RolledBack ==>
      || w.execs[e].state == RolledBack
      || (w.execs[e].claim in w.claims && w.claims[w.execs[e].claim].state == Released)
  }

  lemma CleanupUnderRow(w: World, v: World, e: Id)
    requires CleanupOwned(w) && RowReplaced(w, v, e) && RollbackJustified(w, v, e)
    ensures CleanupOwned(v)
  {
    forall c | c in v.claims && v.claims[c].state == CleaningUp
      ensures exists d :: CleanedBy(v, d, c)
    {
      var d :| CleanedBy(w, d, c);
      assert CleanedBy(v, d, c);
    }
  }

  lemma RollbackUnderRow(w: World, v: World, e: Id)
    requires RolledBackReleased(w) && RowReplaced(w, v, e) && RollbackJustified(w, v, e)
    ensures RolledBackReleased(v)
  {
  }

  /** Of all calls in flight, only the worker `own` and the cleanup attempt `att`,
      both about execution `e`, may differ between the two worlds. */
  ghost predicate OnlyCalls(w: World, v: World, own: Option<Id>, att: Option<Id>, e: Id) {
    && w.leaseFor == v.leaseFor
    && (forall l: Id :: Some(l) != own ==> (l in v.workers <==> l in w.workers))
    && (forall l: Id :: Some(l) != own && l in v.workers ==> v.workers[l] == w.workers[l])
    && (own.Some? && own.value in w.workers ==> w.workers[own.value].exec == e)
    && (own.Some? && own.value in v.workers ==> v.workers[own.value].exec == e)
    && (forall a: Id :: Some(a) != att ==> (a in v.cleaners <==> a in w.cleaners))
    && (forall a: Id :: Some(a) != att && a in v.cleaners ==> v.cleaners[a] == w.cleaners[a])
    && (att.Some? && att.value in w.cleaners ==> w.cleaners[att.value].exec == e)
    && (att.Some? && att.value in v.cleaners ==> v.cleaners[att.value].exec == e)
  }

  lemma WorkerUnderRow(w: World, v: World, e: Id, l: Id)
    requires RowReplaced(w, v, e) && v.leaseFor == w.leaseFor
    requires l in w.workers && WorkerOk(w, l) && l in v.workers && v.workers[l] == w.workers[l]
    requires Holds(v.execs[e], l) ==> Holds(w.execs[e], l) && SameState(w.execs[e], v.execs[e])
    ensures WorkerOk(v, l)
  {
  }

  lemma WorkersUnderRow(w: World, v: World, e: Id, own: Option<Id>, att: Option<Id>)
    requires Workers(w) && RowReplaced(w, v, e) && OnlyCalls(w, v, own, att, e)
    requires LeaseMinted(v, e)
    requires forall l: Id :: Some(l) != own && Holds(v.execs[e], l) ==>
      Holds(w.execs[e], l) && SameState(w.execs[e], v.execs[e])
    requires own.Some? && own.value in v.workers ==> WorkerOk(v, own.value)
    ensures Workers(v)
  {
    hide WorkerOk, SameState;
    forall l | l in v.workers ensures WorkerOk(v, l) {
      if Some(l) != own {
        WorkerUnderRow(w, v, e, l);
      }
    }
    forall d | d in v.execs ensures LeaseMinted(v, d) {
      assert LeaseMinted(w, d);
    }
  }

  lemma CleanersUnderRow(w: World, v: World, e: Id, own: Option<Id>, att: Option<Id>)
    requires Cleaners(w) && RowReplaced(w, v, e) && OnlyCalls(w, v, own, att, e)
    requires att.Some? && att.value in v.cleaners ==>
      att.value in v.issued && GivenUp(v.execs[e].state)
    ensures Cleaners(v)
  {
  }

  lemma LedgersUnderRow(w: World, v: World, e: Id, own: Option<Id>, att: Option<Id>)
    requires Ledgers(w) && RowReplaced(w, v, e) && OnlyCalls(w, v, own, att, e)
    requires e in v.ledgers && v.ledgers == w.ledgers[e := v.ledgers[e]]
    requires LedgerOk(v, e)
    ensures Ledgers(v)
  {
    hide LedgerOk, RowMove;
    forall d | d in v.execs ensures LedgerOk(v, d) {
      if d != e {
        LedgerUnderCalls(w, v, d);
      }
    }
  }

  lemma InvUnderRow(w: World, v: World, e: Id, own: Option<Id>, att: Option<Id>)
    requires Inv(w) && RowReplaced(w, v, e) && OnlyCalls(w, v, own, att, e)
    requires RollbackJustified(w, v, e) && LeaseMinted(v, e)
    requires forall l: Id :: Some(l) != own && Holds(v.execs[e], l) ==>
      Holds(w.execs[e], l) && SameState(w.execs[e], v.execs[e])
    requires own.Some? && own.value in v.workers ==> WorkerOk(v, own.value)
    requires att.Some? && att.value in v.cleaners ==>
      att.value in v.issued && GivenUp(v.execs[e].state)
    requires e in v.ledgers && v.ledgers == w.ledgers[e := v.ledgers[e]] && LedgerOk(v, e)
    ensures Inv(v)
  {
    hide Execs, Backed, CleanupOwned, RolledBackReleased, Workers, Cleaners, Ledgers;
    ExecsUnderRow(w, v, e);
    BackedUnderRow(w, v, e);
    CleanupUnderRow(w, v, e);
    RollbackUnderRow(w, v, e);
    WorkersUnderRow(w, v, e, own, att);
    CleanersUnderRow(w, v, e, own, att);
    LedgersUnderRow(w, v, e, own, att);
    assert Claims(v) && Distinct(v) && Fenced(v);
  }
}
