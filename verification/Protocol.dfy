/** The adoption protocol as a transition system: one event per committed transaction
    or external call.

    A conditional UPDATE that matches no row changes nothing, so an event that is not
    enabled leaves the world as it is and a run is any sequence of events at all.
    Checks a caller made in an earlier transaction are not part of an event unless
    what they established can never become false again. */
module Protocol {
  import opened Model
  import opened WorkerStep

  const OPERATION_LEASE_SECONDS := 7200

  /** Transactions of the claim registry. */
  datatype RegistryEvent =
    | InsertClaim(claim: Id, guest: Guest, json: string)
    | RefreshClaim(claim: Id, generation: int, node: string, json: string)
    | ReReserve(claim: Id, generation: int, node: string, json: string)
    | Bind(claim: Id, generation: int, manifest: Digest, vmRef: Id, instance: string)
    | Promote(claim: Id, generation: int, vmRef: Id, lease: Id)
    | Retire(claim: Id, generation: int, from: ClaimState, fence: Option<Id>,
             guest: Guest, vmRef: Id, instance: string)
    | FinalizeRetiring(claim: Id, generation: int, vmRef: Id)
    | GrantOperation(claim: Id, generation: int, lease: Id, action: string, at: int)
    | RecoverOperation(claim: Id, generation: int, lease: Id)
    | CompleteOperation(claim: Id, generation: int, lease: Id)

  /** Transactions and calls of the execution workers. */
  datatype WorkEvent =
    | CreateExecution(exec: Id, claim: Id, generation: int, plan: Plan)
    | MintWorkerLease(lease: Id, exec: Id)
    | AcquireExecution(lease: Id, at: int, seconds: int)
    | BeginWork(lease: Id)
    | SaveObservation(lease: Id, seen: Observation)
    | ArmDeploy(lease: Id)
    | CallDeploy(lease: Id)
    | FinishDeploy(lease: Id, reply: Reply)
    | ArmStart(lease: Id)
    | CallStart(lease: Id)
    | FinishStart(lease: Id, reply: Reply)
    | SeePromotion(lease: Id)
    | Succeed(lease: Id)
    | ReleaseCleanup(lease: Id)

  /** Explicit operator requests and the extension's delete callback. */
  datatype RequestEvent =
    | Retry(exec: Id, was: ExecState, to: ExecState)
    | MarkStoppedDeployment(exec: Id)
    | RequestCleanup(attempt: Id, exec: Id, instance: string)
    | LoadCleanup(attempt: Id)
    | CallDestroy(attempt: Id)
    | FinishCleanup(attempt: Id, reply: Reply)
    | AuthorizeCleanup(exec: Id, claim: Id, generation: int, guest: Guest, instance: string)

  datatype Event =
    | Tick(elapsed: nat)
    | Registry(registry: RegistryEvent)
    | Work(work: WorkEvent)
    | Request(request: RequestEvent)

  // ------------------------------------------------------------- conditions

  predicate Unbound(c: Claim) {
    c.vmRef.None? && c.instance.None?
  }

  predicate At(w: World, id: Id, generation: int, state: ClaimState) {
    id in w.claims && w.claims[id].generation == generation && w.claims[id].state == state
  }

  predicate FreePlacement(w: World, guest: Guest) {
    forall c :: c in w.claims ==>
      !(w.claims[c].guest.cluster == guest.cluster && w.claims[c].guest.vmid == guest.vmid)
  }

  predicate FreeVmRef(w: World, claim: Id, vmRef: Id) {
    forall c :: c in w.claims && c != claim ==> w.claims[c].vmRef != Some(vmRef)
  }

  predicate NoExecutionOf(w: World, claim: Id) {
    forall e :: e in w.execs ==> w.execs[e].claim != claim
  }

  predicate FreeGeneration(w: World, claim: Id, generation: int) {
    forall e :: e in w.execs ==> !(w.execs[e].claim == claim && w.execs[e].generation == generation)
  }

  predicate Expired(w: World, claim: Id, lease: Id) {
    lease in w.leases && w.leases[lease].claim == claim && w.leases[lease].expiresAt <= w.now
  }

  /** `assert_lease`: the worker lease is the one on the row and has not run out. */
  predicate Current(w: World, lease: Id) {
    && lease in w.workers && w.workers[lease].exec in w.execs
    && w.execs[w.workers[lease].exec].lease.Some?
    && w.execs[w.workers[lease].exec].lease.value.id == lease
    && w.execs[w.workers[lease].exec].lease.value.expiresAt >= w.now
  }

  predicate InPhase(w: World, lease: Id, phase: WorkerPhase) {
    lease in w.workers && w.workers[lease].phase == phase
  }

  function Reacts(w: World, lease: Id, seen: Observation): Reaction
    requires lease in w.workers
  {
    React(w.workers[lease].seen, w.workers[lease].exec, seen)
  }

  /** The state changes an operator may ask for explicitly. */
  predicate RetryEdge(from: ExecState, to: ExecState) {
    || (from == SubmissionUnknown && to in {DeploySucceeded, Planned})
    || (from == StartUnknown && to in {Verifying, DeploySucceeded})
  }

  predicate RegistryEnabled(w: World, ev: RegistryEvent) {
    match ev
    case InsertClaim(claim, guest, json) =>
      claim !in w.issued && FreePlacement(w, guest) && guest.manifest == Sha256(json)
    case RefreshClaim(claim, generation, node, json) =>
      && At(w, claim, generation, Reserved)
      && Unbound(w.claims[claim]) && w.claims[claim].fence.None?
      && NoExecutionOf(w, claim)
    case ReReserve(claim, generation, node, json) =>
      At(w, claim, generation, Released)
    case Bind(claim, generation, manifest, vmRef, instance) =>
      && At(w, claim, generation, Reserved)
      && w.claims[claim].guest.manifest == manifest && w.claims[claim].vmRef.None?
      && FreeVmRef(w, claim, vmRef)
    case Promote(claim, generation, vmRef, lease) =>
      && At(w, claim, generation, Bound) && w.claims[claim].vmRef == Some(vmRef)
      && vmRef in w.execs && w.execs[vmRef].claim == claim
      && w.execs[vmRef].generation == generation && w.execs[vmRef].state == Verifying
      && w.execs[vmRef].lease.Some? && w.execs[vmRef].lease.value.id == lease
      && w.execs[vmRef].lease.value.expiresAt > w.now
    case Retire(claim, generation, from, fence, guest, vmRef, instance) =>
      && from in {Bound, Managed, Operating}
      && At(w, claim, generation, from) && w.claims[claim].fence == fence
      && w.claims[claim].guest == guest && w.claims[claim].vmRef == Some(vmRef)
      && w.claims[claim].instance == Some(instance)
      && (from == Operating ==> fence.Some? && Expired(w, claim, fence.value))
    case FinalizeRetiring(claim, generation, vmRef) =>
      At(w, claim, generation, Retiring) && w.claims[claim].vmRef == Some(vmRef)
    case GrantOperation(claim, generation, lease, action, at) =>
      && At(w, claim, generation, Managed) && w.claims[claim].fence.None?
      && lease !in w.issued && at <= w.now
      && (forall l :: l in w.leases ==> w.leases[l].claim != claim)
    case RecoverOperation(claim, generation, lease) =>
      && At(w, claim, generation, Operating) && w.claims[claim].fence == Some(lease)
      && Expired(w, claim, lease)
    case CompleteOperation(claim, generation, lease) =>
      At(w, claim, generation, Operating) && w.claims[claim].fence == Some(lease)
  }

  predicate WorkEnabled(w: World, ev: WorkEvent) {
    match ev
    case CreateExecution(exec, claim, generation, plan) =>
      && exec !in w.issued && claim in w.claims
      && 1 <= generation <= w.claims[claim].generation
      && FreeGeneration(w, claim, generation)
    case MintWorkerLease(lease, exec) =>
      lease !in w.issued && exec in w.execs
    case AcquireExecution(lease, at, seconds) =>
      && lease in w.leaseFor && lease !in w.workers && w.leaseFor[lease] in w.execs
      && Active(w.execs[w.leaseFor[lease]].state) && at <= w.now
      && (var held := w.execs[w.leaseFor[lease]].lease;
          held.None? || held.value.expiresAt < at)
    case BeginWork(lease) =>
      && lease in w.leaseFor && lease !in w.workers && w.leaseFor[lease] in w.execs
      && Active(w.execs[w.leaseFor[lease]].state)
      && w.execs[w.leaseFor[lease]].lease.Some?
      && w.execs[w.leaseFor[lease]].lease.value.id == lease
    case SaveObservation(lease, seen) =>
      InPhase(w, lease, Observing) && Current(w, lease) && Reacts(w, lease, seen).Save?
    case ArmDeploy(lease) =>
      && InPhase(w, lease, Observing) && Current(w, lease)
      && w.workers[lease].seen.state == Planned
    case CallDeploy(lease) =>
      InPhase(w, lease, DeployArmed) && w.workers[lease].exec in w.execs
    case FinishDeploy(lease, reply) =>
      InPhase(w, lease, DeployCalled) && Current(w, lease)
    case ArmStart(lease) =>
      && InPhase(w, lease, Observing) && Current(w, lease)
      && w.workers[lease].seen.state == DeploySucceeded
    case CallStart(lease) =>
      InPhase(w, lease, StartArmed) && w.workers[lease].exec in w.execs
    case FinishStart(lease, reply) =>
      InPhase(w, lease, StartCalled) && Current(w, lease)
    case SeePromotion(lease) =>
      && InPhase(w, lease, Observing) && w.workers[lease].seen.state == Verifying
      && At(w, w.workers[lease].seen.claim, w.workers[lease].seen.generation, Managed)
    case Succeed(lease) =>
      InPhase(w, lease, Promoted) && Current(w, lease)
    case ReleaseCleanup(lease) =>
      && InPhase(w, lease, Observing) && w.workers[lease].exec in w.execs
      && (var row := w.execs[w.workers[lease].exec];
          && row.state in {CleanupSubmitting, CleanupAuthorized, CleanupSubmitted}
          && row.lease.Some? && row.lease.value.id == lease
          && (|| At(w, row.claim, row.generation, Reserved)
              || At(w, row.claim, row.generation, CleaningUp))
          && Unbound(w.claims[row.claim]))
  }

  predicate RequestEnabled(w: World, ev: RequestEvent) {
    match ev
    case Retry(exec, was, to) =>
      && RetryEdge(was, to)
      && exec in w.execs && w.execs[exec].state == was && w.execs[exec].lease.None?
    case MarkStoppedDeployment(exec) =>
      exec in w.execs && w.execs[exec].state == DeploySucceeded && w.execs[exec].lease.None?
    case RequestCleanup(attempt, exec, instance) =>
      && attempt !in w.issued
      && exec in w.execs && w.execs[exec].state == CleanupRequired && w.execs[exec].lease.None?
    case LoadCleanup(attempt) =>
      && attempt in w.cleaners && w.cleaners[attempt].phase == CleanupWon
      && w.cleaners[attempt].exec in w.execs
    case CallDestroy(attempt) =>
      && attempt in w.cleaners && w.cleaners[attempt].phase.CleanupLoaded?
      && w.cleaners[attempt].exec in w.execs
    case FinishCleanup(attempt, reply) =>
      && attempt in w.cleaners && w.cleaners[attempt].phase.DestroyCalled?
      && w.cleaners[attempt].exec in w.execs
    case AuthorizeCleanup(exec, claim, generation, guest, instance) =>
      && At(w, claim, generation, Reserved) && w.claims[claim].guest == guest
      && Unbound(w.claims[claim])
      && exec in w.execs && w.execs[exec].claim == claim
      && w.execs[exec].generation == generation
      && w.execs[exec].state in {CleanupSubmitting, CleanupSubmitted}
      && w.execs[exec].vmRef == Some(exec) && w.execs[exec].instance == Some(instance)
  }

  predicate Enabled(w: World, ev: Event) {
    match ev
    case Tick(_) => true
    case Registry(r) => RegistryEnabled(w, r)
    case Work(k) => WorkEnabled(w, k)
    case Request(q) => RequestEnabled(w, q)
  }

  // ---------------------------------------------------------------- effects

  function PutClaim(w: World, id: Id, c: Claim): World {
    w.(claims := w.claims[id := c])
  }

  function PutExec(w: World, id: Id, e: Execution): World {
    w.(execs := w.execs[id := e])
  }

  function PutWorker(w: World, lease: Id, worker: Worker): World {
    w.(workers := w.workers[lease := worker])
  }

  function Done(w: World, lease: Id): World {
    w.(workers := w.workers - {lease})
  }

  function LedgerOf(w: World, exec: Id): Ledger {
    if exec in w.ledgers then w.ledgers[exec] else NEW_LEDGER
  }

  function PutLedger(w: World, exec: Id, l: Ledger): World {
    w.(ledgers := w.ledgers[exec := l])
  }

  function Remanifested(c: Claim, node: string, json: string): Claim {
    c.(guest := c.guest.(node := node, manifest := Sha256(json)), manifestJson := json,
       generation := c.generation + 1)
  }

  function RegistryEffect(w: World, ev: RegistryEvent): World
    requires RegistryEnabled(w, ev)
  {
    match ev
    case InsertClaim(claim, guest, json) =>
      PutClaim(w, claim, Claim(guest, json, 1, Reserved, None, None, None))
        .(issued := w.issued + {claim})
    case RefreshClaim(claim, generation, node, json) =>
      PutClaim(w, claim, Remanifested(w.claims[claim], node, json))
    case ReReserve(claim, generation, node, json) =>
      PutClaim(w, claim, Remanifested(w.claims[claim], node, json)
        .(state := Reserved, vmRef := None, instance := None))
    case Bind(claim, generation, manifest, vmRef, instance) =>
      PutClaim(w, claim,
        w.claims[claim].(state := Bound, vmRef := Some(vmRef), instance := Some(instance)))
    case Promote(claim, generation, vmRef, lease) =>
      PutClaim(w, claim, w.claims[claim].(state := Managed))
    case Retire(claim, generation, from, fence, guest, vmRef, instance) =>
      PutClaim(w, claim, w.claims[claim].(state := Retiring, fence := None))
        .(leases := if from == Operating then w.leases - {fence.value} else w.leases)
    case FinalizeRetiring(claim, generation, vmRef) =>
      PutClaim(w, claim, w.claims[claim].(state := Released))
    case GrantOperation(claim, generation, lease, action, at) =>
      PutClaim(w, claim, w.claims[claim].(state := Operating, fence := Some(lease)))
        .(leases := w.leases[lease :=
            OperationLease(claim, generation, action, at + OPERATION_LEASE_SECONDS)],
          issued := w.issued + {lease})
    case RecoverOperation(claim, generation, lease) =>
      PutClaim(w, claim, w.claims[claim].(state := Managed, fence := None))
        .(leases := w.leases - {lease})
    case CompleteOperation(claim, generation, lease) =>
      PutClaim(w, claim, w.claims[claim].(state := Managed, fence := None))
        .(leases := w.leases - {lease})
  }

  function WorkEffect(w: World, ev: WorkEvent): World
    requires WorkEnabled(w, ev)
  {
    match ev
    case CreateExecution(exec, claim, generation, plan) =>
      PutLedger(PutExec(w, exec, NewExecution(claim, generation, plan)), exec, NEW_LEDGER)
        .(issued := w.issued + {exec})
    case MintWorkerLease(lease, exec) =>
      w.(leaseFor := w.leaseFor[lease := exec], issued := w.issued + {lease})
    case AcquireExecution(lease, at, seconds) =>
      var exec := w.leaseFor[lease];
      var row := w.execs[exec];
      PutExec(w, exec, row.(lease := Some(WorkerLease(lease, at + seconds)),
                            attempts := row.attempts + 1))
    case BeginWork(lease) =>
      var exec := w.leaseFor[lease];
      PutWorker(w, lease, Worker(exec, w.execs[exec], Observing))
    case SaveObservation(lease, seen) =>
      var worker := w.workers[lease];
      Done(PutExec(w, worker.exec,
             Flush(w.execs[worker.exec], worker.seen, Reacts(w, lease, seen).row)), lease)
    case ArmDeploy(lease) =>
      var worker := w.workers[lease];
      var row := w.execs[worker.exec];
      var ledger := LedgerOf(w, worker.exec);
      PutLedger(
        PutWorker(
          PutExec(w, worker.exec,
            Flush(row, worker.seen, worker.seen.(state := DeploySubmitting))),
          lease, worker.(phase := DeployArmed)),
        worker.exec, ledger.(deployArmed := ledger.deployArmed + {lease}))
    case CallDeploy(lease) =>
      var worker := w.workers[lease];
      var ledger := LedgerOf(w, worker.exec);
      PutLedger(
        PutWorker(w, lease, worker.(phase := DeployCalled, seen := w.execs[worker.exec])),
        worker.exec,
        ledger.(deployArmed := ledger.deployArmed - {lease}, deployCalls := ledger.deployCalls + 1))
    case FinishDeploy(lease, reply) =>
      var worker := w.workers[lease];
      Done(PutExec(w, worker.exec,
             Flush(w.execs[worker.exec], worker.seen, AfterDeploy(worker.seen, reply))), lease)
    case ArmStart(lease) =>
      var worker := w.workers[lease];
      var row := w.execs[worker.exec];
      var ledger := LedgerOf(w, worker.exec);
      PutLedger(
        PutWorker(
          PutExec(w, worker.exec,
            Flush(row, worker.seen, worker.seen.(state := StartSubmitting))),
          lease, worker.(phase := StartArmed)),
        worker.exec, ledger.(startArmed := ledger.startArmed + {lease}))
    case CallStart(lease) =>
      var worker := w.workers[lease];
      var ledger := LedgerOf(w, worker.exec);
      PutLedger(
        PutWorker(w, lease, worker.(phase := StartCalled, seen := w.execs[worker.exec])),
        worker.exec,
        ledger.(startArmed := ledger.startArmed - {lease}, startCalls := ledger.startCalls + 1))
    case FinishStart(lease, reply) =>
      var worker := w.workers[lease];
      Done(PutExec(w, worker.exec,
             Flush(w.execs[worker.exec], worker.seen, AfterStart(worker.seen, reply))), lease)
    case SeePromotion(lease) =>
      PutWorker(w, lease, w.workers[lease].(phase := Promoted))
    case Succeed(lease) =>
      var exec := w.workers[lease].exec;
      Done(PutExec(w, exec, Saved(w.execs[exec], Succeeded, None)), lease)
    case ReleaseCleanup(lease) =>
      var exec := w.workers[lease].exec;
      var row := w.execs[exec];
      Done(PutClaim(PutExec(w, exec, Saved(row, RolledBack, None)),
             row.claim, w.claims[row.claim].(state := Released)), lease)
  }

  function RequestEffect(w: World, ev: RequestEvent): World
    requires RequestEnabled(w, ev)
  {
    match ev
    case Retry(exec, was, to) =>
      var ledger := LedgerOf(w, exec);
      PutLedger(PutExec(w, exec, w.execs[exec].(state := to, error := None)), exec,
        if to == Planned then ledger.(replans := ledger.replans + 1)
        else if was == StartUnknown && to == DeploySucceeded
        then ledger.(restarts := ledger.restarts + 1)
        else ledger)
    case MarkStoppedDeployment(exec) =>
      PutExec(w, exec, w.execs[exec].(state := Verifying, error := None))
    case RequestCleanup(attempt, exec, instance) =>
      var ledger := LedgerOf(w, exec);
      PutLedger(
        PutExec(w, exec, w.execs[exec].(state := CleanupSubmitting, error := None,
                                        vmRef := Some(exec), instance := Some(instance))),
        exec, ledger.(cleanupEntries := ledger.cleanupEntries + 1,
                      destroyArmed := ledger.destroyArmed + {attempt}))
        .(cleaners := w.cleaners[attempt := Cleaner(exec, CleanupWon)],
          issued := w.issued + {attempt})
    case LoadCleanup(attempt) =>
      var exec := w.cleaners[attempt].exec;
      w.(cleaners := w.cleaners[attempt := Cleaner(exec, CleanupLoaded(w.execs[exec]))])
    case CallDestroy(attempt) =>
      var exec := w.cleaners[attempt].exec;
      var ledger := LedgerOf(w, exec);
      PutLedger(w, exec, ledger.(destroyArmed := ledger.destroyArmed - {attempt},
                                 destroyCalls := ledger.destroyCalls + 1))
        .(cleaners := w.cleaners[attempt :=
            Cleaner(exec, DestroyCalled(w.cleaners[attempt].phase.seen))])
    case FinishCleanup(attempt, reply) =>
      var exec := w.cleaners[attempt].exec;
      var seen := w.cleaners[attempt].phase.seen;
      PutExec(w, exec, Flush(w.execs[exec], seen, AfterDestroy(seen, reply)))
        .(cleaners := w.cleaners - {attempt})
    case AuthorizeCleanup(exec, claim, generation, guest, instance) =>
      PutClaim(PutExec(w, exec, w.execs[exec].(state := CleanupAuthorized)),
        claim, w.claims[claim].(state := CleaningUp))
  }

  function Effect(w: World, ev: Event): World
    requires Enabled(w, ev)
  {
    match ev
    case Tick(elapsed) => w.(now := w.now + elapsed)
    case Registry(r) => RegistryEffect(w, r)
    case Work(k) => WorkEffect(w, k)
    case Request(q) => RequestEffect(w, q)
  }

  function Apply(w: World, ev: Event): World {
    if Enabled(w, ev) then Effect(w, ev) else w
  }

  /** The world after a run: events in order, each one atomic. */
  function Run(w: World, events: seq<Event>): World {
    if events == [] then w
    else Apply(Run(w, events[..|events| - 1]), events[|events| - 1])
  }

  lemma RunStep(w: World, events: seq<Event>, ev: Event)
    ensures Run(w, events + [ev]) == Apply(Run(w, events), ev)
  {
    assert (events + [ev])[..|events|] == events;
  }

  lemma {:induction false} RunConcat(w: World, before: seq<Event>, after: seq<Event>)
    ensures Run(w, before + after) == Run(Run(w, before), after)
    decreases |after|
  {
    if after == [] {
      assert before + after == before;
    } else {
      var n := |after| - 1;
      assert (before + after)[..|before + after| - 1] == before + after[..n];
      RunConcat(w, before, after[..n]);
    }
  }
}
