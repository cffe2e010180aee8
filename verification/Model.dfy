/** The rows the adoption protocol keeps in its database, and the in-flight calls
    that read and write them.

    Identifiers (UUIDs) are compared for equality only, so they are numbers here.
    A SHA-256 digest is the text it was taken of: an injective function and no more. */
module Model {

  datatype Option<+T> = None | Some(value: T)

  type Id = nat

  datatype Digest = Sha256(text: string)

  // ---------------------------------------------------------------- claims

  datatype ClaimState =
    | Reserved | Bound | Managed | Operating | Retiring | Released | CleaningUp

  /** The immutable Proxmox identity a caller must repeat exactly. */
  datatype Guest = Guest(cluster: string, node: string, vmid: int, manifest: Digest)

  datatype Claim = Claim(
    guest: Guest,
    manifestJson: string,
    generation: int,
    state: ClaimState,
    fence: Option<Id>,          // operation_lease_id
    vmRef: Option<Id>,          // cloudstack_vm_ref
    instance: Option<string>)   // cloudstack_instance_name

  datatype OperationLease = OperationLease(
    claim: Id, generation: int, action: string, expiresAt: int)

  // ------------------------------------------------------------ executions

  datatype ExecState =
    | Planned | DeploySubmitting | DeploySubmitted | SubmissionUnknown | DeploySucceeded
    | StartSubmitting | StartSubmitted | StartUnknown | Verifying
    | CleanupSubmitting | CleanupAuthorized | CleanupSubmitted
    | Succeeded | Failed | CleanupRequired | RolledBack

  predicate Active(s: ExecState) {
    s !in {Succeeded, Failed, CleanupRequired, RolledBack}
  }

  /** The states an execution can be in once its deployment has been given up. */
  predicate CleanupPhase(s: ExecState) {
    s in {CleanupRequired, CleanupSubmitting, CleanupAuthorized, CleanupSubmitted}
  }

  /** The codes written to the `error_code` column. */
  datatype ErrorCode =
    | DeployVmNotYetStopped | CloudStackVmIdentityMismatch | DeployJobFailed
    | DeployJobFailedWithVm | DeployedVmNotStopped | DeployedVmVerificationFailed
    | PreStartVmNotStopped | PreStartVmVerificationFailed | StartJobFailed
    | PendingActivation | CleanupJobFailed | CleanupJobSucceededButVmPresent
    | CloudStackVmAmbiguous | DeploySubmissionUnknown | StartSubmissionUnknown
    | CleanupPendingUnknownJob | CleanupIdentityMismatch | DeployJobIdMissing
    | StartJobIdMissing | CleanupSubmissionUnknown | CleanupJobIdMissing

  /** `overrides` is the canonical text of the execution-time IP overrides, or None
      for a legacy plan without that key; `json` is the whole canonical plan. */
  datatype Plan = Plan(overrides: Option<string>, json: string)

  datatype WorkerLease = WorkerLease(id: Id, expiresAt: int)

  datatype Execution = Execution(
    claim: Id,
    generation: int,
    plan: Plan,
    state: ExecState,
    deployJob: Option<string>,
    startJob: Option<string>,
    cleanupJob: Option<string>,
    vmRef: Option<Id>,
    instance: Option<string>,
    error: Option<ErrorCode>,
    lease: Option<WorkerLease>,
    attempts: nat)

  function NewExecution(claim: Id, generation: int, plan: Plan): Execution {
    Execution(claim, generation, plan, Planned, None, None, None, None, None, None, None, 0)
  }

  // --------------------------------------------------------- in-flight calls

  /** Where a `reconcile_execution` call stands between two of its transactions. */
  datatype WorkerPhase =
    | Observing | DeployArmed | DeployCalled | StartArmed | StartCalled | Promoted

  /** `seen` is the copy of the row the session loaded last. */
  datatype Worker = Worker(exec: Id, seen: Execution, phase: WorkerPhase)

  /** Where a `request_execution_cleanup` call stands after it won its transition. */
  datatype CleanerPhase = CleanupWon | CleanupLoaded(seen: Execution) | DestroyCalled(seen: Execution)

  datatype Cleaner = Cleaner(exec: Id, phase: CleanerPhase)

  /** What has been asked of CloudStack for one execution so far, and what an
      operator has explicitly asked of the execution. */
  datatype Ledger = Ledger(
    deployCalls: nat, deployArmed: set<Id>, replans: nat,
    startCalls: nat, startArmed: set<Id>, restarts: nat,
    destroyCalls: nat, destroyArmed: set<Id>, cleanupEntries: nat)

  const NEW_LEDGER := Ledger(0, {}, 0, 0, {}, 0, 0, {}, 0)

  datatype World = World(
    now: int,
    issued: set<Id>,               // every UUID handed out so far
    claims: map<Id, Claim>,
    leases: map<Id, OperationLease>,
    execs: map<Id, Execution>,
    leaseFor: map<Id, Id>,         // worker lease UUID -> execution it was minted for
    workers: map<Id, Worker>,      // by worker lease UUID
    cleaners: map<Id, Cleaner>,    // by cleanup attempt
    ledgers: map<Id, Ledger>)      // by execution

  const EMPTY_WORLD := World(0, {}, map[], map[], map[], map[], map[], map[], map[])
}
