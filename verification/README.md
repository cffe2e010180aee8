# Adoption bridge, verified

The repository adopts running Proxmox guests into CloudStack. A scheduled worker, HTTP
routes, callbacks of a CloudStack extension and a one-shot operator share one database and
move claims, executions and leases only by conditional updates. This project models that
protocol and the pure and table-driven computations around it, and proves what they keep.

## The protocol

`Model.dfy` holds the rows, `WorkerStep.dfy` what one observation of a worker does to a row,
`Protocol.dfy` one event per committed transaction or external call. An event that is not
enabled changes nothing, so a run is any sequence of events: crashes are runs in which an
actor stops, takeovers and interleavings need no further modelling. `Invariant.dfy` and
`WorkInvariant.dfy` prove the inductive invariant, `History.dfy` what no run undoes.
`Safety.dfy`, `Fencing.dfy`, `Progress.dfy` and `Columns.dfy` draw the whole-run theorems.

`Database.dfy` is the shared database as one session sees it: between any two statements
other actors take any steps of a run, and a commit may raise a retryable or a fatal error
before or after it took effect. It keeps which events of this session took effect (`own`)
and how many commits the session attempted (`tries`); nothing but the session's own
statements changes either. On top of it `Registry.dfy`, `Operations.dfy`, `Reservation.dfy`,
`Executor.dfy`, `Cleanup.dfy` and `WorkerLoop.dfy` write the retry loops of the source as
methods. Their contracts say what each call adds to `own`: for `reconcile_execution` as a
whole its requests to CloudStack, for every other call that writes, which events and in
which order. `Driver.dfy`,
`Operator.dfy` and `StoppedGuest.dfy` are the one-shot operator, and `Authority.dfy` the
singleton write authority with the callback guard.

Beside the protocol stand `HostMapping.dfy`, `Matcher.dfy`, `MatchPasses.dfy` and
`MatchVms.dfy` (which guest is which VM), `Nics.dfy` and `NicPass.dfy` (NIC drift and its
repair), `Networks.dfy` and `NetworkAgreement.dfy` (network plans), `RootDisk.dfy` and
`ProxmoxDisks.dfy` (root disk), `VmNics.dfy` (live NICs against planned ones) and
`StatusMap.dfy`. `Text.dfy` and `Sorting.dfy` hold what they share.

## Assumptions

- Each committed transaction is atomic. Checking the lease and committing the session
  (`backend/adoption_executor.py:1315-1318`) is one step, and so are the lease read and the
  update inside one registry transaction.
- There is one shared clock that never runs backwards. A `now` read before a statement may
  be older than the clock at the statement.
- Fresh UUIDs are distinct. A UUID made up by one call (a worker lease, or the token this
  model gives a cleanup attempt) is not used by anybody else.
- A SHA-256 digest is an injective function of the text.
- The worker lease id and its expiry are set and cleared together and are one optional
  value; an ORM commit writes only the columns that differ from what the session loaded.
- What CloudStack and Proxmox answer is arbitrary. A finished job stays finished.
- Case folding is that of ASCII letters, and blank characters are those of ASCII. Which
  texts are IPv4 addresses, MACs and UUIDs is a parameter.

## What the proofs brought to light

- A call of `reserve_claim` can advance the generation twice. If its commit takes effect but
  is reported as a retryable failure, and others bind, retire and release the claim before
  the row is read again, the loop goes on from the new generation. The call advances at most
  once more than the claim is released by others meanwhile.
- A retry request may make its transition more than once: its commit takes effect but is
  reported as failed, and a worker puts the row back before it is read again
  (`Executor.SecondRetry`). A cleanup request may win its transition more than once for the
  same reason (`Cleanup.SecondWin`), but destroys at most once. Either call does so at most
  once more than the row comes back to the state in question while it runs.
- The write after a destroy request is unconditional: `rolled_back` is final exactly if no
  cleanup call for the execution is in flight.
- An operator's retry from `submission_unknown` to `deploy_succeeded` does not record the VM
  on the row. Such an execution never passes the one-shot operator's phase check again.
- Recovering a stopped deployment takes two commits, and its gate looks at the claim. A guest
  to be kept stopped is spared exactly as long as its claim is reserved and bound to nothing;
  once it is bound, by a recovery that died between its commits or by the ordinary callback,
  the operator starts it (`StoppedGuest.StartedIff`). Caught in time it stays stopped for good.
- Renewing the write authority succeeds after it has lapsed and been held by another owner.
  Granted renewals prove that nobody else has held it in between exactly if each came before
  the owner's own lease had run out, which the owner can read off its own clock
  (`Authority.RenewalsProveIff`).
- A grant of an operation lease whose commit is reported as failed stays in force while the
  call answers a conflict, and holds the claim for its two hours
  (`Operations.GrantLeftBehind`). Once it has run out the same call may grant a second time
  (`Operations.SecondGrant`), but only once more than fences of the claim are cleared meanwhile.
- Without the callback's guard a bind may name a VM that is no execution, exactly if the
  callback brings no proof (`Authority.ProofIdentifiesIff`).
- A manifest with eleven or more NICs is sorted `net10` before `net2`, so every plan built
  from it is rejected at validation. Up to ten NICs planning and validation agree exactly if
  the NICs have canonical MACs and addresses, UUID network ids and no repetition, none of
  which planning checks (`NetworkAgreement.PlanningAgreesIff`).
- A link found by VM name can vanish when the same rows are matched again.
- A guest NIC on an unmapped bridge has its CloudStack NIC removed as an extra one, and with
  MACs of their own no other guest NIC loses its CloudStack NIC to a pass.
- Unreachable branches: several claimants of one persisted pair and several placements of
  one host in the matcher, several rows of one placement when a host mapping is created, the
  repeated ambiguous state in the driver as long as nobody retries, and the differing
  unresolved sets during planning.

## Model

| member | source | states |
|---|---|---|
| `WorkInvariant.RunKeepsInv` | backend/adoption_executor.py:1273-1574 | Every run of any actors keeps the whole invariant: both uniqueness constraints, fences paired with lease rows, refs null in `reserved` and `cleanup`, managed claims backed by their own execution, cleanup claims owned by an execution under cleanup, leases held only on active rows, calls within budget |
| `Invariant.RegistryKeepsInv` | backend/adoption_registry.py:203-1062 | The same for each transaction of the claim registry |
| `WorkInvariant.WorkKeepsInv` | backend/adoption_executor.py:1201-1574 | The same for each transaction and external call of a worker, whose knowledge may be stale |
| `WorkInvariant.RequestKeepsInv` | backend/adoption_executor.py:882-1198 | The same for operator requests and the delete callback |
| `History.RunIsLater` | backend/adoption_registry.py:388-461 | What no run undoes: generations only grow; within one generation the guest and manifest are fixed, a binding is final and the claim's life is one way; plans are fixed and given-up executions stay given up; spent lease rows never return |
| `Safety.RunTally` | backend/adoption_executor.py:1346-1470 | The ledger counts exactly the calls and explicit retries that took effect in the run |
| `Safety.CallsWithinBudget` | backend/adoption_executor.py:1119-1177 | Deploy calls are at most one plus the explicit returns to `planned`, start calls at most one plus the explicit `start_unknown` to `deploy_succeeded` retries, destroy calls at most the entries into `cleanup_submitting`, over every run with crashes and takeovers |
| `Safety.CleanupExcludesBind` | backend/adoption_executor.py:936-971 | Once a claim is in `cleanup`, no bind succeeds in that generation and both refs stay null |
| `Safety.BindExcludesCleanup` | backend/adoption_executor.py:822-857 | Once a claim is bound, no cleanup authorisation and no cleanup release succeeds in that generation, and the binding itself never changes |
| `Safety.BindOrDelete` | backend/adoption_executor.py:936-971 | Over every run a bind and a deletion or release by cleanup of the same claim never both succeed in one generation, whichever comes first |
| `Safety.OncePerGeneration` | backend/adoption_registry.py:388-427 | Over every run at most one bind, one promotion, one retirement, one release of the tombstone, one cleanup authorisation, one release by cleanup and one renewal of a claim takes effect in each generation, whoever tries it and however often |
| `Safety.CreatedOnce` | backend/adoption_executor.py:431-476 | Over every run at most one creation of an execution takes effect for a claim generation |
| `Safety.PromotionFirst` | backend/adoption_executor.py:1485-1514 | A claim is managed, a worker believes so, or an execution has succeeded, only after that execution's claim was promoted under its live worker lease |
| `Fencing.LeaseHoldsClaim` | backend/adoption_registry.py:669-772 | From grant until completion or expiry an operation lease keeps claim and lease row exactly as they are |
| `Fencing.GrantsTakeTurns` | backend/adoption_registry.py:669-772 | Over every run the next grant, recovery or retirement of a claim comes only once the lease granted before was completed or has run out |
| `Fencing.NoSecondGrant` | backend/adoption_registry.py:885-984 | While a lease is live no second grant, no recovery and no retirement takes effect |
| `Fencing.LateCompletionIgnored` | backend/adoption_registry.py:803-848 | A lease row that is gone never comes back, so a late completion clears no newer fence |
| `Fencing.GenerationCountsRenewals` | backend/adoption_registry.py:203-312 | The generation grows by exactly one for each refresh or re-reservation and by nothing else |
| `Fencing.RollbackFinalIff` | backend/adoption_executor.py:1187-1195 | `rolled_back` is final if and only if no cleanup call for the execution is still in flight, because the write after the destroy call is unconditional |
| `Fencing.FinishLeavesRollback` | backend/adoption_executor.py:1178-1195 | The concrete case: a cleanup call that returns late overwrites a rolled-back row |
| `Fencing.ReachableTables` | backend/database.py:116-126 | In every reachable state: `operating` iff fenced iff exactly one matching lease row; refs null in `reserved` and `cleanup`; no two claims share a cluster and VMID or a VM |
| `Fencing.ReachableOwnership` | backend/database.py:173-179 | In every reachable state a managed claim has exactly one execution in its generation, the one it is named after, `verifying` or `succeeded`; a `cleanup` claim has exactly one, under cleanup |
| `Database.RunLeavesCall` | backend/adoption_executor.py:1201-1230 | Nobody who does not know a call's own UUID can move that call along |
| `Database.Database.Submit` | backend/adoption_registry.py:429-461 | A commit applies the conditional update at most once and never otherwise, whatever error is reported and on whichever side of the effect it strikes |
| `Reservation.ReleaseBalance` | backend/adoption_registry.py:256-312 | Releases and re-reservations of a claim alternate: a conservation law over every run |
| `Reservation.ReserveClaim` | backend/adoption_registry.py:115-312 | Success means that at some moment of the call the placement stood reserved, unbound, with exactly this node and manifest. Of at most four commits the call lets through at most one insert and then nothing but renewals of the one claim to this manifest, at most one more than others release the claim meanwhile |
| `Reservation.SecondAdvance` | backend/adoption_registry.py:258-310 | The concrete case in which one call advances twice: its commit took effect but was reported as failed, and others bound, retired and released in between |
| `Registry.BindClaim` | backend/adoption_registry.py:341-463 | Success only with the claim bound to exactly this VM and instance. Of at most three commits one at most takes effect, and what the session did is nothing or exactly this bind |
| `Registry.ActivateBoundClaim` | backend/adoption_registry.py:466-586 | Success only with the claim managed under exactly this VM, which is the execution's id. Of at most three commits one at most takes effect: exactly the promotion under this worker lease |
| `Registry.RetireClaim` | backend/adoption_registry.py:851-986 | Success means that at some moment of the call the claim was `retiring` with exactly this guest, VM and instance. Of at most three commits one at most takes effect: a retirement of this identity |
| `Registry.MatchedRetires` | backend/adoption_registry.py:914-957 | The lease is read before the update, which does not look at it again: nothing is lost, the update matches exactly if the retirement is still allowed when it runs |
| `Registry.FinalizeRetiringClaim` | backend/adoption_registry.py:989-1062 | Success only with this VM's tombstone released in the generation read at the start. Of at most three commits one at most takes effect: exactly that release |
| `Operations.ValidatedState` | backend/adoption_registry.py:589-631 | The lifecycle state is answered exactly for the complete, live identity |
| `Operations.AcquireManagedOperationLease` | backend/adoption_registry.py:634-774 | Success hands out the fence that is in the database, under a lease id never used before, and is the last thing the call did. Of at most three commits it makes nothing but grants and recoveries of this claim generation, and grants at most once more than fences of the claim are cleared meanwhile |
| `Operations.FenceBalance` | backend/adoption_registry.py:718-772 | Fences of a claim are raised and cleared in turns, over every run |
| `Operations.ClearedHow` | backend/adoption_registry.py:669-848 | A fence is cleared by nothing but the completion or recovery of the very lease that raised it, or a retirement, the last two only once the lease has run out |
| `Operations.GrantLeftBehind` | backend/adoption_registry.py:730-774 | From any managed claim: a grant that took effect but was reported as failed keeps the claim operating, and refused to everybody, for exactly two hours |
| `Operations.SecondGrant` | backend/adoption_registry.py:669-774 | From any managed claim: once that lease has run out the same call recovers it and grants a second time |
| `Operations.CompleteManagedOperationLease` | backend/adoption_registry.py:777-848 | One commit at most, and what the session did is nothing or exactly the completion of this lease, which clears its own fence and no other; answered without it, the claim was in that state with no lease left |
| `StatusMap.BoundStatusMap` | backend/adoption_registry.py:1065-1082 | The right entry for every live named claim of the cluster and no other: no VMID text is overwritten |
| `Executor.CreateExecutionFor` | backend/adoption_executor.py:403-481 | Success names the one execution of the generation, made from exactly this plan. Of at most three commits one at most takes effect, and then the answer is the row it made |
| `Executor.AcquireExecutionLease` | backend/adoption_executor.py:1201-1260 | An answer with a lease means the row is active and leased to this caller under the one lease the call made up, with no work begun under it; the call does nothing but lease the row under it, at most three times |
| `Executor.RetryTarget` | backend/adoption_executor.py:1008-1045 | Each target exactly: back to `planned` if the submission is unknown and no VM exists; `verifying` if the start is unknown and the VM runs; `deploy_succeeded` if the exact VM is stopped and, for an unknown start, the claim is reserved and unbound or bound to this execution |
| `Executor.RequestExecutionRetry` | backend/adoption_executor.py:984-1080 | Success means the row is idle in the target computed from the state it was seen in, the live VM and the claim. The call makes that one transition only, at most three times, and at most once more than others put the row back meanwhile |
| `Executor.SecondRetry` | backend/adoption_executor.py:1049-1078 | The concrete case, from any idle `submission_unknown` row: a retry takes effect but is reported as failed, a worker puts the row back, the same call retries again |
| `Progress.VisitBalance` | backend/adoption_executor.py:1049-1078 | A row enters and leaves any state in turns, over every run: the bound on repeated retries and cleanups rests on it |
| `Cleanup.AuthorizeCleanupDelete` | backend/adoption_executor.py:882-981 | A permitted delete names the execution's own VM with the claim set aside, after which the generation can never be bound. Of at most three commits one at most takes effect: exactly this authorisation |
| `Cleanup.FinalizeCleanupRelease` | backend/adoption_executor.py:780-879 | Success means execution and claim were rolled back and released together. Of at most three commits one at most takes effect: the release under this worker lease |
| `Cleanup.DestroyOnce` | backend/adoption_executor.py:1169-1198 | A won cleanup loads the row, sends one destroy request, which disarms it, and writes the answer: in this order, each at most once and nothing else |
| `Cleanup.RequestExecutionCleanup` | backend/adoption_executor.py:1083-1198 | All that the call does: its own transitions out of `cleanup_required`, after an exact stopped VM and an unbound claim, and after the last of these and in its name at most one destroy request. It wins at most once more than others put the row back meanwhile |
| `Cleanup.SecondWin` | backend/adoption_executor.py:1119-1167 | The concrete case, from any idle `cleanup_required` row: a won transition is reported as failed, a worker gives the row up anew, the same call wins again |
| `WorkerLoop.CallOnce` | backend/adoption_executor.py:1386-1411 | Commit to the call, check the lease again, call, record the answer while the lease is current: what the session did is a prefix of these three, and success means all of them |
| `WorkerLoop.ActivateExecutionClaim` | backend/main.py:2068-2145 | Success only with the claim managed in the execution's generation; every refusal reads as a conflict |
| `WorkerLoop.Verify` | backend/adoption_executor.py:1485-1514 | An answer means that this worker saw the claim promoted and set the row to `succeeded`, or left a pending note, or no longer held the lease and wrote nothing to the row; what it does is the promotion under this lease and then one of these |
| `WorkerLoop.ReconcileExecution` | backend/adoption_executor.py:1273-1574 | The requests to CloudStack of one call are none, one deployment from `planned` or one start from `deploy_succeeded`, under its own lease; an answer means the lease is given back with the row where it was or further on |
| `Progress.RunPays` | backend/adoption_executor.py:1320-1574 | A potential over every run: state changes plus remaining rank never exceed the initial rank plus four per explicit rewind |
| `Progress.MovesAreBounded` | backend/adoption_executor.py:1006-1078 | An execution changes state at most ten times, plus four for every explicit retry |
| `Driver.QuietRun` | backend/adopt_one.py:780-822 | While nobody rewinds the execution or renews the claim, the execution stays the claim's current one and only moves forward |
| `Driver.LoadState` | backend/adopt_one.py:241-310 | The claim read first and the execution of its generation read later fit together |
| `Driver.DriveExecution` | backend/adopt_one.py:768-822 | `reconcile` is called at most nine times without relying on the clock, each time in a state further on than before (so the repeated-ambiguity stop is unreachable); an answer comes only with the execution succeeded and the claim managed as its own |
| `Operator.PermissionsCover` | backend/adopt_one.py:391-404 | The deploy permission is never too narrow for what a run can reach; the start permission is, for exactly two unresolved deployment states |
| `Operator.BoundedClient.DeployVirtualMachine` | backend/adopt_one.py:94-101 | Passed on exactly if the limit is unspent, the VM is not started and the authority is held |
| `Operator.BoundedClient.StartVirtualMachine` | backend/adopt_one.py:103-108 | Passed on exactly if the limit is unspent and the authority is held |
| `Operator.BoundedClient.DestroyVirtualMachine` | backend/adopt_one.py:110-112 | Counted and never passed on |
| `Operator.WaitForJob` | backend/adopt_one.py:221-238 | A final answer is the job's own and stays so; without one the deadline has passed or the record is broken |
| `Columns.RunFills` | backend/adoption_executor.py:1006-1078 | Over every run: bare columns until deployed, the row's own VM afterwards, except for executions taken over by an operator's retry |
| `Columns.NamedIff` | backend/adoption_executor.py:1022-1031 | Past deployment a row names its own VM if and only if no retry declared the deployment a success |
| `Operator.PhasePairIff` | backend/adopt_one.py:440-505 | The phase pair is accepted if and only if the execution was not taken over past its deployment and the claim's side fits |
| `Operator.PhasePairOnRows` | backend/adopt_one.py:440-505 | The same on the two loaded rows: past its deployment the execution must name itself |
| `Operator.RecoverStoppedDeployment` | backend/adopt_one.py:560-665 | `true` means the claim was bound to this very stopped VM before the row became `verifying`; what the call does is a bind to this VM and then the mark, each at most once |
| `StoppedGuest.StartedIff` | backend/adopt_one.py:569-588 | In every reachable state with a deployed execution: the next round of the operator starts the guest if and only if the loaded rows are accepted, the exact VM is stopped, and the claim is no longer pristine or the guest was not to be kept stopped |
| `StoppedGuest.SparedRound` | backend/adopt_one.py:590-663 | With the gate open the round binds the claim to this VM and marks the row `verifying`, or changes nothing |
| `StoppedGuest.SparedForGood` | backend/adopt_one.py:638-663 | A guest caught in time is never started afterwards, whoever acts, if no earlier start is on its way |
| `StoppedGuest.NeverStarted` | backend/adoption_executor.py:1415-1470 | From `verifying` on, with no worker committed to a start, no run sends a start request |
| `StoppedGuest.CrashBetweenStarts` | backend/adopt_one.py:570-660 | The concrete case: after the first of the two commits alone the next round starts the guest |
| `Operator.RecoverMissingBind` | backend/adopt_one.py:668-765 | Success means the claim was bound to this VM, and an unresolved start was retried; the call does nothing but a bind to this VM, once, and then retries of its execution |
| `Authority.WriteAuthority.AcquireWriteAuthority` | backend/adoption_authority.py:44-93 | Granted exactly if vacant, lapsed or already the caller's; then held for the whole lease |
| `Authority.WriteAuthority.AssertWriteAuthority` | backend/adoption_authority.py:96-113 | True exactly for the unexpired holder in its mode |
| `Authority.WriteAuthority.RenewWriteAuthority` | backend/adoption_authority.py:230-240 | Succeeds exactly if an acquisition under the same owner would |
| `Authority.WriteAuthority.ReleaseWriteAuthority` | backend/adoption_authority.py:243-265 | Vacates the row exactly for the holder in its mode |
| `Authority.GrantShutsOut` | backend/adoption_authority.py:63-93 | Whatever all others try before the lease runs out, in any order, leaves the row as it is |
| `Authority.OthersShutOut` | backend/adoption_authority.py:63-113 | In that time no other owner acquires, renews or holds the authority, and the grantee does |
| `Authority.TimelyOwnerStays` | backend/adoption_authority.py:230-240 | An owner who renews each time before its own lease has run out is granted every renewal and is the only owner throughout, whatever others try in between |
| `Authority.RenewalsProveIff` | backend/adoption_authority.py:63-93 | For any sequence of renewals: that all were granted proves that nobody else held the authority in between if and only if each came before the owner's own lease had run out |
| `Authority.RenewalIsNoFence` | backend/adoption_authority.py:72-77 | The concrete case: a renewal succeeds although another owner came and went |
| `Authority.TargetNamesGuest` | backend/adoption_authority.py:208-220 | An operator's target text names one guest only, colons in cluster names included |
| `Authority.AdmittedBindIsOwn` | backend/adoption_authority.py:137-227 | A bind admitted by the callback guard, whenever it takes effect, binds the claim to the one execution of its current generation with a matching plan proof |
| `Authority.BindAloneProvesNothing` | backend/adoption_registry.py:315-338 | Without the guard a bind may name a VM that is no execution at all |
| `Authority.ProofIdentifiesIff` | backend/adoption_registry.py:315-338 | In every reachable state a bind that the registry lets through names an execution of the claim's generation if and only if the callback brings a proof |
| `HostMapping.GloballyUniqueHostMappings` | backend/sync_engine.py:340-365 | Returns exactly the complete rows that share placement, host name and host id with no other row |
| `HostMapping.FilterIsOneToOne` | backend/sync_engine.py:340-365 | The filter's result is one to one on all three, whatever is in the table |
| `HostMapping.FilterKeepsAll` | backend/sync_engine.py:340-365 | It keeps the whole table if and only if the table is one to one |
| `HostMapping.HostTable.CreateHostMapping` | backend/main.py:2533-2612 | Keeps the table one to one; accepts exactly if every row sharing anything with the request shares everything with it |
| `HostMapping.HostTable.DeleteHostMapping` | backend/main.py:2615-2627 | Removes exactly the row with this id |
| `Matcher.LookupsAreUnique` | backend/sync_engine.py:388-415 | A host or placement lookup never has two answers |
| `Matcher.LinksAreOneToOne` | backend/sync_engine.py:472-603 | Links are a partial bijection between current guests and current External VMs with equal VMIDs |
| `Matcher.RelinkedIsOne` | backend/sync_engine.py:482-603 | The rows after a match are determined by the rows and mappings before it |
| `Matcher.OrderOfMappings` | backend/sync_engine.py:452-470 | The order of the mapping rows changes no link and no source |
| `Matcher.MatchIsDetermined` | backend/sync_engine.py:441-620 | Neither the order of the mapping rows nor that of the guests and VMs has any influence on the rows a match leaves behind |
| `MatchPasses.FindDurable` | backend/sync_engine.py:472-480 | The persisted pairs are exactly the durable mutual links, no guest or VM twice |
| `MatchPasses.Engine.ApplyDurable` | backend/sync_engine.py:506-520 | Every durable link is applied; the branch for several claimants of one VM is unreachable |
| `MatchPasses.IndexPx` | backend/sync_engine.py:522-531 | Both indexes hold exactly the eligible guests under their keys |
| `MatchVms.CandidatesFor` | backend/sync_engine.py:533-578 | The candidates of a VM are exactly the unclaimed guests that fit it by placement or, if hostless, by name |
| `MatchVms.FindSole` | backend/sync_engine.py:533-583 | Exactly the VMs with one candidate get it; the ambiguous ones are counted once each |
| `MatchVms.ApplyAuto` | backend/sync_engine.py:585-598 | A guest is linked exactly if one VM chose it; all rivals are counted as ambiguous |
| `MatchVms.MatchAll` | backend/sync_engine.py:441-620 | For any row order the rows left behind are those of the relation; matched is manual plus automatic; matched plus unmatched is the eligible count on either side; ambiguous counts a set of VMs |
| `Matcher.LastingIsDurable` | backend/sync_engine.py:418-439 | Matching the same rows again keeps every link set by hand or found by placement, with its source |
| `Matcher.MovedLinkStays` | backend/sync_engine.py:418-439 | A durable link outlives moves of guest and VM exactly as long as both ends stay known to the mapping table |
| `Matcher.ByNameKeptIff` | backend/sync_engine.py:553-571 | A link found by name survives the next match if and only if, with the lasting links set aside, no other VM is left with the same guest alone |
| `Matcher.ByNameLost` | backend/sync_engine.py:553-598 | The concrete inventory on which such a link is lost |
| `Nics.DetectNicDrift` | backend/sync_engine.py:1152-1213 | The detected items are those of the drift relation, in order |
| `Nics.DriftIs` | backend/sync_engine.py:1152-1213 | Membership in the drift: an item of some guest NIC, or a CloudStack NIC that is nobody's partner |
| `Nics.NicTable.InsertNic` | backend/cloudstack_db.py:411-458 | Adds the row and clears the default flag of the VM's other live NICs if it is the default |
| `Nics.NicTable.UpdateNetwork` | backend/cloudstack_db.py:460-502 | Changes the network of a live row and nothing else |
| `Nics.NicTable.RemoveNic` | backend/cloudstack_db.py:504-527 | Soft-removes a live row and nothing else |
| `Nics.ReconcileNic` | backend/sync_engine.py:1218-1357 | Writes only what detecting anew finds under the same identity |
| `Nics.ReconcileNicsAll` | backend/sync_engine.py:1359-1427 | The table after a pass is the fold of its items over the table before |
| `Nics.SettledShowsNoDrift` | backend/sync_engine.py:1152-1213 | A table with exactly the guest's NICs shows no drift in any fresh snapshot |
| `NicPass.FirstIsItself` | backend/sync_engine.py:1252-1263 | With distinct MACs the renewed detection finds each item itself |
| `NicPass.OnePassSettles` | backend/sync_engine.py:1390-1422 | One pass from a current snapshot reaches the fixpoint, even from duplicate or MAC-less rows |
| `NicPass.SurvivesIff` | backend/sync_engine.py:1200-1213 | For any guest NICs and any snapshot: a live row of it is still live after the pass if and only if some guest NIC has it as its partner |
| `NicPass.OnlyUnmappedIsLost` | backend/sync_engine.py:1176-1213 | Where guest MACs differ, the CloudStack NIC found by one of them survives the pass if and only if that guest NIC's bridge is mapped |
| `Networks.ValidatedOverrideMap` | backend/main.py:1180-1239 | Accepts exactly the overrides that are valid, repeat nothing and cover the unresolved NICs, none of which a later candidate of its device overtakes with an address; returns the address of each |
| `Networks.BuildExecutionPlan` | backend/main.py:1383-1490 | Builds exactly for contiguous devices and covering overrides; the NICs in device order with their own or the operator's address |
| `Networks.ValidatedOverrides` | backend/adoption_executor.py:139-197 | Accepts exactly canonical overrides that cover the flagged manifest NICs |
| `Networks.ValidatePlanNetworks` | backend/adoption_executor.py:320-400 | Accepts exactly the plans whose every NIC agrees with the manifest NIC at its place, none repeated, and puts the MACs in capitals |
| `NetworkAgreement.ManifestInOrder` | backend/adoption.py:41-62 | Up to ten contiguous NICs the text-sorted manifest is in device order |
| `NetworkAgreement.ElevenMisplaced` | backend/adoption.py:41-62 | From eleven on some place of the manifest holds the wrong device |
| `NetworkAgreement.ManifestFlagsAgree` | backend/main.py:1190-1210 | The comparison of the two unresolved sets during planning never fails |
| `NetworkAgreement.PlanningAgreesIff` | backend/main.py:1408-1479 | For all candidates in any order that planning accepts, validation accepts the plan planning built if and only if the NICs are well-formed and at most ten |
| `Text.ParseOfDecimal` | backend/adoption_executor.py:127-136 | Reading a device number back from its text gives the number |
| `RootDisk.SizeIsExact` | backend/adoption.py:145-158 | An answer of so many GiB means exactly that many bytes, within 31 bits, and conversely |
| `RootDisk.ChosenSame` | backend/adoption.py:105-143 | The chosen disk does not depend on the order of the disks |
| `RootDisk.RootSizeAgrees` | backend/adoption_executor.py:306-318 | The size recomputed from the frozen manifest is the one chosen from the live disks, in any order, if SCSI numbers do not repeat |
| `RootDisk.RootSizeAgreesInOrder` | backend/adoption.py:63-80 | The same without that condition for disks listed by their text |
| `RootDisk.CanonicalIsNumbered` | backend/adoption.py:97-104 | Distinct devices with canonical numbers have distinct numbers |
| `ProxmoxDisks.OrderPositions` | backend/proxmox_client.py:94-111 | Each device gets the first position it is listed at; no two share one |
| `ProxmoxDisks.ParseDisks` | backend/proxmox_client.py:91-151 | The disks are exactly those of the disk keys that name a volume, each with the position the boot line gives it (or the legacy boot disk) and its media; in key order, no boot position twice |
| `ProxmoxDisks.BootOrderDecides` | backend/adoption.py:124-135 | With such positions the boot-order branch always selects exactly one disk, the first |
| `ProxmoxDisks.LiveDisksAgree` | backend/main.py:1014-1028 | For the disks of any guest configuration planning and validation agree on the root size |
| `VmNics.NicsMatch` | backend/adoption_executor.py:680-740 | Accepts exactly if every NIC on either side has a counterpart with the same device, network and MAC and an allowed address |
| `VmNics.MatchedIsBijection` | backend/adoption_executor.py:687-740 | An accepted VM has the planned NICs one for one, none left over |
| `VmNics.MatchedInAnyOrder` | backend/adoption_executor.py:687-740 | The verdict does not depend on the order in which either side lists its NICs |

## Left out

- HTTP routing, request models, authentication, the frontend, logging, containers and shell wrappers: no state property.
- CloudStack and Proxmox wire calls, request signing, pagination and guest-agent reads are arbitrary answers; only their use is modelled.
- SQL dialects, sessions, identity maps and schema migrations are conditional updates on maps with the declared uniqueness constraints.
- JSON, UUID, IP, boot-line and disk-value parsing is not part of this model; their results are parameters. `OrderPositions` and `ParseDisks` take the values already split.
- Ownership, CPU, memory, offering, template and detail checks of `validate_execution_plan` and `_vm_matches_plan`, the guest-range check of operator addresses, the blocker catalogue of the candidate listing and service-offering selection: long conjunctions that add only easy members.
- Validation runs before `CreateExecutionFor`, which takes a plan as validated.
- `Driver.DriveExecution`: reconciliation and everybody else are any run in which nobody rewinds the execution or renews the claim; with such retries the bound of `Progress.RunPays` applies instead. The deadline may strike at any round.
- `Operator.RecoverStoppedDeployment`: the gate on the state loaded before is the caller's; the method starts from the rows it reads itself.
- `StoppedGuest.StartedIff`: one round while nobody else acts, with commits that succeed; being started means that the worker is committed to the start call. The overrides of plan and target are compared as canonical texts.
- `Operator.RecoverMissingBind`: likewise; a gate that does not open reads as a stop, not as a `false`.
- `Nics.ReconcileNicsAll`: one VM, with writes that succeed; dry runs, the authority lease around the pass and the gathering of matched VMs are left out, and so are netmask and gateway.
- `Nics.NicTable.InsertNic`: columns copied from a sample row are left out.
- `MatchVms.MatchAll`: rows are values in maps that the methods reassign; the database error path, which leaves the rows untouched, is left out.
- `StatusMap.BoundStatusMap`: reads one snapshot of the table; the bindings with manifest names are left out.
- `HostMapping.HostTable.CreateHostMapping`: the audit log entry is left out.
- Liveness: a `failed` execution leaves its claim reserved, and nothing here says that a run makes progress.
- `reconcile_active_executions`, `run_one` and the queue of `adopt_all.py` only string the modelled calls together.
- Direct-database registration and repair helpers: unreachable from the routes.
