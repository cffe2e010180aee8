/** What the one-shot operator checks and does around its driver loop. */
module Operator {
  import opened Model
  import opened Text
  import opened WorkerStep
  import opened Protocol
  import opened Invariant
  import opened WorkInvariant
  import opened History
  import opened Fencing
  import opened Progress
  import opened Columns
  import opened Database
  import opened Registry
  import opened Executor
  import Driver

  // ------------------------------------------------- claim and execution together

  predicate Pristine(c: Claim) {
    c.state == Reserved && Unbound(c)
  }

  predicate NonEmpty(s: Option<string>) {
    s.Some? && s.value != ""
  }

  predicate Correlated(c: Claim, e: Id, row: Execution) {
    && c.state == Bound && c.vmRef == Some(e) && NonEmpty(c.instance)
    && row.vmRef in {None, Some(e)} && row.instance in {None, c.instance}
  }

  /** `_validate_phase_pair` */
  predicate PhasePairOk(c: Claim, execution: Option<(Id, Execution)>) {
    match execution
    case None => Pristine(c)
    case Some((e, row)) =>
      if row.state == Planned then
        && Pristine(c) && row.vmRef.None? && row.instance.None?
        && row.deployJob.None? && row.startJob.None?
      else if Undeployed(row.state) then
        Pristine(c) || Correlated(c, e, row)
      else if PastDeployment(row.state) && row.state != Succeeded then
        && (Pristine(c) || Correlated(c, e, row))
        && row.vmRef == Some(e) && NonEmpty(row.instance)
      else if row.state == Succeeded then
        && c.state == Managed && c.vmRef == Some(e) && row.vmRef == Some(e)
        && NonEmpty(c.instance) && row.instance == c.instance
      else false
  }

  predicate Serving(w: World, c: Id, e: Id) {
    && c in w.claims && e in w.execs
    && w.execs[e].claim == c && w.execs[e].generation == w.claims[c].generation
  }

  /** What the claim has to say for itself. */
  predicate ClaimSide(c: Claim, e: Id, row: Execution) {
    match row.state
    case Planned => c.state == Reserved
    case Succeeded => c.state == Managed && NonEmpty(c.instance) && row.instance == c.instance
    case _ => c.state == Reserved
              || (c.state == Bound && c.vmRef == Some(e) && NonEmpty(c.instance)
                  && row.instance in {None, c.instance})
  }

  /** In every reachable state the execution's own columns are in order unless an operator
      declared its deployment a success: then, and only then, the pair is rejected
      whatever the claim says, so the one-shot operator can never resume it. */
  lemma PhasePairIff(events: seq<Event>, c: Id, e: Id)
    requires Serving(Run(EMPTY_WORLD, events), c, e)
    requires var row := Run(EMPTY_WORLD, events).execs[e];
      (Undeployed(row.state) || PastDeployment(row.state)) && row.instance != Some("")
    ensures var w := Run(EMPTY_WORLD, events);
      var row := w.execs[e];
      PhasePairOk(w.claims[c], Some((e, row))) <==>
        && !(PastDeployment(row.state) && e in AllTakenOver(EMPTY_WORLD, events))
        && ClaimSide(w.claims[c], e, row)
  {
    hide Inv, Run, AllTakenOver;
    EmptyInv();
    RunKeepsInv(EMPTY_WORLD, events);
    var w := Run(EMPTY_WORLD, events);
    ClaimFacts(w, c);
    OwnedByInv(w, c);
    BareUntilDeployed(events, e);
    if PastDeployment(w.execs[e].state) {
      NamedIff(events, e);
    }
    if w.claims[c].state == Managed {
      assert Serves(w, e, c);
    }
  }

  /** The same on the two loaded rows alone: what counts is whether the execution names
      itself, which past its deployment it does unless that was declared a success. */
  lemma PhasePairOnRows(events: seq<Event>, c: Id, e: Id)
    requires Serving(Run(EMPTY_WORLD, events), c, e)
    requires var row := Run(EMPTY_WORLD, events).execs[e];
      (Undeployed(row.state) || PastDeployment(row.state)) && row.instance != Some("")
    ensures var w := Run(EMPTY_WORLD, events);
      var row := w.execs[e];
      PhasePairOk(w.claims[c], Some((e, row))) <==>
        (PastDeployment(row.state) ==> row.vmRef == Some(e)) && ClaimSide(w.claims[c], e, row)
  {
    hide Inv, Run, AllTakenOver, PhasePairOk, ClaimSide;
    PhasePairIff(events, c, e);
    if PastDeployment(Run(EMPTY_WORLD, events).execs[e].state) {
      NamedIff(events, e);
    }
  }

  // ------------------------------------------------------ the bounded client

  /** `_starting_permissions`: whether this run may deploy, and whether it may start. */
  function StartingPermissions(state: Option<ExecState>): (bool, bool) {
    match state
    case None => (true, true)
    case Some(s) => (s == Planned, s in {Planned, DeploySubmitted, DeploySucceeded, StartUnknown})
  }

  datatype Request = Deploy | Start

  class BoundedClient {
    const deployLimit: nat
    const startLimit: nat
    var deployCalls: nat
    var startCalls: nat
    var destroyCalls: nat
    var sent: seq<Request>        // what has reached CloudStack

    ghost predicate Valid()
      reads this
    {
      && multiset(sent)[Deploy] == deployCalls <= deployLimit <= 1
      && multiset(sent)[Start] == startCalls <= startLimit <= 1
    }

    constructor (state: Option<ExecState>)
      ensures Valid() && sent == []
      ensures deployLimit == (if StartingPermissions(state).0 then 1 else 0)
      ensures startLimit == (if StartingPermissions(state).1 then 1 else 0)
    {
      var allowed := StartingPermissions(state);
      deployLimit := if allowed.0 then 1 else 0;
      startLimit := if allowed.1 then 1 else 0;
      deployCalls, startCalls, destroyCalls, sent := 0, 0, 0, [];
    }

    /** `held` is what the authority guard answers. */
    method DeployVirtualMachine(startVm: bool, held: bool) returns (passed: bool)
      requires Valid()
      modifies this
      ensures Valid()
      ensures passed <==> old(deployCalls) < deployLimit && !startVm && held
      ensures sent == if passed then old(sent) + [Deploy] else old(sent)
      ensures startCalls == old(startCalls) && destroyCalls == old(destroyCalls)
    {
      if deployCalls >= deployLimit || startVm || !held {
        return false;
      }
      deployCalls := deployCalls + 1;
      sent := sent + [Deploy];
      return true;
    }

    method StartVirtualMachine(held: bool) returns (passed: bool)
      requires Valid()
      modifies this
      ensures Valid()
      ensures passed <==> old(startCalls) < startLimit && held
      ensures sent == if passed then old(sent) + [Start] else old(sent)
      ensures deployCalls == old(deployCalls) && destroyCalls == old(destroyCalls)
    {
      if startCalls >= startLimit || !held {
        return false;
      }
      startCalls := startCalls + 1;
      sent := sent + [Start];
      return true;
    }

    /** Counted, and never passed on. */
    method DestroyVirtualMachine()
      requires Valid()
      modifies this
      ensures Valid() && destroyCalls == old(destroyCalls) + 1 && sent == old(sent)
      ensures deployCalls == old(deployCalls) && startCalls == old(startCalls)
    {
      destroyCalls := destroyCalls + 1;
    }
  }

  /** A run that starts in state `s` and is not put back deploys only if it may. It can
      reach a start it may not send from two states only: both are unresolved deployments,
      which the operator merely observes. */
  lemma PermissionsCover(s: ExecState, t: ExecState)
    requires Descends(s, t)
    ensures t == Planned ==> StartingPermissions(Some(s)).0
    ensures t == DeploySucceeded ==>
      (StartingPermissions(Some(s)).1 <==> s !in {DeploySubmitting, SubmissionUnknown})
    ensures StartingPermissions(Some(t)).0 ==> StartingPermissions(Some(s)).0
  {
  }

  // --------------------------------------------------------- waiting for a job

  datatype JobStatus = Pending | Finished | JobError | Malformed

  class Clock {
    var now: int

    constructor ()
    {
      now := 0;
    }

    /** Time passes while something else is done. */
    method Pass(atLeast: nat)
      modifies this
      ensures now >= old(now) + atLeast
    {
      var more: int := *;
      if more < 0 {
        more := 0;
      }
      now := now + atLeast + more;
    }
  }

  /** `job` is what CloudStack answers at which time; a finished job stays finished. */
  ghost predicate Settles(job: int -> JobStatus) {
    forall t, u :: t <= u && job(t) in {Finished, JobError} ==> job(u) == job(t)
  }

  predicate JobId(id: Option<string>) {
    id.Some? && Normalized(id.value)
  }

  /** Waits as long as the job runs and no longer than it may: the answer is final, and
      without one the deadline has passed or the record is broken. */
  method WaitForJob(clock: Clock, job: int -> JobStatus, id: Option<string>, deadline: int, poll: nat)
    returns (r: Driver.Answer<JobStatus>)
    requires Settles(job) && poll > 0
    modifies clock
    ensures clock.now >= old(clock.now)
    ensures r.Done? ==> JobId(id) && r.value in {Finished, JobError}
    ensures r.Done? ==> forall t :: t >= clock.now ==> job(t) == r.value
    ensures r == Driver.Stopped(Driver.Timeout) ==> clock.now >= deadline
    ensures r == Driver.Stopped(Driver.CallFailed) ==> !JobId(id) || job(clock.now) == Malformed
    ensures r.Stopped? ==> r.reason in {Driver.Timeout, Driver.CallFailed}
  {
    if !JobId(id) {
      return Driver.Stopped(Driver.CallFailed);
    }
    while true
      invariant clock.now >= old(clock.now)
      decreases deadline - clock.now
    {
      clock.Pass(0);
      var status := job(clock.now);
      if status == Malformed {
        return Driver.Stopped(Driver.CallFailed);
      }
      if status != Pending {
        return Driver.Done(status);
      }
      if clock.now >= deadline {
        return Driver.Stopped(Driver.Timeout);
      }
      clock.Pass(poll);
    }
  }

  // -------------------------------------------------------------- recoveries

  /** The gate of `_recover_stopped_deployment`. */
  predicate StoppedGate(c: Claim, row: Execution) {
    Pristine(c) && row.state == DeploySucceeded
  }

  /** The gate of `_recover_missing_bind`. */
  predicate MissingBindGate(c: Claim, row: Execution) {
    Pristine(c) && row.state in {StartUnknown, Verifying}
  }

  /** The recovered row names its own VM and instance. */
  predicate SelfNamed(e: Id, row: Execution) {
    row.vmRef == Some(e) && NonEmpty(row.instance)
  }

  function Proof(row: Execution): CallbackProof {
    if row.plan.overrides.None? then CallbackProof(None, None)
    else CallbackProof(Some(Sha256(row.plan.json)), row.plan.overrides)
  }

  lemma MarkEffect(w: World, e: Id)
    requires Enabled(w, Request(MarkStoppedDeployment(e)))
    ensures var v := Apply(w, Request(MarkStoppedDeployment(e)));
      e in v.execs && v.execs[e].state == Verifying && v.execs[e].lease.None?
  {
  }

  predicate IsBind(ev: Event, c: Id, e: Id) {
    ev.Registry? && ev.registry.Bind? && ev.registry.claim == c && ev.registry.vmRef == e
  }

  /** A bind to this VM and then the mark, each at most once and nothing else. */
  predicate Recovers(before: seq<Event>, after: seq<Event>, c: Id, e: Id) {
    && before <= after && |after| <= |before| + 2
    && (|after| > |before| ==> IsBind(after[|before|], c, e) || after[|before|] == Request(MarkStoppedDeployment(e)))
    && (|after| > |before| + 1 ==>
          IsBind(after[|before|], c, e) && after[|before| + 1] == Request(MarkStoppedDeployment(e)))
  }

  /** The second commit: past the start, without one. */
  method MarkStopped(db: Database, e: Id) returns (r: Driver.Answer<bool>, ghost at: World)
    requires db.Valid()
    modifies db
    ensures db.Valid() && old(db.trace) <= db.trace
    ensures Later(old(db.world), at) && Later(at, db.world)
    ensures db.own == old(db.own) || db.own == old(db.own) + [Request(MarkStoppedDeployment(e))]
    ensures r.Done? ==> r.value && e in at.execs && at.execs[e].state == Verifying && at.execs[e].lease.None?
  {
    hide Inv, Later, Run, Apply, Enabled, Violates;
    ghost var w := db.world;
    var held := db.Guard();
    at := db.world;
    LaterAlone(at, 0);
    if !held {
      return Driver.Stopped(Driver.CallFailed), at;
    }
    ghost var u := db.world;
    var outcome, applied := db.Submit(Request(MarkStoppedDeployment(e)));
    LaterTransitive(w, u, db.world);
    at := db.world;
    LaterAlone(at, 0);
    if outcome != Committed {
      return Driver.Stopped(Driver.NeedsRecovery), at;
    }
    MarkEffect(u, e);
    return Driver.Done(true), at;
  }

  /** Bind, then mark the execution as verifying, without a start. An answer `true` means
      that the claim was bound to this very VM before the row moved on. */
  method RecoverStoppedDeployment(db: Database, c: Id, e: Id, vms: Sighting, manifestStopped: bool)
    returns (r: Driver.Answer<bool>, ghost bound: World, ghost at: World)
    requires db.Valid()
    modifies db
    ensures db.Valid() && old(db.trace) <= db.trace
    ensures Recovers(old(db.own), db.own, c, e)
    ensures Later(old(db.world), bound) && Later(bound, at) && Later(at, db.world)
    ensures r == Driver.Done(true) ==>
      && c in bound.claims && bound.claims[c].state == Bound && bound.claims[c].vmRef == Some(e)
      && e in at.execs && at.execs[e].state == Verifying && at.execs[e].lease.None?
      && vms.Exact? && vms.power == StoppedVm && manifestStopped
      && bound.claims[c].instance == Some(vms.instance)
  {
    hide Inv, Later, Run;
    ghost var w := db.world;
    db.Interfere();
    bound, at := db.world, db.world;
    LaterAlone(at, 0);
    if c !in db.world.claims || e !in db.world.execs || !Serving(db.world, c, e) {
      return Driver.Stopped(Driver.NeedsRecovery), bound, at;
    }
    var claim, row := db.world.claims[c], db.world.execs[e];
    if !manifestStopped {
      return Driver.Done(false), bound, at;
    }
    if claim.state != Reserved || row.state != DeploySucceeded || !SelfNamed(e, row) || row.lease.Some? {
      return Driver.Stopped(Driver.NeedsRecovery), bound, at;
    }
    if !vms.Exact? || vms.power != StoppedVm || Some(vms.instance) != row.instance
       || row.plan.overrides.None? {
      return Driver.Stopped(Driver.NeedsRecovery), bound, at;
    }
    var answer;
    ghost var commits;
    answer, commits := BindClaim(db, c, claim.generation, claim.guest, e, vms.instance, Proof(row));
    LaterTransitive(w, bound, db.world);
    bound, at := db.world, db.world;
    LaterAlone(at, 0);
    if answer.Err? {
      return Driver.Stopped(Driver.CallFailed), bound, at;
    }
    r, at := MarkStopped(db, e);
  }

  predicate IsRetry(ev: Event, e: Id) {
    ev.Request? && ev.request.Retry? && ev.request.exec == e
  }

  /** A bind to this VM, at most once, and then nothing but retries of its execution. */
  predicate Rebinds(before: seq<Event>, after: seq<Event>, c: Id, e: Id) {
    && before <= after
    && forall k :: |before| <= k < |after| ==>
         (k == |before| && IsBind(after[k], c, e)) || IsRetry(after[k], e)
  }

  lemma RebindsFrom(before: seq<Event>, bound: bool, bind: Event, after: seq<Event>, n: nat, retry: Event,
                    c: Id, e: Id)
    requires IsBind(bind, c, e) && Repeated(Recorded(before, bound, bind), after, n, retry)
    requires n > 0 ==> IsRetry(retry, e)
    ensures Rebinds(before, after, c, e)
  {
    hide IsBind, IsRetry;
  }

  lemma NothingRebound(own: seq<Event>, c: Id, e: Id)
    ensures Rebinds(own, own, c, e)
  {
  }

  lemma BindIsRebind(before: seq<Event>, bound: bool, bind: Event, c: Id, e: Id)
    requires IsBind(bind, c, e)
    ensures Rebinds(before, Recorded(before, bound, bind), c, e)
  {
    hide IsBind, IsRetry;
  }

  /** Bind the VM whose callback was lost, and let an unresolved start be tried again. */
  method RecoverMissingBind(db: Database, c: Id, e: Id, vms: Sighting)
    returns (r: Driver.Answer<bool>, ghost bound: World)
    requires db.Valid()
    modifies db
    ensures db.Valid() && old(db.trace) <= db.trace
    ensures Rebinds(old(db.own), db.own, c, e)
    ensures Later(old(db.world), bound) && Later(bound, db.world)
    ensures r.Done? ==>
      && c in bound.claims && bound.claims[c].state == Bound && bound.claims[c].vmRef == Some(e)
      && vms.Exact? && bound.claims[c].instance == Some(vms.instance)
      && (vms.power == StoppedVm ==>
            e in db.world.execs && RetryEdge(StartUnknown, db.world.execs[e].state))
  {
    hide Inv, Later, Run, Rebinds, Repeated;
    ghost var w, own := db.world, db.own;
    NothingRebound(own, c, e);
    db.Interfere();
    bound := db.world;
    LaterAlone(bound, 0);
    if c !in db.world.claims || e !in db.world.execs || !Serving(db.world, c, e)
       || !MissingBindGate(db.world.claims[c], db.world.execs[e]) || !SelfNamed(e, db.world.execs[e]) {
      return Driver.Stopped(Driver.NeedsRecovery), bound;
    }
    var claim, row := db.world.claims[c], db.world.execs[e];
    if !vms.Exact? || vms.power != (if row.state == Verifying then RunningVm else StoppedVm)
       || Some(vms.instance) != row.instance {
      return Driver.Stopped(Driver.NeedsRecovery), bound;
    }
    var answer;
    ghost var commits;
    ghost var bind := Registry(Bind(c, claim.generation, claim.guest.manifest, e, vms.instance));
    answer, commits := BindClaim(db, c, claim.generation, claim.guest, e, vms.instance, Proof(row));
    LaterTransitive(w, bound, db.world);
    bound := db.world;
    LaterAlone(bound, 0);
    BindIsRebind(own, commits == 1, bind, c, e);
    if answer.Err? {
      return Driver.Stopped(Driver.CallFailed), bound;
    }
    if row.state == StartUnknown {
      var retried;
      ghost var was, to, applied, seen, judged;
      retried, was, to, applied, seen, judged := RequestExecutionRetry(db, e, vms);
      RebindsFrom(own, commits == 1, bind, db.own, applied, Request(Retry(e, was, to)), c, e);
      if retried.Err? {
        return Driver.Stopped(Driver.CallFailed), bound;
      }
    }
    return Driver.Done(true), bound;
  }
}
