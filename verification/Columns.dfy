/** Which columns an execution row has filled in, and what the one-shot operator makes of
    a claim and its execution before it resumes them. */
module Columns {
  import opened Model
  import opened WorkerStep
  import opened Protocol
  import opened Invariant
  import opened WorkInvariant
  import opened History
  import opened Safety

  predicate Undeployed(s: ExecState) {
    s in {Planned, DeploySubmitting, DeploySubmitted, SubmissionUnknown}
  }

  predicate PastDeployment(s: ExecState) {
    s in {DeploySucceeded, StartSubmitting, StartSubmitted, StartUnknown, Verifying, Succeeded}
  }

  /** Nothing is known of a VM or a job yet, except the job that is deploying it. */
  predicate Bare(row: Execution) {
    Undeployed(row.state) ==>
      && row.vmRef.None? && row.instance.None? && row.startJob.None?
      && (row.state != DeploySubmitted ==> row.deployJob.None?)
  }

  /** Once deployed, the row names its own VM. */
  predicate Named(e: Id, row: Execution) {
    PastDeployment(row.state) ==> row.vmRef == Some(e) && row.instance.Some?
  }

  /** A deployment an operator declared successful: it is past its deployment for good,
      and until it is cleaned up the row names no VM. */
  predicate Unnamed(row: Execution) {
    !Undeployed(row.state) && (PastDeployment(row.state) ==> row.vmRef.None?)
  }

  ghost predicate Shaped(e: Id, row: Execution, taken: set<Id>) {
    Bare(row) && if e in taken then Unnamed(row) else Named(e, row)
  }

  predicate SameColumns(row: Execution, seen: Execution) {
    && row.vmRef == seen.vmRef && row.instance == seen.instance
    && row.deployJob == seen.deployJob && row.startJob == seen.startJob
  }

  /** A worker that holds the lease of a row nobody has given up on knows its columns. */
  predicate Familiar(w: World, l: Id)
    requires l in w.workers
  {
    && w.workers[l].exec in w.execs
    && (Holds(w.execs[w.workers[l].exec], l) && !GivenUp(w.execs[w.workers[l].exec].state) ==>
          && SameColumns(w.execs[w.workers[l].exec], w.workers[l].seen)
          && (w.workers[l].phase in {Observing, DeployCalled, StartCalled} ==>
                w.execs[w.workers[l].exec].state == w.workers[l].seen.state))
  }

  /** `taken` executions have been taken over by an operator's retry. */
  ghost predicate Filled(w: World, taken: set<Id>) {
    && (forall e :: e in w.execs ==> Shaped(e, w.execs[e], taken))
    && (forall e :: e in taken ==> e in w.execs)
    && (forall l :: l in w.workers ==> Familiar(w, l))
  }

  /** The execution whose unconfirmed deployment a retry declares a success. */
  function TakenOver(w: World, ev: Event): set<Id> {
    if Enabled(w, ev) && ev.Request? && ev.request.Retry?
       && ev.request.was == SubmissionUnknown && ev.request.to == DeploySucceeded
    then {ev.request.exec} else {}
  }

  function AllTakenOver(w: World, events: seq<Event>): set<Id> {
    if events == [] then {}
    else
      var before := events[..|events| - 1];
      AllTakenOver(w, before) + TakenOver(Run(w, before), events[|events| - 1])
  }

  lemma ReactKeepsBare(row: Execution, e: Id, seen: Observation)
    requires React(row, e, seen).Save? && Bare(row)
    ensures Bare(React(row, e, seen).row)
  {
  }

  lemma ReactKeepsNamed(row: Execution, e: Id, seen: Observation)
    requires React(row, e, seen).Save? && Named(e, row)
    ensures Named(e, React(row, e, seen).row)
  {
  }

  lemma ReactKeepsUnnamed(row: Execution, e: Id, seen: Observation)
    requires React(row, e, seen).Save? && Unnamed(row)
    ensures Unnamed(React(row, e, seen).row)
  {
  }

  lemma ReactFills(row: Execution, e: Id, seen: Observation, taken: set<Id>)
    requires React(row, e, seen).Save? && Shaped(e, row, taken)
    ensures Shaped(e, React(row, e, seen).row, taken)
  {
    hide Bare, Named, Unnamed, React;
    ReactKeepsBare(row, e, seen);
    if e in taken {
      ReactKeepsUnnamed(row, e, seen);
    } else {
      ReactKeepsNamed(row, e, seen);
    }
  }

  /** Writing a row a familiar worker has loaded writes exactly what it wanted. */
  lemma FlushColumns(row: Execution, seen: Execution, wanted: Execution)
    requires SameColumns(row, seen)
    ensures SameColumns(Flush(row, seen, wanted), wanted)
  {
  }

  /** Only row `e` and the worker `own` about it have changed. */
  lemma FilledUnderRow(w: World, v: World, e: Id, own: Option<Id>, taken: set<Id>, more: set<Id>)
    requires Filled(w, taken) && e in w.execs && e in v.execs && v.execs == w.execs[e := v.execs[e]]
    requires more <= {e} && Shaped(e, v.execs[e], taken + more)
    requires forall l: Id :: l in v.workers && Some(l) != own ==>
      l in w.workers && v.workers[l] == w.workers[l]
    requires forall l: Id :: Some(l) != own && Holds(v.execs[e], l) ==>
      || GivenUp(v.execs[e].state)
      || (Holds(w.execs[e], l) && !GivenUp(w.execs[e].state) && SameColumns(v.execs[e], w.execs[e])
          && v.execs[e].state == w.execs[e].state)
    requires own.Some? && own.value in v.workers ==> Familiar(v, own.value)
    ensures Filled(v, taken + more)
  {
    forall l | l in v.workers ensures Familiar(v, l) {
      if Some(l) != own {
        assert Familiar(w, l);
      }
    }
  }

  lemma FilledRow(w: World, e: Id, taken: set<Id>)
    requires Filled(w, taken) && e in w.execs
    ensures Shaped(e, w.execs[e], taken)
    ensures taken + {} == taken
  {
  }

  lemma FilledWorker(w: World, l: Id, taken: set<Id>)
    requires Filled(w, taken) && l in w.workers
    ensures Familiar(w, l)
    ensures Shaped(w.workers[l].exec, w.execs[w.workers[l].exec], taken)
    ensures taken + {} == taken
  {
  }

  lemma SaveFills(w: World, k: WorkEvent, taken: set<Id>)
    requires Inv(w) && Filled(w, taken) && WorkEnabled(w, k) && k.SaveObservation?
    ensures Filled(WorkEffect(w, k), taken)
  {
    hide Inv, Filled;
    var worker := w.workers[k.lease];
    var e := worker.exec;
    WorkerFacts(w, k.lease);
    FilledWorker(w, k.lease, taken);
    var wanted := Reacts(w, k.lease, k.seen).row;
    ReactMoves(worker.seen, e, k.seen);
    var v := WorkEffect(w, k);
    if GivenUp(w.execs[e].state) {
      assert GivenUp(v.execs[e].state);
    } else {
      ReactFills(worker.seen, e, k.seen, taken);
      FlushColumns(w.execs[e], worker.seen, wanted);
    }
    FilledUnderRow(w, v, e, Some(k.lease), taken, {});
  }

  lemma ArmFills(w: World, k: WorkEvent, taken: set<Id>)
    requires Inv(w) && Filled(w, taken) && WorkEnabled(w, k) && (k.ArmDeploy? || k.ArmStart?)
    ensures Filled(WorkEffect(w, k), taken)
  {
    hide Inv, Filled;
    var e := w.workers[k.lease].exec;
    WorkerFacts(w, k.lease);
    FilledWorker(w, k.lease, taken);
    FilledUnderRow(w, WorkEffect(w, k), e, Some(k.lease), taken, {});
  }

  lemma CallFills(w: World, k: WorkEvent, taken: set<Id>)
    requires Inv(w) && Filled(w, taken) && WorkEnabled(w, k) && (k.CallDeploy? || k.CallStart? || k.SeePromotion?)
    ensures Filled(WorkEffect(w, k), taken)
  {
    hide Inv, Filled;
    var e := w.workers[k.lease].exec;
    WorkerFacts(w, k.lease);
    FilledWorker(w, k.lease, taken);
    FilledUnderRow(w, WorkEffect(w, k), e, Some(k.lease), taken, {});
  }

  lemma FinishFills(w: World, k: WorkEvent, taken: set<Id>)
    requires Inv(w) && Filled(w, taken) && WorkEnabled(w, k)
    requires k.FinishDeploy? || k.FinishStart? || k.Succeed?
    ensures Filled(WorkEffect(w, k), taken)
  {
    hide Inv, Filled;
    var e := w.workers[k.lease].exec;
    WorkerFacts(w, k.lease);
    FilledWorker(w, k.lease, taken);
    FilledUnderRow(w, WorkEffect(w, k), e, Some(k.lease), taken, {});
  }

  lemma LeaseFills(w: World, k: WorkEvent, taken: set<Id>)
    requires Inv(w) && Filled(w, taken) && WorkEnabled(w, k) && (k.AcquireExecution? || k.BeginWork?)
    ensures Filled(WorkEffect(w, k), taken)
  {
    hide Inv, Filled;
    var e := w.leaseFor[k.lease];
    FilledRow(w, e, taken);
    FilledUnderRow(w, WorkEffect(w, k), e, Some(k.lease), taken, {});
  }

  lemma ReleaseFills(w: World, k: WorkEvent, taken: set<Id>)
    requires Inv(w) && Filled(w, taken) && WorkEnabled(w, k) && k.ReleaseCleanup?
    ensures Filled(WorkEffect(w, k), taken)
  {
    hide Inv, Filled;
    FilledRow(w, w.workers[k.lease].exec, taken);
    FilledUnderRow(w, WorkEffect(w, k), w.workers[k.lease].exec, Some(k.lease), taken, {});
  }

  lemma CreateFills(w: World, k: WorkEvent, taken: set<Id>)
    requires Inv(w) && Filled(w, taken) && WorkEnabled(w, k) && (k.CreateExecution? || k.MintWorkerLease?)
    ensures Filled(WorkEffect(w, k), taken)
  {
    hide Inv, Filled;
    Issued(w);
    NewRowFills(w, WorkEffect(w, k), if k.CreateExecution? then k.exec else 0, taken);
  }

  lemma NewRowFills(w: World, v: World, e: Id, taken: set<Id>)
    requires Filled(w, taken) && v.workers == w.workers
    requires v.execs == w.execs || (e !in w.execs && e in v.execs && v.execs == w.execs[e := v.execs[e]])
    requires v.execs != w.execs ==> Bare(v.execs[e]) && v.execs[e].state == Planned
    ensures Filled(v, taken)
  {
    forall l | l in v.workers ensures Familiar(v, l) {
      assert Familiar(w, l);
    }
  }

  lemma WorkFills(w: World, k: WorkEvent, taken: set<Id>)
    requires Inv(w) && Filled(w, taken) && WorkEnabled(w, k)
    ensures Filled(WorkEffect(w, k), taken)
  {
    hide Inv, Filled, WorkEnabled, WorkEffect;
    match k
    case CreateExecution(_, _, _, _) => CreateFills(w, k, taken);
    case MintWorkerLease(_, _) => CreateFills(w, k, taken);
    case AcquireExecution(_, _, _) => LeaseFills(w, k, taken);
    case BeginWork(_) => LeaseFills(w, k, taken);
    case SaveObservation(_, _) => SaveFills(w, k, taken);
    case ArmDeploy(_) => ArmFills(w, k, taken);
    case CallDeploy(_) => CallFills(w, k, taken);
    case FinishDeploy(_, _) => FinishFills(w, k, taken);
    case ArmStart(_) => ArmFills(w, k, taken);
    case CallStart(_) => CallFills(w, k, taken);
    case FinishStart(_, _) => FinishFills(w, k, taken);
    case SeePromotion(_) => CallFills(w, k, taken);
    case Succeed(_) => FinishFills(w, k, taken);
    case ReleaseCleanup(_) => ReleaseFills(w, k, taken);
  }

  lemma RequestFills(w: World, q: RequestEvent, taken: set<Id>)
    requires Inv(w) && Filled(w, taken) && RequestEnabled(w, q)
    ensures Filled(RequestEffect(w, q), taken + TakenOver(w, Request(q)))
  {
    hide Inv, Filled, RequestEffect, TakenOver, GivenUp;
    if q.LoadCleanup? || q.CallDestroy? || q.FinishCleanup? {
      AttemptFacts(w, q.attempt);
      AttemptFills(w, q, taken);
    } else {
      OperatorFills(w, q, taken);
    }
  }

  lemma AttemptFills(w: World, q: RequestEvent, taken: set<Id>)
    requires Filled(w, taken) && RequestEnabled(w, q)
    requires q.LoadCleanup? || q.CallDestroy? || q.FinishCleanup?
    requires GivenUp(w.execs[w.cleaners[q.attempt].exec].state)
    ensures Filled(RequestEffect(w, q), taken + TakenOver(w, Request(q)))
  {
    hide Filled;
    var e := w.cleaners[q.attempt].exec;
    FilledRow(w, e, taken);
    FilledUnderRow(w, RequestEffect(w, q), e, None, taken, TakenOver(w, Request(q)));
  }

  lemma OperatorFills(w: World, q: RequestEvent, taken: set<Id>)
    requires Filled(w, taken) && RequestEnabled(w, q)
    requires !q.LoadCleanup? && !q.CallDestroy? && !q.FinishCleanup?
    ensures Filled(RequestEffect(w, q), taken + TakenOver(w, Request(q)))
  {
    hide Filled;
    FilledRow(w, q.exec, taken);
    FilledUnderRow(w, RequestEffect(w, q), q.exec, None, taken, TakenOver(w, Request(q)));
  }

  lemma StepFills(w: World, ev: Event, taken: set<Id>)
    requires Inv(w) && Filled(w, taken)
    ensures Filled(Apply(w, ev), taken + TakenOver(w, ev))
  {
    hide Inv, Filled, RegistryEnabled, RegistryEffect, WorkEnabled, WorkEffect, RequestEnabled, RequestEffect;
    assert !Enabled(w, ev) ==> taken + TakenOver(w, ev) == taken;
    assert !ev.Request? ==> taken + TakenOver(w, ev) == taken;
    if Enabled(w, ev) {
      match ev
      case Tick(_) => SameRows(w, Apply(w, ev), taken);
      case Registry(r) => RegistryFrame(w, r); SameRows(w, Apply(w, ev), taken);
      case Work(k) => WorkFills(w, k, taken);
      case Request(q) => RequestFills(w, q, taken);
    }
  }

  lemma SameRows(w: World, v: World, taken: set<Id>)
    requires Filled(w, taken) && v.execs == w.execs && v.workers == w.workers
    ensures Filled(v, taken + {})
  {
    assert taken + {} == taken;
    forall l | l in v.workers ensures Familiar(v, l) {
      assert Familiar(w, l);
    }
  }

  lemma {:induction false} RunFills(w: World, events: seq<Event>, taken: set<Id>)
    requires Inv(w) && Filled(w, taken)
    ensures Filled(Run(w, events), taken + AllTakenOver(w, events))
    decreases |events|
  {
    hide Inv, Filled, Apply, TakenOver;
    if events == [] {
      assert taken + {} == taken;
    } else {
      var before := events[..|events| - 1];
      RunFills(w, before, taken);
      RunKeepsInv(w, before);
      StepFills(Run(w, before), events[|events| - 1], taken + AllTakenOver(w, before));
      assert taken + AllTakenOver(w, events)
        == taken + AllTakenOver(w, before) + TakenOver(Run(w, before), events[|events| - 1]);
    }
  }

  /** Past its deployment a row names its own VM exactly when no operator's retry has
      declared the deployment a success; otherwise it names none. */
  lemma NamedIff(events: seq<Event>, e: Id)
    requires e in Run(EMPTY_WORLD, events).execs
    requires PastDeployment(Run(EMPTY_WORLD, events).execs[e].state)
    ensures var row := Run(EMPTY_WORLD, events).execs[e];
      if e in AllTakenOver(EMPTY_WORLD, events) then row.vmRef.None?
      else row.vmRef == Some(e) && row.instance.Some?
  {
    hide Inv, Run, AllTakenOver;
    EmptyInv();
    RunFills(EMPTY_WORLD, events, {});
    assert {} + AllTakenOver(EMPTY_WORLD, events) == AllTakenOver(EMPTY_WORLD, events);
    FilledRow(Run(EMPTY_WORLD, events), e, AllTakenOver(EMPTY_WORLD, events));
  }

  /** Before that it names neither a VM nor a start job. */
  lemma BareUntilDeployed(events: seq<Event>, e: Id)
    requires e in Run(EMPTY_WORLD, events).execs
    ensures Bare(Run(EMPTY_WORLD, events).execs[e])
  {
    hide Inv, Run, AllTakenOver;
    EmptyInv();
    RunFills(EMPTY_WORLD, events, {});
    assert {} + AllTakenOver(EMPTY_WORLD, events) == AllTakenOver(EMPTY_WORLD, events);
    FilledRow(Run(EMPTY_WORLD, events), e, AllTakenOver(EMPTY_WORLD, events));
  }
}
