/** A guest that is to be kept stopped: exactly when the one-shot operator starts it after
    all. A round is one `load_validated_state` followed by one `reconcile`, while nobody
    else acts. */
module StoppedGuest {
  import opened Model
  import opened WorkerStep
  import opened Protocol
  import opened Invariant
  import opened WorkInvariant
  import opened History
  import opened Safety
  import opened Progress
  import opened Registry
  import opened Executor
  import opened Operator

  // ---------------------------------------------------- what the operator accepts

  /** What the operator was started for; `overrides` is the canonical text. */
  datatype Target = Target(cluster: string, vmid: int, manifest: Digest, overrides: string)

  predicate Aims(target: Target, guest: Guest) {
    guest.cluster == target.cluster && guest.vmid == target.vmid && guest.manifest == target.manifest
  }

  /** `_validate_existing_state`, for a claim that has its execution. */
  predicate ExistingOk(c: Claim, e: Id, row: Execution, target: Target) {
    && Aims(target, c.guest) && c.fence.None? && c.state in {Reserved, Bound, Managed}
    && row.cleanupJob.None? && row.lease.None?
    && (if row.plan.overrides.None? then "[]" else row.plan.overrides.value) == target.overrides
    && (Driver.Resumable(row.state) || row.state == Succeeded)
    && PhasePairOk(c, Some((e, row)))
  }

  /** What the recovery of a stopped deployment insists on once its gate is open; anything
      else ends the run. */
  predicate Recoverable(w: World, c: Id, e: Id, target: Target, vms: Sighting)
    requires Serving(w, c, e)
  {
    var claim, row := w.claims[c], w.execs[e];
    && SelfNamed(e, row) && row.lease.None? && row.plan.overrides.Some?
    && vms == Exact(StoppedVm, row.instance.value)
    && Aims(target, claim.guest) && WellFormed(claim.generation, claim.guest, row.instance.value)
    && FreeVmRef(w, c, e)
  }

  // ---------------------------------------------------------------- one round

  /** What the worker does about the VM it is shown. */
  function Step(row: Execution, e: Id, lease: Id, vms: Sighting): seq<Event> {
    match React(row, e, Saw(vms))
    case ArmStarting => [Work(ArmStart(lease))]
    case ArmDeployment => [Work(ArmDeploy(lease))]
    case Save(_) => [Work(SaveObservation(lease, Saw(vms)))]
    case _ => []
  }

  function BindOf(w: World, c: Id, e: Id): Event
    requires Serving(w, c, e) && w.execs[e].instance.Some?
  {
    Registry(Bind(c, w.claims[c].generation, w.claims[c].guest.manifest, e, w.execs[e].instance.value))
  }

  /** The transactions of the round, `lease` being the worker lease it makes up. */
  function Round(w: World, c: Id, e: Id, target: Target, vms: Sighting, manifestStopped: bool, lease: Id): seq<Event>
    requires Serving(w, c, e)
  {
    var claim, row := w.claims[c], w.execs[e];
    if StoppedGate(claim, row) && manifestStopped then
      if Recoverable(w, c, e, target, vms)
      then [BindOf(w, c, e), Request(MarkStoppedDeployment(e))] else []
    else if !ExistingOk(claim, e, row, target) || !Active(row.state) then []
    else Pickup(w, e, lease) + Step(row, e, lease, vms)
  }

  /** Deployed, and about to be started unless something keeps it stopped. */
  predicate Deployed(w: World, c: Id, e: Id) {
    Serving(w, c, e) && w.execs[e].state == DeploySucceeded
  }

  /** The worker with this lease is committed to starting the guest. */
  predicate Starting(w: World, e: Id, lease: Id) {
    lease in LedgerOf(w, e).startArmed
  }

  lemma FreshIsNotStarting(w: World, e: Id, lease: Id)
    requires Inv(w) && lease !in w.issued && e in w.execs
    ensures !Starting(w, e, lease)
  {
    RowFacts(w, e);
    if lease in w.ledgers[e].startArmed {
      assert ArmedWorker(w, lease, e, StartArmed);
      WorkerFacts(w, lease);
      Issued(w);
      assert false;
    }
  }

  lemma BindLeaves(w: World, c: Id, e: Id)
    requires Serving(w, c, e) && w.execs[e].instance.Some? && Pristine(w.claims[c]) && FreeVmRef(w, c, e)
    ensures var v := Apply(w, BindOf(w, c, e));
      && v.execs == w.execs && v.ledgers == w.ledgers
      && BoundTo(v, c, w.claims[c].generation, w.claims[c].guest, e, w.execs[e].instance.value)
  {
  }

  lemma MarkLeaves(w: World, e: Id)
    requires InState(w, e, DeploySucceeded) && w.execs[e].lease.None?
    ensures var v := Apply(w, Request(MarkStoppedDeployment(e)));
      && v.claims == w.claims && v.ledgers == w.ledgers && Idle(v, e, Verifying)
  {
  }

  lemma RunTwo(w: World, a: Event, b: Event)
    ensures Run(w, [a, b]) == Apply(Apply(w, a), b)
  {
    hide Apply;
    RunStep(w, [], a);
    RunStep(w, [a], b);
    assert [] + [a] == [a] && [a] + [b] == [a, b];
  }

  lemma Recovered(w: World, c: Id, e: Id, target: Target, vms: Sighting, lease: Id)
    requires Deployed(w, c, e) && Pristine(w.claims[c])
    ensures var v := Run(w, Round(w, c, e, target, vms, true, lease));
      && LedgerOf(v, e) == LedgerOf(w, e)
      && if Recoverable(w, c, e, target, vms)
         then Idle(v, e, Verifying) && w.execs[e].instance.Some?
              && BoundTo(v, c, w.claims[c].generation, w.claims[c].guest, e, w.execs[e].instance.value)
         else v == w
  {
    if Recoverable(w, c, e, target, vms) {
      hide Run, Apply;
      RunTwo(w, BindOf(w, c, e), Request(MarkStoppedDeployment(e)));
      BindLeaves(w, c, e);
      MarkLeaves(Apply(w, BindOf(w, c, e)), e);
    }
  }

  lemma ArmStarts(w: World, e: Id, lease: Id)
    requires e in w.execs && w.execs[e].state == DeploySucceeded
    requires lease in w.workers && w.workers[lease] == Worker(e, w.execs[e], Observing) && Current(w, lease)
    ensures Starting(Apply(w, Work(ArmStart(lease))), e, lease)
  {
  }

  lemma SaveStartsNothing(w: World, e: Id, lease: Id, seen: Observation)
    ensures LedgerOf(Apply(w, Work(SaveObservation(lease, seen))), e) == LedgerOf(w, e)
  {
  }

  lemma PickupLedger(w: World, e: Id, lease: Id)
    ensures LedgerOf(Run(w, Pickup(w, e, lease)), e) == LedgerOf(w, e)
  {
    var a, b, c := Work(MintWorkerLease(lease, e)), Work(AcquireExecution(lease, w.now, LEASE_SECONDS)),
                   Work(BeginWork(lease));
    hide Run, Apply;
    RunThree(w, a, b, c);
    LeasingKeepsLedgers(w, a.work);
    LeasingKeepsLedgers(Apply(w, a), b.work);
    LeasingKeepsLedgers(Apply(Apply(w, a), b), c.work);
  }

  lemma LeasingKeepsLedgers(w: World, k: WorkEvent)
    requires k.MintWorkerLease? || k.AcquireExecution? || k.BeginWork?
    ensures Apply(w, Work(k)).ledgers == w.ledgers
  {
  }

  lemma DeployedReacts(row: Execution, e: Id, vms: Sighting)
    requires row.state == DeploySucceeded
    ensures if Stopped(vms) then React(row, e, Saw(vms)) == ArmStarting else React(row, e, Saw(vms)).Save?
  {
  }

  lemma Reconciled(w: World, c: Id, e: Id, vms: Sighting, lease: Id)
    requires Inv(w) && Deployed(w, c, e) && w.execs[e].lease.None? && lease !in w.issued
    ensures Starting(Run(w, Pickup(w, e, lease) + Step(w.execs[e], e, lease, vms)), e, lease) <==> Stopped(vms)
  {
    hide Inv, Run, Apply, React, Starting, LedgerOf;
    PickupRuns(w, e, lease);
    PickupLedger(w, e, lease);
    FreshIsNotStarting(w, e, lease);
    var v := Run(w, Pickup(w, e, lease));
    SameStarting(w, v, e, lease);
    DeployedReacts(w.execs[e], e, vms);
    if Stopped(vms) {
      RunStep(w, Pickup(w, e, lease), Work(ArmStart(lease)));
      ArmStarts(v, e, lease);
    } else {
      RunStep(w, Pickup(w, e, lease), Work(SaveObservation(lease, Saw(vms))));
      SaveStartsNothing(v, e, lease, Saw(vms));
      SameStarting(v, Apply(v, Work(SaveObservation(lease, Saw(vms)))), e, lease);
    }
  }

  lemma SameStarting(w: World, v: World, e: Id, lease: Id)
    requires LedgerOf(v, e) == LedgerOf(w, e)
    ensures Starting(v, e, lease) <==> Starting(w, e, lease)
  {
  }

  /** The round starts the guest exactly if the loaded rows are accepted, the VM is the
      planned one and stopped, and the recovery's gate does not catch it: the claim is no
      longer pristine, or the guest was not to be kept stopped. So "a guest to be kept
      stopped is not started" holds as long as its claim is reserved and bound to nothing,
      and fails, whatever bound the claim, from then on. */
  lemma StartedIff(events: seq<Event>, c: Id, e: Id, target: Target, vms: Sighting, manifestStopped: bool, lease: Id)
    requires var w := Run(EMPTY_WORLD, events); Deployed(w, c, e) && lease !in w.issued
    ensures var w := Run(EMPTY_WORLD, events);
      Starting(Run(w, Round(w, c, e, target, vms, manifestStopped, lease)), e, lease) <==>
        && ExistingOk(w.claims[c], e, w.execs[e], target) && Stopped(vms)
        && (!Pristine(w.claims[c]) || !manifestStopped)
  {
    hide Inv, Run, Round, Starting, ExistingOk, Pristine;
    EmptyInv();
    RunKeepsInv(EMPTY_WORLD, events);
    RoundStarts(Run(EMPTY_WORLD, events), c, e, target, vms, manifestStopped, lease);
  }

  lemma RoundIs(w: World, c: Id, e: Id, target: Target, vms: Sighting, manifestStopped: bool, lease: Id)
    requires Deployed(w, c, e) && (!Pristine(w.claims[c]) || !manifestStopped)
    ensures Round(w, c, e, target, vms, manifestStopped, lease) ==
      if ExistingOk(w.claims[c], e, w.execs[e], target)
      then Pickup(w, e, lease) + Step(w.execs[e], e, lease, vms) else []
  {
    hide ExistingOk, Step, Pickup, Recoverable;
  }

  lemma AcceptedIsIdle(c: Claim, e: Id, row: Execution, target: Target)
    requires ExistingOk(c, e, row, target)
    ensures row.lease.None?
  {
  }

  lemma RoundStarts(w: World, c: Id, e: Id, target: Target, vms: Sighting, manifestStopped: bool, lease: Id)
    requires Deployed(w, c, e) && lease !in w.issued && Inv(w)
    ensures Starting(Run(w, Round(w, c, e, target, vms, manifestStopped, lease)), e, lease) <==>
      && ExistingOk(w.claims[c], e, w.execs[e], target) && Stopped(vms)
      && (!Pristine(w.claims[c]) || !manifestStopped)
  {
    hide Inv, Run, Round, Step, Pickup, Starting, ExistingOk, Pristine, LedgerOf, Recoverable, BoundTo, Idle;
    FreshIsNotStarting(w, e, lease);
    if Pristine(w.claims[c]) && manifestStopped {
      Recovered(w, c, e, target, vms, lease);
      SameStarting(w, Run(w, Round(w, c, e, target, vms, true, lease)), e, lease);
    } else {
      RoundIs(w, c, e, target, vms, manifestStopped, lease);
      if ExistingOk(w.claims[c], e, w.execs[e], target) {
        AcceptedIsIdle(w.claims[c], e, w.execs[e], target);
        Reconciled(w, c, e, vms, lease);
      } else {
        RunNothing(w);
      }
    }
  }

  lemma RunNothing(w: World)
    ensures Run(w, []) == w
  {
  }

  /** Otherwise, and with the gate open, the round ends in one of two ways: the claim bound
      to this VM and the row past its start, or nothing at all. */
  lemma SparedRound(events: seq<Event>, c: Id, e: Id, target: Target, vms: Sighting, lease: Id)
    requires Deployed(Run(EMPTY_WORLD, events), c, e) && Pristine(Run(EMPTY_WORLD, events).claims[c])
    ensures var w := Run(EMPTY_WORLD, events);
      var v := Run(w, Round(w, c, e, target, vms, true, lease));
      if Recoverable(w, c, e, target, vms)
      then Idle(v, e, Verifying) && w.execs[e].instance.Some?
           && BoundTo(v, c, w.claims[c].generation, w.claims[c].guest, e, w.execs[e].instance.value)
      else v == w
  {
    hide Run, Recoverable;
    Recovered(Run(EMPTY_WORLD, events), c, e, target, vms, lease);
  }

  // ------------------------------------------------------- and never afterwards

  /** Past its start, and nobody left who is committed to one. */
  predicate StartIsOver(w: World, e: Id) {
    && e in w.execs && w.execs[e].state in {Verifying, Succeeded}
    && LedgerOf(w, e).startArmed == {}
  }

  lemma NoArmedWorker(w: World, e: Id, l: Id)
    requires Inv(w) && StartIsOver(w, e) && l in w.workers && w.workers[l].exec == e
    ensures w.workers[l].phase != StartArmed
    ensures Current(w, l) && InPhase(w, l, Observing) ==> w.workers[l].seen.state != DeploySucceeded
  {
    hide Inv, LedgerOk, Rooted, LeaseMinted;
    RowFacts(w, e);
    WorkerFacts(w, l);
    ArmedFacts(w, e, l);
  }

  lemma WorkStartsNothing(w: World, k: WorkEvent, e: Id)
    requires Inv(w) && WorkEnabled(w, k) && StartIsOver(w, e)
    ensures !Does(w, Work(k), StartCall, e)
    ensures LedgerOf(WorkEffect(w, k), e).startArmed == {}
  {
    hide Inv;
    Issued(w);
    if (k.ArmStart? || k.CallStart?) && w.workers[k.lease].exec == e {
      NoArmedWorker(w, e, k.lease);
    }
  }

  lemma RequestStartsNothing(w: World, q: RequestEvent, e: Id)
    requires RequestEnabled(w, q) && StartIsOver(w, e)
    ensures !Does(w, Request(q), StartCall, e)
    ensures LedgerOf(RequestEffect(w, q), e).startArmed == {}
  {
  }

  lemma StepStartsNothing(w: World, ev: Event, e: Id)
    requires Inv(w) && StartIsOver(w, e)
    ensures !Does(w, ev, StartCall, e) && StartIsOver(Apply(w, ev), e)
  {
    hide Inv, RegistryEnabled, RegistryEffect, WorkEnabled, WorkEffect, RequestEnabled, RequestEffect;
    StepIsLater(w, ev);
    RowLater(w, Apply(w, ev), e);
    if Enabled(w, ev) {
      match ev
      case Tick(_) =>
      case Registry(r) => RegistryFrame(w, r);
      case Work(k) => WorkStartsNothing(w, k, e);
      case Request(q) => RequestStartsNothing(w, q, e);
    }
  }

  /** From then on no start request is ever sent, whoever acts and whatever is retried. */
  lemma {:induction false} NeverStarted(w: World, events: seq<Event>, e: Id)
    requires Inv(w) && StartIsOver(w, e)
    ensures Count(w, events, StartCall, e) == 0 && StartIsOver(Run(w, events), e)
    decreases |events|
  {
    hide Inv, Apply, StartIsOver, Does;
    if events != [] {
      var before := events[..|events| - 1];
      NeverStarted(w, before, e);
      RunKeepsInv(w, before);
      StepStartsNothing(Run(w, before), events[|events| - 1], e);
    }
  }

  /** A guest that the recovery has caught in time stays stopped for good, provided that no
      earlier start is still on its way: there is none if nobody has retried a start. */
  lemma SparedForGood(events: seq<Event>, c: Id, e: Id, target: Target, vms: Sighting, lease: Id, later: seq<Event>)
    requires var w := Run(EMPTY_WORLD, events);
      && Deployed(w, c, e) && Pristine(w.claims[c]) && Recoverable(w, c, e, target, vms)
      && (LedgerOf(w, e).startArmed == {} || LedgerOf(w, e).restarts == 0)
    ensures var w := Run(EMPTY_WORLD, events);
      Count(Run(w, Round(w, c, e, target, vms, true, lease)), later, StartCall, e) == 0
  {
    EmptyInv();
    RunKeepsInv(EMPTY_WORLD, events);
    var w := Run(EMPTY_WORLD, events);
    assert LedgerOf(w, e).startArmed == {} by { RowFacts(w, e); }
    hide Inv, Run, Recoverable, LedgerOf, Count;
    Recovered(w, c, e, target, vms, lease);
    var round := Round(w, c, e, target, vms, true, lease);
    RunKeepsInv(w, round);
    NeverStarted(Run(w, round), later, e);
  }

  /** If the process dies between the two commits of the recovery, or the second of them
      fails, the gate stays shut: the claim is bound. The resumed operator then starts the
      guest that was to be kept stopped. */
  lemma CrashBetweenStarts(events: seq<Event>, c: Id, e: Id, target: Target, vms: Sighting, lease: Id)
    requires var w := Run(EMPTY_WORLD, events);
      && Deployed(w, c, e) && Pristine(w.claims[c]) && Recoverable(w, c, e, target, vms)
      && ExistingOk(w.claims[c], e, w.execs[e], target) && lease !in w.issued
    ensures var w := Run(EMPTY_WORLD, events);
      && w.execs[e].instance.Some?
      && var v := Apply(w, BindOf(w, c, e));
      && Deployed(v, c, e)
      && Starting(Run(v, Round(v, c, e, target, vms, true, lease)), e, lease)
  {
    var w := Run(EMPTY_WORLD, events);
    var bind := BindOf(w, c, e);
    var v := Apply(w, bind);
    assert v == Run(EMPTY_WORLD, events + [bind]) by { RunStep(EMPTY_WORLD, events, bind); }
    hide Run, Round, Starting;
    BoundStillAccepted(w, c, e, target);
    StartedIff(events + [bind], c, e, target, vms, true, lease);
  }

  lemma BoundStillAccepted(w: World, c: Id, e: Id, target: Target)
    requires Deployed(w, c, e) && Pristine(w.claims[c]) && FreeVmRef(w, c, e) && SelfNamed(e, w.execs[e])
    requires ExistingOk(w.claims[c], e, w.execs[e], target)
    ensures var v := Apply(w, BindOf(w, c, e));
      && Deployed(v, c, e) && v.issued == w.issued && !Pristine(v.claims[c])
      && ExistingOk(v.claims[c], e, v.execs[e], target)
  {
  }
}
