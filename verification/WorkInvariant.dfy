/** Workers, operators and the delete callback keep the invariant too. */
module WorkInvariant {
  import opened Model
  import opened WorkerStep
  import opened Protocol
  import opened Invariant

  predicate Unarmed(phase: WorkerPhase) {
    phase != DeployArmed && phase != StartArmed
  }

  /** An observation never invents work: it keeps the identity of the row, gives the
      lease back, and goes neither back to `planned` nor back before the start. */
  lemma ReactMoves(row: Execution, id: Id, seen: Observation)
    requires React(row, id, seen).Save?
    ensures var n := React(row, id, seen).row;
      && n.claim == row.claim && n.generation == row.generation && n.plan == row.plan
      && n.lease.None?
      && n.state !in {Planned, Succeeded, RolledBack}
      && Active(row.state)
      && (BeforeStart(n.state) ==> BeforeStart(row.state))
      && (row.state == Verifying ==> n.state == Verifying)
      && (GivenUp(row.state) <==> GivenUp(row.state) && GivenUp(n.state))
  {
  }

  lemma BudgetShrinks(o: Execution, n: Execution, l: Ledger)
    requires WithinBudget(o, l)
    requires n.state == Planned ==> o.state == Planned
    requires BeforeStart(n.state) ==> BeforeStart(o.state)
    ensures WithinBudget(n, l)
  {
  }

  lemma UnarmedLedger(w: World, v: World, e: Id, own: Option<Id>)
    requires RowReplaced(w, v, e) && OnlyCalls(w, v, own, None, e)
    requires e in w.ledgers && e in v.ledgers && LedgerOk(w, e)
    requires v.ledgers[e].deployArmed == w.ledgers[e].deployArmed
    requires v.ledgers[e].startArmed == w.ledgers[e].startArmed
    requires v.ledgers[e].destroyArmed == w.ledgers[e].destroyArmed
    requires own.Some? && own.value in w.workers ==> Unarmed(w.workers[own.value].phase)
    requires own.Some? && own.value in v.workers ==> Unarmed(v.workers[own.value].phase)
    requires WithinBudget(v.execs[e], v.ledgers[e])
    ensures LedgerOk(v, e)
  {
    forall l ensures ArmedWorker(v, l, e, DeployArmed) <==> ArmedWorker(w, l, e, DeployArmed) {}
    forall l ensures ArmedWorker(v, l, e, StartArmed) <==> ArmedWorker(w, l, e, StartArmed) {}
    forall a ensures ArmedCleaner(v, a, e) <==> ArmedCleaner(w, a, e) {}
  }

  lemma RowFacts(w: World, e: Id)
    requires Inv(w) && e in w.execs
    ensures e in w.issued && e in w.ledgers && LedgerOk(w, e) && Rooted(w, e) && LeaseMinted(w, e)
  {
    assert LedgerOk(w, e) && Rooted(w, e);
  }

  lemma ClaimFacts(w: World, c: Id)
    requires Inv(w) && c in w.claims
    ensures c in w.issued && ClaimShape(w.claims[c]) && Fenced(w)
  {
  }

  lemma WorkerFacts(w: World, l: Id)
    requires Inv(w) && l in w.workers
    ensures WorkerOk(w, l)
  {
  }

  /** A worker that still holds the lease writes its row and is done. */
  lemma CloseWork(w: World, own: Id, n: Execution)
    requires Inv(w) && own in w.workers && w.workers[own].exec in w.execs
    requires Holds(w.execs[w.workers[own].exec], own) && Unarmed(w.workers[own].phase)
    requires var o := w.execs[w.workers[own].exec];
      && RowMove(o, n) && n.lease.None?
      && (n.state == RolledBack ==>
            || o.state == RolledBack
            || (o.claim in w.claims && w.claims[o.claim].state == Released))
      && (n.state == Planned ==> o.state == Planned)
      && (BeforeStart(n.state) ==> BeforeStart(o.state))
    ensures Inv(Done(PutExec(w, w.workers[own].exec, n), own))
  {
    hide Inv;
    var e := w.workers[own].exec;
    var v := Done(PutExec(w, e, n), own);
    RowFacts(w, e);
    BudgetShrinks(w.execs[e], n, w.ledgers[e]);
    UnarmedLedger(w, v, e, Some(own));
    InvUnderRow(w, v, e, Some(own), None);
  }

  lemma SaveKeepsInv(w: World, ev: WorkEvent)
    requires Inv(w) && WorkEnabled(w, ev) && ev.SaveObservation?
    ensures Inv(WorkEffect(w, ev))
  {
    hide Inv;
    var worker := w.workers[ev.lease];
    WorkerFacts(w, ev.lease);
    ReactMoves(worker.seen, worker.exec, ev.seen);
    CloseWork(w, ev.lease,
      Flush(w.execs[worker.exec], worker.seen, Reacts(w, ev.lease, ev.seen).row));
  }

  lemma FinishKeepsInv(w: World, ev: WorkEvent)
    requires Inv(w) && WorkEnabled(w, ev) && (ev.FinishDeploy? || ev.FinishStart?)
    ensures Inv(WorkEffect(w, ev))
  {
    hide Inv;
    var worker := w.workers[ev.lease];
    WorkerFacts(w, ev.lease);
    CloseWork(w, ev.lease, Flush(w.execs[worker.exec], worker.seen,
      if ev.FinishDeploy? then AfterDeploy(worker.seen, ev.reply)
      else AfterStart(worker.seen, ev.reply)));
  }

  lemma SucceedKeepsInv(w: World, ev: WorkEvent)
    requires Inv(w) && WorkEnabled(w, ev) && ev.Succeed?
    ensures Inv(WorkEffect(w, ev))
  {
    hide Inv;
    WorkerFacts(w, ev.lease);
    CloseWork(w, ev.lease, Saved(w.execs[w.workers[ev.lease].exec], Succeeded, None));
  }

  lemma ReleaseKeepsInv(w: World, ev: WorkEvent)
    requires Inv(w) && WorkEnabled(w, ev) && ev.ReleaseCleanup?
    ensures Inv(WorkEffect(w, ev))
  {
    hide Inv;
    var row := w.execs[w.workers[ev.lease].exec];
    var u := PutClaim(w, row.claim, w.claims[row.claim].(state := Released));
    ClaimFacts(w, row.claim);
    FencesUnderClaim(w, u, row.claim);
    SameIdentityKeepsInv(w, u, row.claim);
    CloseWork(u, ev.lease, Saved(row, RolledBack, None));
  }

  lemma AcquireKeepsInv(w: World, ev: WorkEvent)
    requires Inv(w) && WorkEnabled(w, ev) && ev.AcquireExecution?
    ensures Inv(WorkEffect(w, ev))
  {
    hide Inv;
    var e := w.leaseFor[ev.lease];
    var v := WorkEffect(w, ev);
    RowFacts(w, e);
    UnarmedLedger(w, v, e, None);
    LeaseNotStarted(w, ev.lease);
    InvUnderRow(w, v, e, Some(ev.lease), None);
  }

  lemma LeaseNotStarted(w: World, l: Id)
    requires l !in w.workers
    ensures OnlyCalls(w, w, Some(l), None, 0)
  {
  }

  lemma BeginKeepsInv(w: World, ev: WorkEvent)
    requires Inv(w) && WorkEnabled(w, ev) && ev.BeginWork?
    ensures Inv(WorkEffect(w, ev))
  {
    hide Inv;
    var e := w.leaseFor[ev.lease];
    var v := WorkEffect(w, ev);
    RowFacts(w, e);
    UnarmedLedger(w, v, e, Some(ev.lease));
    InvUnderRow(w, v, e, Some(ev.lease), None);
  }

  lemma ArmedFacts(w: World, e: Id, l: Id)
    requires e in w.execs && e in w.ledgers && LedgerOk(w, e) && l in w.workers && w.workers[l].exec == e
    ensures WithinBudget(w.execs[e], w.ledgers[e])
    ensures l in w.ledgers[e].deployArmed <==> w.workers[l].phase == DeployArmed
    ensures l in w.ledgers[e].startArmed <==> w.workers[l].phase == StartArmed
  {
    assert ArmedWorker(w, l, e, DeployArmed) <==> w.workers[l].phase == DeployArmed;
    assert ArmedWorker(w, l, e, StartArmed) <==> w.workers[l].phase == StartArmed;
  }

  /** Arming, or making, the call of one worker leaves every other caller alone. */
  lemma ArmedElsewhere(w: World, v: World, e: Id, own: Id)
    requires RowReplaced(w, v, e) && OnlyCalls(w, v, Some(own), None, e)
    requires own in w.workers && own in v.workers
    requires e in w.ledgers && e in v.ledgers && LedgerOk(w, e) && WithinBudget(v.execs[e], v.ledgers[e])
    requires v.ledgers[e].destroyArmed == w.ledgers[e].destroyArmed
    requires v.ledgers[e].deployArmed ==
      if v.workers[own].phase == DeployArmed then w.ledgers[e].deployArmed + {own}
      else w.ledgers[e].deployArmed - {own}
    requires v.ledgers[e].startArmed ==
      if v.workers[own].phase == StartArmed then w.ledgers[e].startArmed + {own}
      else w.ledgers[e].startArmed - {own}
    ensures LedgerOk(v, e)
  {
    forall l ensures l in v.ledgers[e].deployArmed <==> ArmedWorker(v, l, e, DeployArmed) {
      assert l != own ==> (ArmedWorker(v, l, e, DeployArmed) <==> ArmedWorker(w, l, e, DeployArmed));
    }
    forall l ensures l in v.ledgers[e].startArmed <==> ArmedWorker(v, l, e, StartArmed) {
      assert l != own ==> (ArmedWorker(v, l, e, StartArmed) <==> ArmedWorker(w, l, e, StartArmed));
    }
    forall a ensures ArmedCleaner(v, a, e) <==> ArmedCleaner(w, a, e) {}
  }

  /** One worker moves on, with its row and the ledger of its execution. */
  function MoveOn(w: World, own: Id, row: Execution, worker: Worker, ledger: Ledger): World
    requires own in w.workers
  {
    PutLedger(PutWorker(PutExec(w, w.workers[own].exec, row), own, worker), w.workers[own].exec, ledger)
  }

  lemma MoveOnKeepsInv(w: World, own: Id, row: Execution, worker: Worker, ledger: Ledger)
    requires Inv(w) && own in w.workers && w.workers[own].exec in w.execs
    requires worker.exec == w.workers[own].exec
    requires worker.seen.claim == row.claim && worker.seen.generation == row.generation
    requires Holds(row, own) ==> Holds(worker.seen, own) && Tracks(row, worker)
    requires var e := worker.exec;
      && RowMove(w.execs[e], row) && row.lease == w.execs[e].lease
      && (row.state == RolledBack ==> w.execs[e].state == RolledBack)
      && (row.lease.Some? ==> Active(row.state))
      && (row.state == w.execs[e].state || Holds(w.execs[e], own))
      && e in w.ledgers && WithinBudget(row, ledger)
      && ledger.destroyArmed == w.ledgers[e].destroyArmed
      && ledger.deployArmed == (if worker.phase == DeployArmed then w.ledgers[e].deployArmed + {own}
                                else w.ledgers[e].deployArmed - {own})
      && ledger.startArmed == (if worker.phase == StartArmed then w.ledgers[e].startArmed + {own}
                               else w.ledgers[e].startArmed - {own})
    ensures Inv(MoveOn(w, own, row, worker, ledger))
  {
    hide Inv, LedgerOk, Rooted, Tracks, WithinBudget;
    var e := worker.exec;
    RowFacts(w, e);
    WorkerFacts(w, own);
    var v := MoveOn(w, own, row, worker, ledger);
    ArmedElsewhere(w, v, e, own);
    InvUnderRow(w, v, e, Some(own), None);
  }

  lemma ArmDeployKeepsInv(w: World, ev: WorkEvent)
    requires Inv(w) && WorkEnabled(w, ev) && ev.ArmDeploy?
    ensures Inv(WorkEffect(w, ev))
  {
    hide Inv, LedgerOk, Rooted;
    var worker := w.workers[ev.lease];
    var e := worker.exec;
    RowFacts(w, e);
    WorkerFacts(w, ev.lease);
    ArmedFacts(w, e, ev.lease);
    var row := Flush(w.execs[e], worker.seen, worker.seen.(state := DeploySubmitting));
    var ledger := w.ledgers[e];
    MoveOnKeepsInv(w, ev.lease, row, worker.(phase := DeployArmed),
                   ledger.(deployArmed := ledger.deployArmed + {ev.lease}));
  }

  lemma ArmStartKeepsInv(w: World, ev: WorkEvent)
    requires Inv(w) && WorkEnabled(w, ev) && ev.ArmStart?
    ensures Inv(WorkEffect(w, ev))
  {
    hide Inv, LedgerOk, Rooted;
    var worker := w.workers[ev.lease];
    var e := worker.exec;
    RowFacts(w, e);
    WorkerFacts(w, ev.lease);
    ArmedFacts(w, e, ev.lease);
    var row := Flush(w.execs[e], worker.seen, worker.seen.(state := StartSubmitting));
    var ledger := w.ledgers[e];
    MoveOnKeepsInv(w, ev.lease, row, worker.(phase := StartArmed),
                   ledger.(startArmed := ledger.startArmed + {ev.lease}));
  }

  lemma CallKeepsInv(w: World, ev: WorkEvent)
    requires Inv(w) && WorkEnabled(w, ev) && (ev.CallDeploy? || ev.CallStart?)
    ensures Inv(WorkEffect(w, ev))
  {
    hide Inv, LedgerOk, Rooted;
    var e := w.workers[ev.lease].exec;
    RowFacts(w, e);
    WorkerFacts(w, ev.lease);
    ArmedFacts(w, e, ev.lease);
    var v := WorkEffect(w, ev);
    assert w.execs[e := w.execs[e]] == w.execs;
    assert v == MoveOn(w, ev.lease, w.execs[e], v.workers[ev.lease], v.ledgers[e]);
    MoveOnKeepsInv(w, ev.lease, w.execs[e], v.workers[ev.lease], v.ledgers[e]);
  }

  lemma SeePromotionKeepsInv(w: World, ev: WorkEvent)
    requires Inv(w) && WorkEnabled(w, ev) && ev.SeePromotion?
    ensures Inv(WorkEffect(w, ev))
  {
    hide Inv;
    var e := w.workers[ev.lease].exec;
    var v := WorkEffect(w, ev);
    WorkerFacts(w, ev.lease);
    RowFacts(w, e);
    UnarmedLedger(w, v, e, Some(ev.lease));
    InvUnderRow(w, v, e, Some(ev.lease), None);
  }

  lemma MintKeepsInv(w: World, ev: WorkEvent)
    requires Inv(w) && WorkEnabled(w, ev) && ev.MintWorkerLease?
    ensures Inv(WorkEffect(w, ev))
  {
    hide Claims, Distinct, Fenced, Execs, Backed, CleanupOwned, RolledBackReleased, Workers, Cleaners, Ledgers;
    var v := WorkEffect(w, ev);
    ClaimsUntouched(w, v);
    MintKeepsWorkers(w, v, ev.lease);
    CallsElsewhere(w, v);
  }

  lemma MintKeepsWorkers(w: World, v: World, lease: Id)
    requires Workers(w) && Cleaners(w) && lease !in w.issued && lease in v.leaseFor && lease in v.issued
    requires v == w.(leaseFor := w.leaseFor[lease := v.leaseFor[lease]], issued := w.issued + {lease})
    ensures Workers(v) && Cleaners(v)
  {
    assert lease !in w.leaseFor;
    forall l | l in v.workers ensures WorkerOk(v, l) {
      assert WorkerOk(w, l);
    }
    forall e | e in v.execs ensures LeaseMinted(v, e) {
      assert LeaseMinted(w, e);
    }
  }

  lemma CallsElsewhere(w: World, v: World)
    requires Ledgers(w) && v.execs == w.execs && v.workers == w.workers && v.cleaners == w.cleaners
    requires v.ledgers == w.ledgers
    ensures Ledgers(v)
  {
    forall e | e in v.execs ensures LedgerOk(v, e) {
      assert LedgerOk(w, e);
      forall l ensures ArmedWorker(v, l, e, DeployArmed) <==> ArmedWorker(w, l, e, DeployArmed) {}
      forall l ensures ArmedWorker(v, l, e, StartArmed) <==> ArmedWorker(w, l, e, StartArmed) {}
      forall a ensures ArmedCleaner(v, a, e) <==> ArmedCleaner(w, a, e) {}
    }
  }

  lemma WorkKeepsInv(w: World, ev: WorkEvent)
    requires Inv(w) && WorkEnabled(w, ev)
    ensures Inv(WorkEffect(w, ev))
  {
    hide Inv, WorkEnabled, WorkEffect;
    match ev
    case CreateExecution(_, _, _, _) => CreateKeepsInv(w, ev);
    case MintWorkerLease(_, _) => MintKeepsInv(w, ev);
    case AcquireExecution(_, _, _) => AcquireKeepsInv(w, ev);
    case BeginWork(_) => BeginKeepsInv(w, ev);
    case SaveObservation(_, _) => SaveKeepsInv(w, ev);
    case ArmDeploy(_) => ArmDeployKeepsInv(w, ev);
    case CallDeploy(_) => CallKeepsInv(w, ev);
    case FinishDeploy(_, _) => FinishKeepsInv(w, ev);
    case ArmStart(_) => ArmStartKeepsInv(w, ev);
    case CallStart(_) => CallKeepsInv(w, ev);
    case FinishStart(_, _) => FinishKeepsInv(w, ev);
    case SeePromotion(_) => SeePromotionKeepsInv(w, ev);
    case Succeed(_) => SucceedKeepsInv(w, ev);
    case ReleaseCleanup(_) => ReleaseKeepsInv(w, ev);
  }

  // ------------------------------------------------------- a new execution

  lemma CreateKeepsInv(w: World, ev: WorkEvent)
    requires Inv(w) && WorkEnabled(w, ev) && ev.CreateExecution?
    ensures Inv(WorkEffect(w, ev))
  {
    hide Execs, Backed, CleanupOwned, RolledBackReleased, Workers, Cleaners, Ledgers;
    var v := WorkEffect(w, ev);
    assert ev.exec !in w.execs by { ExecsIssued(w); }
    CreateKeepsRows(w, v, ev.exec);
    CreateKeepsWorkers(w, v, ev.exec);
    CreateKeepsLedgers(w, v, ev.exec);
    assert Claims(v) && Distinct(v) && Fenced(v);
  }

  lemma ExecsIssued(w: World)
    requires Execs(w)
    ensures forall e :: e in w.execs ==> e in w.issued
  {
  }

  ghost predicate Created(w: World, v: World, e: Id) {
    && e !in w.execs && e in v.execs && e in v.issued && w.issued <= v.issued
    && v.execs == w.execs[e := v.execs[e]] && v.ledgers == w.ledgers[e := NEW_LEDGER]
    && v.claims == w.claims && v.leaseFor == w.leaseFor && v.workers == w.workers
    && v.cleaners == w.cleaners
    && v.execs[e].state == Planned && v.execs[e].lease.None?
  }

  lemma CreateKeepsRows(w: World, v: World, e: Id)
    requires Execs(w) && Backed(w) && CleanupOwned(w) && RolledBackReleased(w) && Created(w, v, e)
    requires Rooted(v, e) && FreeGeneration(w, v.execs[e].claim, v.execs[e].generation)
    ensures Execs(v) && Backed(v) && CleanupOwned(v) && RolledBackReleased(v)
  {
    forall c | c in v.claims ensures BackedClaim(v, c) {
      assert BackedClaim(w, c);
    }
    forall c | c in v.claims && v.claims[c].state == CleaningUp
      ensures exists d :: CleanedBy(v, d, c)
    {
      var d :| CleanedBy(w, d, c);
      assert CleanedBy(v, d, c);
    }
    forall d | d in v.execs ensures Rooted(v, d) {
      assert d != e ==> Rooted(w, d);
    }
  }

  lemma CreateKeepsWorkers(w: World, v: World, e: Id)
    requires Workers(w) && Cleaners(w) && Created(w, v, e)
    ensures Workers(v) && Cleaners(v)
  {
    forall l | l in v.workers ensures WorkerOk(v, l) {
      assert WorkerOk(w, l);
    }
    forall d | d in v.execs ensures LeaseMinted(v, d) {
      assert d != e ==> LeaseMinted(w, d);
    }
  }

  lemma CreateKeepsLedgers(w: World, v: World, e: Id)
    requires Workers(w) && Cleaners(w) && Ledgers(w) && Created(w, v, e)
    ensures Ledgers(v)
  {
    hide WithinBudget;
    forall d | d in w.execs ensures LedgerOk(v, d) {
      assert LedgerOk(w, d);
      forall l ensures ArmedWorker(v, l, d, DeployArmed) <==> ArmedWorker(w, l, d, DeployArmed) {}
      forall l ensures ArmedWorker(v, l, d, StartArmed) <==> ArmedWorker(w, l, d, StartArmed) {}
      forall a ensures ArmedCleaner(v, a, d) <==> ArmedCleaner(w, a, d) {}
    }
    FreshLedger(w, v, e);
  }

  lemma FreshLedger(w: World, v: World, e: Id)
    requires Workers(w) && Cleaners(w) && Created(w, v, e)
    ensures LedgerOk(v, e)
  {
    forall l | l in w.workers ensures w.workers[l].exec != e {
      assert WorkerOk(w, l);
    }
  }

  // ---------------------------------------- operator requests and callbacks

  lemma RetryKeepsInv(w: World, ev: RequestEvent)
    requires Inv(w) && RequestEnabled(w, ev) && (ev.Retry? || ev.MarkStoppedDeployment?)
    ensures Inv(RequestEffect(w, ev))
  {
    hide Inv;
    var v := RequestEffect(w, ev);
    RowFacts(w, ev.exec);
    UnarmedLedger(w, v, ev.exec, None);
    InvUnderRow(w, v, ev.exec, None, None);
  }

  /** Moving one cleanup attempt along leaves every other caller alone. */
  lemma ArmedAttempt(w: World, v: World, e: Id, a: Id)
    requires RowReplaced(w, v, e) && OnlyCalls(w, v, None, Some(a), e)
    requires e in w.ledgers && e in v.ledgers && LedgerOk(w, e) && WithinBudget(v.execs[e], v.ledgers[e])
    requires v.ledgers[e].deployArmed == w.ledgers[e].deployArmed
    requires v.ledgers[e].startArmed == w.ledgers[e].startArmed
    requires v.ledgers[e].destroyArmed ==
      if ArmedCleaner(v, a, e) then w.ledgers[e].destroyArmed + {a}
      else w.ledgers[e].destroyArmed - {a}
    ensures LedgerOk(v, e)
  {
    forall l ensures ArmedWorker(v, l, e, DeployArmed) <==> ArmedWorker(w, l, e, DeployArmed) {}
    forall l ensures ArmedWorker(v, l, e, StartArmed) <==> ArmedWorker(w, l, e, StartArmed) {}
    forall b ensures b in v.ledgers[e].destroyArmed <==> ArmedCleaner(v, b, e) {
      assert b != a ==> (ArmedCleaner(v, b, e) <==> ArmedCleaner(w, b, e));
    }
  }

  lemma AttemptFacts(w: World, a: Id)
    requires Inv(w)
    ensures a !in w.issued ==> a !in w.cleaners
    ensures a in w.cleaners ==>
      && a in w.issued && w.cleaners[a].exec in w.execs
      && GivenUp(w.execs[w.cleaners[a].exec].state)
  {
  }

  lemma AttemptArmed(w: World, e: Id, a: Id)
    requires e in w.execs && e in w.ledgers && LedgerOk(w, e)
    ensures WithinBudget(w.execs[e], w.ledgers[e])
    ensures a in w.ledgers[e].destroyArmed <==> ArmedCleaner(w, a, e)
  {
  }

  /** One cleanup attempt moves on, with its row and the ledger of its execution. */
  lemma AttemptKeepsInv(w: World, v: World, e: Id, a: Id)
    requires RowReplaced(w, v, e) && OnlyCalls(w, v, None, Some(a), e)
    requires v.workers == w.workers
    requires e in w.ledgers && e in v.ledgers && v.ledgers == w.ledgers[e := v.ledgers[e]]
    requires v.execs[e].lease == w.execs[e].lease
    requires GivenUp(w.execs[e].state) && v.execs[e].state in {CleanupSubmitting, CleanupSubmitted, w.execs[e].state}
    requires a in v.cleaners ==> a in v.issued
    requires WithinBudget(w.execs[e], w.ledgers[e]) ==> WithinBudget(v.execs[e], v.ledgers[e])
    requires v.ledgers[e].deployArmed == w.ledgers[e].deployArmed
    requires v.ledgers[e].startArmed == w.ledgers[e].startArmed
    requires v.ledgers[e].destroyArmed ==
      if ArmedCleaner(v, a, e) then w.ledgers[e].destroyArmed + {a}
      else w.ledgers[e].destroyArmed - {a}
    requires Inv(w)
    ensures Inv(v)
  {
    hide Inv, LedgerOk, Rooted, WithinBudget, ArmedCleaner;
    RowFacts(w, e);
    AttemptArmed(w, e, a);
    ArmedAttempt(w, v, e, a);
    InvUnderRow(w, v, e, None, Some(a));
  }

  lemma RequestCleanupKeepsInv(w: World, ev: RequestEvent)
    requires Inv(w) && RequestEnabled(w, ev) && ev.RequestCleanup?
    ensures Inv(RequestEffect(w, ev))
  {
    hide Inv, LedgerOk, Rooted, WithinBudget, RequestEffect, RowReplaced, OnlyCalls, LeaseMinted, GivenUp;
    var v := RequestEffect(w, ev);
    RowFacts(w, ev.exec);
    AttemptFacts(w, ev.attempt);
    AttemptArmed(w, ev.exec, ev.attempt);
    CleanupWrites(w, ev);
    AttemptKeepsInv(w, v, ev.exec, ev.attempt);
  }

  /** Winning the cleanup, as far as the row, the attempt and the ledger go. */
  lemma CleanupWrites(w: World, ev: RequestEvent)
    requires ev.RequestCleanup? && RequestEnabled(w, ev) && ev.exec in w.ledgers && ev.attempt !in w.cleaners
    requires WithinBudget(w.execs[ev.exec], w.ledgers[ev.exec])
    requires ev.attempt in w.ledgers[ev.exec].destroyArmed <==> ArmedCleaner(w, ev.attempt, ev.exec)
    ensures GivenUp(w.execs[ev.exec].state)
    ensures var e, v := ev.exec, RequestEffect(w, ev);
      && RowReplaced(w, v, e) && OnlyCalls(w, v, None, Some(ev.attempt), e)
      && v.workers == w.workers && ev.attempt in v.issued && v.execs[e].lease == w.execs[e].lease
      && v.execs[e].state in {CleanupSubmitting, CleanupSubmitted, w.execs[e].state}
      && e in v.ledgers && v.ledgers == w.ledgers[e := v.ledgers[e]]
      && WithinBudget(v.execs[e], v.ledgers[e]) && ArmedCleaner(v, ev.attempt, e)
      && v.ledgers[e].deployArmed == w.ledgers[e].deployArmed
      && v.ledgers[e].startArmed == w.ledgers[e].startArmed
      && v.ledgers[e].destroyArmed == w.ledgers[e].destroyArmed + {ev.attempt}
  {
  }

  lemma MoveAttemptKeepsInv(w: World, ev: RequestEvent)
    requires Inv(w) && RequestEnabled(w, ev) && (ev.LoadCleanup? || ev.CallDestroy?)
    ensures Inv(RequestEffect(w, ev))
  {
    hide Inv, LedgerOk, Rooted;
    var e := w.cleaners[ev.attempt].exec;
    var v := RequestEffect(w, ev);
    RowFacts(w, e);
    AttemptFacts(w, ev.attempt);
    AttemptArmed(w, e, ev.attempt);
    AttemptKeepsInv(w, v, e, ev.attempt);
  }

  /** The write after the destroy call, as far as the row and the ledger go. */
  lemma FinishWrites(w: World, ev: RequestEvent)
    requires ev.FinishCleanup? && RequestEnabled(w, ev)
    requires GivenUp(w.execs[w.cleaners[ev.attempt].exec].state)
    ensures w.cleaners[ev.attempt].phase.DestroyCalled?
    ensures var e, v := w.cleaners[ev.attempt].exec, RequestEffect(w, ev);
      && RowReplaced(w, v, e) && OnlyCalls(w, v, None, Some(ev.attempt), e)
      && v.workers == w.workers && v.ledgers == w.ledgers && ev.attempt !in v.cleaners
      && v.execs[e].lease == w.execs[e].lease
      && v.execs[e].state in {CleanupSubmitting, CleanupSubmitted, w.execs[e].state}
  {
  }

  lemma SameBudget(o: Execution, n: Execution, l: Ledger)
    requires GivenUp(o.state) && n.state in {CleanupSubmitting, CleanupSubmitted, o.state}
    ensures WithinBudget(o, l) ==> WithinBudget(n, l)
  {
  }

  lemma FinishCleanupKeepsInv(w: World, ev: RequestEvent)
    requires Inv(w) && RequestEnabled(w, ev) && ev.FinishCleanup?
    ensures Inv(RequestEffect(w, ev))
  {
    hide Inv, LedgerOk, Rooted, WithinBudget, RequestEffect, RowReplaced, OnlyCalls, LeaseMinted, GivenUp;
    var e, v := w.cleaners[ev.attempt].exec, RequestEffect(w, ev);
    AttemptFacts(w, ev.attempt);
    FinishWrites(w, ev);
    RowFacts(w, e);
    FinishIsUnarmed(w, v, e, ev.attempt);
    SameBudget(w.execs[e], v.execs[e], w.ledgers[e]);
    AttemptKeepsInv(w, v, e, ev.attempt);
  }

  lemma FinishIsUnarmed(w: World, v: World, e: Id, a: Id)
    requires e in w.execs && e in w.ledgers && LedgerOk(w, e)
    requires a in w.cleaners && w.cleaners[a].phase.DestroyCalled? && a !in v.cleaners
    ensures a !in w.ledgers[e].destroyArmed && !ArmedCleaner(v, a, e)
    ensures w.ledgers[e].destroyArmed - {a} == w.ledgers[e].destroyArmed
  {
    hide LedgerOk;
    AttemptArmed(w, e, a);
  }

  lemma AuthorizeRow(w: World, e: Id)
    requires Inv(w) && e in w.execs && w.execs[e].state in {CleanupSubmitting, CleanupSubmitted}
    ensures Inv(PutExec(w, e, w.execs[e].(state := CleanupAuthorized)))
  {
    hide Inv;
    var u := PutExec(w, e, w.execs[e].(state := CleanupAuthorized));
    RowFacts(w, e);
    UnarmedLedger(w, u, e, None);
    InvUnderRow(w, u, e, None, None);
  }

  lemma AuthorizeClaim(w: World, e: Id, c: Id)
    requires Inv(w) && Serves(w, e, c) && w.execs[e].state == CleanupAuthorized
    requires w.claims[c].state == Reserved
    ensures Inv(PutClaim(w, c, w.claims[c].(state := CleaningUp)))
  {
    hide Inv;
    var v := PutClaim(w, c, w.claims[c].(state := CleaningUp));
    ClaimFacts(w, c);
    FencesUnderClaim(w, v, c);
    assert CleanedBy(v, e, c);
    SameIdentityKeepsInv(w, v, c);
  }

  lemma AuthorizeKeepsInv(w: World, ev: RequestEvent)
    requires Inv(w) && RequestEnabled(w, ev) && ev.AuthorizeCleanup?
    ensures Inv(RequestEffect(w, ev))
  {
    hide Inv;
    AuthorizeRow(w, ev.exec);
    AuthorizeClaim(PutExec(w, ev.exec, w.execs[ev.exec].(state := CleanupAuthorized)), ev.exec, ev.claim);
  }

  lemma RequestKeepsInv(w: World, ev: RequestEvent)
    requires Inv(w) && RequestEnabled(w, ev)
    ensures Inv(RequestEffect(w, ev))
  {
    hide Inv, RequestEnabled, RequestEffect;
    match ev
    case Retry(_, _, _) => RetryKeepsInv(w, ev);
    case MarkStoppedDeployment(_) => RetryKeepsInv(w, ev);
    case RequestCleanup(_, _, _) => RequestCleanupKeepsInv(w, ev);
    case LoadCleanup(_) => MoveAttemptKeepsInv(w, ev);
    case CallDestroy(_) => MoveAttemptKeepsInv(w, ev);
    case FinishCleanup(_, _) => FinishCleanupKeepsInv(w, ev);
    case AuthorizeCleanup(_, _, _, _, _) => AuthorizeKeepsInv(w, ev);
  }

  lemma TickKeepsInv(w: World, elapsed: nat)
    requires Inv(w)
    ensures Inv(w.(now := w.now + elapsed))
  {
    var v := w.(now := w.now + elapsed);
    ClaimsUntouched(w, v);
    CallsUnderClaim(w, v);
  }

  lemma ClaimsUntouched(w: World, v: World)
    requires Inv(w) && v.claims == w.claims && v.execs == w.execs && v.leases == w.leases && w.issued <= v.issued
    ensures Claims(v) && Distinct(v) && Fenced(v) && Execs(v) && Backed(v) && CleanupOwned(v)
    ensures RolledBackReleased(v)
  {
    forall c | c in v.claims ensures BackedClaim(v, c) {
      assert BackedClaim(w, c);
    }
    forall e | e in v.execs ensures Rooted(v, e) {
      assert Rooted(w, e);
    }
    forall c | c in v.claims && v.claims[c].state == CleaningUp
      ensures exists d :: CleanedBy(v, d, c)
    {
      var d :| CleanedBy(w, d, c);
      assert CleanedBy(v, d, c);
    }
  }

  // ------------------------------------------------------------- whole runs

  lemma StepKeepsInv(w: World, ev: Event)
    requires Inv(w)
    ensures Inv(Apply(w, ev))
  {
    hide Inv, RegistryEnabled, RegistryEffect, WorkEnabled, WorkEffect, RequestEnabled, RequestEffect;
    if Enabled(w, ev) {
      match ev
      case Tick(elapsed) => TickKeepsInv(w, elapsed);
      case Registry(r) => RegistryKeepsInv(w, r);
      case Work(k) => WorkKeepsInv(w, k);
      case Request(q) => RequestKeepsInv(w, q);
    }
  }

  lemma {:induction false} RunKeepsInv(w: World, events: seq<Event>)
    requires Inv(w)
    ensures Inv(Run(w, events))
    decreases |events|
  {
    hide Inv;
    if events != [] {
      RunKeepsInv(w, events[..|events| - 1]);
      StepKeepsInv(Run(w, events[..|events| - 1]), events[|events| - 1]);
    }
  }
}
