/** What can never be undone: how a world relates to every later world of a run. */
module History {
  import opened Model
  import opened Protocol
  import opened Invariant
  import opened WorkInvariant

  /** The life of a claim within one generation. */
  ghost predicate StateFollows(o: ClaimState, n: ClaimState) {
    match o
    case Reserved => true
    case CleaningUp => n in {CleaningUp, Released}
    case Bound => n in {Bound, Managed, Operating, Retiring, Released}
    case Managed => n in {Managed, Operating, Retiring, Released}
    case Operating => n in {Managed, Operating, Retiring, Released}
    case Retiring => n in {Retiring, Released}
    case Released => n == Released
  }

  ghost predicate Follows(o: Claim, n: Claim) {
    && n.guest.cluster == o.guest.cluster && n.guest.vmid == o.guest.vmid
    && o.generation <= n.generation
    && (n.generation == o.generation ==>
          && n.guest == o.guest && n.manifestJson == o.manifestJson
          && StateFollows(o.state, n.state)
          && (o.vmRef.Some? ==> n.vmRef == o.vmRef && n.instance == o.instance)
          && (o.state in {CleaningUp, Released} ==> n.vmRef == o.vmRef && n.instance == o.instance))
  }

  /** The life of an execution row. */
  ghost predicate RowFollows(o: Execution, n: Execution) {
    && n.claim == o.claim && n.generation == o.generation && n.plan == o.plan
    && (GivenUp(o.state) ==> GivenUp(n.state))
    && (o.state == Failed ==> n.state == Failed)
    && (o.state == Succeeded ==> n.state == Succeeded)
    && (o.state == Verifying ==> n.state in {Verifying, Succeeded})
  }

  ghost predicate Later(w: World, v: World) {
    && w.now <= v.now && w.issued <= v.issued
    && (forall c :: c in w.claims ==> c in v.claims && Follows(w.claims[c], v.claims[c]))
    && (forall e :: e in w.execs ==> e in v.execs && RowFollows(w.execs[e], v.execs[e]))
    && (forall l :: l in w.issued && l in v.leases ==> l in w.leases && w.leases[l] == v.leases[l])
    && (forall l :: l in w.leaseFor ==> l in v.leaseFor && v.leaseFor[l] == w.leaseFor[l])
  }

  lemma FollowsTransitive(a: Claim, b: Claim, c: Claim)
    requires Follows(a, b) && Follows(b, c)
    ensures Follows(a, c)
  {
  }

  lemma LaterTransitive(a: World, b: World, c: World)
    requires Later(a, b) && Later(b, c)
    ensures Later(a, c)
  {
    forall k | k in a.claims ensures k in c.claims && Follows(a.claims[k], c.claims[k]) {
      FollowsTransitive(a.claims[k], b.claims[k], c.claims[k]);
    }
  }

  /** Everything but one claim row and the operation leases is untouched. */
  lemma LaterUnderClaim(w: World, v: World, c: Id)
    requires ClaimReplaced(w, v, c) && v.now == w.now
    requires c in w.claims ==> Follows(w.claims[c], v.claims[c])
    requires forall l :: l in w.issued && l in v.leases ==> l in w.leases && w.leases[l] == v.leases[l]
    ensures Later(w, v)
  {
  }

  lemma LaterUnderRow(w: World, v: World, e: Id)
    requires RowReplaced(w, v, e) && v.now == w.now && v.leaseFor == w.leaseFor
    requires RowFollows(w.execs[e], v.execs[e])
    ensures Later(w, v)
  {
  }

  lemma Issued(w: World)
    requires Inv(w)
    ensures forall c :: c in w.claims ==> c in w.issued
    ensures forall l :: l in w.leases ==> l in w.issued
    ensures forall e :: e in w.execs ==> e in w.issued
    ensures forall l :: l in w.leaseFor ==> l in w.issued
  {
  }

  lemma RegistryIsLater(w: World, ev: RegistryEvent)
    requires Inv(w) && RegistryEnabled(w, ev)
    ensures Later(w, RegistryEffect(w, ev))
  {
    hide Inv, Later, RegistryEnabled, RegistryEffect;
    Issued(w);
    if ev.claim in w.claims {
      ClaimFacts(w, ev.claim);
    }
    RegistryReplaces(w, ev);
    LaterUnderClaim(w, RegistryEffect(w, ev), ev.claim);
  }

  lemma RegistryReplaces(w: World, ev: RegistryEvent)
    requires RegistryEnabled(w, ev)
    requires forall c :: c in w.claims ==> c in w.issued
    requires forall l :: l in w.leases ==> l in w.issued
    requires ev.claim in w.claims ==> ClaimShape(w.claims[ev.claim])
    ensures var v := RegistryEffect(w, ev);
      && ClaimReplaced(w, v, ev.claim) && v.now == w.now
      && (ev.claim in w.claims ==> Follows(w.claims[ev.claim], v.claims[ev.claim]))
      && forall l :: l in w.issued && l in v.leases ==> l in w.leases && w.leases[l] == v.leases[l]
  {
  }

  lemma WorkIsLater(w: World, ev: WorkEvent)
    requires Inv(w) && WorkEnabled(w, ev)
    ensures Later(w, WorkEffect(w, ev))
  {
    hide Inv, Later, WorkEnabled, WorkEffect;
    match ev
    case CreateExecution(_, _, _, _) => LeaseIsLater(w, ev);
    case MintWorkerLease(_, _) => LeaseIsLater(w, ev);
    case AcquireExecution(_, _, _) => LeaseIsLater(w, ev);
    case BeginWork(_) => LeaseIsLater(w, ev);
    case SaveObservation(_, _) => SaveIsLater(w, ev);
    case ArmDeploy(_) => WorkerRowIsLater(w, ev);
    case CallDeploy(_) => CallIsLater(w, ev);
    case FinishDeploy(_, _) => WorkerRowIsLater(w, ev);
    case ArmStart(_) => WorkerRowIsLater(w, ev);
    case CallStart(_) => CallIsLater(w, ev);
    case FinishStart(_, _) => WorkerRowIsLater(w, ev);
    case SeePromotion(_) => CallIsLater(w, ev);
    case Succeed(_) => WorkerRowIsLater(w, ev);
    case ReleaseCleanup(_) => ReleaseIsLater(w, ev);
  }

  lemma LeaseIsLater(w: World, ev: WorkEvent)
    requires Inv(w) && WorkEnabled(w, ev)
    requires ev.CreateExecution? || ev.MintWorkerLease? || ev.AcquireExecution? || ev.BeginWork?
    ensures Later(w, WorkEffect(w, ev))
  {
    hide Inv;
    Issued(w);
  }

  lemma CallIsLater(w: World, ev: WorkEvent)
    requires Inv(w) && WorkEnabled(w, ev) && (ev.CallDeploy? || ev.CallStart? || ev.SeePromotion?)
    ensures Later(w, WorkEffect(w, ev))
  {
    hide Inv;
  }

  lemma ReleaseIsLater(w: World, ev: WorkEvent)
    requires Inv(w) && WorkEnabled(w, ev) && ev.ReleaseCleanup?
    ensures Later(w, WorkEffect(w, ev))
  {
    hide Inv;
    ClaimFacts(w, w.execs[w.workers[ev.lease].exec].claim);
  }

  lemma SaveIsLater(w: World, ev: WorkEvent)
    requires Inv(w) && WorkEnabled(w, ev) && ev.SaveObservation?
    ensures Later(w, WorkEffect(w, ev))
  {
    hide Inv, Later;
    var worker := w.workers[ev.lease];
    WorkerFacts(w, ev.lease);
    ReactMoves(worker.seen, worker.exec, ev.seen);
    LaterUnderRow(w, WorkEffect(w, ev), worker.exec);
  }

  lemma WorkerRowIsLater(w: World, ev: WorkEvent)
    requires Inv(w) && WorkEnabled(w, ev)
    requires ev.ArmDeploy? || ev.ArmStart? || ev.FinishDeploy? || ev.FinishStart? || ev.Succeed?
    ensures Later(w, WorkEffect(w, ev))
  {
    hide Inv, Later, WorkEffect;
    WorkerFacts(w, ev.lease);
    if ev.ArmDeploy? || ev.ArmStart? {
      ArmingReplaces(w, ev);
    } else {
      AnswerReplaces(w, ev);
    }
    LaterUnderRow(w, WorkEffect(w, ev), w.workers[ev.lease].exec);
  }

  ghost predicate OneRow(w: World, v: World, e: Id) {
    RowReplaced(w, v, e) && v.now == w.now && v.leaseFor == w.leaseFor && RowFollows(w.execs[e], v.execs[e])
  }

  lemma ArmingReplaces(w: World, ev: WorkEvent)
    requires WorkEnabled(w, ev) && (ev.ArmDeploy? || ev.ArmStart?) && WorkerOk(w, ev.lease)
    ensures OneRow(w, WorkEffect(w, ev), w.workers[ev.lease].exec)
  {
  }

  lemma AnswerReplaces(w: World, ev: WorkEvent)
    requires WorkEnabled(w, ev) && (ev.FinishDeploy? || ev.FinishStart? || ev.Succeed?) && WorkerOk(w, ev.lease)
    ensures OneRow(w, WorkEffect(w, ev), w.workers[ev.lease].exec)
  {
  }

  lemma RequestIsLater(w: World, ev: RequestEvent)
    requires Inv(w) && RequestEnabled(w, ev)
    ensures Later(w, RequestEffect(w, ev))
  {
    hide Inv, Later, RequestEnabled, RequestEffect;
    if ev.AuthorizeCleanup? {
      AuthorizeIsLater(w, ev);
    } else if ev.LoadCleanup? || ev.CallDestroy? || ev.FinishCleanup? {
      AttemptIsLater(w, ev);
    } else {
      RowRequestIsLater(w, ev);
    }
  }

  lemma AuthorizeIsLater(w: World, ev: RequestEvent)
    requires Inv(w) && RequestEnabled(w, ev) && ev.AuthorizeCleanup?
    ensures Later(w, RequestEffect(w, ev))
  {
    hide Inv;
    ClaimFacts(w, ev.claim);
  }

  lemma AttemptIsLater(w: World, ev: RequestEvent)
    requires Inv(w) && RequestEnabled(w, ev) && (ev.LoadCleanup? || ev.CallDestroy? || ev.FinishCleanup?)
    ensures Later(w, RequestEffect(w, ev))
  {
    hide Inv, Later;
    AttemptFacts(w, ev.attempt);
    LaterUnderRow(w, RequestEffect(w, ev), w.cleaners[ev.attempt].exec);
  }

  lemma RowRequestIsLater(w: World, ev: RequestEvent)
    requires Inv(w) && RequestEnabled(w, ev)
    requires ev.Retry? || ev.MarkStoppedDeployment? || ev.RequestCleanup?
    ensures Later(w, RequestEffect(w, ev))
  {
    hide Inv, Later;
    LaterUnderRow(w, RequestEffect(w, ev), ev.exec);
  }

  lemma LaterAlone(w: World, elapsed: nat)
    requires Inv(w)
    ensures Later(w, w) && Later(w, w.(now := w.now + elapsed))
  {
    hide Inv;
    Issued(w);
  }

  lemma StepIsLater(w: World, ev: Event)
    requires Inv(w)
    ensures Later(w, Apply(w, ev))
  {
    hide Inv, Later, RegistryEnabled, RegistryEffect, WorkEnabled, WorkEffect, RequestEnabled, RequestEffect;
    LaterAlone(w, 0);
    if Enabled(w, ev) {
      match ev
      case Tick(elapsed) => LaterAlone(w, elapsed);
      case Registry(r) => RegistryIsLater(w, r);
      case Work(k) => WorkIsLater(w, k);
      case Request(q) => RequestIsLater(w, q);
    }
  }

  lemma {:induction false} RunIsLater(w: World, events: seq<Event>)
    requires Inv(w)
    ensures Inv(Run(w, events)) && Later(w, Run(w, events))
    decreases |events|
  {
    hide Inv, Later;
    RunKeepsInv(w, events);
    if events == [] {
      LaterAlone(w, 0);
    } else {
      var u := Run(w, events[..|events| - 1]);
      RunIsLater(w, events[..|events| - 1]);
      StepIsLater(u, events[|events| - 1]);
      LaterTransitive(w, u, Run(w, events));
    }
  }
}
