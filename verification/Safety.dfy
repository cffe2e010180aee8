/** Whole-run theorems of the adoption protocol. Runs are arbitrary event sequences, so
    they cover crashes, lease takeovers and any interleaving of the actors. */
module Safety {
  import opened Model
  import opened Protocol
  import opened Invariant
  import opened WorkInvariant
  import opened History

  // ------------------------------------------------------ calls are budgeted

  datatype Kind = DeployCall | Replan | StartCall | Restart | DestroyCall | CleanupEntry

  /** The event takes effect in `w` and is of kind `k` for execution `e`. */
  predicate Does(w: World, ev: Event, k: Kind, e: Id) {
    && Enabled(w, ev)
    && match k
       case DeployCall => ev.Work? && ev.work.CallDeploy? && w.workers[ev.work.lease].exec == e
       case StartCall => ev.Work? && ev.work.CallStart? && w.workers[ev.work.lease].exec == e
       case DestroyCall =>
         ev.Request? && ev.request.CallDestroy? && w.cleaners[ev.request.attempt].exec == e
       case Replan =>
         ev.Request? && ev.request.Retry? && ev.request.exec == e && ev.request.to == Planned
       case Restart =>
         && ev.Request? && ev.request.Retry? && ev.request.exec == e
         && ev.request.was == StartUnknown && ev.request.to == DeploySucceeded
       case CleanupEntry => ev.Request? && ev.request.RequestCleanup? && ev.request.exec == e
  }

  function Count(w: World, events: seq<Event>, k: Kind, e: Id): nat {
    if events == [] then 0
    else
      var before := events[..|events| - 1];
      Count(w, before, k, e) + Unspent(Does(Run(w, before), events[|events| - 1], k, e))
  }

  function Tally(l: Ledger, k: Kind): nat {
    match k
    case DeployCall => l.deployCalls
    case Replan => l.replans
    case StartCall => l.startCalls
    case Restart => l.restarts
    case DestroyCall => l.destroyCalls
    case CleanupEntry => l.cleanupEntries
  }

  lemma WorkTally(w: World, ev: WorkEvent, k: Kind, e: Id)
    requires WorkEnabled(w, ev) && w.ledgers.Keys == w.execs.Keys
    requires forall x :: x in w.execs ==> x in w.issued
    ensures Tally(LedgerOf(WorkEffect(w, ev), e), k)
         == Tally(LedgerOf(w, e), k) + Unspent(Does(w, Work(ev), k, e))
  {
    if ev.CreateExecution? {
      assert ev.exec !in w.ledgers;
    }
  }

  lemma RequestTally(w: World, ev: RequestEvent, k: Kind, e: Id)
    requires RequestEnabled(w, ev)
    ensures Tally(LedgerOf(RequestEffect(w, ev), e), k)
         == Tally(LedgerOf(w, e), k) + Unspent(Does(w, Request(ev), k, e))
  {
  }

  /** Registry transactions touch no execution and no call in flight. */
  lemma RegistryFrame(w: World, ev: RegistryEvent)
    requires RegistryEnabled(w, ev)
    ensures RegistryEffect(w, ev).ledgers == w.ledgers
    ensures RegistryEffect(w, ev).execs == w.execs
    ensures RegistryEffect(w, ev).workers == w.workers
    ensures RegistryEffect(w, ev).cleaners == w.cleaners
  {
  }

  lemma RequestFrame(w: World, ev: RequestEvent)
    requires RequestEnabled(w, ev)
    ensures RequestEffect(w, ev).workers == w.workers
  {
  }

  lemma LedgerKeys(w: World)
    requires Inv(w)
    ensures w.ledgers.Keys == w.execs.Keys
  {
  }

  lemma StepTally(w: World, ev: Event, k: Kind, e: Id)
    requires Inv(w)
    ensures Tally(LedgerOf(Apply(w, ev), e), k)
         == Tally(LedgerOf(w, e), k) + Unspent(Does(w, ev, k, e))
  {
    hide Inv, RegistryEnabled, RegistryEffect, WorkEnabled, WorkEffect, RequestEnabled, RequestEffect, Tally;
    Issued(w);
    LedgerKeys(w);
    if Enabled(w, ev) {
      match ev
      case Tick(_) =>
      case Registry(r) => RegistryFrame(w, r);
      case Work(x) => WorkTally(w, x, k, e);
      case Request(q) => RequestTally(w, q, k, e);
    }
  }

  /** The ledger is exactly what happened in the run. */
  lemma {:induction false} RunTally(w: World, events: seq<Event>, k: Kind, e: Id)
    requires Inv(w)
    ensures Tally(LedgerOf(Run(w, events), e), k) == Tally(LedgerOf(w, e), k) + Count(w, events, k, e)
    decreases |events|
  {
    hide Inv, Tally, Does, Apply;
    if events != [] {
      var before := events[..|events| - 1];
      RunTally(w, before, k, e);
      RunKeepsInv(w, before);
      StepTally(Run(w, before), events[|events| - 1], k, e);
    }
  }

  lemma TallyWithinBudget(w: World, e: Id)
    requires Inv(w)
    ensures var l := LedgerOf(w, e);
      && Tally(l, DeployCall) <= 1 + Tally(l, Replan)
      && Tally(l, StartCall) <= 1 + Tally(l, Restart)
      && Tally(l, DestroyCall) <= Tally(l, CleanupEntry)
  {
    hide Inv;
    LedgerKeys(w);
    if e in w.execs {
      RowFacts(w, e);
    }
  }

  /** However often workers crash and leases are taken over, one execution is deployed
      and started at most once more than an operator explicitly asked for, and destroyed
      at most as often as an operator asked for its cleanup. */
  lemma CallsWithinBudget(events: seq<Event>, e: Id)
    ensures Count(EMPTY_WORLD, events, DeployCall, e) <= 1 + Count(EMPTY_WORLD, events, Replan, e)
    ensures Count(EMPTY_WORLD, events, StartCall, e) <= 1 + Count(EMPTY_WORLD, events, Restart, e)
    ensures Count(EMPTY_WORLD, events, DestroyCall, e) <= Count(EMPTY_WORLD, events, CleanupEntry, e)
  {
    hide Inv, Tally, Count, LedgerOf;
    EmptyInv();
    RunKeepsInv(EMPTY_WORLD, events);
    TallyWithinBudget(Run(EMPTY_WORLD, events), e);
    TallyIsCount(events, DeployCall, e);
    TallyIsCount(events, Replan, e);
    TallyIsCount(events, StartCall, e);
    TallyIsCount(events, Restart, e);
    TallyIsCount(events, DestroyCall, e);
    TallyIsCount(events, CleanupEntry, e);
  }

  lemma TallyIsCount(events: seq<Event>, k: Kind, e: Id)
    ensures Tally(LedgerOf(Run(EMPTY_WORLD, events), e), k) == Count(EMPTY_WORLD, events, k, e)
  {
    EmptyInv();
    hide Inv, Run, Count;
    RunTally(EMPTY_WORLD, events, k, e);
  }

  // --------------------------------------------- bind and cleanup exclude each other

  /** The world just before event number `i` of the run. */
  function Before(w: World, events: seq<Event>, i: nat): World
    requires i <= |events|
  {
    Run(w, events[..i])
  }

  lemma MidRun(w: World, events: seq<Event>, i: nat)
    requires Inv(w) && i <= |events|
    ensures Inv(Before(w, events, i))
    ensures Later(w, Before(w, events, i)) && Later(Before(w, events, i), Run(w, events))
  {
    hide Inv, Later;
    RunIsLater(w, events[..i]);
    RunIsLater(Before(w, events, i), events[i..]);
    RunConcat(w, events[..i], events[i..]);
    assert events[..i] + events[i..] == events;
  }

  predicate Binds(w: World, ev: Event, c: Id) {
    Enabled(w, ev) && ev.Registry? && ev.registry.Bind? && ev.registry.claim == c
  }

  /** The event authorises the deletion of the claim's VM, or releases the claim after it. */
  predicate Deletes(w: World, ev: Event, c: Id) {
    && Enabled(w, ev)
    && (|| (ev.Request? && ev.request.AuthorizeCleanup? && ev.request.claim == c)
        || (ev.Work? && ev.work.ReleaseCleanup?
            && w.execs[w.workers[ev.work.lease].exec].claim == c))
  }

  lemma SameGeneration(w: World, events: seq<Event>, i: nat, c: Id)
    requires Inv(w) && i <= |events| && c in w.claims && c in Run(w, events).claims
    requires Run(w, events).claims[c].generation == w.claims[c].generation
    ensures var u := Before(w, events, i);
      && c in u.claims && u.claims[c].generation == w.claims[c].generation
      && Follows(w.claims[c], u.claims[c])
  {
    hide Inv;
    MidRun(w, events, i);
  }

  /** Once the VM of a claim may be deleted, no bind succeeds in that generation. */
  lemma CleanupExcludesBind(w: World, events: seq<Event>, c: Id)
    requires Inv(w) && c in w.claims && w.claims[c].state == CleaningUp
    requires c in Run(w, events).claims
      && Run(w, events).claims[c].generation == w.claims[c].generation
    ensures forall i :: 0 <= i < |events| ==> !Binds(Before(w, events, i), events[i], c)
    ensures Run(w, events).claims[c].state in {CleaningUp, Released}
    ensures Unbound(Run(w, events).claims[c])
  {
    hide Inv, Run;
    ClaimFacts(w, c);
    forall i | 0 <= i <= |events|
      ensures var u := Before(w, events, i);
        c in u.claims && u.claims[c].state in {CleaningUp, Released} && Unbound(u.claims[c])
    {
      SameGeneration(w, events, i, c);
    }
    assert Before(w, events, |events|) == Run(w, events) by {
      assert events[..|events|] == events;
    }
  }

  /** Once a claim is bound, neither deletion nor release-by-cleanup succeeds in that
      generation, and the binding itself never changes. */
  lemma BindExcludesCleanup(w: World, events: seq<Event>, c: Id)
    requires Inv(w) && c in w.claims && w.claims[c].vmRef.Some?
    requires c in Run(w, events).claims
      && Run(w, events).claims[c].generation == w.claims[c].generation
    ensures forall i :: 0 <= i < |events| ==> !Deletes(Before(w, events, i), events[i], c)
    ensures Run(w, events).claims[c].vmRef == w.claims[c].vmRef
    ensures Run(w, events).claims[c].state !in {Reserved, CleaningUp}
  {
    hide Inv, Run;
    forall i | 0 <= i <= |events|
      ensures var u := Before(w, events, i);
        && c in u.claims && u.claims[c].vmRef == w.claims[c].vmRef
        && u.claims[c].state !in {Reserved, CleaningUp}
    {
      SameGeneration(w, events, i, c);
      MidRun(w, events, i);
      ClaimFacts(Before(w, events, i), c);
    }
    assert Before(w, events, |events|) == Run(w, events) by {
      assert events[..|events|] == events;
    }
  }

  lemma Between(events: seq<Event>, i: nat, k: nat)
    requires i <= k <= |events|
    ensures Inv(Before(EMPTY_WORLD, events, i))
    ensures Later(Before(EMPTY_WORLD, events, i), Before(EMPTY_WORLD, events, k))
  {
    hide Inv, Later, Run;
    EmptyInv();
    MidRun(EMPTY_WORLD, events[..k], i);
    assert events[..k][..i] == events[..i];
  }

  lemma AfterEvent(events: seq<Event>, i: nat)
    requires i < |events|
    ensures Before(EMPTY_WORLD, events, i + 1) == Apply(Before(EMPTY_WORLD, events, i), events[i])
  {
    hide Apply;
    RunStep(EMPTY_WORLD, events[..i], events[i]);
    assert events[..i + 1] == events[..i] + [events[i]];
  }

  lemma BindSets(w: World, ev: Event, c: Id)
    requires Binds(w, ev, c)
    ensures c in w.claims && w.claims[c].state == Reserved
    ensures var v := Apply(w, ev);
      && c in v.claims && v.claims[c].generation == w.claims[c].generation && v.claims[c].vmRef.Some?
  {
  }

  lemma DeleteSets(w: World, ev: Event, c: Id)
    requires Deletes(w, ev, c)
    ensures c in w.claims && Unbound(w.claims[c])
    ensures var v := Apply(w, ev);
      && c in v.claims && v.claims[c].generation == w.claims[c].generation
      && v.claims[c].state in {CleaningUp, Released}
  {
  }

  /** Over every run: a bind and a deletion (or release) of the same claim never both
      succeed in one generation, whichever comes first. */
  lemma BindOrDelete(events: seq<Event>, c: Id, i: nat, j: nat)
    requires i < |events| && Binds(Before(EMPTY_WORLD, events, i), events[i], c)
    requires j < |events| && Deletes(Before(EMPTY_WORLD, events, j), events[j], c)
    ensures var w, v := Before(EMPTY_WORLD, events, i), Before(EMPTY_WORLD, events, j);
      c in w.claims && c in v.claims && w.claims[c].generation != v.claims[c].generation
  {
    hide Inv, Apply, Binds, Deletes, Before;
    var w, v := Before(EMPTY_WORLD, events, i), Before(EMPTY_WORLD, events, j);
    BindSets(w, events[i], c);
    DeleteSets(v, events[j], c);
    if i < j {
      AfterEvent(events, i);
      Between(events, i + 1, j);
    } else if j < i {
      AfterEvent(events, j);
      Between(events, j + 1, i);
    } else {
      NotBoth(w, events[i], c);
    }
  }

  lemma NotBoth(w: World, ev: Event, c: Id)
    ensures !(Binds(w, ev, c) && Deletes(w, ev, c))
  {
  }

  // ----------------------------------------------- once in every generation

  /** The turns a claim generation takes; a renewal is the turn that ends it. */
  datatype Turn = Binding | Promotion | Retirement | Finalization | Authorization | CleanRelease | Renewal

  /** The event takes effect in `w` and is this turn of claim `c`. */
  predicate Turns(w: World, ev: Event, t: Turn, c: Id) {
    && Enabled(w, ev)
    && match t
       case Binding => ev.Registry? && ev.registry.Bind? && ev.registry.claim == c
       case Promotion => ev.Registry? && ev.registry.Promote? && ev.registry.claim == c
       case Retirement => ev.Registry? && ev.registry.Retire? && ev.registry.claim == c
       case Finalization => ev.Registry? && ev.registry.FinalizeRetiring? && ev.registry.claim == c
       case Authorization => ev.Request? && ev.request.AuthorizeCleanup? && ev.request.claim == c
       case CleanRelease =>
         ev.Work? && ev.work.ReleaseCleanup? && w.execs[w.workers[ev.work.lease].exec].claim == c
       case Renewal =>
         ev.Registry? && (ev.registry.RefreshClaim? || ev.registry.ReReserve?) && ev.registry.claim == c
  }

  /** The turn has been taken in this generation, for good. */
  predicate Taken(t: Turn, generation: int, n: Claim) {
    || n.generation > generation
    || (t != Renewal && n.generation == generation
        && match t
           case Binding => n.state in {Bound, Managed, Operating, Retiring, Released}
           case Promotion => n.state in {Managed, Operating, Retiring, Released}
           case Retirement => n.state in {Retiring, Released}
           case Finalization => n.state == Released
           case Authorization => n.state in {CleaningUp, Released}
           case _ => n.state == Released)
  }

  lemma TurnTakes(w: World, ev: Event, t: Turn, c: Id)
    requires Turns(w, ev, t, c)
    ensures c in w.claims && c in Apply(w, ev).claims
    ensures !Taken(t, w.claims[c].generation, w.claims[c])
    ensures Taken(t, w.claims[c].generation, Apply(w, ev).claims[c])
  {
    hide RegistryEnabled, RegistryEffect, WorkEnabled, WorkEffect, RequestEnabled, RequestEffect, Taken;
    match ev
    case Registry(r) => RegistryTakes(w, r, t, c);
    case Work(k) => WorkTakes(w, k, t, c);
    case Request(q) => RequestTakes(w, q, t, c);
  }

  lemma RegistryTakes(w: World, r: RegistryEvent, t: Turn, c: Id)
    requires Turns(w, Registry(r), t, c)
    ensures c in w.claims && c in RegistryEffect(w, r).claims
    ensures !Taken(t, w.claims[c].generation, w.claims[c])
    ensures Taken(t, w.claims[c].generation, RegistryEffect(w, r).claims[c])
  {
  }

  lemma WorkTakes(w: World, k: WorkEvent, t: Turn, c: Id)
    requires Turns(w, Work(k), t, c)
    ensures c in w.claims && c in WorkEffect(w, k).claims
    ensures !Taken(t, w.claims[c].generation, w.claims[c])
    ensures Taken(t, w.claims[c].generation, WorkEffect(w, k).claims[c])
  {
  }

  lemma RequestTakes(w: World, q: RequestEvent, t: Turn, c: Id)
    requires Turns(w, Request(q), t, c)
    ensures c in w.claims && c in RequestEffect(w, q).claims
    ensures !Taken(t, w.claims[c].generation, w.claims[c])
    ensures Taken(t, w.claims[c].generation, RequestEffect(w, q).claims[c])
  {
  }

  lemma TakenStays(t: Turn, generation: int, o: Claim, n: Claim)
    requires Taken(t, generation, o) && Follows(o, n)
    ensures Taken(t, generation, n)
  {
  }

  /** Over every run, each turn of a claim is taken at most once in a generation, whoever
      takes it and however often it is tried: two that took effect are the same event. */
  lemma OncePerGeneration(events: seq<Event>, t: Turn, c: Id, i: nat, j: nat)
    requires i < |events| && Turns(Before(EMPTY_WORLD, events, i), events[i], t, c)
    requires j < |events| && Turns(Before(EMPTY_WORLD, events, j), events[j], t, c)
    ensures var w, v := Before(EMPTY_WORLD, events, i), Before(EMPTY_WORLD, events, j);
      && c in w.claims && c in v.claims
      && (w.claims[c].generation == v.claims[c].generation ==> i == j)
  {
    hide Inv, Apply, Turns, Taken, Before;
    TurnTakes(Before(EMPTY_WORLD, events, i), events[i], t, c);
    TurnTakes(Before(EMPTY_WORLD, events, j), events[j], t, c);
    if i < j {
      TakenBy(events, t, c, i, j);
    } else if j < i {
      TakenBy(events, t, c, j, i);
    }
  }

  lemma TakenBy(events: seq<Event>, t: Turn, c: Id, i: nat, j: nat)
    requires i < j < |events| && Turns(Before(EMPTY_WORLD, events, i), events[i], t, c)
    ensures var w, v := Before(EMPTY_WORLD, events, i), Before(EMPTY_WORLD, events, j);
      c in w.claims && c in v.claims && Taken(t, w.claims[c].generation, v.claims[c])
  {
    hide Inv, Apply, Turns, Taken, Before;
    var w, v := Before(EMPTY_WORLD, events, i), Before(EMPTY_WORLD, events, j);
    TurnTakes(w, events[i], t, c);
    AfterEvent(events, i);
    Between(events, i + 1, j);
    TakenStays(t, w.claims[c].generation, Apply(w, events[i]).claims[c], v.claims[c]);
  }

  predicate Creates(w: World, ev: Event, c: Id, generation: int) {
    Enabled(w, ev) && ev.Work? && ev.work.CreateExecution? && ev.work.claim == c && ev.work.generation == generation
  }

  lemma CreateFills(w: World, ev: Event, c: Id, generation: int)
    requires Creates(w, ev, c, generation)
    ensures FreeGeneration(w, c, generation) && !FreeGeneration(Apply(w, ev), c, generation)
  {
    assert ev.work.exec in Apply(w, ev).execs;
  }

  lemma FilledStays(w: World, v: World, c: Id, generation: int)
    requires Later(w, v) && FreeGeneration(v, c, generation)
    ensures FreeGeneration(w, c, generation)
  {
  }

  /** A claim generation gets one execution: two creations that took effect are the same. */
  lemma CreatedOnce(events: seq<Event>, c: Id, generation: int, i: nat, j: nat)
    requires i < |events| && Creates(Before(EMPTY_WORLD, events, i), events[i], c, generation)
    requires j < |events| && Creates(Before(EMPTY_WORLD, events, j), events[j], c, generation)
    ensures i == j
  {
    hide Inv, Apply, Creates, Before, FreeGeneration, Later;
    var first, last := if i < j then i else j, if i < j then j else i;
    CreateFills(Before(EMPTY_WORLD, events, i), events[i], c, generation);
    CreateFills(Before(EMPTY_WORLD, events, j), events[j], c, generation);
    if i != j {
      AfterEvent(events, first);
      Between(events, first + 1, last);
      FilledStays(Before(EMPTY_WORLD, events, first + 1), Before(EMPTY_WORLD, events, last), c, generation);
    }
  }

  // ------------------------------------------------------- who gets managed

  /** The event promotes the claim that execution `e` deployed. */
  predicate Promotes(w: World, ev: Event, e: Id) {
    Enabled(w, ev) && ev.Registry? && ev.registry.Promote? && ev.registry.vmRef == e
  }

  ghost predicate WasPromoted(w: World, events: seq<Event>, e: Id) {
    exists i | 0 <= i < |events| :: Promotes(Before(w, events, i), events[i], e)
  }

  predicate ManagedAs(w: World, c: Id, e: Id) {
    c in w.claims && w.claims[c].state in {Managed, Operating} && w.claims[c].vmRef == Some(e)
  }

  lemma ManagedByRegistry(w: World, r: RegistryEvent, c: Id, e: Id)
    requires Inv(w) && RegistryEnabled(w, r) && ManagedAs(RegistryEffect(w, r), c, e)
    ensures ManagedAs(w, c, e) || (r.Promote? && r.vmRef == e)
  {
    hide Inv;
    if c in w.claims {
      ClaimFacts(w, c);
    }
  }

  lemma ManagedByWork(w: World, k: WorkEvent, c: Id, e: Id)
    requires WorkEnabled(w, k) && ManagedAs(WorkEffect(w, k), c, e)
    ensures ManagedAs(w, c, e)
  {
    if !k.ReleaseCleanup? {
      assert WorkEffect(w, k).claims == w.claims;
    }
  }

  lemma ManagedByRequest(w: World, q: RequestEvent, c: Id, e: Id)
    requires RequestEnabled(w, q) && ManagedAs(RequestEffect(w, q), c, e)
    ensures ManagedAs(w, c, e)
  {
    if !q.AuthorizeCleanup? {
      assert RequestEffect(w, q).claims == w.claims;
    }
  }

  lemma SameClaims(w: World, v: World, c: Id, e: Id)
    requires v.claims == w.claims
    ensures ManagedAs(w, c, e) <==> ManagedAs(v, c, e)
  {
  }

  lemma ManagedStep(w: World, ev: Event, c: Id, e: Id)
    requires Inv(w) && ManagedAs(Apply(w, ev), c, e)
    ensures ManagedAs(w, c, e) || Promotes(w, ev, e)
  {
    hide Inv, RegistryEnabled, RegistryEffect, WorkEnabled, WorkEffect, RequestEnabled, RequestEffect, ManagedAs;
    if Enabled(w, ev) {
      match ev
      case Tick(_) => assert ManagedAs(w, c, e) by { SameClaims(w, Effect(w, ev), c, e); }
      case Registry(r) => ManagedByRegistry(w, r, c, e);
      case Work(k) => ManagedByWork(w, k, c, e);
      case Request(q) => ManagedByRequest(w, q, c, e);
    }
  }

  predicate PromotedWorker(w: World, l: Id, e: Id) {
    InPhase(w, l, WorkerPhase.Promoted) && w.workers[l].exec == e
  }

  lemma PromotedByWork(w: World, k: WorkEvent, l: Id, e: Id)
    requires Inv(w) && WorkEnabled(w, k) && PromotedWorker(WorkEffect(w, k), l, e)
    ensures PromotedWorker(w, l, e) || exists c :: ManagedAs(w, c, e)
  {
    hide Inv;
    if k.SeePromotion? && k.lease == l {
      ManagedIsOwn(w, l);
    }
  }

  /** A worker only believes in a promotion that happened to its own execution. */
  lemma PromotedWorkerStep(w: World, ev: Event, l: Id, e: Id)
    requires Inv(w) && PromotedWorker(Apply(w, ev), l, e)
    ensures PromotedWorker(w, l, e) || exists c :: ManagedAs(w, c, e)
  {
    hide Inv, RegistryEnabled, RegistryEffect, WorkEnabled, WorkEffect, RequestEnabled, RequestEffect, ManagedAs;
    if Enabled(w, ev) {
      match ev
      case Tick(_) =>
      case Registry(r) => RegistryFrame(w, r);
      case Work(k) => PromotedByWork(w, k, l, e);
      case Request(q) => RequestFrame(w, q);
    }
  }

  lemma ManagedIsOwn(w: World, l: Id)
    requires Inv(w) && l in w.workers
    requires At(w, w.workers[l].seen.claim, w.workers[l].seen.generation, Managed)
    ensures ManagedAs(w, w.workers[l].seen.claim, w.workers[l].exec)
  {
    assert WorkerOk(w, l) && BackedClaim(w, w.workers[l].seen.claim);
  }

  predicate SucceededAs(w: World, e: Id) {
    e in w.execs && w.execs[e].state == Succeeded
  }

  lemma SucceededByWork(w: World, k: WorkEvent, e: Id)
    requires Inv(w) && WorkEnabled(w, k) && SucceededAs(WorkEffect(w, k), e)
    ensures SucceededAs(w, e) || exists l :: PromotedWorker(w, l, e)
  {
    hide Inv;
    if k.SaveObservation? {
      var worker := w.workers[k.lease];
      ReactMoves(worker.seen, worker.exec, k.seen);
    } else if k.Succeed? {
      assert PromotedWorker(w, k.lease, w.workers[k.lease].exec);
    }
  }

  lemma SucceededByRequest(w: World, q: RequestEvent, e: Id)
    requires RequestEnabled(w, q) && SucceededAs(RequestEffect(w, q), e)
    ensures SucceededAs(w, e)
  {
  }

  lemma SucceededStep(w: World, ev: Event, e: Id)
    requires Inv(w) && SucceededAs(Apply(w, ev), e)
    ensures SucceededAs(w, e) || exists l :: PromotedWorker(w, l, e)
  {
    hide Inv, RegistryEnabled, RegistryEffect, WorkEnabled, WorkEffect, RequestEnabled, RequestEffect, PromotedWorker;
    if Enabled(w, ev) {
      match ev
      case Tick(_) =>
      case Registry(r) => RegistryFrame(w, r);
      case Work(k) => SucceededByWork(w, k, e);
      case Request(q) => SucceededByRequest(w, q, e);
    }
  }

  lemma EarlierPromotion(w: World, events: seq<Event>, e: Id)
    requires events != []
    requires WasPromoted(w, events[..|events| - 1], e)
      || Promotes(Before(w, events, |events| - 1), events[|events| - 1], e)
    ensures WasPromoted(w, events, e)
  {
    var before := events[..|events| - 1];
    if WasPromoted(w, before, e) {
      var i :| 0 <= i < |before| && Promotes(Before(w, before, i), before[i], e);
      assert before[..i] == events[..i];
      assert Promotes(Before(w, events, i), events[i], e);
    }
  }

  /** A claim is managed, a worker believes so, or an execution has succeeded, only
      after that very execution's claim was promoted under its live worker lease. */
  lemma {:induction false} PromotionFirst(events: seq<Event>)
    ensures var w := Run(EMPTY_WORLD, events);
      && (forall c, e :: ManagedAs(w, c, e) ==> WasPromoted(EMPTY_WORLD, events, e))
      && (forall l, e :: PromotedWorker(w, l, e) ==> WasPromoted(EMPTY_WORLD, events, e))
      && (forall e :: SucceededAs(w, e) ==> WasPromoted(EMPTY_WORLD, events, e))
    decreases |events|
  {
    hide Inv, Apply, ManagedAs, PromotedWorker, SucceededAs, WasPromoted, Promotes;
    if events == [] {
      assert forall c, e :: !ManagedAs(EMPTY_WORLD, c, e) by { NothingYet(); }
      assert forall l, e :: !PromotedWorker(EMPTY_WORLD, l, e) by { NothingYet(); }
      assert forall e :: !SucceededAs(EMPTY_WORLD, e) by { NothingYet(); }
    } else {
      var before := events[..|events| - 1];
      var last := events[|events| - 1];
      var u := Run(EMPTY_WORLD, before);
      EmptyInv();
      RunKeepsInv(EMPTY_WORLD, before);
      PromotionFirst(before);
      var w := Run(EMPTY_WORLD, events);
      forall c, e | ManagedAs(w, c, e) ensures WasPromoted(EMPTY_WORLD, events, e) {
        ManagedStep(u, last, c, e);
        EarlierPromotion(EMPTY_WORLD, events, e);
      }
      forall l, e | PromotedWorker(w, l, e) ensures WasPromoted(EMPTY_WORLD, events, e) {
        PromotedWorkerStep(u, last, l, e);
        EarlierPromotion(EMPTY_WORLD, events, e);
      }
      forall e | SucceededAs(w, e) ensures WasPromoted(EMPTY_WORLD, events, e) {
        SucceededStep(u, last, e);
        EarlierPromotion(EMPTY_WORLD, events, e);
      }
    }
  }

  lemma NothingYet()
    ensures forall c, e :: !ManagedAs(EMPTY_WORLD, c, e)
    ensures forall l, e :: !PromotedWorker(EMPTY_WORLD, l, e)
    ensures forall e :: !SucceededAs(EMPTY_WORLD, e)
  {
  }
}
