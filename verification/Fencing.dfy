/** Fences: operation leases against retirement, generations against stale callers, and
    what a rollback is worth. */
module Fencing {
  import opened Model
  import opened WorkerStep
  import opened Protocol
  import opened Invariant
  import opened WorkInvariant
  import opened History
  import opened Safety

  // ----------------------------------------------------- operation leases

  /** Claim `c` is fenced by the lease row `l`, which has not run out. */
  predicate FencedBy(w: World, c: Id, l: Id) {
    && c in w.claims && w.claims[c].state == Operating && w.claims[c].fence == Some(l)
    && l in w.leases && w.leases[l].claim == c && w.leases[l].expiresAt > w.now
  }

  predicate Completes(w: World, ev: Event, c: Id, l: Id) {
    && c in w.claims && Enabled(w, ev)
    && ev == Registry(CompleteOperation(c, w.claims[c].generation, l))
  }

  lemma FenceOwner(w: World, l: Id)
    requires Inv(w)
    ensures forall k :: k in w.claims && w.claims[k].fence == Some(l) ==>
      l in w.leases && w.leases[l].claim == k
  {
  }

  lemma RegistryElsewhere(w: World, r: RegistryEvent, c: Id)
    requires RegistryEnabled(w, r) && r.claim != c && c in w.claims
    ensures var v := RegistryEffect(w, r);
      && v.now == w.now && c in v.claims && v.claims[c] == w.claims[c]
      && (forall l :: l in w.leases && l !in v.leases ==>
            r.claim in w.claims && w.claims[r.claim].fence == Some(l))
      && (forall l :: l in w.leases && l in w.issued && l in v.leases ==> v.leases[l] == w.leases[l])
  {
  }

  lemma FenceBlocks(w: World, r: RegistryEvent, c: Id, l: Id)
    requires FencedBy(w, c, l) && r.claim == c && c in w.issued
    requires r != CompleteOperation(c, w.claims[c].generation, l)
    ensures !RegistryEnabled(w, r)
  {
  }

  lemma RegistryKeepsFence(w: World, r: RegistryEvent, c: Id, l: Id)
    requires Inv(w) && RegistryEnabled(w, r) && FencedBy(w, c, l)
    requires r != CompleteOperation(c, w.claims[c].generation, l)
    ensures var v := RegistryEffect(w, r);
      FencedBy(v, c, l) && v.claims[c] == w.claims[c] && v.leases[l] == w.leases[l]
  {
    hide Inv, RegistryEnabled, RegistryEffect;
    Issued(w);
    FenceOwner(w, l);
    if r.claim == c {
      FenceBlocks(w, r, c, l);
    } else {
      RegistryElsewhere(w, r, c);
    }
  }

  lemma WorkKeepsFence(w: World, k: WorkEvent, c: Id, l: Id)
    requires WorkEnabled(w, k) && FencedBy(w, c, l)
    ensures var v := WorkEffect(w, k);
      FencedBy(v, c, l) && v.claims[c] == w.claims[c] && v.leases[l] == w.leases[l]
  {
    if !k.ReleaseCleanup? {
      assert WorkEffect(w, k).claims == w.claims;
    }
  }

  lemma RequestKeepsFence(w: World, q: RequestEvent, c: Id, l: Id)
    requires RequestEnabled(w, q) && FencedBy(w, c, l)
    ensures var v := RequestEffect(w, q);
      FencedBy(v, c, l) && v.claims[c] == w.claims[c] && v.leases[l] == w.leases[l]
  {
    if !q.AuthorizeCleanup? {
      assert RequestEffect(w, q).claims == w.claims;
    }
  }

  lemma StepKeepsFence(w: World, ev: Event, c: Id, l: Id)
    requires Inv(w) && FencedBy(w, c, l) && !Completes(w, ev, c, l)
    requires w.leases[l].expiresAt > Apply(w, ev).now
    ensures var v := Apply(w, ev);
      FencedBy(v, c, l) && v.claims[c] == w.claims[c] && v.leases[l] == w.leases[l]
  {
    hide Inv, RegistryEnabled, RegistryEffect, WorkEnabled, WorkEffect, RequestEnabled, RequestEffect;
    if Enabled(w, ev) {
      match ev
      case Tick(_) =>
      case Registry(r) => RegistryKeepsFence(w, r, c, l);
      case Work(k) => WorkKeepsFence(w, k, c, l);
      case Request(q) => RequestKeepsFence(w, q, c, l);
    }
  }

  /** From its grant until it completes or runs out, an operation lease keeps the claim
      exactly as it is, in particular not retired and not leased again. */
  lemma {:induction false} LeaseHoldsClaim(w: World, events: seq<Event>, c: Id, l: Id)
    requires Inv(w) && FencedBy(w, c, l)
    requires w.leases[l].expiresAt > Run(w, events).now
    requires forall i :: 0 <= i < |events| ==> !Completes(Before(w, events, i), events[i], c, l)
    ensures var v := Run(w, events);
      FencedBy(v, c, l) && v.claims[c] == w.claims[c] && v.leases[l] == w.leases[l]
    decreases |events|
  {
    hide Inv, Later, Completes, Apply;
    if events != [] {
      var n := |events| - 1;
      var before := events[..n];
      var u := Run(w, before);
      RunIsLater(w, before);
      ClockRuns(u, events[n]);
      forall i | 0 <= i < n ensures !Completes(Before(w, before, i), before[i], c, l) {
        assert before[..i] == events[..i];
      }
      LeaseHoldsClaim(w, before, c, l);
      assert Before(w, events, n) == u;
      StepKeepsFence(u, events[n], c, l);
    }
  }

  lemma ClockRuns(w: World, ev: Event)
    requires Inv(w)
    ensures w.now <= Apply(w, ev).now
  {
    hide Inv;
    StepIsLater(w, ev);
  }

  predicate GrantsOrRetires(w: World, ev: Event, c: Id) {
    && Enabled(w, ev) && ev.Registry?
    && (ev.registry.GrantOperation? || ev.registry.Retire? || ev.registry.RecoverOperation?)
    && ev.registry.claim == c
  }

  /** So no second grant, no recovery and no retirement gets through meanwhile. */
  lemma NoSecondGrant(w: World, ev: Event, c: Id, l: Id)
    requires Inv(w) && FencedBy(w, c, l)
    ensures !GrantsOrRetires(w, ev, c)
  {
    hide Inv, RegistryEnabled;
    Issued(w);
    if ev.Registry? && ev.registry.claim == c
       && ev.registry != CompleteOperation(c, w.claims[c].generation, l) {
      FenceBlocks(w, ev.registry, c, l);
    }
  }

  lemma GrantSets(w: World, ev: RegistryEvent)
    requires ev.GrantOperation? && Enabled(w, Registry(ev))
    ensures var v := Apply(w, Registry(ev));
      && ev.lease in v.leases && v.leases[ev.lease].claim == ev.claim
      && ev.claim in v.claims && v.claims[ev.claim].state == Operating
      && v.claims[ev.claim].fence == Some(ev.lease)
  {
  }

  lemma BeforeShifts(events: seq<Event>, i: nat, j: nat, k: nat)
    requires i <= j <= |events| && k <= j - i
    ensures Before(Before(EMPTY_WORLD, events, i), events[i..j], k) == Before(EMPTY_WORLD, events, i + k)
  {
    hide Run;
    RunConcat(EMPTY_WORLD, events[..i], events[i..j][..k]);
    assert events[..i] + events[i..j][..k] == events[..i + k];
  }

  /** Over every run: after a grant the next grant, recovery or retirement of the claim
      comes only once that lease has been completed or has run out. */
  lemma GrantsTakeTurns(events: seq<Event>, grant: RegistryEvent, i: nat, j: nat)
    requires i < j < |events| && events[i] == Registry(grant) && grant.GrantOperation?
    requires Enabled(Before(EMPTY_WORLD, events, i), events[i])
    requires GrantsOrRetires(Before(EMPTY_WORLD, events, j), events[j], grant.claim)
    ensures grant.lease in Before(EMPTY_WORLD, events, i + 1).leases
    ensures
      || (exists k :: i < k < j && Completes(Before(EMPTY_WORLD, events, k), events[k], grant.claim, grant.lease))
      || Before(EMPTY_WORLD, events, i + 1).leases[grant.lease].expiresAt <= Before(EMPTY_WORLD, events, j).now
  {
    hide Inv, Apply, Enabled, Completes, GrantsOrRetires, Before, Later;
    var c, l := grant.claim, grant.lease;
    var w, v := Before(EMPTY_WORLD, events, i + 1), Before(EMPTY_WORLD, events, j);
    AfterEvent(events, i);
    GrantSets(Before(EMPTY_WORLD, events, i), grant);
    Between(events, i + 1, j);
    Between(events, j, j);
    ClockBetween(w, v);
    var rest := events[i + 1..j];
    if w.leases[l].expiresAt > v.now
       && forall k :: i < k < j ==> !Completes(Before(EMPTY_WORLD, events, k), events[k], c, l) {
      forall k | 0 <= k < |rest| ensures !Completes(Before(w, rest, k), rest[k], c, l) {
        BeforeShifts(events, i + 1, j, k);
      }
      BeforeShifts(events, i + 1, j, |rest|);
      RunsWhole(w, rest);
      LeaseHoldsClaim(w, rest, c, l);
      NoSecondGrant(v, events[j], c, l);
      assert false;
    }
  }

  lemma RunsWhole(w: World, events: seq<Event>)
    ensures Before(w, events, |events|) == Run(w, events)
  {
    assert events[..|events|] == events;
  }

  lemma ClockBetween(w: World, v: World)
    requires Later(w, v)
    ensures w.now <= v.now
  {
  }

  /** A lease row that is gone never comes back, so completing it late clears nothing. */
  lemma LateCompletionIgnored(w: World, events: seq<Event>, c: Id, generation: int, l: Id)
    requires Inv(w) && l in w.issued && l !in w.leases
    ensures var v := Run(w, events);
      l !in v.leases && Apply(v, Registry(CompleteOperation(c, generation, l))) == v
  {
    RunIsLater(w, events);
    hide Run;
    FenceOwner(Run(w, events), l);
    hide Inv;
  }

  // ----------------------------------------------------------- generations

  predicate Renews(w: World, ev: Event, c: Id) {
    && Enabled(w, ev) && ev.Registry?
    && (ev.registry.RefreshClaim? || ev.registry.ReReserve?)
    && ev.registry.claim == c
  }

  function Renewals(w: World, events: seq<Event>, c: Id): nat {
    if events == [] then 0
    else
      var before := events[..|events| - 1];
      Renewals(w, before, c) + Unspent(Renews(Run(w, before), events[|events| - 1], c))
  }

  lemma GenerationStep(w: World, ev: Event, c: Id)
    requires Inv(w) && c in w.claims
    ensures var v := Apply(w, ev);
      c in v.claims && v.claims[c].generation == w.claims[c].generation + Unspent(Renews(w, ev, c))
  {
    hide Inv, RegistryEnabled, RegistryEffect, WorkEnabled, WorkEffect, RequestEnabled, RequestEffect;
    Issued(w);
    if Enabled(w, ev) {
      match ev
      case Tick(_) =>
      case Registry(r) => RegistryGeneration(w, r, c);
      case Work(k) => WorkKeepsGenerations(w, k, c);
      case Request(q) => RequestKeepsGenerations(w, q, c);
    }
  }

  lemma RegistryGeneration(w: World, r: RegistryEvent, c: Id)
    requires RegistryEnabled(w, r) && c in w.claims && c in w.issued
    ensures var v := RegistryEffect(w, r);
      && c in v.claims
      && v.claims[c].generation == w.claims[c].generation + Unspent(Renews(w, Registry(r), c))
  {
  }

  lemma WorkKeepsGenerations(w: World, k: WorkEvent, c: Id)
    requires WorkEnabled(w, k) && c in w.claims
    ensures var v := WorkEffect(w, k);
      c in v.claims && v.claims[c].generation == w.claims[c].generation
  {
  }

  lemma RequestKeepsGenerations(w: World, q: RequestEvent, c: Id)
    requires RequestEnabled(w, q) && c in w.claims
    ensures var v := RequestEffect(w, q);
      c in v.claims && v.claims[c].generation == w.claims[c].generation
  {
  }

  /** A generation counts the refreshes and re-reservations of the claim, nothing else. */
  lemma {:induction false} GenerationCountsRenewals(w: World, events: seq<Event>, c: Id)
    requires Inv(w) && c in w.claims
    ensures var v := Run(w, events);
      c in v.claims && v.claims[c].generation == w.claims[c].generation + Renewals(w, events, c)
    decreases |events|
  {
    hide Inv, Apply, Renews;
    if events != [] {
      var before := events[..|events| - 1];
      GenerationCountsRenewals(w, before, c);
      RunKeepsInv(w, before);
      GenerationStep(Run(w, before), events[|events| - 1], c);
    }
  }

  // -------------------------------------------------------------- rollback

  predicate CleanerInFlight(w: World, e: Id) {
    exists a :: a in w.cleaners && w.cleaners[a].exec == e
  }

  predicate RolledBackIdle(w: World, e: Id) {
    e in w.execs && w.execs[e].state == RolledBack && !CleanerInFlight(w, e)
  }

  lemma WorkKeepsRollback(w: World, k: WorkEvent, e: Id)
    requires WorkEnabled(w, k) && RolledBackIdle(w, e) && w.execs[e].lease.None? && e in w.issued
    ensures RolledBackIdle(WorkEffect(w, k), e)
  {
    assert WorkEffect(w, k).cleaners == w.cleaners;
  }

  lemma RequestKeepsRollback(w: World, q: RequestEvent, e: Id)
    requires RequestEnabled(w, q) && RolledBackIdle(w, e)
    ensures RolledBackIdle(RequestEffect(w, q), e)
  {
    var v := RequestEffect(w, q);
    forall a | a in v.cleaners ensures v.cleaners[a].exec != e {}
  }

  lemma StepKeepsRollback(w: World, ev: Event, e: Id)
    requires Inv(w) && RolledBackIdle(w, e)
    ensures RolledBackIdle(Apply(w, ev), e)
  {
    hide Inv, RegistryEnabled, RegistryEffect, WorkEnabled, WorkEffect, RequestEnabled, RequestEffect;
    RowFacts(w, e);
    if Enabled(w, ev) {
      match ev
      case Tick(_) =>
      case Registry(r) => RegistryFrame(w, r);
      case Work(k) => WorkKeepsRollback(w, k, e);
      case Request(q) => RequestKeepsRollback(w, q, e);
    }
  }

  lemma {:induction false} IdleRollbackStays(w: World, events: seq<Event>, e: Id)
    requires Inv(w) && RolledBackIdle(w, e)
    ensures RolledBackIdle(Run(w, events), e)
    decreases |events|
  {
    hide Inv, Apply;
    if events != [] {
      var before := events[..|events| - 1];
      IdleRollbackStays(w, before, e);
      RunKeepsInv(w, before);
      StepKeepsRollback(Run(w, before), events[|events| - 1], e);
    }
  }

  predicate LeavesRollback(w: World, events: seq<Event>, e: Id) {
    e in Run(w, events).execs && Run(w, events).execs[e].state != RolledBack
  }

  lemma FinishWrites(w: World, a: Id, e: Id, reply: Reply)
    requires e in w.execs && a in w.cleaners && w.cleaners[a].exec == e
    requires w.cleaners[a].phase.DestroyCalled?
    requires AfterDestroy(w.cleaners[a].phase.seen, reply).state != w.cleaners[a].phase.seen.state
    ensures var v := Apply(w, Request(FinishCleanup(a, reply)));
      e in v.execs && v.execs[e].state in {CleanupSubmitting, CleanupSubmitted}
  {
  }

  /** The write after the destroy call is unconditional: whatever the row has become,
      one of the two replies of a finishing attempt moves it. */
  lemma FinishLeavesRollback(w: World, a: Id, e: Id)
    requires e in w.execs && a in w.cleaners && w.cleaners[a].exec == e
    requires w.cleaners[a].phase.DestroyCalled?
    ensures exists reply :: LeavesRollback(w, [Request(FinishCleanup(a, reply))], e)
  {
    hide Apply;
    var reply := if w.cleaners[a].phase.seen.state == CleanupSubmitted
                 then NoReply(CleanupSubmissionUnknown) else Job("job");
    var ev := Request(FinishCleanup(a, reply));
    FinishWrites(w, a, e, reply);
    RunStep(w, [], ev);
    assert [] + [ev] == [ev];
    assert LeavesRollback(w, [ev], e);
  }

  /** Every cleanup attempt in flight can be brought to that last write. */
  lemma AttemptReachesWrite(w: World, a: Id) returns (events: seq<Event>)
    requires a in w.cleaners && w.cleaners[a].exec in w.execs
    ensures Overwriting(w, Run(w, events), a)
  {
    hide Apply, Run;
    var load, call := Request(LoadCleanup(a)), Request(CallDestroy(a));
    RunNothing(w);
    RunStep(w, [], load);
    RunStep(w, [load], call);
    RunStep(w, [], call);
    assert [] + [load] == [load] && [] + [call] == [call];
    match w.cleaners[a].phase
    case CleanupWon =>
      LoadsAttempt(w, a);
      CallsAttempt(Apply(w, load), a);
      events := [load] + [call];
    case CleanupLoaded(_) =>
      CallsAttempt(w, a);
      events := [call];
    case DestroyCalled(_) => events := [];
  }

  /** The attempt is about to write its answer, and no row has changed so far. */
  predicate Overwriting(w: World, v: World, a: Id) {
    && v.execs == w.execs && a in w.cleaners && a in v.cleaners
    && v.cleaners[a].exec == w.cleaners[a].exec && v.cleaners[a].phase.DestroyCalled?
  }

  lemma RunNothing(w: World)
    ensures Run(w, []) == w
  {
  }

  lemma LoadsAttempt(w: World, a: Id)
    requires a in w.cleaners && w.cleaners[a].exec in w.execs && w.cleaners[a].phase.CleanupWon?
    ensures var v := Apply(w, Request(LoadCleanup(a)));
      && v.execs == w.execs && a in v.cleaners && v.cleaners[a].exec == w.cleaners[a].exec
      && v.cleaners[a].phase.CleanupLoaded?
  {
  }

  lemma CallsAttempt(w: World, a: Id)
    requires a in w.cleaners && w.cleaners[a].exec in w.execs && w.cleaners[a].phase.CleanupLoaded?
    ensures Overwriting(w, Apply(w, Request(CallDestroy(a))), a)
  {
  }

  /** `rolled_back` is final exactly when no cleanup call for the execution is still in
      flight: such a call may come back later and overwrite it. */
  lemma RollbackFinalIff(w: World, e: Id)
    requires Inv(w) && e in w.execs && w.execs[e].state == RolledBack
    ensures (forall events :: !LeavesRollback(w, events, e)) <==> !CleanerInFlight(w, e)
  {
    hide Inv, Run;
    if CleanerInFlight(w, e) {
      var a :| a in w.cleaners && w.cleaners[a].exec == e;
      var events := AttemptReachesWrite(w, a);
      var v := Run(w, events);
      FinishLeavesRollback(v, a, e);
      var reply :| LeavesRollback(v, [Request(FinishCleanup(a, reply))], e);
      RunConcat(w, events, [Request(FinishCleanup(a, reply))]);
      assert LeavesRollback(w, events + [Request(FinishCleanup(a, reply))], e);
    } else {
      forall events ensures !LeavesRollback(w, events, e) {
        IdleRollbackStays(w, events, e);
      }
    }
  }

  // ------------------------------------------------- the state of the tables

  /** The invariant, read column by column in every reachable world. */
  lemma ReachableTables(events: seq<Event>)
    ensures var w := Run(EMPTY_WORLD, events);
      && (forall c :: c in w.claims ==>
            && (w.claims[c].state in {Reserved, CleaningUp} ==> Unbound(w.claims[c]))
            && (w.claims[c].state == Operating <==> w.claims[c].fence.Some?)
            && (w.claims[c].fence.Some? <==> exists l :: l in w.leases && w.leases[l].claim == c)
            && (forall l :: l in w.leases && w.leases[l].claim == c ==>
                  w.claims[c].fence == Some(l) && w.leases[l].generation == w.claims[c].generation))
      && (forall a, b :: a in w.claims && b in w.claims && a != b ==>
            && !(w.claims[a].guest.cluster == w.claims[b].guest.cluster
                 && w.claims[a].guest.vmid == w.claims[b].guest.vmid)
            && !(w.claims[a].vmRef.Some? && w.claims[a].vmRef == w.claims[b].vmRef))
  {
    EmptyInv();
    RunKeepsInv(EMPTY_WORLD, events);
    var w := Run(EMPTY_WORLD, events);
    assert Claims(w) && Distinct(w) && Fenced(w);
    hide Inv, Run;
    forall c | c in w.claims && w.claims[c].fence.Some?
      ensures exists l :: l in w.leases && w.leases[l].claim == c
    {
      assert w.claims[c].fence.value in w.leases;
    }
    forall a, b | a in w.claims && b in w.claims && a != b
      ensures !Conflicting(w.claims[a], w.claims[b])
    {
    }
  }

  lemma OwnershipFacts(w: World, c: Id)
    requires Inv(w) && c in w.claims
    ensures BackedClaim(w, c)
    ensures forall d, e :: Serves(w, d, c) && Serves(w, e, c) ==> d == e
    ensures w.claims[c].state == CleaningUp ==> exists e :: CleanedBy(w, e, c)
  {
  }

  /** A managed identity has exactly one execution in its generation: the one it is named
      after, which is verifying or has succeeded. A claim set aside for deletion has
      exactly one too, and that one is being cleaned up. */
  ghost predicate Owned(w: World, c: Id)
    requires c in w.claims
  {
    && (w.claims[c].state in {Managed, Operating} ==>
          && w.claims[c].vmRef.Some? && w.claims[c].vmRef.value in w.execs
          && w.execs[w.claims[c].vmRef.value].state in {Verifying, Succeeded}
          && (forall e :: Serves(w, e, c) <==> e == w.claims[c].vmRef.value))
    && (w.claims[c].state == CleaningUp ==>
          exists d :: CleanedBy(w, d, c) && (forall e :: Serves(w, e, c) <==> e == d))
  }

  lemma OwnedByInv(w: World, c: Id)
    requires Inv(w) && c in w.claims
    ensures Owned(w, c)
  {
    hide Inv;
    OwnershipFacts(w, c);
    if w.claims[c].state == CleaningUp {
      var d :| CleanedBy(w, d, c);
      assert forall e :: Serves(w, e, c) <==> e == d;
    }
  }

  lemma ReachableOwnership(events: seq<Event>, c: Id)
    requires c in Run(EMPTY_WORLD, events).claims
    ensures Owned(Run(EMPTY_WORLD, events), c)
  {
    hide Inv, Run, Owned;
    EmptyInv();
    RunKeepsInv(EMPTY_WORLD, events);
    OwnedByInv(Run(EMPTY_WORLD, events), c);
  }
}
