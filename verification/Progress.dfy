/** Executions only move forward: a potential that every transaction of every actor pays
    from, and that nothing but an operator's explicit retry fills up again. */
module Progress {
  import opened Model
  import opened WorkerStep
  import opened Protocol
  import opened Invariant
  import opened WorkInvariant
  import opened History
  import opened Safety

  /** How many changes of state are still ahead of a row nobody retries. */
  function Rank(s: ExecState): nat {
    match s
    case Planned => 10
    case DeploySubmitting => 9
    case DeploySubmitted => 8
    case SubmissionUnknown => 7
    case DeploySucceeded => 6
    case StartSubmitting => 5
    case StartSubmitted => 4
    case StartUnknown => 3
    case Verifying => 2
    case CleanupRequired => 1
    case CleanupSubmitting => 1
    case CleanupAuthorized => 1
    case CleanupSubmitted => 1
    case RolledBack => 1
    case Succeeded => 0
    case Failed => 0
  }

  /** An execution that does not exist yet has everything ahead. */
  function Ahead(w: World, e: Id): nat {
    if e in w.execs then Rank(w.execs[e].state) else Rank(Planned)
  }

  /** The state stays as it is, or moves around within a cleanup. */
  predicate Idles(o: ExecState, n: ExecState) {
    o == n || (GivenUp(o) && GivenUp(n))
  }

  predicate Descends(o: ExecState, n: ExecState) {
    Idles(o, n) || Rank(n) < Rank(o)
  }

  predicate Moves(w: World, ev: Event, e: Id) {
    && e in w.execs && e in Apply(w, ev).execs
    && !Idles(w.execs[e].state, Apply(w, ev).execs[e].state)
  }

  function CountMoves(w: World, events: seq<Event>, e: Id): nat {
    if events == [] then 0
    else
      var before := events[..|events| - 1];
      CountMoves(w, before, e) + Unspent(Moves(Run(w, before), events[|events| - 1], e))
  }

  /** An operator puts the execution back to `planned` or `deploy_succeeded`. */
  predicate Rewinds(w: World, ev: Event, e: Id) {
    Does(w, ev, Replan, e) || Does(w, ev, Restart, e)
  }

  function CountRewinds(w: World, events: seq<Event>, e: Id): nat {
    Count(w, events, Replan, e) + Count(w, events, Restart, e)
  }

  lemma ReactDescends(row: Execution, id: Id, seen: Observation)
    requires React(row, id, seen).Save?
    ensures Descends(row.state, React(row, id, seen).row.state)
  {
  }

  lemma FlushDescends(row: Execution, loaded: Execution, wanted: Execution)
    requires Idles(loaded.state, row.state) && Descends(loaded.state, wanted.state)
    ensures Descends(row.state, Flush(row, loaded, wanted).state)
  {
  }

  ghost predicate Gentle(w: World, v: World, e: Id) {
    e in w.execs ==> e in v.execs && Descends(w.execs[e].state, v.execs[e].state)
  }

  lemma SaveDescends(w: World, k: WorkEvent, e: Id)
    requires Inv(w) && WorkEnabled(w, k) && k.SaveObservation?
    ensures Gentle(w, WorkEffect(w, k), e)
  {
    hide Inv;
    var worker := w.workers[k.lease];
    WorkerFacts(w, k.lease);
    ReactDescends(worker.seen, worker.exec, k.seen);
    FlushDescends(w.execs[worker.exec], worker.seen, Reacts(w, k.lease, k.seen).row);
  }

  lemma CallDescends(w: World, k: WorkEvent, e: Id)
    requires Inv(w) && WorkEnabled(w, k)
    requires k.ArmDeploy? || k.FinishDeploy? || k.ArmStart? || k.FinishStart? || k.Succeed?
    ensures Gentle(w, WorkEffect(w, k), e)
  {
    hide Inv, WorkEffect;
    WorkerFacts(w, k.lease);
    if k.ArmDeploy? || k.ArmStart? {
      ArmDescends(w, k, e);
    } else {
      AnswerDescends(w, k, e);
    }
  }

  lemma ArmDescends(w: World, k: WorkEvent, e: Id)
    requires WorkEnabled(w, k) && (k.ArmDeploy? || k.ArmStart?) && WorkerOk(w, k.lease)
    ensures Gentle(w, WorkEffect(w, k), e)
  {
  }

  lemma AnswerDescends(w: World, k: WorkEvent, e: Id)
    requires WorkEnabled(w, k) && (k.FinishDeploy? || k.FinishStart? || k.Succeed?) && WorkerOk(w, k.lease)
    ensures Gentle(w, WorkEffect(w, k), e)
  {
  }

  lemma WorkDescends(w: World, k: WorkEvent, e: Id)
    requires Inv(w) && WorkEnabled(w, k)
    ensures Gentle(w, WorkEffect(w, k), e)
    ensures e !in w.execs && e in WorkEffect(w, k).execs ==> WorkEffect(w, k).execs[e].state == Planned
  {
    hide Inv;
    Issued(w);
    if k.SaveObservation? {
      SaveDescends(w, k, e);
    } else if k.ArmDeploy? || k.FinishDeploy? || k.ArmStart? || k.FinishStart? || k.Succeed? {
      CallDescends(w, k, e);
    }
  }

  lemma RequestDescends(w: World, q: RequestEvent, e: Id)
    requires Inv(w) && RequestEnabled(w, q)
    ensures RequestEffect(w, q).execs.Keys == w.execs.Keys
    ensures e in w.execs ==>
      if Rewinds(w, Request(q), e) then RequestEffect(w, q).execs[e].state in {Planned, DeploySucceeded}
        && Rank(RequestEffect(w, q).execs[e].state) == Rank(w.execs[e].state) + 3
      else Descends(w.execs[e].state, RequestEffect(w, q).execs[e].state)
  {
    hide Inv, RequestEffect, Does, Descends, Rank, GivenUp;
    if q.LoadCleanup? || q.CallDestroy? || q.FinishCleanup? {
      AttemptFacts(w, q.attempt);
      AttemptDescends(w, q, e);
    } else {
      OperatorDescends(w, q, e);
    }
  }

  lemma AttemptDescends(w: World, q: RequestEvent, e: Id)
    requires RequestEnabled(w, q) && (q.LoadCleanup? || q.CallDestroy? || q.FinishCleanup?)
    requires GivenUp(w.execs[w.cleaners[q.attempt].exec].state)
    ensures RequestEffect(w, q).execs.Keys == w.execs.Keys && !Rewinds(w, Request(q), e)
    ensures e in w.execs ==> Descends(w.execs[e].state, RequestEffect(w, q).execs[e].state)
  {
  }

  lemma OperatorDescends(w: World, q: RequestEvent, e: Id)
    requires RequestEnabled(w, q) && !q.LoadCleanup? && !q.CallDestroy? && !q.FinishCleanup?
    ensures RequestEffect(w, q).execs.Keys == w.execs.Keys
    ensures e in w.execs ==>
      if Rewinds(w, Request(q), e) then RequestEffect(w, q).execs[e].state in {Planned, DeploySucceeded}
        && Rank(RequestEffect(w, q).execs[e].state) == Rank(w.execs[e].state) + 3
      else Descends(w.execs[e].state, RequestEffect(w, q).execs[e].state)
  {
  }

  /** Each change of state uses up rank; a rewind, itself a change, adds three. */
  lemma StepPays(w: World, ev: Event, e: Id)
    requires Inv(w)
    ensures Unspent(Moves(w, ev, e)) + Ahead(Apply(w, ev), e)
         <= Ahead(w, e) + 4 * (Unspent(Does(w, ev, Replan, e)) + Unspent(Does(w, ev, Restart, e)))
  {
    hide Inv, Does, RegistryEnabled, RegistryEffect, WorkEnabled, WorkEffect, RequestEnabled, RequestEffect;
    if Enabled(w, ev) {
      match ev
      case Tick(_) =>
      case Registry(r) => RegistryFrame(w, r);
      case Work(k) => WorkDescends(w, k, e);
      case Request(q) => RequestDescends(w, q, e);
    }
  }

  /** In any run of any actors, the changes of state an execution goes through are paid
      for by its rank and by the explicit retries of the run. */
  lemma {:induction false} RunPays(w: World, events: seq<Event>, e: Id)
    requires Inv(w)
    ensures CountMoves(w, events, e) + Ahead(Run(w, events), e)
         <= Ahead(w, e) + 4 * CountRewinds(w, events, e)
    decreases |events|
  {
    hide Inv, Apply, Moves, Does, Ahead;
    if events != [] {
      var before := events[..|events| - 1];
      RunPays(w, before, e);
      RunKeepsInv(w, before);
      StepPays(Run(w, before), events[|events| - 1], e);
    }
  }

  /** So an execution is done after ten changes of state, or four more for every retry. */
  lemma MovesAreBounded(events: seq<Event>, e: Id)
    ensures CountMoves(EMPTY_WORLD, events, e) <= 10 + 4 * CountRewinds(EMPTY_WORLD, events, e)
  {
    hide Inv, Run, CountMoves, CountRewinds;
    EmptyInv();
    RunPays(EMPTY_WORLD, events, e);
  }

  // ------------------------------------------------ coming back to a state

  predicate InState(w: World, e: Id, s: ExecState) {
    e in w.execs && w.execs[e].state == s
  }

  predicate Enters(w: World, ev: Event, e: Id, s: ExecState) {
    !InState(w, e, s) && InState(Apply(w, ev), e, s)
  }

  predicate Exits(w: World, ev: Event, e: Id, s: ExecState) {
    InState(w, e, s) && !InState(Apply(w, ev), e, s)
  }

  function CountEntries(w: World, events: seq<Event>, e: Id, s: ExecState): nat {
    if events == [] then 0
    else
      var before := events[..|events| - 1];
      CountEntries(w, before, e, s) + Unspent(Enters(Run(w, before), events[|events| - 1], e, s))
  }

  function CountExits(w: World, events: seq<Event>, e: Id, s: ExecState): nat {
    if events == [] then 0
    else
      var before := events[..|events| - 1];
      CountExits(w, before, e, s) + Unspent(Exits(Run(w, before), events[|events| - 1], e, s))
  }

  /** A row enters a state and leaves it in turns. */
  lemma {:induction false} VisitBalance(w: World, events: seq<Event>, e: Id, s: ExecState)
    ensures Unspent(InState(Run(w, events), e, s)) + CountExits(w, events, e, s)
         == Unspent(InState(w, e, s)) + CountEntries(w, events, e, s)
    decreases |events|
  {
    hide Apply, InState;
    if events != [] {
      VisitBalance(w, events[..|events| - 1], e, s);
    }
  }

  lemma {:induction false} ExitsGrow(w: World, before: seq<Event>, after: seq<Event>, e: Id, s: ExecState)
    requires before <= after
    ensures CountExits(w, before, e, s) <= CountExits(w, after, e, s)
    decreases |after|
  {
    if before != after {
      ExitsGrow(w, before, after[..|after| - 1], e, s);
    }
  }

  lemma {:induction false} EntriesGrow(w: World, before: seq<Event>, after: seq<Event>, e: Id, s: ExecState)
    requires before <= after
    ensures CountEntries(w, before, e, s) <= CountEntries(w, after, e, s)
    decreases |after|
  {
    if before != after {
      EntriesGrow(w, before, after[..|after| - 1], e, s);
    }
  }

  lemma ExitCounted(w: World, events: seq<Event>, ev: Event, e: Id, s: ExecState)
    requires Exits(Run(w, events), ev, e, s)
    ensures CountExits(w, events + [ev], e, s) == CountExits(w, events, e, s) + 1
  {
    assert (events + [ev])[..|events|] == events;
  }
}
