/** The shared database as one session sees it: other actors run between its statements,
    and a commit may fail before or after it has taken effect. */
module Database {
  import opened Model
  import opened Protocol
  import opened Invariant
  import opened WorkInvariant
  import opened History

  datatype Result<+T> = Ok(value: T) | Err(error: Error)

  datatype Error =
    | Invalid            // ClaimInvalid, ExecutionInvalid: the request itself is wrong
    | NotFound           // ClaimNotFound
    | Conflict           // ClaimConflict, ExecutionConflict: lost to another actor
    | AuthorityLost      // AuthorityConflict raised by the write guard
    | DatabaseFailed     // any database error that is not retryable

  datatype Outcome = Committed | NoRow | Duplicate | Retryable | Fatal

  /** The statement matches its rows but a uniqueness constraint rejects the result. */
  predicate Violates(w: World, ev: Event) {
    match ev
    case Registry(InsertClaim(claim, guest, json)) =>
      claim in w.issued || !FreePlacement(w, guest)
    case Registry(Bind(claim, generation, manifest, vmRef, instance)) =>
      && At(w, claim, generation, Reserved)
      && w.claims[claim].guest.manifest == manifest && w.claims[claim].vmRef.None?
      && !FreeVmRef(w, claim, vmRef)
    case Registry(GrantOperation(claim, generation, lease, action, at)) =>
      && At(w, claim, generation, Managed) && w.claims[claim].fence.None?
      && (lease in w.issued || exists l :: l in w.leases && w.leases[l].claim == claim)
    case Work(CreateExecution(exec, claim, generation, plan)) =>
      exec in w.issued || !FreeGeneration(w, claim, generation)
    case _ => false
  }

  // ------------------------------------------------------- tokens of one call

  /** The event belongs to the call that made up the token `t`: the UUID of a worker
      lease, or the cleanup attempt of one request. */
  predicate Uses(ev: Event, t: Id) {
    match ev
    case Work(k) => !k.CreateExecution? && k.lease == t
    case Request(q) =>
      (q.RequestCleanup? || q.LoadCleanup? || q.CallDestroy? || q.FinishCleanup?) && q.attempt == t
    case _ => false
  }

  /** Where the call with token `t` stands. */
  ghost predicate SameCall(w: World, v: World, t: Id) {
    && (t in v.workers <==> t in w.workers) && (t in w.workers ==> v.workers[t] == w.workers[t])
    && (t in v.cleaners <==> t in w.cleaners) && (t in w.cleaners ==> v.cleaners[t] == w.cleaners[t])
  }

  lemma WorkLeavesCall(w: World, k: WorkEvent, t: Id)
    requires WorkEnabled(w, k) && !Uses(Work(k), t)
    ensures SameCall(w, WorkEffect(w, k), t)
  {
  }

  lemma RequestLeavesCall(w: World, q: RequestEvent, t: Id)
    requires RequestEnabled(w, q) && !Uses(Request(q), t)
    ensures SameCall(w, RequestEffect(w, q), t)
  {
  }

  lemma RegistryLeavesCall(w: World, r: RegistryEvent, t: Id)
    requires RegistryEnabled(w, r)
    ensures SameCall(w, RegistryEffect(w, r), t)
  {
  }

  lemma StepLeavesCall(w: World, ev: Event, t: Id)
    requires !Uses(ev, t)
    ensures SameCall(w, Apply(w, ev), t)
  {
    hide RegistryEnabled, RegistryEffect, WorkEnabled, WorkEffect, RequestEnabled, RequestEffect, Uses;
    if Enabled(w, ev) {
      match ev
      case Tick(_) =>
      case Registry(r) => RegistryLeavesCall(w, r, t);
      case Work(k) => WorkLeavesCall(w, k, t);
      case Request(q) => RequestLeavesCall(w, q, t);
    }
  }

  /** Nobody else can move a call along whose token they do not know. */
  lemma {:induction false} RunLeavesCall(w: World, events: seq<Event>, t: Id)
    requires forall i :: 0 <= i < |events| ==> !Uses(events[i], t)
    ensures SameCall(w, Run(w, events), t)
    decreases |events|
  {
    hide Apply, Uses;
    if events != [] {
      var n := |events| - 1;
      RunLeavesCall(w, events[..n], t);
      StepLeavesCall(Run(w, events[..n]), events[n], t);
    }
  }

  // ------------------------------------------------------ what a session did

  function Recorded(own: seq<Event>, applied: bool, ev: Event): seq<Event> {
    if applied then own + [ev] else own
  }

  /** The session did `ev`, `n` times, and nothing else. */
  predicate Repeated(before: seq<Event>, after: seq<Event>, n: nat, ev: Event) {
    && before <= after && |after| == |before| + n
    && forall i :: |before| <= i < |after| ==> after[i] == ev
  }

  /** The event is a request to CloudStack. */
  predicate External(ev: Event) {
    || (ev.Work? && (ev.work.CallDeploy? || ev.work.CallStart?))
    || (ev.Request? && ev.request.CallDestroy?)
  }

  /** The requests to CloudStack among the events of a session, in order. */
  function Externals(events: seq<Event>): seq<Event> {
    if events == [] then []
    else
      var n := |events| - 1;
      Externals(events[..n]) + (if External(events[n]) then [events[n]] else [])
  }

  /** The session went on from `before` to `after` without a request to CloudStack. */
  predicate Silent(before: seq<Event>, after: seq<Event>) {
    before <= after && forall i :: |before| <= i < |after| ==> !External(after[i])
  }

  lemma {:induction false} SilentSendsNothing(before: seq<Event>, after: seq<Event>)
    requires Silent(before, after)
    ensures Externals(after) == Externals(before)
    decreases |after|
  {
    if before != after {
      SilentSendsNothing(before, after[..|after| - 1]);
    }
  }

  lemma ExternalsStep(events: seq<Event>, ev: Event)
    ensures Externals(events + [ev]) == Externals(events) + (if External(ev) then [ev] else [])
  {
    assert (events + [ev])[..|events|] == events;
  }

  class Database {
    var world: World
    ghost var trace: seq<Event>
    ghost const start: World
    ghost var own: seq<Event>      // the events of this session that took effect
    ghost var tries: nat           // the commits this session has attempted

    /** Every world this database goes through is a step of one run of the protocol. */
    ghost predicate Valid()
      reads this
    {
      Inv(start) && world == Run(start, trace) && Inv(world)
    }

    constructor ()
      ensures Valid() && world == EMPTY_WORLD && trace == [] && own == [] && tries == 0
    {
      world, trace, start, own, tries := EMPTY_WORLD, [], EMPTY_WORLD, [], 0;
      new;
      EmptyInv();
    }

    /** Other actors take any steps they like. */
    method Interfere()
      requires Valid()
      modifies this`world, this`trace
      ensures Valid() && old(trace) <= trace && Later(old(world), world)
    {
      hide Inv, Later, Run;
      var events: seq<Event> := *;
      RunConcat(start, trace, events);
      RunIsLater(world, events);
      world := Run(world, events);
      trace := trace + events;
    }

    /** Other actors, who do not know the token of this call, take any steps they like. */
    method InterfereWith(t: Id)
      requires Valid()
      modifies this`world, this`trace
      ensures Valid() && old(trace) <= trace && Later(old(world), world)
      ensures SameCall(old(world), world, t)
    {
      hide Inv, Later, Run, Uses;
      var events: seq<Event> := *;
      if exists i :: 0 <= i < |events| && Uses(events[i], t) {
        events := [];
      }
      RunConcat(start, trace, events);
      RunIsLater(world, events);
      RunLeavesCall(world, events, t);
      world := Run(world, events);
      trace := trace + events;
    }

    method GuardWith(t: Id) returns (held: bool)
      requires Valid()
      modifies this`world, this`trace
      ensures Valid() && old(trace) <= trace && Later(old(world), world)
      ensures SameCall(old(world), world, t)
    {
      InterfereWith(t);
      held := *;
    }

    /** `write_guard()`: whether this caller may write is up to the authority row. */
    method Guard() returns (held: bool)
      requires Valid()
      modifies this`world, this`trace
      ensures Valid() && old(trace) <= trace && Later(old(world), world)
    {
      Interfere();
      held := *;
    }

    /** Execute one conditional transaction and commit it. The commit may raise a
        retryable or a fatal error, and either before or after it took effect. */
    method Submit(ev: Event) returns (outcome: Outcome, ghost applied: bool)
      requires Valid()
      modifies this
      ensures Valid() && old(trace) <= trace && Later(old(world), world)
      ensures world == (if applied then Apply(old(world), ev) else old(world))
      ensures trace == (if applied then old(trace) + [ev] else old(trace))
      ensures own == Recorded(old(own), applied, ev)
      ensures tries == old(tries) + 1
      ensures applied ==> Enabled(old(world), ev)
      ensures outcome == Committed ==> applied
      ensures outcome == NoRow ==> !Enabled(old(world), ev) && !Violates(old(world), ev)
      ensures outcome == Duplicate ==> !Enabled(old(world), ev) && Violates(old(world), ev)
    {
      hide Inv, Later, Run, Apply, Enabled, Violates;
      LaterAlone(world, 0);
      var fault: bool := *;
      var late: bool := *;
      var fatal: bool := *;
      applied := false;
      tries := tries + 1;
      if Enabled(world, ev) && (!fault || late) {
        applied := true;
        RunStep(start, trace, ev);
        StepKeepsInv(world, ev);
        StepIsLater(world, ev);
        outcome := if fault then (if fatal then Fatal else Retryable) else Committed;
        world := Apply(world, ev);
        trace := trace + [ev];
        own := own + [ev];
      } else if fault {
        outcome := if fatal then Fatal else Retryable;
      } else {
        outcome := if Violates(world, ev) then Duplicate else NoRow;
      }
    }

    /** A step of this very call that is no transaction: reading a row into memory, or
        asking CloudStack for something. */
    method Perform(ev: Event)
      requires Valid() && Enabled(world, ev)
      modifies this`world, this`trace, this`own
      ensures Valid() && old(trace) <= trace && Later(old(world), world)
      ensures world == Apply(old(world), ev)
      ensures own == old(own) + [ev]
    {
      hide Inv, Later, Run, Apply, Enabled;
      RunStep(start, trace, ev);
      StepKeepsInv(world, ev);
      StepIsLater(world, ev);
      world := Apply(world, ev);
      trace := trace + [ev];
      own := own + [ev];
    }
  }
}
