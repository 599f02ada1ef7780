/** The bounded autonomous loop over the store (runtime/autonomous_loop.py:36-113), with its checkpoints
    (runtime/recovery_checkpoint.py) and its attempt budget (runtime/replanning.py:17-23).

    What one process life does, store aside, is a list of events; the class below runs against the store, may
    die before any event, and is proved to do exactly the events of that list up to its death.  So it meets no
    version conflict and no illegal transition. */
module ExecutionLoop {
  import opened Base
  import opened StateMachine
  import opened ExecutionStore

  /** What the executor answers: the results, and the error of the first failed one. */
  datatype Answer = Succeeded(results: Value) | Failing(results: Value, error: Option<string>)

  /** Planner and executor, attempt by attempt. */
  datatype World = World(plans: int -> Value, answers: int -> Answer)

  datatype Event = Wrote(x: Execution) | Ran(attempt: int)

  datatype LoopError = NotResumable | CannotRun | MissingError | Refused(error: StoreError)

  datatype Report = Reported(status: Status, results: Value, attempts: int) | Raised(error: LoopError) | Crashed

  datatype Life = Life(events: seq<Event>, report: Report)

  /** One attempt either ends the life or leads to the next attempt. */
  datatype Turn = Ends(life: Life) | Goes(events: seq<Event>, x: Execution, plan: Value)

  type Positive = n: int | 1 <= n witness 1

  const EXCEEDED := "maximum attempts exceeded"

  /** The record as a write of the loop leaves it. */
  function Moved(x: Execution, status: Status, attempt: int, plan: Value, result: Value, error: Option<string>): Execution {
    x.(status := status, attempt := attempt, plan := plan, result := result, error := error, version := x.version + 1)
  }

  function Started(x: Execution, attempt: int, plan: Value): Execution {
    Moved(x, Running, attempt, plan, x.result, x.error)
  }

  function Succeeds(x: Execution, results: Value): Execution {
    Moved(x, Completed, x.attempt, x.plan, results, None)
  }

  function Fails(x: Execution, error: string): Execution {
    Moved(x, Failed, x.attempt, x.plan, x.result, Some(error))
  }

  function Waits(x: Execution, error: Option<string>): Execution {
    Moved(x, Retrying, x.attempt, x.plan, x.result, error)
  }

  function Restarts(x: Execution, plan: Value): Execution {
    Moved(x, Running, x.attempt + 1, plan, x.result, None)
  }

  predicate ShouldRetry(attempt: int, max: int) {
    attempt < max
  }

  function GaveUp(r: Execution, attempt: int, results: Value, error: Option<string>): Life {
    if error.None? then Life([], Raised(MissingError))
    else Life([Wrote(Fails(r, error.value))], Reported(Failed, results, attempt))
  }

  function TurnOf(x: Execution, plan: Value, attempt: int, max: int, w: World): Turn {
    var r := Started(x, attempt, plan);
    match w.answers(attempt)
    case Succeeded(results) =>
      Ends(Prefixed([Wrote(r), Ran(attempt)], Life([Wrote(Succeeds(r, results))], Reported(Completed, results, attempt))))
    case Failing(results, error) =>
      if ShouldRetry(attempt, max) then
        var y := Waits(r, error);
        var z := Restarts(y, w.plans(attempt + 1));
        Goes([Wrote(r), Ran(attempt), Wrote(y), Wrote(z)], z, w.plans(attempt + 1))
      else Ends(Prefixed([Wrote(r), Ran(attempt)], GaveUp(r, attempt, results, error)))
  }

  function Prefixed(events: seq<Event>, life: Life): Life {
    Life(events + life.events, life.report)
  }

  /** All attempts from `attempt` on. */
  function Attempts(x: Execution, plan: Value, attempt: int, max: int, w: World): Life
    decreases max - attempt
  {
    if attempt > max then Life([Wrote(Fails(x, EXCEEDED))], Reported(Failed, Null, max))
    else
      match TurnOf(x, plan, attempt, max, w)
      case Ends(life) => life
      case Goes(events, x', plan') => Prefixed(events, Attempts(x', plan', attempt + 1, max, w))
  }

  function FirstRecord(id: string, goal: string, plan: Value): Execution {
    Execution(id, Pending, goal, 0, plan, Null, None, None, 1)
  }

  function Lookup(t: Table, id: string): Option<Execution> {
    if id in t then Some(t[id]) else None
  }

  /** `_run_from_state`, on the record found in the store. */
  function LifeOf(x: Option<Execution>, id: string, goal: string, plan: Value, start: int, max: int, w: World): Life {
    var first := Max(1, start);
    match x
    case None =>
      if id == "" then Life([], Raised(LoopError.Refused(EmptyId)))
      else
        var s := FirstRecord(id, goal, plan);
        Prefixed([Wrote(s)], Attempts(s, plan, first, max, w))
    case Some(s) =>
      if s.status in {Pending, Retrying} then
        var r := Started(s, first, plan);
        Prefixed([Wrote(r)], Attempts(r, plan, first, max, w))
      else if s.status == Running then Attempts(s, plan, first, max, w)
      else Life([], Raised(CannotRun))
  }

  /** `resume`. */
  function Resumed(x: Option<Execution>, max: int, w: World): Life {
    if x.None? || x.value.status !in {Running, Retrying} then Life([], Raised(NotResumable))
    else LifeOf(x, x.value.id, x.value.goal, x.value.plan, x.value.attempt, max, w)
  }

  /** A life that dies before its event number `budget`, if it gets that far. */
  function Cut(life: Life, budget: nat): Life {
    if budget < |life.events| then Life(life.events[..budget], Crashed) else life
  }

  ghost predicate Ended(report: Option<Report>, log: seq<Event>, life: Life, budget: nat) {
    report.Some? && Life(log, report.value) == Cut(life, budget)
  }

  lemma CutAfter(events: seq<Event>, life: Life, budget: nat)
    ensures budget < |events| ==> Cut(Prefixed(events, life), budget) == Life(events[..budget], Crashed)
    ensures budget >= |events| ==> Cut(Prefixed(events, life), budget) == Prefixed(events, Cut(life, budget - |events|))
  {
    if budget < |events| {
      assert (events + life.events)[..budget] == events[..budget];
    } else if budget < |events| + |life.events| {
      assert (events + life.events)[..budget] == events + life.events[..budget - |events|];
    }
  }

  lemma AfterAfter(a: seq<Event>, b: seq<Event>, life: Life)
    ensures Prefixed(a, Prefixed(b, life)) == Prefixed(a + b, life)
  {
    assert a + (b + life.events) == (a + b) + life.events;
  }

  /** One turn of the loop, on what is left of a cut life. */
  lemma NextAttempt(log: seq<Event>, x: Execution, plan: Value, attempt: int, max: int, w: World, left: nat)
    requires attempt <= max
    ensures var turn := TurnOf(x, plan, attempt, max, w);
      Prefixed(log, Cut(Attempts(x, plan, attempt, max, w), left)) ==
      if turn.Ends? then Prefixed(log, Cut(turn.life, left))
      else if left < |turn.events| then Life(log + turn.events[..left], Crashed)
      else Prefixed(log + turn.events, Cut(Attempts(turn.x, turn.plan, attempt + 1, max, w), left - |turn.events|))
  {
    var turn := TurnOf(x, plan, attempt, max, w);
    if turn.Goes? {
      var rest := Attempts(turn.x, turn.plan, attempt + 1, max, w);
      assert Attempts(x, plan, attempt, max, w) == Prefixed(turn.events, rest);
      CutAfter(turn.events, rest, left);
      if left >= |turn.events| { AfterAfter(log, turn.events, Cut(rest, left - |turn.events|)); }
    }
  }

  /** The attempts are used up. */
  lemma NoMoreAttempts(log: seq<Event>, x: Execution, plan: Value, attempt: int, max: int, w: World, left: nat)
    requires attempt > max
    ensures Prefixed(log, Cut(Attempts(x, plan, attempt, max, w), left)) ==
      if left == 0 then Life(log, Crashed) else Life(log + [Wrote(Fails(x, EXCEEDED))], Reported(Failed, Null, max))
  {
  }

  /** The table after these events. */
  function Applied(t: Table, events: seq<Event>): Table
    decreases |events|
  {
    if events == [] then t
    else Applied(if events[0].Wrote? then t[events[0].x.id := events[0].x] else t, events[1..])
  }

  function Runs(events: seq<Event>): nat
    decreases |events|
  {
    if events == [] then 0 else (if events[0].Ran? then 1 else 0) + Runs(events[1..])
  }

  lemma {:induction false} AppliedAfter(t: Table, a: seq<Event>, b: seq<Event>)
    ensures Applied(t, a + b) == Applied(Applied(t, a), b) && Runs(a + b) == Runs(a) + Runs(b)
    decreases |a|
  {
    if a == [] {
      assert a + b == b;
    } else {
      assert (a + b)[1..] == a[1..] + b;
      AppliedAfter(if a[0].Wrote? then t[a[0].x.id := a[0].x] else t, a[1..], b);
    }
  }

  lemma AppliedOne(t: Table, a: seq<Event>, e: Event)
    ensures Applied(t, a + [e]) == (if e.Wrote? then Applied(t, a)[e.x.id := e.x] else Applied(t, a))
    ensures Runs(a + [e]) == Runs(a) + (if e.Ran? then 1 else 0)
  {
    AppliedAfter(t, a, [e]);
    assert [e][1..] == [];
    assert Applied(Applied(t, a), [e]) == if e.Wrote? then Applied(t, a)[e.x.id := e.x] else Applied(t, a);
    assert Runs([e]) == (if e.Ran? then 1 else 0) + Runs([]);
  }

  /** Table and number of runs after these events. */
  ghost predicate Wake(t: Table, events: seq<Event>, after: Table, runs: nat)
    decreases |events|
  {
    if events == [] then after == t && runs == 0
    else
      match events[0]
      case Wrote(x) => Wake(t[x.id := x], events[1..], after, runs)
      case Ran(_) => runs > 0 && Wake(t, events[1..], after, runs - 1)
  }

  lemma {:induction false} WakeIs(t: Table, events: seq<Event>, after: Table, runs: nat)
    ensures Wake(t, events, after, runs) <==> after == Applied(t, events) && runs == Runs(events)
    decreases |events|
  {
    if events != [] {
      match events[0]
      case Wrote(x) => WakeIs(t[x.id := x], events[1..], after, runs);
      case Ran(_) => if runs > 0 { WakeIs(t, events[1..], after, runs - 1); }
    }
  }

  /** The edges the loop uses. */
  predicate Supports(g: Graph) {
    && CanTransition(g, Pending, Running) && CanTransition(g, Running, Retrying)
    && CanTransition(g, Running, Completed) && CanTransition(g, Running, Failed)
    && CanTransition(g, Retrying, Running)
  }

  type LoopGraph = g: Graph | Supports(g) witness DEFAULT

  class Loop {
    const store: Store
    const maxAttempts: Positive
    ghost const machine: LoopGraph

    constructor (store: Store, configured: int)
      requires Supports(store.machine)
      ensures this.store == store && maxAttempts == Max(1, configured) && Valid()
    {
      this.store := store;
      maxAttempts := Max(1, configured);
      machine := store.machine;
    }

    /** The store's graph has the edges the loop uses. */
    ghost predicate Valid() {
      store.machine == machine
    }

    /** The local copy is what the store holds. */
    ghost predicate Current(s: Execution)
      reads store`data
    {
      Valid() && s.id != "" && Lookup(store.data, s.id) == Some(s)
    }

    /** `_transition`: the store is read again, whatever the local copy says. */
    method Move(s: Execution, status: Status, u: Updates) returns (s': Execution)
      requires Current(s) && CanTransition(store.machine, s.status, status)
      modifies store`data
      ensures s' == Updated(s, status, u).(version := s.version + 1)
      ensures Current(s') && store.data == old(store.data)[s.id := s']
    {
      var r := store.MoveTo(s.id, status, u);
      assert r.Success?;
      s' := r.value;
    }

    /** The checkpoint calls: compare-and-set against the local copy's version. */
    method Checkpoint(s: Execution, next: Execution) returns (s': Execution)
      requires Current(s) && CanTransition(store.machine, s.status, next.status)
      requires next.id == s.id && next.version == s.version
      modifies store`data
      ensures s' == next.(version := s.version + 1)
      ensures Current(s') && store.data == old(store.data)[s.id := s']
    {
      var r := store.CompareAndSet(next, next.version, None, None, None);
      assert r.Success?;
      s' := r.value;
    }

    method MarkRunning(s: Execution, attempt: int, plan: Value) returns (s': Execution)
      requires Current(s) && s.status in {Pending, Running} && 1 <= attempt
      modifies store`data
      ensures s' == Started(s, attempt, plan) && Current(s') && store.data == old(store.data)[s.id := s']
    {
      s' := Checkpoint(s, s.(status := Running, attempt := Max(1, attempt), plan := plan));
    }

    method MarkCompleted(s: Execution, results: Value) returns (s': Execution)
      requires Current(s) && s.status == Running
      modifies store`data
      ensures s' == Succeeds(s, results) && Current(s') && store.data == old(store.data)[s.id := s']
    {
      s' := Checkpoint(s, s.(status := Completed, result := results, error := None));
    }

    method MarkFailed(s: Execution, error: string) returns (s': Execution)
      requires Current(s) && CanTransition(store.machine, s.status, Failed)
      modifies store`data
      ensures s' == Fails(s, error) && Current(s') && store.data == old(store.data)[s.id := s']
    {
      s' := Checkpoint(s, s.(status := Failed, error := Some(error)));
    }

    /** After a failed run: the next plan, the two transitions.  `left` events are left before death. */
    method Replan(s: Execution, error: Option<string>, attempt: int, w: World, left: nat)
      returns (dead: bool, s': Execution, plan: Value, ghost log: seq<Event>)
      requires Current(s) && s.status == Running && s.attempt == attempt
      modifies store`data
      ensures store.data == Applied(old(store.data), log) && Runs(log) == 0
      ensures
        var y := Waits(s, error);
        var z := Restarts(y, w.plans(attempt + 1));
        log == [Wrote(y), Wrote(z)][..if left < 2 then left else 2] && (dead <==> left < 2)
        && (!dead ==> s' == z && plan == w.plans(attempt + 1) && Current(s'))
    {
      plan, s', log := w.plans(attempt + 1), s, [];
      if left == 0 { return true, s', plan, log; }
      s' := Move(s', Retrying, Updates(Some(attempt), None, None, Some(error)));
      log := [Wrote(s')];
      if left == 1 { return true, s', plan, log; }
      s' := Move(s', Running, Updates(Some(attempt + 1), Some(plan), None, Some(None)));
      AppliedOne(old(store.data), log, Wrote(s'));
      log := log + [Wrote(s')];
      return false, s', plan, log;
    }

    /** What follows an executor run on the running record `r`.  `left` events are left before death. */
    method Settle(r: Execution, attempt: int, w: World, left: nat)
      returns (report: Option<Report>, s': Execution, plan: Value, ghost log: seq<Event>)
      requires Current(r) && r.status == Running && r.attempt == attempt
      modifies store`data
      ensures store.data == Applied(old(store.data), log) && Runs(log) == 0
      ensures
        match w.answers(attempt)
        case Succeeded(results) => Ended(report, log, Life([Wrote(Succeeds(r, results))], Reported(Completed, results, attempt)), left)
        case Failing(results, error) =>
          if !ShouldRetry(attempt, maxAttempts) then Ended(report, log, GaveUp(r, attempt, results, error), left)
          else
            var z := Restarts(Waits(r, error), w.plans(attempt + 1));
            if left < 2 then log == [Wrote(Waits(r, error)), Wrote(z)][..left] && report == Some(Crashed)
            else log == [Wrote(Waits(r, error)), Wrote(z)] && report.None?
                 && s' == z && plan == w.plans(attempt + 1) && Current(s')
    {
      s', log, plan := r, [], w.plans(attempt + 1);
      match w.answers(attempt)
      case Succeeded(results) =>
        if left == 0 { return Some(Crashed), s', plan, log; }
        s' := MarkCompleted(s', results);
        return Some(Reported(Completed, results, attempt)), s', plan, [Wrote(s')];
      case Failing(results, error) =>
        if ShouldRetry(attempt, maxAttempts) {
          var dead;
          dead, s', plan, log := Replan(s', error, attempt, w, left);
          return if dead then Some(Crashed) else None, s', plan, log;
        }
        if error.None? { return Some(Raised(MissingError)), s', plan, log; }
        if left == 0 { return Some(Crashed), s', plan, log; }
        s' := MarkFailed(s', error.value);
        return Some(Reported(Failed, results, attempt)), s', plan, [Wrote(s')];
    }

    /** One pass through the loop body. */
    method Attempt(s: Execution, p: Value, attempt: int, w: World, left: nat)
      returns (report: Option<Report>, s': Execution, plan: Value, runs: nat, ghost log: seq<Event>)
      requires Current(s) && s.status in {Pending, Running} && 1 <= attempt <= maxAttempts
      modifies store`data
      ensures store.data == Applied(old(store.data), log) && runs == Runs(log)
      ensures
        match TurnOf(s, p, attempt, maxAttempts, w)
        case Ends(life) => Ended(report, log, life, left)
        case Goes(events, x, q) =>
          if left < |events| then log == events[..left] && report == Some(Crashed)
          else log == events && report.None? && s' == x && plan == q && Current(s')
    {
      if left == 0 { return Some(Crashed), s, p, 0, []; }
      s' := MarkRunning(s, attempt, p);
      ghost var before, started := store.data, [Wrote(s')];
      if left == 1 { return Some(Crashed), s', p, 0, started; }
      started := started + [Ran(attempt)];
      AppliedOne(old(store.data), [Wrote(s')], Ran(attempt));
      ghost var more;
      report, s', plan, more := Settle(s', attempt, w, left - 2);
      runs, log := 1, started + more;
      AppliedAfter(old(store.data), started, more);
    }

    /** Underway in a life that is `whole` when all is done: the events of `log` are behind, `left` are left. */
    ghost predicate Along(t: Table, whole: Life, log: seq<Event>, runs: nat,
                          s: Execution, p: Value, attempt: int, w: World, left: nat)
      reads store`data
    {
      && Current(s) && 1 <= attempt && (s.status == Running || (s.status == Pending && attempt <= maxAttempts))
      && Wake(t, log, store.data, runs)
      && forall rest :: rest == Cut(Attempts(s, p, attempt, maxAttempts, w), left) ==> whole == Prefixed(log, rest)
    }

    /** The life ended as `whole` says. */
    ghost predicate Over(t: Table, whole: Life, log: seq<Event>, runs: nat, report: Report)
      reads store`data
    {
      whole == Life(log, report) && Wake(t, log, store.data, runs)
    }

    /** The loop body once more. */
    method OnceMore(s: Execution, p: Value, attempt: int, w: World, left: nat, runs: nat,
                    ghost t: Table, ghost whole: Life, ghost log: seq<Event>)
      returns (report: Option<Report>, s': Execution, plan: Value, runs': nat, ghost log': seq<Event>)
      requires Along(t, whole, log, runs, s, p, attempt, w, left) && attempt <= maxAttempts
      modifies store`data
      ensures
        if report.Some? then Over(t, whole, log', runs', report.value)
        else left >= 4 && Along(t, whole, log', runs', s', plan, attempt + 1, w, left - 4)
    {
      WakeIs(t, log, store.data, runs);
      NextAttempt(log, s, p, attempt, maxAttempts, w, left);
      ghost var more;
      var ran;
      report, s', plan, ran, more := Attempt(s, p, attempt, w, left);
      AppliedAfter(t, log, more);
      log', runs' := log + more, runs + ran;
      WakeIs(t, log', store.data, runs');
    }

    /** Behind the loop: the attempts are used up. */
    method Exceeded(s: Execution, left: nat, ghost p: Value, ghost attempt: int, ghost w: World, ghost runs: nat,
                    ghost t: Table, ghost whole: Life, ghost log: seq<Event>)
      returns (report: Report, ghost log': seq<Event>)
      requires Along(t, whole, log, runs, s, p, attempt, w, left) && attempt > maxAttempts
      modifies store`data
      ensures Over(t, whole, log', runs, report)
    {
      WakeIs(t, log, store.data, runs);
      NoMoreAttempts(log, s, p, attempt, maxAttempts, w, left);
      if left == 0 { return Crashed, log; }
      var x := MarkFailed(s, EXCEEDED);
      AppliedOne(t, log, Wrote(x));
      WakeIs(t, log + [Wrote(x)], store.data, runs);
      return Reported(Failed, Null, maxAttempts), log + [Wrote(x)];
    }

    /** All attempts. */
    method RunAttempts(s: Execution, p: Value, first: int, w: World, budget: nat)
      returns (report: Report, runs: nat, ghost log: seq<Event>)
      requires Current(s) && 1 <= first
      requires s.status == Running || (s.status == Pending && first <= maxAttempts)
      modifies store`data
      ensures Life(log, report) == Cut(Attempts(s, p, first, maxAttempts, w), budget)
      ensures store.data == Applied(old(store.data), log) && runs == Runs(log)
    {
      ghost var t, whole := store.data, Cut(Attempts(s, p, first, maxAttempts, w), budget);
      assert whole == Prefixed([], whole) && Wake(t, [], t, 0);
      var ended, state, plan, attempt, left;
      ended, state, plan, attempt, left, runs, log := Attempting(s, p, first, w, budget, t, whole);
      if ended.Some? {
        report := ended.value;
      } else {
        report, log := Exceeded(state, left, plan, attempt, w, runs, t, whole, log);
      }
      WakeIs(t, log, store.data, runs);
    }

    /** The loop over attempts; a report means that it returned from inside. */
    method Attempting(s: Execution, p: Value, first: int, w: World, budget: nat, ghost t: Table, ghost whole: Life)
      returns (report: Option<Report>, state: Execution, plan: Value, attempt: int, left: nat, runs: nat, ghost log: seq<Event>)
      requires Along(t, whole, [], 0, s, p, first, w, budget)
      modifies store`data
      ensures
        if report.Some? then Over(t, whole, log, runs, report.value)
        else attempt > maxAttempts && Along(t, whole, log, runs, state, plan, attempt, w, left)
    {
      report, state, plan, attempt, left := None, s, p, first, budget;
      runs, log := 0, [];
      while attempt <= maxAttempts
        invariant report.None? && Along(t, whole, log, runs, state, plan, attempt, w, left)
        decreases maxAttempts - attempt
      {
        report, state, plan, runs, log := OnceMore(state, plan, attempt, w, left, runs, t, whole, log);
        if report.Some? { return; }
        left, attempt := left - 4, attempt + 1;
      }
    }

    /** No record yet: save one. */
    method EnterNew(id: string, goal: string, plan: Value, budget: nat)
      returns (report: Option<Report>, state: Execution, ghost log: seq<Event>)
      requires Valid() && id !in store.data
      modifies store`data
      ensures store.data == Applied(old(store.data), log) && Runs(log) == 0
      ensures state == FirstRecord(id, goal, plan)
      ensures id == "" ==> report == Some(Raised(LoopError.Refused(EmptyId))) && log == []
      ensures id != "" && budget == 0 ==> report == Some(Crashed) && log == []
      ensures id != "" && budget > 0 ==> report.None? && log == [Wrote(state)] && Current(state)
    {
      state, log := FirstRecord(id, goal, plan), [];
      var blank := state.(version := 0);
      if id != "" && budget == 0 { return Some(Crashed), state, log; }
      var r := store.SaveState(blank);
      if r.Failure? { return Some(Raised(LoopError.Refused(r.error))), state, log; }
      log := [Wrote(state)];
      return None, state, log;
    }

    /** A record to go on with: bring it to running. */
    method EnterKnown(id: string, plan: Value, start: int, budget: nat)
      returns (report: Option<Report>, state: Execution, ghost log: seq<Event>)
      requires Valid() && Keyed(store.data) && id != "" && id in store.data
      modifies store`data
      ensures store.data == Applied(old(store.data), log) && Runs(log) == 0
      ensures
        var s := old(store.data)[id];
        if s.status == Running then report.None? && log == [] && state == s && Current(s)
        else if s.status !in {Pending, Retrying} then report == Some(Raised(CannotRun)) && log == []
        else if budget == 0 then report == Some(Crashed) && log == []
        else report.None? && state == Started(s, Max(1, start), plan) && log == [Wrote(state)] && Current(state)
    {
      state, log := store.data[id], [];
      if state.status == Running { return None, state, log; }
      if state.status !in {Pending, Retrying} { return Some(Raised(CannotRun)), state, log; }
      if budget == 0 { return Some(Crashed), state, log; }
      state := Move(state, Running, Updates(Some(Max(1, start)), Some(plan), None, None));
      return None, state, [Wrote(state)];
    }

    /** The way into the loop; a report means that the life ends here. */
    method Enter(id: string, goal: string, plan: Value, start: int, budget: nat, ghost w: World)
      returns (report: Option<Report>, state: Execution, left: nat, ghost log: seq<Event>)
      requires Valid() && Keyed(store.data) && "" !in store.data
      requires id !in store.data ==> start <= maxAttempts
      modifies store`data
      ensures store.data == Applied(old(store.data), log) && Runs(log) == 0
      ensures
        var life := LifeOf(Lookup(old(store.data), id), id, goal, plan, start, maxAttempts, w);
        if report.Some? then Life(log, report.value) == Cut(life, budget)
        else
          && Cut(life, budget) == Prefixed(log, Cut(Attempts(state, plan, Max(1, start), maxAttempts, w), left))
          && Current(state) && (state.status == Running || (state.status == Pending && start <= maxAttempts))
    {
      left := budget;
      if (id in store.data ==> store.data[id].status != Running) && budget > 0 { left := budget - 1; }
      if id in store.data {
        report, state, log := EnterKnown(id, plan, start, budget);
      } else {
        report, state, log := EnterNew(id, goal, plan, budget);
      }
      CutAfter(log, Attempts(state, plan, Max(1, start), maxAttempts, w), budget);
    }

    /** `_run_from_state`, until the given number of events has happened. */
    method RunFromState(id: string, goal: string, plan: Value, start: int, w: World, budget: nat)
      returns (report: Report, runs: nat, ghost log: seq<Event>)
      requires Valid() && Keyed(store.data) && "" !in store.data
      requires id !in store.data ==> start <= maxAttempts
      modifies store`data
      ensures Life(log, report) == Cut(LifeOf(Lookup(old(store.data), id), id, goal, plan, start, maxAttempts, w), budget)
      ensures store.data == Applied(old(store.data), log) && runs == Runs(log)
    {
      var early, state, left;
      early, state, left, log := Enter(id, goal, plan, start, budget, w);
      if early.Some? { return early.value, 0, log; }
      ghost var more;
      report, runs, more := RunAttempts(state, plan, Max(1, start), w, left);
      AppliedAfter(old(store.data), log, more);
      log := log + more;
    }

    /** `run`: a plan first, then attempt 1. */
    method Start(id: string, goal: string, w: World, budget: nat)
      returns (report: Report, runs: nat, ghost log: seq<Event>)
      requires Valid() && Keyed(store.data) && "" !in store.data
      modifies store`data
      ensures Life(log, report) == Cut(LifeOf(Lookup(old(store.data), id), id, goal, w.plans(0), 0, maxAttempts, w), budget)
      ensures store.data == Applied(old(store.data), log) && runs == Runs(log)
    {
      report, runs, log := RunFromState(id, goal, w.plans(0), 0, w, budget);
    }

    /** `resume`: only a running or retrying record is taken up. */
    method Resume(id: string, w: World, budget: nat)
      returns (report: Report, runs: nat, ghost log: seq<Event>)
      requires Valid() && Keyed(store.data) && "" !in store.data
      modifies store`data
      ensures Life(log, report) == Cut(Resumed(Lookup(old(store.data), id), maxAttempts, w), budget)
      ensures store.data == Applied(old(store.data), log) && runs == Runs(log)
    {
      if id !in store.data || store.data[id].status !in {Running, Retrying} {
        return Raised(NotResumable), 0, [];
      }
      var state := store.data[id];
      report, runs, log := RunFromState(id, state.goal, state.plan, state.attempt, w, budget);
    }
  }

  // ---------------------------------------------------------------- one life

  function Final(x: Execution, events: seq<Event>): Execution
    decreases |events|
  {
    if events == [] then x else Final(if events[0].Wrote? then events[0].x else x, events[1..])
  }

  /** One version further along a legal edge, at no earlier attempt and within the cap. */
  predicate Onward(g: Graph, x: Execution, y: Execution, cap: int) {
    && y.id == x.id && y.goal == x.goal && y.version == x.version + 1
    && CanTransition(g, x.status, y.status) && y.status != Pending
    && x.attempt <= y.attempt <= Max(x.attempt, cap)
  }

  /** Every write goes onward, and the executor runs only for the attempt that the record shows as running. */
  predicate Steady(g: Graph, x: Execution, events: seq<Event>, cap: int)
    decreases |events|
  {
    events != [] ==>
      match events[0]
      case Wrote(y) => Onward(g, x, y, cap) && Steady(g, y, events[1..], cap)
      case Ran(attempt) => x.status == Running && x.attempt == attempt <= cap && Steady(g, x, events[1..], cap)
  }

  lemma {:induction false} SteadyAfter(g: Graph, x: Execution, a: seq<Event>, b: seq<Event>, cap: int)
    ensures Steady(g, x, a + b, cap) <==> Steady(g, x, a, cap) && Steady(g, Final(x, a), b, cap)
    ensures Final(x, a + b) == Final(Final(x, a), b)
    decreases |a|
  {
    if a == [] {
      assert a + b == b;
    } else {
      assert (a + b)[1..] == a[1..] + b;
      SteadyAfter(g, if a[0].Wrote? then a[0].x else x, a[1..], b, cap);
    }
  }

  /** The stored record says what is reported. */
  predicate Told(life: Life, x: Execution) {
    match life.report
    case Reported(status, results, attempts) =>
      && x.status == status && status in {Completed, Failed}
      && (status == Completed ==> x.result == results && x.error.None? && x.attempt == attempts)
      && (status == Failed ==> x.error.Some?)
    case Raised(error) => error == MissingError && x.status == Running
    case Crashed => false
  }

  predicate SteadyTurn(g: Graph, x: Execution, attempt: int, max: int, turn: Turn) {
    if turn.Ends? then
      Steady(g, x, turn.life.events, max) && Told(turn.life, Final(x, turn.life.events))
      && |turn.life.events| <= 3 && Runs(turn.life.events) == 1
    else
      Steady(g, x, turn.events, max) && Final(x, turn.events) == turn.x && turn.x.status == Running
      && turn.x.attempt == attempt + 1 && |turn.events| == 4 && Runs(turn.events) == 1
  }

  lemma SteadyOne(g: Graph, x: Execution, e: Event, cap: int)
    ensures Final(x, [e]) == if e.Wrote? then e.x else x
    ensures Runs([e]) == if e.Ran? then 1 else 0
    ensures Steady(g, x, [e], cap) <==>
      if e.Wrote? then Onward(g, x, e.x, cap) else x.status == Running && x.attempt == e.attempt <= cap
  {
    assert [e][1..] == [];
    assert Runs([]) == 0 && Final(x, []) == x && Final(if e.Wrote? then e.x else x, []) == if e.Wrote? then e.x else x;
  }

  lemma SteadyTwo(g: Graph, x: Execution, a: Event, b: Event, cap: int)
    ensures Final(x, [a, b]) == Final(Final(x, [a]), [b])
    ensures Runs([a, b]) == Runs([a]) + Runs([b])
    ensures Steady(g, x, [a, b], cap) <==> Steady(g, x, [a], cap) && Steady(g, Final(x, [a]), [b], cap)
  {
    assert [a, b] == [a] + [b];
    SteadyAfter(g, x, [a], [b], cap);
    AppliedAfter(map[], [a], [b]);
  }

  lemma TurnIsSteady(g: Graph, x: Execution, plan: Value, attempt: int, max: int, w: World)
    requires Supports(g) && x.status in {Pending, Running} && x.attempt <= attempt <= max
    ensures SteadyTurn(g, x, attempt, max, TurnOf(x, plan, attempt, max, w))
  {
    var r, turn := Started(x, attempt, plan), TurnOf(x, plan, attempt, max, w);
    var two := [Wrote(r), Ran(attempt)];
    SteadyOne(g, x, two[0], max);
    SteadyOne(g, r, two[1], max);
    SteadyTwo(g, x, two[0], two[1], max);
    if turn.Goes? {
      var y := Waits(r, w.answers(attempt).error);
      SteadyOne(g, r, Wrote(y), max);
      SteadyOne(g, y, Wrote(turn.x), max);
      SteadyTwo(g, r, Wrote(y), Wrote(turn.x), max);
      ThenSteady(g, x, r, two, turn.events, [Wrote(y), Wrote(turn.x)], max);
    } else if w.answers(attempt).Succeeded? {
      var y := Succeeds(r, w.answers(attempt).results);
      SteadyOne(g, r, Wrote(y), max);
      ThenSteady(g, x, r, two, turn.life.events, [Wrote(y)], max);
    } else if w.answers(attempt).error.Some? {
      var y := Fails(r, w.answers(attempt).error.value);
      SteadyOne(g, r, Wrote(y), max);
      ThenSteady(g, x, r, two, turn.life.events, [Wrote(y)], max);
    } else {
      ThenSteady(g, x, r, two, turn.life.events, [], max);
    }
  }

  lemma ThenSteady(g: Graph, x: Execution, r: Execution, a: seq<Event>, all: seq<Event>, b: seq<Event>, cap: int)
    requires all == a + b && Steady(g, x, a, cap) && Final(x, a) == r && Steady(g, r, b, cap)
    ensures Steady(g, x, all, cap) && Final(x, all) == Final(r, b) && Runs(all) == Runs(a) + Runs(b)
  {
    SteadyAfter(g, x, a, b, cap);
    AppliedAfter(map[], a, b);
  }

  /** A whole life from `attempt` on: steady, truthful, with at most one executor run for each attempt left,
      and over after a bounded number of events. */
  lemma {:induction false} AttemptsAreSteady(g: Graph, x: Execution, plan: Value, attempt: int, max: int, w: World)
    requires Supports(g) && x.attempt <= attempt
    requires x.status == Running || (x.status == Pending && attempt <= max)
    ensures var life := Attempts(x, plan, attempt, max, w);
      && Steady(g, x, life.events, max)
      && Told(life, Final(x, life.events))
      && Runs(life.events) <= Max(0, max - attempt + 1)
      && |life.events| <= 4 * Max(0, max - attempt + 1) + 1
    decreases max - attempt
  {
    if attempt > max {
      SteadyOne(g, x, Wrote(Fails(x, EXCEEDED)), max);
    } else {
      TurnIsSteady(g, x, plan, attempt, max, w);
      var turn := TurnOf(x, plan, attempt, max, w);
      if turn.Goes? {
        var rest := Attempts(turn.x, turn.plan, attempt + 1, max, w);
        AttemptsAreSteady(g, turn.x, turn.plan, attempt + 1, max, w);
        ThenSteady(g, x, turn.x, turn.events, turn.events + rest.events, rest.events, max);
        assert Attempts(x, plan, attempt, max, w) == Prefixed(turn.events, rest);
      } else {
        assert Attempts(x, plan, attempt, max, w) == turn.life;
      }
    }
  }

  /** What the answers decide: the first success is reported and stored; if there is none, the life ends in a
      failure with the last error, or, when that error is missing, in an exception that leaves the record
      running. */
  lemma {:induction false} FirstSuccessWins(x: Execution, plan: Value, attempt: int, k: int, max: int, w: World)
    requires attempt <= k <= max
    requires forall j :: attempt <= j < k ==> w.answers(j).Failing?
    requires w.answers(k).Succeeded? || k == max
    ensures Attempts(x, plan, attempt, max, w).report ==
      match w.answers(k)
      case Succeeded(results) => Reported(Completed, results, k)
      case Failing(results, error) => if error.None? then Raised(MissingError) else Reported(Failed, results, max)
    decreases k - attempt
  {
    if attempt < k {
      assert w.answers(attempt).Failing?;
      var turn := TurnOf(x, plan, attempt, max, w);
      FirstSuccessWins(turn.x, turn.plan, attempt + 1, k, max, w);
    }
  }

  // ---------------------------------------------------------------- what is stored, field by field

  /** A write on top of `x`: these fields, one version further, and nothing else changed. */
  predicate Writes(e: Event, x: Execution, status: Status, attempt: int, plan: Value, result: Value, error: Option<string>) {
    && e.Wrote?
    && e.x.status == status && e.x.attempt == attempt && e.x.plan == plan && e.x.result == result && e.x.error == error
    && e.x.version == x.version + 1 && SameExecution(x, e.x)
  }

  predicate SameExecution(x: Execution, y: Execution) {
    y.id == x.id && y.goal == x.goal && y.correlationId == x.correlationId
  }

  /** One attempt, event by event: running with this attempt and plan, the run, and then: completed with the
      results and no error; or failed with the answer's error, unless that is missing; or retrying with the
      answer's error, running again with the next plan and no error, and on with the next attempt. */
  lemma AttemptWrites(x: Execution, plan: Value, attempt: int, max: int, w: World)
    requires attempt <= max
    ensures var life, a := Attempts(x, plan, attempt, max, w), w.answers(attempt);
      var e := life.events;
      && |e| >= 2 && Writes(e[0], x, Running, attempt, plan, x.result, x.error) && e[1] == Ran(attempt)
      && (a.Succeeded? ==> |e| == 3 && Writes(e[2], e[0].x, Completed, attempt, plan, a.results, None))
      && (a.Failing? && attempt == max ==>
            if a.error.None? then |e| == 2 else |e| == 3 && Writes(e[2], e[0].x, Failed, attempt, plan, x.result, a.error))
      && (a.Failing? && attempt < max ==>
            && |e| >= 4
            && Writes(e[2], e[0].x, Retrying, attempt, plan, x.result, a.error)
            && Writes(e[3], e[2].x, Running, attempt + 1, w.plans(attempt + 1), x.result, None)
            && e[4..] == Attempts(e[3].x, w.plans(attempt + 1), attempt + 1, max, w).events)
  {
    var turn := TurnOf(x, plan, attempt, max, w);
    if turn.Goes? {
      var rest := Attempts(turn.x, turn.plan, attempt + 1, max, w);
      assert Attempts(x, plan, attempt, max, w) == Prefixed(turn.events, rest);
      assert (turn.events + rest.events)[4..] == rest.events;
    }
  }

  /** The first record of a first life, and the record a later life starts from. */
  lemma FirstWrites(x: Option<Execution>, id: string, goal: string, plan: Value, start: int, max: int, w: World)
    requires id != "" && (x.Some? ==> x.value.status in {Pending, Retrying, Running})
    ensures var e := LifeOf(x, id, goal, plan, start, max, w).events;
      var first := if start < 1 then 1 else start;
      if x.None? then
        && e != [] && e[0] == Wrote(Execution(id, Pending, goal, 0, plan, Null, None, None, 1))
        && e[1..] == Attempts(e[0].x, plan, first, max, w).events
      else if x.value.status == Running then e == Attempts(x.value, plan, first, max, w).events
      else
        && e != [] && Writes(e[0], x.value, Running, first, plan, x.value.result, x.value.error)
        && e[1..] == Attempts(e[0].x, plan, first, max, w).events
  {
  }

  /** The lives that end before they begin: no name, or a record that is not to be run. */
  lemma RefusedLives(x: Execution, id: string, goal: string, plan: Value, start: int, max: int, w: World)
    ensures LifeOf(None, "", goal, plan, start, max, w) == Life([], Raised(LoopError.Refused(EmptyId)))
    ensures x.status !in {Pending, Retrying, Running} ==>
      LifeOf(Some(x), id, goal, plan, start, max, w) == Life([], Raised(CannotRun))
    ensures x.status !in {Retrying, Running} ==> Resumed(Some(x), max, w) == Life([], Raised(NotResumable))
    ensures Resumed(None, max, w) == Life([], Raised(NotResumable))
  {
  }

  lemma FinalOne(x: Execution, e: Event, rest: seq<Event>)
    ensures Final(x, [e] + rest) == Final(if e.Wrote? then e.x else x, rest)
  {
    assert ([e] + rest)[1..] == rest;
  }

  lemma FinalFirstTwo(x: Execution, events: seq<Event>)
    requires |events| >= 2 && events[0].Wrote? && events[1].Ran?
    ensures Final(x, events) == Final(events[0].x, events[2..])
  {
    assert events == [events[0]] + events[1..] && events[1..] == [events[1]] + events[2..];
    FinalOne(x, events[0], events[1..]);
    FinalOne(events[0].x, events[1], events[2..]);
  }

  /** The record at the end of a life. */
  predicate EndsAt(x: Execution, y: Execution, status: Status, attempt: int, plan: Value, result: Value, error: Option<string>, version: nat) {
    && y.status == status && y.attempt == attempt && y.plan == plan && y.result == result && y.error == error
    && y.version == version && SameExecution(x, y)
  }

  /** What is stored when a life is over.  After a first success at `k`: its results and no error.  After a last
      failure: its error, and the result the life started with.  In both cases the attempt is `k`, and the plan is
      the plan of that attempt.  A last failure without an error leaves the record running. */
  lemma {:induction false} WhatIsStored(x: Execution, plan: Value, attempt: int, k: int, max: int, w: World)
    requires attempt <= k <= max
    requires forall j :: attempt <= j < k ==> w.answers(j).Failing?
    requires w.answers(k).Succeeded? || k == max
    ensures var y := Final(x, Attempts(x, plan, attempt, max, w).events);
      var p, v := if k == attempt then plan else w.plans(k), x.version + 3 * (k - attempt);
      match w.answers(k)
      case Succeeded(results) => EndsAt(x, y, Completed, k, p, results, None, v + 2)
      case Failing(_, error) =>
        if error.Some? then EndsAt(x, y, Failed, k, p, x.result, error, v + 2)
        else EndsAt(x, y, Running, k, p, x.result, if k == attempt then x.error else None, v + 1)
    decreases k - attempt
  {
    AttemptWrites(x, plan, attempt, max, w);
    var e := Attempts(x, plan, attempt, max, w).events;
    FinalFirstTwo(x, e);
    if attempt < k {
      assert w.answers(attempt).Failing?;
      assert e[2..] == [e[2]] + ([e[3]] + e[4..]);
      FinalOne(e[0].x, e[2], [e[3]] + e[4..]);
      FinalOne(e[2].x, e[3], e[4..]);
      WhatIsStored(e[3].x, w.plans(attempt + 1), attempt + 1, k, max, w);
    } else if |e| == 3 {
      assert e[2..] == [e[2]] + [];
      FinalOne(e[0].x, e[2], []);
    } else {
      assert e[2..] == [];
    }
  }

  /** A life that starts beyond the budget stores that, and changes nothing else. */
  lemma WhatIsStoredBeyond(x: Execution, plan: Value, attempt: int, max: int, w: World)
    requires attempt > max
    ensures EndsAt(x, Final(x, Attempts(x, plan, attempt, max, w).events), Failed, x.attempt, x.plan, x.result,
                   Some("maximum attempts exceeded"), x.version + 1)
    ensures Attempts(x, plan, attempt, max, w).report == Reported(Failed, Null, max)
  {
    FinalOne(x, Wrote(Fails(x, EXCEEDED)), []);
  }

  lemma FinalOfFirst(x: Execution, events: seq<Event>)
    requires events != [] && events[0].Wrote?
    ensures Final(x, events) == Final(events[0].x, events[1..])
  {
    assert events == [events[0]] + events[1..];
    FinalOne(x, events[0], events[1..]);
  }

  /** A resumed life goes on with the stored plan at the stored attempt: what it stores in the end, for a first
      success or the last failure at `k`. */
  lemma WhatAResumeStores(x: Execution, k: int, max: int, w: World)
    requires x.status in {Running, Retrying} && x.id != ""
    requires var first := if x.attempt < 1 then 1 else x.attempt; first <= k <= max && forall j :: first <= j < k ==> w.answers(j).Failing?
    requires w.answers(k).Succeeded? || (k == max && w.answers(k).error.Some?)
    ensures var y := Final(x, Resumed(Some(x), max, w).events);
      && SameExecution(x, y) && y.attempt == k
      && y.plan == (if k == x.attempt || k == 1 then x.plan else w.plans(k))
      && match w.answers(k)
         case Succeeded(results) => y.status == Completed && y.result == results && y.error == None
         case Failing(_, error) => y.status == Failed && y.result == x.result && y.error == error
  {
    var first := if x.attempt < 1 then 1 else x.attempt;
    FirstWrites(Some(x), x.id, x.goal, x.plan, x.attempt, max, w);
    var e := Resumed(Some(x), max, w).events;
    if x.status == Running {
      WhatIsStored(x, x.plan, first, k, max, w);
    } else {
      FinalOfFirst(x, e);
      WhatIsStored(e[0].x, x.plan, first, k, max, w);
    }
  }

  /** The same for a first life: it starts from nothing, with the first plan at attempt 1. */
  lemma WhatARunStores(id: string, goal: string, k: int, max: int, w: World)
    requires id != "" && 1 <= k <= max && forall j :: 1 <= j < k ==> w.answers(j).Failing?
    requires w.answers(k).Succeeded? || (k == max && w.answers(k).error.Some?)
    ensures var e := LifeOf(None, id, goal, w.plans(0), 0, max, w).events;
      && e != [] && e[0].Wrote?
      && var y := Final(e[0].x, e);
      && y.id == id && y.goal == goal && y.attempt == k && y.plan == (if k == 1 then w.plans(0) else w.plans(k))
      && match w.answers(k)
         case Succeeded(results) => y.status == Completed && y.result == results && y.error == None
         case Failing(_, error) => y.status == Failed && y.result == Null && y.error == error
  {
    FirstWrites(None, id, goal, w.plans(0), 0, max, w);
    var e := LifeOf(None, id, goal, w.plans(0), 0, max, w).events;
    FinalOfFirst(e[0].x, e);
    WhatIsStored(e[0].x, w.plans(0), 1, k, max, w);
  }

  // ---------------------------------------------------------------- lives, crashes and resumes

  /** A process life: what it is given, and the number of events it lives for. */
  datatype Try = Try(w: World, budget: nat)

  /** The record after these events. */
  function Latest(x: Option<Execution>, events: seq<Event>): Option<Execution> {
    match x
    case Some(s) => Some(Final(s, events))
    case None => if events != [] && events[0].Wrote? then Some(Final(events[0].x, events[1..])) else None
  }

  predicate SteadyFrom(g: Graph, x: Option<Execution>, events: seq<Event>, cap: int) {
    match x
    case Some(s) => Steady(g, s, events, cap)
    case None =>
      events != [] ==>
        && events[0].Wrote? && events[0].x.version == 1 && events[0].x.status == Pending && events[0].x.attempt == 0
        && Steady(g, events[0].x, events[1..], cap)
  }

  /** What holds of the record between two lives: the budget is kept, and a pending record has had no attempt. */
  predicate Fit(x: Option<Execution>, max: int) {
    x.Some? ==> x.value.attempt <= max && (x.value.status == Pending ==> x.value.attempt == 0)
  }

  function FirstLife(id: string, goal: string, max: int, try: Try): Life {
    Cut(LifeOf(None, id, goal, try.w.plans(0), 0, max, try.w), try.budget)
  }

  function NextLife(x: Option<Execution>, max: int, try: Try): Life {
    Cut(Resumed(x, max, try.w), try.budget)
  }

  /** Resume after resume. */
  function Lives(x: Option<Execution>, max: int, tries: seq<Try>): (lives: seq<Life>)
    ensures |lives| == |tries|
    decreases |tries|
  {
    if tries == [] then []
    else
      var life := NextLife(x, max, tries[0]);
      [life] + Lives(Latest(x, life.events), max, tries[1..])
  }

  predicate Resumes(x: Option<Execution>) {
    x.Some? && x.value.status in {Running, Retrying}
  }

  /** The attempts a life may still make on this record. */
  function AttemptsLeft(x: Option<Execution>, max: int): nat {
    Max(0, max - (if x.Some? then Max(1, x.value.attempt) else 1) + 1)
  }

  /** One life on record `x`: steady events, no more runs than attempts are left, a true report, and no
      exception but a missing error or a refusal that wrote nothing. */
  predicate SoundLife(g: Graph, x: Option<Execution>, life: Life, max: int) {
    && SteadyFrom(g, x, life.events, max)
    && Runs(life.events) <= AttemptsLeft(x, max)
    && (life.report == Raised(NotResumable) ==> life.events == [] && !Resumes(x))
    && (life.report !in {Crashed, Raised(NotResumable)} ==>
          Latest(x, life.events).Some? && Told(life, Latest(x, life.events).value))
    && Fit(Latest(x, life.events), max)
  }

  lemma {:induction false} SteadyKeepsTheCap(g: Graph, x: Execution, events: seq<Event>, cap: int)
    requires Steady(g, x, events, cap) && x.attempt <= cap
    ensures x.attempt <= Final(x, events).attempt <= cap && Final(x, events).version >= x.version
    ensures Final(x, events).status == Pending ==> Final(x, events) == x
    decreases |events|
  {
    if events != [] {
      SteadyKeepsTheCap(g, if events[0].Wrote? then events[0].x else x, events[1..], cap);
    }
  }

  /** The whole of a life on a record that lets it in. */
  lemma WholeLife(g: Graph, x: Execution, plan: Value, start: int, max: int, w: World)
    requires Supports(g) && x.status in {Pending, Running, Retrying} && x.attempt <= Max(1, start) <= max
    ensures var life := LifeOf(Some(x), x.id, x.goal, plan, start, max, w);
      && Steady(g, x, life.events, max) && Told(life, Final(x, life.events))
      && Runs(life.events) <= max - Max(1, start) + 1
      && |life.events| <= 4 * (max - Max(1, start) + 1) + 2
  {
    var first := Max(1, start);
    if x.status == Running {
      AttemptsAreSteady(g, x, plan, first, max, w);
    } else {
      var r := Started(x, first, plan);
      var rest := Attempts(r, plan, first, max, w);
      AttemptsAreSteady(g, r, plan, first, max, w);
      SteadyAfter(g, x, [Wrote(r)], rest.events, max);
      AppliedAfter(map[], [Wrote(r)], rest.events);
      assert [Wrote(r)][1..] == [];
      assert Steady(g, r, [], max) && Onward(g, x, r, max) && Runs([Wrote(r)]) == Runs([]);
    }
  }

  /** The same of the life that makes the record. */
  lemma WholeFirstLife(g: Graph, id: string, goal: string, plan: Value, max: int, w: World)
    requires Supports(g) && id != "" && 1 <= max
    ensures var life := LifeOf(None, id, goal, plan, 0, max, w);
      && life.events != [] && life.events[0] == Wrote(FirstRecord(id, goal, plan))
      && SteadyFrom(g, None, life.events, max) && Told(life, Latest(None, life.events).value)
      && Runs(life.events) <= max && |life.events| <= 4 * max + 2
  {
    var s := FirstRecord(id, goal, plan);
    var rest := Attempts(s, plan, 1, max, w);
    AttemptsAreSteady(g, s, plan, 1, max, w);
    assert ([Wrote(s)] + rest.events)[1..] == rest.events;
  }

  /** A prefix of a sound life is sound. */
  lemma CutIsSound(g: Graph, x: Option<Execution>, life: Life, max: int, budget: nat)
    requires SteadyFrom(g, x, life.events, max) && Runs(life.events) <= AttemptsLeft(x, max)
    requires life.report != Raised(NotResumable) && Latest(x, life.events).Some? && Told(life, Latest(x, life.events).value)
    requires Fit(x, max) && 0 <= max
    ensures SoundLife(g, x, Cut(life, budget), max)
  {
    var cut := Cut(life, budget);
    var rest := life.events[|cut.events|..];
    assert life.events == cut.events + rest;
    AppliedAfter(map[], cut.events, rest);
    if x.Some? {
      SteadyAfter(g, x.value, cut.events, rest, max);
      SteadyKeepsTheCap(g, x.value, cut.events, max);
    } else if cut.events != [] {
      var s := cut.events[0].x;
      assert life.events[1..] == cut.events[1..] + rest;
      SteadyAfter(g, s, cut.events[1..], rest, max);
      SteadyKeepsTheCap(g, s, cut.events[1..], max);
    }
  }

  lemma FirstLifeIsSound(g: Graph, id: string, goal: string, max: int, try: Try)
    requires Supports(g) && id != "" && 1 <= max
    ensures SoundLife(g, None, FirstLife(id, goal, max, try), max)
  {
    WholeFirstLife(g, id, goal, try.w.plans(0), max, try.w);
    CutIsSound(g, None, LifeOf(None, id, goal, try.w.plans(0), 0, max, try.w), max, try.budget);
  }

  lemma NextLifeIsSound(g: Graph, x: Option<Execution>, max: int, try: Try)
    requires Supports(g) && Fit(x, max) && 1 <= max
    ensures SoundLife(g, x, NextLife(x, max, try), max)
  {
    if Resumes(x) {
      var s := x.value;
      WholeLife(g, s, s.plan, s.attempt, max, try.w);
      CutIsSound(g, x, Resumed(x, max, try.w), max, try.budget);
    } else {
      var life := NextLife(x, max, try);
      assert life == Life([], Raised(NotResumable)) && Runs([]) == 0;
    }
  }

  function EventsOf(lives: seq<Life>): seq<Event>
    decreases |lives|
  {
    if lives == [] then [] else lives[0].events + EventsOf(lives[1..])
  }

  /** Each life sound on the record that the lives before it left. */
  predicate SoundLives(g: Graph, x: Option<Execution>, lives: seq<Life>, max: int)
    decreases |lives|
  {
    lives != [] ==>
      SoundLife(g, x, lives[0], max) && SoundLives(g, Latest(x, lives[0].events), lives[1..], max)
  }

  lemma {:induction false} ResumesAreSound(g: Graph, x: Option<Execution>, max: int, tries: seq<Try>)
    requires Supports(g) && Fit(x, max) && 1 <= max
    ensures SoundLives(g, x, Lives(x, max, tries), max)
    decreases |tries|
  {
    if tries != [] {
      var life := NextLife(x, max, tries[0]);
      NextLifeIsSound(g, x, max, tries[0]);
      ResumesAreSound(g, Latest(x, life.events), max, tries[1..]);
      assert Lives(x, max, tries)[1..] == Lives(Latest(x, life.events), max, tries[1..]);
    }
  }

  lemma {:induction false} SoundLivesAreSteady(g: Graph, x: Option<Execution>, lives: seq<Life>, max: int)
    requires SoundLives(g, x, lives, max)
    ensures SteadyFrom(g, x, EventsOf(lives), max)
    decreases |lives|
  {
    if lives != [] {
      var a, b := lives[0].events, EventsOf(lives[1..]);
      SoundLivesAreSteady(g, Latest(x, a), lives[1..], max);
      if x.Some? {
        SteadyAfter(g, x.value, a, b, max);
      } else if a != [] {
        assert (a + b)[1..] == a[1..] + b;
        SteadyAfter(g, a[0].x, a[1..], b, max);
      } else {
        assert a + b == b;
      }
    }
  }

  /** Start once, crash anywhere, resume any number of times, with any planner and executor: over the whole
      history versions go up by one along legal edges, the attempt never decreases nor exceeds the budget, each
      life runs the executor at most once for each attempt left, and what a life reports is what is stored. */
  lemma EveryCrashAndResume(g: Graph, id: string, goal: string, max: int, first: Try, later: seq<Try>)
    requires Supports(g) && id != "" && 1 <= max
    ensures var life := FirstLife(id, goal, max, first);
      var lives := [life] + Lives(Latest(None, life.events), max, later);
      SoundLives(g, None, lives, max) && SteadyFrom(g, None, EventsOf(lives), max)
  {
    var life := FirstLife(id, goal, max, first);
    var rest := Lives(Latest(None, life.events), max, later);
    FirstLifeIsSound(g, id, goal, max, first);
    ResumesAreSound(g, Latest(None, life.events), max, later);
    assert ([life] + rest)[1..] == rest;
    SoundLivesAreSteady(g, None, [life] + rest, max);
  }

  /** Once a life has reported an outcome, every later one is refused and does nothing. */
  lemma {:induction false} ReportedIsFinal(x: Execution, max: int, tries: seq<Try>, n: nat)
    requires x.status in {Completed, Failed} && n < |tries|
    ensures Lives(Some(x), max, tries)[n] == Life([], Raised(NotResumable))
    decreases |tries|
  {
    if n > 0 {
      ReportedIsFinal(x, max, tries[1..], n - 1);
    }
  }

  /** A resumed life that lives for four events an attempt, and two, is not cut short. */
  lemma LongEnough(g: Graph, x: Execution, max: int, try: Try)
    requires Supports(g) && Fit(Some(x), max) && Resumes(Some(x)) && 1 <= max
    requires try.budget >= 4 * AttemptsLeft(Some(x), max) + 2
    ensures NextLife(Some(x), max, try).report == Resumed(Some(x), max, try.w).report != Crashed
  {
    WholeLife(g, x, x.plan, x.attempt, max, try.w);
  }

  /** Which crashes can be resumed: a first life that dies is taken up again exactly if it lived for at least
      two events.  Before that there is no record, or one still pending, which `resume` refuses. */
  lemma CrashedLifeResumesIff(g: Graph, id: string, goal: string, max: int, try: Try)
    requires Supports(g) && id != "" && 1 <= max
    requires FirstLife(id, goal, max, try).report == Crashed
    ensures Resumes(Latest(None, FirstLife(id, goal, max, try).events)) <==> try.budget >= 2
  {
    var plan := try.w.plans(0);
    var whole, s := LifeOf(None, id, goal, plan, 0, max, try.w), FirstRecord(id, goal, plan);
    var events := FirstLife(id, goal, max, try).events;
    WholeFirstLife(g, id, goal, plan, max, try.w);
    assert whole.events[1..] == Attempts(s, plan, 1, max, try.w).events;
    if try.budget == 1 {
      assert events == [Wrote(s)] && events[1..] == [];
    } else if try.budget >= 2 {
      CrashLeavesItRunning(g, s, plan, 1, max, try.w, try.budget - 1);
      assert events[1..] == Attempts(s, plan, 1, max, try.w).events[..try.budget - 1];
    }
  }

  lemma {:induction false} CrashLeavesItRunning(g: Graph, x: Execution, plan: Value, attempt: int, max: int, w: World, n: nat)
    requires Supports(g) && attempt <= max && x.attempt <= attempt
    requires x.status == Running || (x.status == Pending && n > 0)
    requires n < |Attempts(x, plan, attempt, max, w).events|
    ensures Resumes(Some(Final(x, Attempts(x, plan, attempt, max, w).events[..n])))
    decreases max - attempt
  {
    var turn, r := TurnOf(x, plan, attempt, max, w), Started(x, attempt, plan);
    var all := Attempts(x, plan, attempt, max, w).events;
    if n >= 4 {
      var rest := Attempts(turn.x, turn.plan, attempt + 1, max, w);
      TurnIsSteady(g, x, plan, attempt, max, w);
      SteadyAfter(g, x, turn.events, rest.events[..n - 4], max);
      assert all[..n] == turn.events + rest.events[..n - 4];
      CrashLeavesItRunning(g, turn.x, turn.plan, attempt + 1, max, w, n - 4);
    } else if n == 3 {
      assert all[..n] == [Wrote(r), Ran(attempt)] + [turn.events[2]];
      SteadyAfter(g, x, [Wrote(r), Ran(attempt)], [turn.events[2]], max);
    } else if n == 2 {
      assert all[..n] == [Wrote(r)] + [Ran(attempt)];
      SteadyAfter(g, x, [Wrote(r)], [Ran(attempt)], max);
    } else if n == 1 {
      assert all[..n] == [Wrote(r)];
    }
  }

  // ---------------------------------------------------------------- another writer

  /** Which records `ExecutionStore.resumable` lists and `resume` takes up: the two differ exactly on pending
      records that have had an attempt. */
  lemma ListedAndTakenUp(t: Table, id: string, max: int, w: World)
    requires Keyed(t) && id in t
    ensures Resumed(Lookup(t, id), max, w) != Life([], Raised(NotResumable)) ==> id in Resumable(t)
    ensures id in Resumable(t) && Resumed(Lookup(t, id), max, w) == Life([], Raised(NotResumable)) <==>
      t[id].status == Pending && t[id].attempt > 0
  {
    var x := t[id];
    if x.status in {Running, Retrying} {
      var life := Attempts(x, x.plan, Max(1, x.attempt), max, w);
      assert x.status == Retrying ==> Resumed(Some(x), max, w).events != [];
      assert x.status == Running ==> Resumed(Some(x), max, w) == life;
      if Max(1, x.attempt) <= max {
        var turn := TurnOf(x, x.plan, Max(1, x.attempt), max, w);
        assert (if turn.Ends? then turn.life.events else turn.events)[0] == Wrote(Started(x, Max(1, x.attempt), x.plan));
      }
    }
  }

  /** When another writer has moved the record on, a checkpoint made from the loop's old copy is refused;
      `_transition` is not: it goes through exactly when the record's new status allows it. */
  lemma StaleCopies(g: Graph, t: Table, copy: Execution, status: Status, u: Updates)
    requires Keyed(t) && copy.id in t && copy.id != "" && t[copy.id].version != copy.version
    ensures CasOutcome(g, t, copy.(status := status), copy.version, None, None, None) == Failure(VersionConflict)
    ensures Outcome(g, t, Transition(copy.id, status, u)).Success? <==> CanTransition(g, t[copy.id].status, status)
  {
  }

  /** So a stale loop can overwrite another worker's plan. */
  lemma StaleLoopOverwrites(copy: Execution, theirs: Value, ours: Value) returns (t: Table)
    requires copy.id != "" && copy.status == Retrying
    ensures copy.id in t && t[copy.id].version > copy.version && t[copy.id].plan == theirs
    ensures var r := Outcome(DEFAULT, t, Transition(copy.id, Running, Updates(Some(copy.attempt + 1), Some(ours), None, Some(None))));
      r.Success? && r.value.plan == ours && r.value.version == t[copy.id].version + 1
  {
    t := map[copy.id := Moved(copy, Running, copy.attempt + 1, theirs, copy.result, None)];
  }
}
