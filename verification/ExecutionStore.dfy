/** The versioned compare-and-set store (runtime/execution_store.py).

    A stored execution is a value; the store's durable dictionary is a map.  Every locked
    read-modify-write of the file is one assignment to `data`. */
module ExecutionStore {
  import opened Base
  import opened StateMachine

  datatype Execution = Execution(
    id: string, status: Status, goal: string, attempt: int, plan: Value,
    result: Value, error: Option<string>, correlationId: Option<string>, version: nat)

  type Table = map<string, Execution>

  /** A fencing validator: execution id and token to verdict. */
  type Fence = (string, Option<nat>) -> bool

  datatype StoreError =
    | EmptyId | BadVersion | UnknownExecution
    | VersionConflict | StatusConflict | MissingValidator | StaleToken | IllegalTransition

  /** The keyword updates a transition may carry. */
  datatype Updates = Updates(attempt: Option<int>, plan: Option<Value>, result: Option<Value>, error: Option<Option<string>>)

  datatype StoreOp =
    | Save(state: Execution)
    | Cas(state: Execution, expectedVersion: int, expectedStatus: Option<Status>,
          token: Option<nat>, validator: Option<Fence>)
    | Transition(id: string, status: Status, updates: Updates)
    | FencedTransition(id: string, status: Status, expectedVersion: int, expectedStatus: Option<Status>,
                       token: Option<nat>, validator: Option<Fence>, updates: Updates)

  function NewExecution(id: string): Execution {
    Execution(id, Pending, "", 0, Null, Null, None, None, 0)
  }

  function Version(t: Table, id: string): nat {
    if id in t then t[id].version else 0
  }

  function StatusOf(t: Table, id: string): Status {
    if id in t then t[id].status else Pending
  }

  function Updated(s: Execution, status: Status, u: Updates): Execution {
    s.(status := status,
       attempt := u.attempt.GetOr(s.attempt),
       plan := u.plan.GetOr(s.plan),
       result := u.result.GetOr(s.result),
       error := u.error.GetOr(s.error))
  }

  /** What `_save_unlocked` returns: the stored record, or the first check that fails. */
  function SaveOutcome(g: Graph, t: Table, s: Execution, expectedVersion: Option<nat>, validate: bool,
                       expectedStatus: Option<Status>, token: Option<nat>, validator: Option<Fence>)
    : (r: Result<Execution, StoreError>)
  {
    if s.id == "" then Failure(EmptyId)
    else if expectedVersion.Some? && Version(t, s.id) != expectedVersion.value then Failure(VersionConflict)
    else if expectedStatus.Some? && StatusOf(t, s.id) != expectedStatus.value then Failure(StatusConflict)
    else if token.Some? && validator.None? then Failure(MissingValidator)
    else if validator.Some? && !validator.value(s.id, token) then Failure(StaleToken)
    else if s.id in t && validate && !CanTransition(g, t[s.id].status, s.status) then Failure(IllegalTransition)
    else Success(s.(version := Version(t, s.id) + 1))
  }

  function CasOutcome(g: Graph, t: Table, s: Execution, expectedVersion: int, expectedStatus: Option<Status>,
                      token: Option<nat>, validator: Option<Fence>): (r: Result<Execution, StoreError>)
  {
    if expectedVersion < 0 then Failure(BadVersion)
    else SaveOutcome(g, t, s, Some(expectedVersion), true, expectedStatus, token, validator)
  }

  /** The outcome of one store operation on the current table. */
  function Outcome(g: Graph, t: Table, op: StoreOp): (r: Result<Execution, StoreError>) {
    match op
    case Save(s) => SaveOutcome(g, t, s, None, false, None, None, None)
    case Cas(s, v, st, token, validator) => CasOutcome(g, t, s, v, st, token, validator)
    case Transition(id, status, u) =>
      if id !in t && status != Pending then Failure(UnknownExecution)
      else
        var s := if id in t then t[id] else NewExecution(id);
        SaveOutcome(g, t, Updated(s, status, u), Some(s.version), true, None, None, None)
    case FencedTransition(id, status, v, st, token, validator, u) =>
      if v < 0 then Failure(BadVersion)
      else if id !in t then Failure(UnknownExecution)
      else if t[id].version != v then Failure(VersionConflict)
      else if st.Some? && t[id].status != st.value then Failure(StatusConflict)
      else SaveOutcome(g, t, Updated(t[id], status, u), Some(v), true, st, token, validator)
  }

  function Stored(t: Table, r: Result<Execution, StoreError>): Table {
    if r.Success? then t[r.value.id := r.value] else t
  }

  function After(g: Graph, t: Table, op: StoreOp): Table {
    Stored(t, Outcome(g, t, op))
  }

  /** Every record sits under its own id: what the store's own writes establish. */
  predicate Keyed(t: Table) {
    forall id :: id in t ==> t[id].id == id
  }

  predicate IsResumable(x: Execution) {
    x.status in {Running, Retrying} || (x.status == Pending && x.attempt > 0)
  }

  function Resumable(t: Table): (ids: set<string>) {
    set id | id in t && IsResumable(t[id])
  }

  /** What is listed: running and retrying executions, and pending ones that have had an attempt. */
  lemma ResumableIff(t: Table, id: string)
    ensures id in Resumable(t) <==>
      id in t && (t[id].status == Running || t[id].status == Retrying || (t[id].status == Pending && t[id].attempt > 0))
  {
  }

  // ---------------------------------------------------------------- when a write goes through

  /** A token needs a validator, and a validator has to accept execution and token. */
  predicate FenceOpen(id: string, token: Option<nat>, validator: Option<Fence>) {
    (token.Some? ==> validator.Some?) && (validator.Some? ==> validator.value(id, token))
  }

  /** A fenced transition is allowed: on the version and in the status the caller expects, behind the fence,
      along an edge. */
  predicate MayMove(g: Graph, t: Table, id: string, status: Status, expectedVersion: int,
                    expectedStatus: Option<Status>, token: Option<nat>, validator: Option<Fence>)
  {
    && 0 <= expectedVersion && id != "" && id in t && t[id].version == expectedVersion
    && (expectedStatus.Some? ==> t[id].status == expectedStatus.value)
    && FenceOpen(id, token, validator) && CanTransition(g, t[id].status, status)
  }

  /** A compare-and-set is allowed; an execution that is not stored counts as pending at version 0. */
  predicate MaySwap(g: Graph, t: Table, s: Execution, expectedVersion: int,
                    expectedStatus: Option<Status>, token: Option<nat>, validator: Option<Fence>)
  {
    && 0 <= expectedVersion && s.id != "" && FenceOpen(s.id, token, validator)
    && (if s.id in t then
          && t[s.id].version == expectedVersion && CanTransition(g, t[s.id].status, s.status)
          && (expectedStatus.Some? ==> t[s.id].status == expectedStatus.value)
        else expectedVersion == 0 && (expectedStatus.Some? ==> expectedStatus.value == Pending))
  }

  /** A plain transition is allowed; it creates pending executions only. */
  predicate MayStep(g: Graph, t: Table, id: string, status: Status) {
    id != "" && if id in t then CanTransition(g, t[id].status, status) else status == Pending
  }

  /** `y` is `x` with this status and these updates. */
  predicate Follows(x: Execution, y: Execution, status: Status, u: Updates) {
    && y.id == x.id && y.status == status && y.goal == x.goal && y.correlationId == x.correlationId
    && y.attempt == (if u.attempt.Some? then u.attempt.value else x.attempt)
    && y.plan == (if u.plan.Some? then u.plan.value else x.plan)
    && y.result == (if u.result.Some? then u.result.value else x.result)
    && y.error == (if u.error.Some? then u.error.value else x.error)
    && y.version == x.version + 1
  }

  /** `y` is `s` as the caller gave it, one version above what is stored. */
  predicate Copies(t: Table, s: Execution, y: Execution) {
    && y.id == s.id && y.status == s.status && y.goal == s.goal && y.attempt == s.attempt && y.plan == s.plan
    && y.result == s.result && y.error == s.error && y.correlationId == s.correlationId
    && y.version == (if s.id in t then t[s.id].version else 0) + 1
  }

  /** Only the record of this id is another. */
  predicate OnlyAt(t: Table, id: string, t': Table) {
    id in t' && t' == t[id := t'[id]]
  }

  /** A fenced transition changes the table exactly when it is allowed, and then by its one record. */
  lemma FencedTransitionIff(g: Graph, t: Table, id: string, status: Status, expectedVersion: int,
                            expectedStatus: Option<Status>, token: Option<nat>, validator: Option<Fence>, u: Updates)
    requires Keyed(t)
    ensures var t' := After(g, t, FencedTransition(id, status, expectedVersion, expectedStatus, token, validator, u));
      && (t' != t <==> MayMove(g, t, id, status, expectedVersion, expectedStatus, token, validator))
      && (t' != t ==> OnlyAt(t, id, t') && Follows(t[id], t'[id], status, u))
  {
    var t' := After(g, t, FencedTransition(id, status, expectedVersion, expectedStatus, token, validator, u));
    assert MayMove(g, t, id, status, expectedVersion, expectedStatus, token, validator) ==> t'[id].version != t[id].version;
  }

  /** The same for a compare-and-set. */
  lemma CompareAndSetIff(g: Graph, t: Table, s: Execution, expectedVersion: int,
                         expectedStatus: Option<Status>, token: Option<nat>, validator: Option<Fence>)
    ensures var t' := After(g, t, Cas(s, expectedVersion, expectedStatus, token, validator));
      && (t' != t <==> MaySwap(g, t, s, expectedVersion, expectedStatus, token, validator))
      && (t' != t ==> OnlyAt(t, s.id, t') && Copies(t, s, t'[s.id]))
  {
    var t' := After(g, t, Cas(s, expectedVersion, expectedStatus, token, validator));
    assert MaySwap(g, t, s, expectedVersion, expectedStatus, token, validator) && s.id in t ==> t'[s.id].version != t[s.id].version;
  }

  /** The same for a plain transition. */
  lemma TransitionIff(g: Graph, t: Table, id: string, status: Status, u: Updates)
    requires Keyed(t)
    ensures var t' := After(g, t, Transition(id, status, u));
      && (t' != t <==> MayStep(g, t, id, status))
      && (t' != t ==> OnlyAt(t, id, t') && Follows(if id in t then t[id] else NewExecution(id), t'[id], status, u))
  {
    var t' := After(g, t, Transition(id, status, u));
    assert MayStep(g, t, id, status) && id in t ==> t'[id].version != t[id].version;
  }

  /** A new execution is pending at attempt 0, with nothing in it. */
  lemma NewExecutionIs(id: string)
    ensures var x := NewExecution(id);
      && x.id == id && x.status == Pending && x.attempt == 0 && x.version == 0 && x.goal == ""
      && x.plan == x.result == Null && x.error.None? && x.correlationId.None?
  {
  }

  /** An unvalidated save needs a name, nothing else. */
  lemma SaveIff(g: Graph, t: Table, s: Execution)
    ensures var t' := After(g, t, Save(s));
      && (t' != t <==> s.id != "")
      && (t' != t ==> OnlyAt(t, s.id, t') && Copies(t, s, t'[s.id]))
  {
    var t' := After(g, t, Save(s));
    assert s.id != "" && s.id in t ==> t'[s.id].version != t[s.id].version;
  }

  /** Why a fenced transition is refused: the first of these in the source's order. */
  predicate FencedRefusal(g: Graph, t: Table, id: string, status: Status, v: int, st: Option<Status>,
                          token: Option<nat>, validator: Option<Fence>, e: StoreError)
  {
    match e
    case BadVersion => v < 0
    case UnknownExecution => 0 <= v && id !in t
    case VersionConflict => 0 <= v && id in t && t[id].version != v
    case StatusConflict => 0 <= v && id in t && t[id].version == v && st.Some? && t[id].status != st.value
    case EmptyId => 0 <= v && id == "" && id in t && t[id].version == v && (st.Some? ==> t[id].status == st.value)
    case MissingValidator => token.Some? && validator.None?
    case StaleToken => validator.Some? && !validator.value(id, token)
    case IllegalTransition => id in t && !CanTransition(g, t[id].status, status) && FenceOpen(id, token, validator)
  }

  /** The same for a compare-and-set. */
  predicate SwapRefusal(g: Graph, t: Table, s: Execution, v: int, st: Option<Status>,
                        token: Option<nat>, validator: Option<Fence>, e: StoreError)
  {
    var version, status := if s.id in t then t[s.id].version else 0, if s.id in t then t[s.id].status else Pending;
    match e
    case BadVersion => v < 0
    case EmptyId => 0 <= v && s.id == ""
    case VersionConflict => 0 <= v && s.id != "" && version != v
    case StatusConflict => s.id != "" && version == v && st.Some? && status != st.value
    case MissingValidator => version == v && token.Some? && validator.None?
    case StaleToken => version == v && validator.Some? && !validator.value(s.id, token)
    case IllegalTransition => version == v && s.id in t && !CanTransition(g, status, s.status) && FenceOpen(s.id, token, validator)
    case UnknownExecution => false
  }

  class Store {
    const machine: Graph
    var data: Table

    constructor (machine: Graph)
      ensures this.machine == machine && data == map[]
    {
      this.machine := machine;
      data := map[];
    }

    method SaveUnlocked(s: Execution, expectedVersion: Option<nat>, validate: bool, expectedStatus: Option<Status>,
                        token: Option<nat>, validator: Option<Fence>) returns (r: Result<Execution, StoreError>)
      modifies this`data
      ensures r == SaveOutcome(machine, old(data), s, expectedVersion, validate, expectedStatus, token, validator)
      ensures data == Stored(old(data), r)
    {
      if s.id == "" { return Failure(EmptyId); }
      var current := if s.id in data then data[s.id].version else 0;
      if expectedVersion.Some? && current != expectedVersion.value { return Failure(VersionConflict); }
      if expectedStatus.Some? && StatusOf(data, s.id) != expectedStatus.value { return Failure(StatusConflict); }
      if token.Some? && validator.None? { return Failure(MissingValidator); }
      if validator.Some? && !validator.value(s.id, token) { return Failure(StaleToken); }
      if s.id in data && validate && !CanTransition(machine, data[s.id].status, s.status) {
        return Failure(IllegalTransition);
      }
      var written := s.(version := current + 1);
      data := data[s.id := written];
      return Success(written);
    }

    method SaveState(s: Execution) returns (r: Result<Execution, StoreError>)
      modifies this`data
      ensures r == Outcome(machine, old(data), Save(s))
      ensures data == After(machine, old(data), Save(s))
      ensures s.id != "" ==> OnlyAt(old(data), s.id, data) && Copies(old(data), s, data[s.id]) && r == Success(data[s.id])
      ensures s.id == "" ==> r == Failure(EmptyId) && data == old(data)
    {
      r := SaveUnlocked(s, None, false, None, None, None);
    }

    method CompareAndSet(s: Execution, expectedVersion: int, expectedStatus: Option<Status>,
                         token: Option<nat>, validator: Option<Fence>) returns (r: Result<Execution, StoreError>)
      modifies this`data
      ensures r == CasOutcome(machine, old(data), s, expectedVersion, expectedStatus, token, validator)
      ensures data == Stored(old(data), r)
      ensures r.Success? <==> MaySwap(machine, old(data), s, expectedVersion, expectedStatus, token, validator)
      ensures r.Success? ==> OnlyAt(old(data), s.id, data) && Copies(old(data), s, data[s.id]) && r.value == data[s.id]
      ensures r.Failure? ==> SwapRefusal(machine, old(data), s, expectedVersion, expectedStatus, token, validator, r.error)
    {
      if expectedVersion < 0 { return Failure(BadVersion); }
      r := SaveUnlocked(s, Some(expectedVersion), true, expectedStatus, token, validator);
    }

    method MoveTo(id: string, status: Status, u: Updates) returns (r: Result<Execution, StoreError>)
      modifies this`data
      ensures r == Outcome(machine, old(data), Transition(id, status, u))
      ensures data == After(machine, old(data), Transition(id, status, u))
      ensures old(Keyed(data)) ==> (r.Success? <==> MayStep(machine, old(data), id, status))
      ensures r.Success? && old(Keyed(data)) ==>
        OnlyAt(old(data), id, data) && r.value == data[id]
        && Follows(if id in old(data) then old(data)[id] else NewExecution(id), data[id], status, u)
    {
      var state := NewExecution(id);
      if id in data {
        state := data[id];
      } else if status != Pending {
        return Failure(UnknownExecution);
      }
      state := Updated(state, status, u);
      r := SaveUnlocked(state, Some(state.version), true, None, None, None);
    }

    method MoveToFenced(id: string, status: Status, expectedVersion: int, expectedStatus: Option<Status>,
                        token: Option<nat>, validator: Option<Fence>, u: Updates)
      returns (r: Result<Execution, StoreError>)
      modifies this`data
      ensures r == Outcome(machine, old(data),
                           FencedTransition(id, status, expectedVersion, expectedStatus, token, validator, u))
      ensures data == Stored(old(data), r)
      ensures old(Keyed(data)) ==>
        (r.Success? <==> MayMove(machine, old(data), id, status, expectedVersion, expectedStatus, token, validator))
      ensures r.Success? && old(Keyed(data)) ==>
        OnlyAt(old(data), id, data) && Follows(old(data)[id], data[id], status, u) && r.value == data[id]
      ensures r.Failure? && old(Keyed(data)) ==>
        FencedRefusal(machine, old(data), id, status, expectedVersion, expectedStatus, token, validator, r.error)
    {
      if expectedVersion < 0 { return Failure(BadVersion); }
      if id !in data { return Failure(UnknownExecution); }
      var state := data[id];
      if state.version != expectedVersion { return Failure(VersionConflict); }
      if expectedStatus.Some? && state.status != expectedStatus.value { return Failure(StatusConflict); }
      r := SaveUnlocked(Updated(state, status, u), Some(expectedVersion), true, expectedStatus, token, validator);
    }
  }

  // ---------------------------------------------------------------- histories of operations

  function Run(g: Graph, t: Table, ops: seq<StoreOp>): Table
    decreases |ops|
  {
    if ops == [] then t else Run(g, After(g, t, ops[0]), ops[1..])
  }

  /** The records successfully written for execution `e`, in order. */
  function Writes(g: Graph, t: Table, ops: seq<StoreOp>, e: string): seq<Execution>
    decreases |ops|
  {
    if ops == [] then []
    else
      var r := Outcome(g, t, ops[0]);
      (if r.Success? && r.value.id == e then [r.value] else []) + Writes(g, After(g, t, ops[0]), ops[1..], e)
  }

  /** Exactly one execution is touched, exactly one version further; a refused operation touches none. */
  lemma OneStep(g: Graph, t: Table, op: StoreOp, e: string)
    requires Keyed(t)
    ensures Keyed(After(g, t, op))
    ensures var r := Outcome(g, t, op);
      if r.Success? && r.value.id == e
      then e in After(g, t, op) && After(g, t, op)[e] == r.value && r.value.version == Version(t, e) + 1
      else (e in After(g, t, op) <==> e in t) && (e in t ==> After(g, t, op)[e] == t[e])
  {
  }

  /** From table `t` on, the writes `w` of execution `e` carry consecutive versions, the last one is what the
      table `v` holds, and without a write nothing about the execution changes. */
  ghost predicate Consecutive(t: Table, w: seq<Execution>, e: string, v: Table) {
    && (forall i :: 0 <= i < |w| ==> w[i].id == e && w[i].version == Version(t, e) + i + 1)
    && (e in v <==> e in t || w != [])
    && (w != [] ==> v[e] == w[|w| - 1])
    && (w == [] && e in t ==> v[e] == t[e])
  }

  lemma ConsecutiveFromHere(g: Graph, t: Table, op: StoreOp, e: string, rest: seq<Execution>, v: Table)
    requires Keyed(t) && Consecutive(After(g, t, op), rest, e, v)
    ensures var r := Outcome(g, t, op);
      Consecutive(t, (if r.Success? && r.value.id == e then [r.value] else []) + rest, e, v)
  {
    OneStep(g, t, op, e);
    var r := Outcome(g, t, op);
    if r.Success? && r.value.id == e {
      ConsecutiveOnTop(t, r.value, After(g, t, op), rest, e, v);
    } else {
      assert [] + rest == rest;
    }
  }

  lemma ConsecutiveOnTop(t: Table, x: Execution, t': Table, rest: seq<Execution>, e: string, v: Table)
    requires Consecutive(t', rest, e, v) && e in t' && t'[e] == x && x.id == e && x.version == Version(t, e) + 1
    ensures Consecutive(t, [x] + rest, e, v)
  {
    var w := [x] + rest;
    forall i | 0 <= i < |w| ensures w[i].id == e && w[i].version == Version(t, e) + i + 1 {
      assert i > 0 ==> w[i] == rest[i - 1];
    }
    assert rest != [] ==> w[|w| - 1] == rest[|rest| - 1];
  }

  /** The i-th successful write of an execution carries version i+1 (counted from where it started), and the
      last one is what the store holds.  So no version is ever won twice. */
  lemma {:induction false} WritesAreNumbered(g: Graph, t: Table, ops: seq<StoreOp>, e: string)
    requires Keyed(t)
    ensures Consecutive(t, Writes(g, t, ops, e), e, Run(g, t, ops))
    decreases |ops|
  {
    if ops != [] {
      OneStep(g, t, ops[0], e);
      WritesAreNumbered(g, After(g, t, ops[0]), ops[1..], e);
      ConsecutiveFromHere(g, t, ops[0], e, Writes(g, After(g, t, ops[0]), ops[1..], e), Run(g, t, ops));
    }
  }

  ghost predicate Validated(ops: seq<StoreOp>) {
    forall i :: 0 <= i < |ops| ==> !ops[i].Save?
  }

  /** Each status is a legal successor of the one before it. */
  ghost predicate Linked(g: Graph, w: seq<Execution>) {
    forall i :: 0 < i < |w| ==> CanTransition(g, w[i - 1].status, w[i].status)
  }

  /** Under validated writes each stored status is a legal successor of the one before it. */
  lemma {:induction false} StatusesFollowTheGraph(g: Graph, t: Table, ops: seq<StoreOp>, e: string)
    requires Keyed(t) && Validated(ops)
    ensures var w := Writes(g, t, ops, e);
      && (w != [] && e in t ==> CanTransition(g, t[e].status, w[0].status))
      && Linked(g, w)
    decreases |ops|
  {
    if ops != [] {
      OneStep(g, t, ops[0], e);
      var t' := After(g, t, ops[0]);
      assert !ops[0].Save?;
      StatusesFollowTheGraph(g, t', ops[1..], e);
      var w, rest := Writes(g, t, ops, e), Writes(g, t', ops[1..], e);
      var r := Outcome(g, t, ops[0]);
      if r.Success? && r.value.id == e {
        assert w == [r.value] + rest;
        forall i | 0 < i < |w| ensures CanTransition(g, w[i - 1].status, w[i].status) {
          assert w[i] == rest[i - 1];
          assert i > 1 ==> w[i - 1] == rest[i - 2];
        }
      } else {
        assert w == rest;
      }
    }
  }

  /** In the default graph a completed execution stays completed under validated writes. */
  lemma {:induction false} CompletedIsForever(t: Table, ops: seq<StoreOp>, e: string, i: nat)
    requires Keyed(t) && Validated(ops) && i < |Writes(DEFAULT, t, ops, e)|
    requires Writes(DEFAULT, t, ops, e)[i].status == Completed
    ensures e in Run(DEFAULT, t, ops) && Run(DEFAULT, t, ops)[e].status == Completed
    ensures forall j :: i <= j < |Writes(DEFAULT, t, ops, e)| ==> Writes(DEFAULT, t, ops, e)[j].status == Completed
  {
    var w := Writes(DEFAULT, t, ops, e);
    StatusesFollowTheGraph(DEFAULT, t, ops, e);
    WritesAreNumbered(DEFAULT, t, ops, e);
    var j := i;
    while j + 1 < |w|
      invariant i <= j < |w|
      invariant forall k :: i <= k <= j ==> w[k].status == Completed
    {
      assert CanTransition(DEFAULT, w[j].status, w[j + 1].status);
      j := j + 1;
    }
  }

  /** However many operations lie between, a second compare-and-set against a version that was already
      won is a version conflict. */
  lemma OneWinnerPerVersion(g: Graph, t: Table, first: StoreOp, between: seq<StoreOp>, second: StoreOp)
    requires Keyed(t) && first.Cas? && second.Cas?
    requires first.state.id == second.state.id && first.expectedVersion == second.expectedVersion
    requires Outcome(g, t, first).Success?
    ensures Outcome(g, Run(g, After(g, t, first), between), second) == Failure(VersionConflict)
  {
    var t' := After(g, t, first);
    OneStep(g, t, first, first.state.id);
    WritesAreNumbered(g, t', between, first.state.id);
  }
}
