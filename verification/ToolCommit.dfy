/** The cross-layer commit (runtime/tool_execution_coordinator.py:55-76): the tool outcome through the boundary
    first, then the execution through its commit protocol. */
module ToolCommit {
  import opened Base
  import opened StateMachine
  import opened ExecutionStore
  import opened ToolBoundary
  import opened ExecutionCommit
  import I = ToolIntents
  import R = CommitRecovery
  import L = RecoveryLimits
  import E = CommitEffects

  /** Everything durable under both layers. */
  datatype Whole = Whole(tools: ToolDisk, executions: Disk)

  datatype Call = Call(state: Execution, tool: BoundaryCall, status: Option<Status>)

  datatype Answer = Answer(tool: BoundaryCommit, execution: Option<Reply>)

  /** The caller's status, unless it is missing or empty. */
  function Target(c: Call): Status {
    if c.status.Some? && c.status.value != Named("") then c.status.value
    else if c.tool.ok then Completed else Failed
  }

  function RequestOf(c: Call, b: BoundaryCommit): Request {
    Request(c.state, Target(c), if c.tool.ok then b.value else Null, if c.tool.ok then None else b.error)
  }

  function WithTools(path: seq<ToolDisk>, e: Disk): (whole: seq<Whole>)
    ensures |whole| == |path| && forall i :: 0 <= i < |path| ==> whole[i] == Whole(path[i], e)
  {
    seq(|path|, i requires 0 <= i < |path| => Whole(path[i], e))
  }

  function WithExecutions(t: ToolDisk, path: seq<Disk>): (whole: seq<Whole>)
    ensures |whole| == |path| && forall i :: 0 <= i < |path| ==> whole[i] == Whole(t, path[i])
  {
    seq(|path|, i requires 0 <= i < |path| => Whole(t, path[i]))
  }

  /** The durable states of one call; a crash leaves one of them behind. */
  function Path(cfg: Config, d: Whole, when: int, c: Call): (path: seq<Whole>)
    ensures path != []
  {
    var tools := BoundaryPath(d.tools, when, c.tool);
    var b := BoundaryReply(d.tools, when, c.tool);
    WithTools(tools, d.executions) +
    (if b.Failure? || !b.value.committed then []
     else WithExecutions(Last(tools), CommitPath(cfg, d.executions, RequestOf(c, b.value))))
  }

  function AnswerOf(cfg: Config, d: Whole, when: int, c: Call): Result<Answer, BoundaryError> {
    match BoundaryReply(d.tools, when, c.tool)
    case Failure(e) => Failure(e)
    case Success(b) =>
      Success(Answer(b, if b.committed then Some(CommitReply(cfg, d.executions, RequestOf(c, b))) else None))
  }

  class ToolCoordinator {
    const boundary: Boundary
    const executions: Coordinator

    constructor (boundary: Boundary, executions: Coordinator)
      ensures this.boundary == boundary && this.executions == executions
    {
      this.boundary := boundary;
      this.executions := executions;
    }

    ghost function OnDisk(): Whole
      reads boundary.results`data, boundary.intents`data
      reads executions.store`data, executions.audit`events, executions.journal`lines
    {
      Whole(boundary.OnDisk(), executions.OnDisk())
    }

    method Commit(when: int, clock: nat -> int, c: Call)
      returns (answer: Result<Answer, BoundaryError>, ghost path: seq<Whole>)
      modifies boundary.results`data, boundary.intents`data
      modifies executions.store`data, executions.audit`events, executions.journal`lines
      ensures path == Path(executions.Cfg(clock), old(OnDisk()), when, c) && OnDisk() == Last(path)
      ensures answer == AnswerOf(executions.Cfg(clock), old(OnDisk()), when, c)
    {
      ghost var tools, rest;
      var b, reply;
      b, tools := boundary.Commit(when, c.tool);
      path := WithTools(tools, executions.OnDisk());
      if b.Failure? { return Failure(b.error), path; }
      if !b.value.committed { return Success(Answer(b.value, None)), path; }
      var ok, target := c.tool.ok, Target(c);
      reply, rest := executions.Commit(clock, c.state, target, if ok then b.value.value else Null, if ok then None else b.value.error);
      path := path + WithExecutions(Last(tools), rest);
      return Success(Answer(b.value, Some(reply))), path;
    }
  }

  // ---------------------------------------------------------------- what a call writes

  /** What a call asks of the execution layer: the status it names, or the one its own outcome suggests; with the
      stored value if it succeeded, and the stored error if it failed. */
  function Asked(c: Call, s: StoredResult): Request {
    Request(c.state,
            if c.status.Some? && Text(c.status.value) != "" then c.status.value else if c.tool.ok then Completed else Failed,
            if c.tool.ok then s.value else Null,
            if c.tool.ok then None else s.error)
  }

  lemma CommittedCall(cfg: Config, d: Whole, when: int, c: Call, b: BoundaryCommit, q: Request)
    requires BoundaryReply(d.tools, when, c.tool) == Success(b) && b.committed && RequestOf(c, b) == q
    ensures Last(Path(cfg, d, when, c)) == Whole(Last(BoundaryPath(d.tools, when, c.tool)), Last(CommitPath(cfg, d.executions, q)))
  {
  }

  /** A call under a live claim leaves both layers settled: the first outcome stored, the intent in that outcome's
      state, the execution moved to the call's target, with one audit event about it. */
  lemma CallLeaves(cfg: Config, d: Whole, when: int, c: Call, s: StoredResult)
    requires if c.tool.key in d.tools.results then s == d.tools.results[c.tool.key] && s.tool == c.tool.tool else Reports(s, c.tool)
    requires I.LiveClaim(d.tools.intents, c.tool.key, c.tool.owner, c.tool.token, when)
    requires R.Fresh(cfg, d.executions, Asked(c, s))
    ensures var d', key := Last(Path(cfg, d, when, c)), c.tool.key;
      && key in d'.tools.results && d'.tools.results[key] == s
      && key in d'.tools.intents && d'.tools.intents[key].state == (if s.ok then I.Completed else I.Failed)
      && E.GoesThrough(d.executions, Asked(c, s), d'.executions)
  {
    BoundarySettles(d.tools, when, c.tool);
    CommittedCall(cfg, d, when, c, BoundaryReply(d.tools, when, c.tool).value, Asked(c, s));
    E.WhatACommitLeaves(cfg, d.executions, Asked(c, s));
  }

  lemma UncommittedCall(cfg: Config, d: Whole, when: int, c: Call)
    requires var b := BoundaryReply(d.tools, when, c.tool); b.Failure? || !b.value.committed
    ensures Last(Path(cfg, d, when, c)) == Whole(Last(BoundaryPath(d.tools, when, c.tool)), d.executions)
  {
    assert Path(cfg, d, when, c) == WithTools(BoundaryPath(d.tools, when, c.tool), d.executions);
  }

  /** A call that holds the claim is told the stored outcome and the reply of its execution commit. */
  lemma ClaimantIsTold(cfg: Config, d: Whole, when: int, c: Call)
    requires Licensed(d.tools, when, c.tool)
    ensures var d', a := Last(Path(cfg, d, when, c)), AnswerOf(cfg, d, when, c);
      && c.tool.key in d'.tools.results && a.Success?
      && a.value.tool.committed && AnswersStored(a.value.tool, d'.tools.results[c.tool.key])
      && a.value.execution == Some(CommitReply(cfg, d.executions, Asked(c, d'.tools.results[c.tool.key])))
  {
    BoundarySettles(d.tools, when, c.tool);
    var b := BoundaryReply(d.tools, when, c.tool).value;
    CommittedCall(cfg, d, when, c, b, RequestOf(c, b));
  }

  /** Any other call is told the stored outcome alone, or that another tool has the key, and touches no execution. */
  lemma OthersAreTold(cfg: Config, d: Whole, when: int, c: Call)
    requires !Licensed(d.tools, when, c.tool)
    ensures var d', a, key := Last(Path(cfg, d, when, c)), AnswerOf(cfg, d, when, c), c.tool.key;
      && d'.executions == d.executions
      && if key in d.tools.results && d.tools.results[key].tool != c.tool.tool then a == Failure(OtherTool) && d' == d
         else
           && key in d'.tools.results && a.Success?
           && !a.value.tool.committed && AnswersStored(a.value.tool, d'.tools.results[key]) && a.value.execution.None?
  {
    BoundarySettles(d.tools, when, c.tool);
    UncommittedCall(cfg, d, when, c);
  }

  // ---------------------------------------------------------------- the order

  /** The intent is finalised and agrees with the durable result. */
  predicate Settled(t: ToolDisk, key: string) {
    key in t.results && key in t.intents && t.intents[key].state == TerminalFor(t.results[key].ok)
  }

  /** The claim is live and the key's result, if there is one, comes from the same tool. */
  predicate Licensed(t: ToolDisk, when: int, b: BoundaryCall) {
    && (b.key in t.results ==> t.results[b.key].tool == b.tool)
    && I.LiveClaim(t.intents, b.key, b.owner, b.token, when)
  }

  /** In every crash prefix, an execution layer that has been touched at all stands on a finalised intent and a
      durable result that agree; and it is reached exactly by a licensed call.  A fenced one leaves it alone. */
  lemma ToolFirst(cfg: Config, d: Whole, when: int, c: Call, k: nat)
    requires k < |Path(cfg, d, when, c)|
    ensures Path(cfg, d, when, c)[k].executions != d.executions ==>
      Settled(Path(cfg, d, when, c)[k].tools, c.tool.key) && Licensed(d.tools, when, c.tool)
    ensures !Licensed(d.tools, when, c.tool) ==> Path(cfg, d, when, c)[k].executions == d.executions
    ensures Licensed(d.tools, when, c.tool) <==>
      AnswerOf(cfg, d, when, c).Success? && AnswerOf(cfg, d, when, c).value.execution.Some?
  {
    var tools := BoundaryPath(d.tools, when, c.tool);
    var b := BoundaryReply(d.tools, when, c.tool);
    if b.Success? && b.value.committed {
      assert Settled(Last(tools), c.tool.key);
    }
  }

  /** Once the intent of a key is final and unclaimed, no call for the key reaches the execution layer or
      changes the ledger, whoever makes it. */
  lemma SecondCallStaysOut(cfg: Config, d: Whole, when: int, c: Call, k: nat)
    requires c.tool.key in d.tools.intents && d.tools.intents[c.tool.key].owner.None?
    requires k < |Path(cfg, d, when, c)|
    ensures Path(cfg, d, when, c)[k].executions == d.executions && Path(cfg, d, when, c)[k].tools.intents == d.tools.intents
  {
    ToolFirst(cfg, d, when, c, k);
  }

  // ---------------------------------------------------------------- what may come after a crash

  /** Another call of the coordinator, killed after `stop` durable states if it gets that far; or a recovery
      pass, whole or killed. */
  datatype Later = CallAgain(cfg: Config, when: int, c: Call, stop: nat) | Recovery(crash: R.CrashedPass)

  function AfterOne(w: Whole, l: Later): Whole {
    match l
    case CallAgain(cfg, when, c, stop) =>
      var path := Path(cfg, w, when, c);
      path[if stop < |path| then stop else |path| - 1]
    case Recovery(crash) => w.(executions := R.AfterCrash(w.executions, crash))
  }

  function AfterAll(w: Whole, ls: seq<Later>): Whole
    decreases |ls|
  {
    if ls == [] then w else AfterAll(AfterOne(w, ls[0]), ls[1..])
  }

  predicate OfKey(ls: seq<Later>, key: string) {
    forall i :: 0 <= i < |ls| && ls[i].CallAgain? ==> ls[i].c.tool.key == key
  }

  function PassesOf(ls: seq<Later>): seq<R.CrashedPass>
    decreases |ls|
  {
    if ls == [] then [] else (if ls[0].Recovery? then [ls[0].crash] else []) + PassesOf(ls[1..])
  }

  /** The tool layer of the key is finished: the outcome is settled and nobody holds a claim. */
  predicate Finished(t: ToolDisk, key: string) {
    Settled(t, key) && t.intents[key].owner.None?
  }

  lemma CallAgainChangesNothing(w: Whole, cfg: Config, when: int, c: Call, stop: nat)
    requires Finished(w.tools, c.tool.key)
    ensures var v := AfterOne(w, CallAgain(cfg, when, c, stop));
      v.executions == w.executions && Finished(v.tools, c.tool.key)
  {
    var path := Path(cfg, w, when, c);
    var k := if stop < |path| then stop else |path| - 1;
    SecondCallStaysOut(cfg, w, when, c, k);
    assert c.tool.key in path[k].tools.results && path[k].tools.results[c.tool.key] == w.tools.results[c.tool.key];
  }

  /** However calls for the key and recovery passes are mixed, only the passes count. */
  lemma {:induction false} OnlyPassesCount(w: Whole, ls: seq<Later>, key: string)
    requires Finished(w.tools, key) && OfKey(ls, key)
    ensures AfterAll(w, ls).executions == R.AfterCrashes(w.executions, PassesOf(ls)) && Finished(AfterAll(w, ls).tools, key)
    decreases |ls|
  {
    if ls != [] {
      match ls[0]
      case CallAgain(cfg, when, c, stop) =>
        CallAgainChangesNothing(w, cfg, when, c, stop);
        OnlyPassesCount(AfterOne(w, ls[0]), ls[1..], key);
        assert [] + PassesOf(ls[1..]) == PassesOf(ls[1..]);
      case Recovery(crash) =>
        OnlyPassesCount(AfterOne(w, ls[0]), ls[1..], key);
        assert PassesOf(ls)[1..] == PassesOf(ls[1..]);
    }
  }

  /** So a crash between the layers is not made good: with the outcome settled and nothing pending about an
      execution, no sequence of calls for the key and recovery passes ever changes the execution. */
  lemma LostBetweenTheLayers(w: Whole, ls: seq<Later>, key: string, e: string)
    requires Finished(w.tools, key) && OfKey(ls, key) && L.Bystander(w.executions, e)
    ensures L.Same(e, w.executions.executions, AfterAll(w, ls).executions.executions)
    ensures L.Bystander(AfterAll(w, ls).executions, e)
  {
    OnlyPassesCount(w, ls, key);
    L.CrashedPassesOfOthers(w.executions, PassesOf(ls), e);
  }

  // ---------------------------------------------------------------- agreement

  /** The execution target says what the intent says. */
  predicate SaysTheSame(s: Status, i: I.IntentState) {
    (s == Completed && i == I.Completed) || (s == Failed && i == I.Failed)
  }

  /** The default target agrees with the finalised intent exactly when the durable result has the caller's
      `ok`; if so, value or error travel up from the durable result. */
  lemma DefaultTargetAgreesIff(d: Whole, when: int, c: Call)
    requires Licensed(d.tools, when, c.tool) && c.status.None?
    ensures var t := Last(BoundaryPath(d.tools, when, c.tool));
      var b := BoundaryReply(d.tools, when, c.tool).value;
      && c.tool.key in t.results && c.tool.key in t.intents
      && (SaysTheSame(Target(c), t.intents[c.tool.key].state) <==> t.results[c.tool.key].ok == c.tool.ok)
      && (t.results[c.tool.key].ok == c.tool.ok ==>
            RequestOf(c, b).checkpoint == (if c.tool.ok then t.results[c.tool.key].value else Null)
            && RequestOf(c, b).reason == (if c.tool.ok then None else t.results[c.tool.key].error))
  {
  }

  /** It can happen: an earlier failure is durable, a caller with the live claim reports success, and the
      execution is asked to complete over a failed intent. */
  lemma TheyCanDisagree(c: Call, i: I.Intent, when: int) returns (d: ToolDisk)
    requires c.tool.ok && c.status.None? && i.key == c.tool.key
    requires I.HeldBy(i, c.tool.owner, c.tool.token) && i.expires == Some(when + 1)
    ensures Licensed(d, when, c.tool)
    ensures var t := Last(BoundaryPath(d, when, c.tool));
      Target(c) == Completed && c.tool.key in t.intents && t.intents[c.tool.key].state == I.Failed
  {
    var failed := Offered(c.tool).(ok := false, value := Null, error := Some("boom"));
    d := ToolDisk(map[c.tool.key := failed], map[c.tool.key := i]);
  }

  // ---------------------------------------------------------------- both layers, crash and recovery

  lemma SettledAtTheEnd(t: ToolDisk, when: int, b: BoundaryCall)
    requires Licensed(t, when, b)
    ensures |BoundaryPath(t, when, b)| == 3 && Settled(Last(BoundaryPath(t, when, b)), b.key)
    ensures BoundaryReply(t, when, b).Success? && BoundaryReply(t, when, b).value.committed
  {
  }

  lemma PathOf(cfg: Config, d: Whole, when: int, c: Call, q: Request, j: nat)
    requires Licensed(d.tools, when, c.tool) && q == RequestOf(c, BoundaryReply(d.tools, when, c.tool).value)
    ensures var path := Path(cfg, d, when, c);
      var t := Last(BoundaryPath(d.tools, when, c.tool));
      var commits := CommitPath(cfg, d.executions, q);
      && |path| == 3 + |commits| && Last(path) == Whole(t, Last(commits))
      && (j < |commits| ==> path[3 + j] == Whole(t, commits[j]))
  {
    SettledAtTheEnd(d.tools, when, c.tool);
    var tools := BoundaryPath(d.tools, when, c.tool);
    var a := WithTools(tools, d.executions);
    var b := WithExecutions(Last(tools), CommitPath(cfg, d.executions, q));
    assert Path(cfg, d, when, c) == a + b;
  }

  /** The execution is finished as the settled tool outcome has it. */
  predicate SaysAndShows(x: Execution, t: ToolDisk, b: BoundaryCall)
    requires Settled(t, b.key)
  {
    && SaysTheSame(x.status, t.intents[b.key].state) && !IsResumable(x)
    && (b.ok ==> x.result == t.results[b.key].value)
    && (!b.ok ==> x.error == t.results[b.key].error)
  }

  lemma DefaultTargetFinishes(d: Whole, when: int, c: Call, x: Execution)
    requires Licensed(d.tools, when, c.tool) && c.status.None?
    requires var q := RequestOf(c, BoundaryReply(d.tools, when, c.tool).value);
      x == NextState(q.state, q.to, q.checkpoint, q.reason).(version := q.state.version + 1)
    ensures var t := Last(BoundaryPath(d.tools, when, c.tool));
      Settled(t, c.tool.key) && (t.results[c.tool.key].ok == c.tool.ok ==> SaysAndShows(x, t, c.tool))
  {
    DefaultTargetAgreesIff(d, when, c);
  }

  /** From `crashed`, killed recovery passes and then a whole one reach `uncrashed`; and with the default
      target and the caller's `ok` in the durable result, both layers say the same. */
  ghost predicate Recovers(final: Config, crashes: seq<R.CrashedPass>, c: Call, crashed: Whole, uncrashed: Whole) {
    var left := R.AfterCrashes(crashed.executions, crashes);
    var p := Pass(final, left, R.Todo(left));
    var e := c.state.id;
    && crashed.tools == uncrashed.tools && Settled(crashed.tools, c.tool.key)
    && p.raised.None? && e in p.disk.executions && e in uncrashed.executions.executions
    && p.disk.executions[e] == uncrashed.executions.executions[e]
    && (c.status.None? && crashed.tools.results[c.tool.key].ok == c.tool.ok ==>
          SaysAndShows(p.disk.executions[e], crashed.tools, c.tool))
  }

  /** A licensed call whose request the execution layer can carry out, killed after any durable write past the
      journal append, then any number of killed recovery passes, then a whole one: the execution is where the
      uncrashed call takes it, on top of a settled tool outcome; and when the default target is used and the
      durable result has the caller's `ok`, it says what the intent says and carries the durable value. */
  lemma CrashedCallRecovers(cfg: Config, d: Whole, when: int, c: Call, q: Request, k: nat, crashes: seq<R.CrashedPass>,
                            final: Config)
    requires Licensed(d.tools, when, c.tool)
    requires q == RequestOf(c, BoundaryReply(d.tools, when, c.tool).value) && R.Fresh(cfg, d.executions, q)
    requires 4 <= k <= 7
    requires forall i :: 0 <= i < |crashes| ==> crashes[i].cfg.machine == cfg.machine
    requires final.machine == cfg.machine && R.Holds(final, c.state.id)
    ensures |Path(cfg, d, when, c)| == 8
    ensures Recovers(final, crashes, c, Path(cfg, d, when, c)[k], Last(Path(cfg, d, when, c)))
  {
    R.CommitGoesThroughTheStages(cfg, d.executions, q);
    PathOf(cfg, d, when, c, q, k - 3);
    RecoversFrom(cfg, d, when, c, q, k - 3, crashes, final, Path(cfg, d, when, c)[k], Last(Path(cfg, d, when, c)));
  }

  lemma RecoversFrom(cfg: Config, d: Whole, when: int, c: Call, q: Request, j: nat, crashes: seq<R.CrashedPass>,
                     final: Config, crashed: Whole, uncrashed: Whole)
    requires Licensed(d.tools, when, c.tool) && q == RequestOf(c, BoundaryReply(d.tools, when, c.tool).value)
    requires R.Fresh(cfg, d.executions, q) && 1 <= j <= 4 && |CommitPath(cfg, d.executions, q)| == 5
    requires crashed == Whole(Last(BoundaryPath(d.tools, when, c.tool)), CommitPath(cfg, d.executions, q)[j])
    requires uncrashed == Whole(crashed.tools, Last(CommitPath(cfg, d.executions, q)))
    requires forall i :: 0 <= i < |crashes| ==> crashes[i].cfg.machine == cfg.machine
    requires final.machine == cfg.machine && R.Holds(final, c.state.id)
    ensures Recovers(final, crashes, c, crashed, uncrashed)
  {
    var left := R.AfterCrashes(crashed.executions, crashes);
    var x := NextState(q.state, q.to, q.checkpoint, q.reason).(version := q.state.version + 1);
    CrashEnds(cfg, d.executions, q, j, crashes, final, x);
    SettledAtTheEnd(d.tools, when, c.tool);
    if c.status.None? { DefaultTargetFinishes(d, when, c, x); }
  }

  predicate EndAt(p: PassState, uncrashed: Disk, x: Execution) {
    && p.raised.None? && x.id in p.disk.executions && x.id in uncrashed.executions
    && p.disk.executions[x.id] == uncrashed.executions[x.id] == x
  }

  lemma CrashEnds(cfg: Config, d: Disk, q: Request, j: nat, crashes: seq<R.CrashedPass>, final: Config, x: Execution)
    requires R.Fresh(cfg, d, q) && 1 <= j <= 4 && |CommitPath(cfg, d, q)| == 5
    requires forall i :: 0 <= i < |crashes| ==> crashes[i].cfg.machine == cfg.machine
    requires final.machine == cfg.machine && R.Holds(final, q.state.id)
    requires x == NextState(q.state, q.to, q.checkpoint, q.reason).(version := q.state.version + 1)
    ensures var left := R.AfterCrashes(CommitPath(cfg, d, q)[j], crashes);
      EndAt(Pass(final, left, R.Todo(left)), Last(CommitPath(cfg, d, q)), x)
  {
    R.CrashRefinement(cfg, d, q, j, crashes, final);
  }

  lemma AgreementOfCrash(cfg: Config, d: Whole, when: int, c: Call, q: Request, k: nat)
    requires Licensed(d.tools, when, c.tool) && q == RequestOf(c, BoundaryReply(d.tools, when, c.tool).value)
    requires R.Fresh(cfg, d.executions, q) && 2 <= k <= 7
    ensures var path := Path(cfg, d, when, c);
      && |path| == 8 && Finished(path[k].tools, c.tool.key)
      && path[k].executions == (if k < 4 then d.executions else CommitPath(cfg, d.executions, q)[k - 3])
      && Last(path).executions == Last(CommitPath(cfg, d.executions, q))
  {
    R.CommitGoesThroughTheStages(cfg, d.executions, q);
    SettledAtTheEnd(d.tools, when, c.tool);
    if k > 2 { PathOf(cfg, d, when, c, q, k - 3); } else { PathOf(cfg, d, when, c, q, 0); }
  }

  /** The execution as one last whole pass leaves it. */
  function Eventually(final: Config, w: Whole): Table {
    Pass(final, w.executions, R.Todo(w.executions)).disk.executions
  }

  /** Past the finalised intent, recovery commits the execution exactly when the crash came after the journal
      append: whatever calls for the key and recovery passes, whole or killed, come in between, one last whole
      pass with the lease leaves the execution where the uncrashed call takes it if and only if its record had
      been journalled; otherwise it leaves it where it was. */
  lemma RecoveredIff(cfg: Config, d: Whole, when: int, c: Call, q: Request, k: nat, ls: seq<Later>, final: Config)
    requires Licensed(d.tools, when, c.tool) && q == RequestOf(c, BoundaryReply(d.tools, when, c.tool).value)
    requires R.Fresh(cfg, d.executions, q) && 2 <= k <= 7 && OfKey(ls, c.tool.key)
    requires forall i :: 0 <= i < |PassesOf(ls)| ==> PassesOf(ls)[i].cfg.machine == cfg.machine
    requires final.machine == cfg.machine && R.Holds(final, q.state.id)
    ensures |Path(cfg, d, when, c)| == 8
    ensures var left, e := AfterAll(Path(cfg, d, when, c)[k], ls), q.state.id;
      var t, uncrashed := Eventually(final, left), Last(Path(cfg, d, when, c)).executions.executions;
      && Finished(left.tools, c.tool.key) && e in t && e in uncrashed
      && (t[e] == uncrashed[e] <==> k >= 4)
      && (k < 4 ==> t[e] == q.state)
  {
    AgreementOfCrash(cfg, d, when, c, q, k);
    var crashed := Path(cfg, d, when, c)[k];
    OnlyPassesCount(crashed, ls, c.tool.key);
    R.CrashRefinement(cfg, d.executions, q, if k < 4 then 1 else k - 3, PassesOf(ls), final);
    if k < 4 { NotJournalledNotRecovered(d.executions, PassesOf(ls), final, q.state.id); }
  }

  lemma NotJournalledNotRecovered(d: Disk, crashes: seq<R.CrashedPass>, final: Config, e: string)
    requires L.Bystander(d, e)
    ensures var left := R.AfterCrashes(d, crashes); L.Same(e, d.executions, Pass(final, left, R.Todo(left)).disk.executions)
  {
    L.CrashedPassesOfOthers(d, crashes, e);
    var left := R.AfterCrashes(d, crashes);
    L.TodoOfOthers(left, e);
    L.PassOfOthers(final, left, R.Todo(left), e);
  }
}
