/** One executor: an in-memory cache over the durable result store and the intent ledger
    (runtime/tool_executor.py, runtime/execution_boundary_adapter.py).

    Other processes act between any two store operations of `Execute` and while the tool runs; what they do
    there is a parameter, bound only by the result store being first-writer-wins. */
module ToolExecutor {
  import opened Base
  import opened ToolBoundary
  import I = ToolIntents

  datatype ToolCall = ToolCall(tool: string, arguments: Value, callId: string, key: string)

  datatype ToolResult = ToolResult(
    callId: string, tool: string, ok: bool, value: Value, error: Option<string>,
    retryable: bool, key: string, ambiguous: bool)

  /** How the run of a tool ends for the executor. */
  datatype RunEnd = Returned(result: ToolResult) | Cancelled | Raised

  datatype Reply = Answer(result: ToolResult) | KeyConflict | WasCancelled | ToolRaised

  /** What other processes do to the stores in a gap. */
  type Others = ToolDisk -> ToolDisk

  ghost predicate KeepsResults(o: Others) {
    forall d: ToolDisk, k: string :: k in d.results ==> k in o(d).results && o(d).results[k] == d.results[k]
  }

  predicate Matches(stored: StoredResult, call: ToolCall) {
    stored.callId == call.callId && stored.tool == call.tool
    && (stored.arguments.None? || stored.arguments.value == call.arguments)
  }

  function FromStored(call: ToolCall, stored: StoredResult): ToolResult {
    ToolResult(call.callId, call.tool, stored.ok, stored.value, stored.error, false, stored.key, false)
  }

  function AlreadyClaimed(call: ToolCall): ToolResult {
    ToolResult(call.callId, call.tool, false, Null, Some("intent is already claimed"), false, call.key, false)
  }

  /** A cached result that later calls get back as it is. */
  predicate Settled(cache: map<string, ToolResult>, key: string) {
    key in cache && !cache[key].retryable
  }

  predicate SameOutcome(r: ToolResult, stored: StoredResult) {
    r.ok == stored.ok && r.value == stored.value && r.error == stored.error
  }

  /** Every settled, unambiguous cache entry is the stored outcome of its key. */
  ghost predicate CacheAgrees(cache: map<string, ToolResult>, d: Results) {
    forall k :: Settled(cache, k) && !cache[k].ambiguous ==> k in d && SameOutcome(cache[k], d[k])
  }

  // ---------------------------------------------------------------- one call, as a value

  type Cache = map<string, ToolResult>

  /** The stores an executor has, and the claim time of its ledger. */
  datatype Stores = Stores(results: bool, intents: bool, ttl: nat)

  /** How one `execute` ends: what is durable, what is cached, the reply; whether the tool ran, and whether the
      call was turned away because the claim was refused. */
  datatype End = End(disk: ToolDisk, cache: Cache, reply: Reply, ran: bool, refused: bool)

  datatype Acquisition = Held(disk: ToolDisk) | Early(end: End)

  /** The others act, on the stores that are there. */
  function Gap(st: Stores, others: Others, d: ToolDisk): ToolDisk {
    var after := others(d);
    ToolDisk(if st.results then after.results else d.results, if st.intents then after.intents else d.intents)
  }

  /** What a stored result answers to a call with its key. */
  function Recalled(d: Results, call: ToolCall): Option<Reply> {
    if call.key !in d then None
    else Some(if Matches(d[call.key], call) then Answer(FromStored(call, d[call.key])) else KeyConflict)
  }

  function Caching(cache: Cache, key: string, reply: Reply): Cache {
    if reply.Answer? then cache[key := reply.result] else cache
  }

  function Recall(cache: Cache, d: ToolDisk, call: ToolCall): Option<End> {
    var reply := Recalled(d.results, call);
    if reply.None? then None else Some(End(d, Caching(cache, call.key, reply.value), reply.value, false, false))
  }

  function NewIntent(call: ToolCall, executionId: Option<string>): I.Intent {
    I.Intent(call.key, call.callId, call.tool, call.arguments, executionId, I.Prepared, None, None, None)
  }

  function Prepared(d: I.Ledger, call: ToolCall, executionId: Option<string>): I.Ledger {
    if call.key in d then d else d[call.key := NewIntent(call, executionId)]
  }

  /** Gap 3 and the claim, with gaps 4 and 5 after a refusal. */
  function ClaimAt(st: Stores, cache: Cache, d: ToolDisk, call: ToolCall, owner: string, token: string,
                   gaps: nat -> Others, clock: nat -> int): Acquisition
  {
    var d3 := Gap(st, gaps(3), d);
    var claimed := I.Claimed(d3.intents, clock(3), st.ttl, call.key, owner, token);
    if claimed.Some? then Held(d3.(intents := d3.intents[call.key := claimed.value]))
    else
      var d4 := Gap(st, gaps(4), d3);
      var d5 := Gap(st, gaps(5), d4);
      var final := call.key in d4.intents && I.Terminal(d4.intents[call.key].state) && st.results;
      if final && Recall(cache, d5, call).Some? then Early(Recall(cache, d5, call).value)
      else Early(End(d5, cache, Answer(AlreadyClaimed(call)), false, true))
  }

  /** Gaps 1 and 2 around preparing the intent, then the claim. */
  function AcquireAt(st: Stores, cache: Cache, d: ToolDisk, call: ToolCall, executionId: Option<string>,
                     owner: string, token: string, gaps: nat -> Others, clock: nat -> int): Acquisition
  {
    var d1 := Gap(st, gaps(1), d);
    var prepared := Prepared(d1.intents, call, executionId);
    var d2 := Gap(st, gaps(2), d1.(intents := prepared));
    if I.Terminal(prepared[call.key].state) && st.results && Recall(cache, d2, call).Some?
    then Early(Recall(cache, d2, call).value)
    else ClaimAt(st, cache, d2, call, owner, token, gaps, clock)
  }

  function CallFor(call: ToolCall, owner: string, token: string, r: ToolResult): BoundaryCall {
    BoundaryCall(call.key, call.callId, call.tool, Some(call.arguments), owner, token, r.ok, r.value, r.error)
  }

  function ResultFor(call: ToolCall, r: ToolResult): StoredResult {
    StoredResult(call.key, call.callId, call.tool, r.ok, if r.ok then r.value else Null, r.error, Some(call.arguments))
  }

  function GivenBack(st: Stores, d: ToolDisk, key: string, owner: string, token: string): ToolDisk {
    if st.intents then d.(intents := I.Put(d.intents, key, I.Released(d.intents, key, owner, token, I.Ambiguous))) else d
  }

  predicate IsOpen(r: ToolResult) {
    r.ambiguous || r.retryable
  }

  /** What is durable once the tool has ended. */
  function Concluded(st: Stores, d: ToolDisk, when: int, call: ToolCall, owner: string, token: string, end: RunEnd): ToolDisk {
    match end
    case Raised => d
    case Cancelled => GivenBack(st, d, call.key, owner, token)
    case Returned(r) =>
      if IsOpen(r) then GivenBack(st, d, call.key, owner, token)
      else if st.results && st.intents then Last(BoundaryPath(d, when, CallFor(call, owner, token, r)))
      else if st.results then d.(results := PutIfAbsent(d.results, ResultFor(call, r)))
      else if st.intents then
        d.(intents := I.Put(d.intents, call.key, I.MarkedClaimed(d.intents, when, call.key, owner, token, TerminalFor(r.ok))))
      else d
  }

  function ReplyAt(st: Stores, d: ToolDisk, when: int, call: ToolCall, owner: string, token: string, end: RunEnd): Reply {
    match end
    case Raised => ToolRaised
    case Cancelled => WasCancelled
    case Returned(r) =>
      if IsOpen(r) then Answer(r)
      else if st.results && st.intents then
        var b := BoundaryReply(d, when, CallFor(call, owner, token, r));
        if b.Failure? then KeyConflict
        else Answer(ToolResult(call.callId, call.tool, b.value.ok, b.value.value, b.value.error, false, call.key, !b.value.committed))
      else if st.results then
        var kept := Kept(d.results, ResultFor(call, r));
        if kept.Success? && Matches(kept.value, call) then Answer(FromStored(call, kept.value)) else KeyConflict
      else Answer(r)
  }

  function ConcludeAt(st: Stores, cache: Cache, d: ToolDisk, when: int, call: ToolCall, owner: string, token: string,
                      end: RunEnd): (x: End)
    ensures x.ran && !x.refused && (x.reply.Answer? ==> call.key in x.cache && x.cache[call.key] == x.reply.result)
  {
    var reply := ReplyAt(st, d, when, call, owner, token, end);
    End(Concluded(st, d, when, call, owner, token, end), Caching(cache, call.key, reply), reply, true, false)
  }

  /** What the executor does before it prepares anything: gap 0 and the first lookup. */
  function LookAt(st: Stores, cache: Cache, d: ToolDisk, call: ToolCall): Option<End> {
    if st.results then Recall(cache, d, call) else None
  }

  function AnswerOf(end: RunEnd): Reply {
    match end
    case Returned(r) => Answer(r)
    case Cancelled => WasCancelled
    case Raised => ToolRaised
  }

  /** Claim, gap 6, run, conclude. */
  function RunAt(st: Stores, cache: Cache, d: ToolDisk, call: ToolCall, executionId: Option<string>,
                 owner: string, token: string, gaps: nat -> Others, clock: nat -> int, end: RunEnd): End
  {
    var a := if st.intents then AcquireAt(st, cache, d, call, executionId, owner, token, gaps, clock) else Held(d);
    match a
    case Early(x) => x
    case Held(d1) => ConcludeAt(st, cache, Gap(st, gaps(6), d1), clock(6), call, owner, token, end)
  }

  function LookedAt(st: Stores, cache: Cache, d: ToolDisk, call: ToolCall, executionId: Option<string>,
                    owner: string, token: string, gaps: nat -> Others, clock: nat -> int, end: RunEnd): End
  {
    var early := LookAt(st, cache, d, call);
    if early.Some? then early.value else RunAt(st, cache, d, call, executionId, owner, token, gaps, clock, end)
  }

  /** One `execute`. */
  function Executed(st: Stores, cache: Cache, d: ToolDisk, call: ToolCall, executionId: Option<string>,
                    owner: string, token: string, gaps: nat -> Others, clock: nat -> int, end: RunEnd): End
  {
    if call.key == "" then End(d, cache, AnswerOf(end), true, false)
    else if Settled(cache, call.key) then End(d, cache, Answer(cache[call.key]), false, false)
    else LookedAt(st, cache, Gap(st, gaps(0), d), call, executionId, owner, token, gaps, clock, end)
  }

  // ---------------------------------------------------------------- the executor

  class Executor {
    const results: ResultStore?
    const intents: I.IntentStore?
    const boundary: Boundary?
    var cache: Cache

    constructor (results: ResultStore?, intents: I.IntentStore?)
      ensures this.results == results && this.intents == intents && cache == map[] && Valid()
    {
      this.results := results;
      this.intents := intents;
      cache := map[];
      if results == null || intents == null {
        boundary := null;
      } else {
        boundary := new Boundary(intents, results);
      }
    }

    predicate Valid()
      reads this
    {
      if results == null || intents == null then boundary == null
      else boundary != null && boundary.results == results && boundary.intents == intents
    }

    function Its(): Stores {
      Stores(results != null, intents != null, if intents == null then 0 else intents.ttl)
    }

    function OnDisk(): ToolDisk
      reads this, results, intents
    {
      ToolDisk(if results == null then map[] else results.data, if intents == null then map[] else intents.data)
    }

    /** A gap: the others write. */
    method Yield(others: Others)
      requires Valid()
      modifies results, intents
      ensures Valid() && OnDisk() == Gap(Its(), others, old(OnDisk()))
    {
      var after := others(OnDisk());
      if results != null { results.data := after.results; }
      if intents != null { intents.data := after.intents; }
    }

    /** The stored result of the call's key, cached; or a conflict; or nothing stored. */
    method LookUp(call: ToolCall) returns (reply: Option<Reply>)
      requires Valid() && results != null && call.key != ""
      modifies this`cache
      ensures Valid() && reply == Recalled(results.data, call)
      ensures cache == if reply.Some? then Caching(old(cache), call.key, reply.value) else old(cache)
    {
      var stored := results.Get(call.key);
      if stored.None? { return None; }
      if !Matches(stored.value, call) { return Some(KeyConflict); }
      var result := FromStored(call, stored.value);
      cache := cache[call.key := result];
      return Some(Answer(result));
    }

    /** Gives the claim back, if there is one. */
    method GiveBack(claimed: bool, key: string, owner: string, token: string)
      requires Valid() && (claimed <==> intents != null)
      modifies if intents == null then {} else {intents}
      ensures Valid() && OnDisk() == GivenBack(Its(), old(OnDisk()), key, owner, token)
    {
      if claimed && intents != null {
        var _ := intents.ReleaseClaim(key, owner, token, I.Ambiguous);
      }
    }

    /** The tool returned a definite result, and both stores are there. */
    method Finish(when: int, call: ToolCall, owner: string, token: string, result: ToolResult) returns (reply: Reply)
      requires Valid() && boundary != null && !IsOpen(result)
      modifies results, intents
      ensures Valid() && OnDisk() == Concluded(Its(), old(OnDisk()), when, call, owner, token, Returned(result))
      ensures reply == ReplyAt(Its(), old(OnDisk()), when, call, owner, token, Returned(result))
    {
      var committed;
      ghost var path;
      committed, path := boundary.Commit(when, CallFor(call, owner, token, result));
      if committed.Failure? { return KeyConflict; }
      var c := committed.value;
      return Answer(ToolResult(call.callId, call.tool, c.ok, c.value, c.error, false, call.key, !c.committed));
    }

    /** The same where a store is missing. */
    method FinishWithout(when: int, call: ToolCall, claimed: bool, owner: string, token: string, result: ToolResult)
      returns (reply: Reply)
      requires Valid() && boundary == null && !IsOpen(result) && (claimed <==> intents != null)
      modifies results, intents
      ensures Valid() && OnDisk() == Concluded(Its(), old(OnDisk()), when, call, owner, token, Returned(result))
      ensures reply == ReplyAt(Its(), old(OnDisk()), when, call, owner, token, Returned(result))
    {
      var final := result;
      if results != null {
        var kept := results.Put(ResultFor(call, result));
        if kept.Failure? || !Matches(kept.value, call) { return KeyConflict; }
        final := FromStored(call, kept.value);
      }
      if claimed && intents != null {
        var _ := intents.MarkClaimed(when, call.key, owner, token, TerminalFor(final.ok));
      }
      return Answer(final);
    }

    /** Everything after the tool run. */
    method Conclude(when: int, call: ToolCall, claimed: bool, owner: string, token: string, end: RunEnd)
      returns (reply: Reply)
      requires Valid() && (claimed <==> intents != null)
      modifies this`cache, results, intents
      ensures Valid()
      ensures End(OnDisk(), cache, reply, true, false)
        == ConcludeAt(Its(), old(cache), old(OnDisk()), when, call, owner, token, end)
    {
      match end {
        case Cancelled =>
          GiveBack(claimed, call.key, owner, token);
          return WasCancelled;
        case Raised =>
          return ToolRaised;
        case Returned(result) =>
          if IsOpen(result) {
            GiveBack(claimed, call.key, owner, token);
            reply := Answer(result);
          } else if boundary != null {
            reply := Finish(when, call, owner, token, result);
          } else {
            reply := FinishWithout(when, call, claimed, owner, token, result);
          }
          if reply.Answer? { cache := cache[call.key := reply.result]; }
      }
    }

    /** Claims the prepared intent; a reply means that the call ends here without running the tool. */
    method Claim(call: ToolCall, owner: string, token: string, gaps: nat -> Others, clock: nat -> int)
      returns (reply: Option<Reply>, refused: bool)
      requires Valid() && intents != null && "" !in {call.key, owner, token}
      modifies this`cache, results, intents
      ensures Valid()
      ensures ClaimAt(Its(), old(cache), old(OnDisk()), call, owner, token, gaps, clock)
        == if reply.None? then Held(OnDisk()) else Early(End(OnDisk(), cache, reply.value, false, refused))
      ensures reply.None? ==> cache == old(cache)
    {
      Yield(gaps(3));
      var claimed := intents.Claim(clock(3), call.key, owner, token);
      if claimed.value.Some? { return None, false; }
      Yield(gaps(4));
      var current := intents.Get(call.key);
      Yield(gaps(5));
      if current.Some? && I.Terminal(current.value.state) && results != null {
        reply := LookUp(call);
        if reply.Some? { return reply, false; }
      }
      return Some(Answer(AlreadyClaimed(call))), true;
    }

    /** Prepares and claims the intent. */
    method Acquire(call: ToolCall, executionId: Option<string>, owner: string, token: string,
                   gaps: nat -> Others, clock: nat -> int) returns (reply: Option<Reply>, refused: bool)
      requires Valid() && intents != null && "" !in {call.key, owner, token}
      modifies this`cache, results, intents
      ensures Valid()
      ensures AcquireAt(Its(), old(cache), old(OnDisk()), call, executionId, owner, token, gaps, clock)
        == if reply.None? then Held(OnDisk()) else Early(End(OnDisk(), cache, reply.value, false, refused))
      ensures reply.None? ==> cache == old(cache)
    {
      Yield(gaps(1));
      var intent := intents.Prepare(NewIntent(call, executionId));
      Yield(gaps(2));
      if I.Terminal(intent.value.state) && results != null {
        reply := LookUp(call);
        if reply.Some? { return reply, false; }
      }
      reply, refused := Claim(call, owner, token, gaps, clock);
    }

    /** Claim, gap, run, conclude. */
    method RunIt(call: ToolCall, executionId: Option<string>, owner: string, token: string,
                 gaps: nat -> Others, clock: nat -> int, end: RunEnd)
      returns (reply: Reply, ran: bool, refused: bool)
      requires Valid() && "" !in {call.key, owner, token}
      modifies this`cache, results, intents
      ensures Valid()
      ensures End(OnDisk(), cache, reply, ran, refused)
        == RunAt(Its(), old(cache), old(OnDisk()), call, executionId, owner, token, gaps, clock, end)
    {
      if intents != null {
        var early;
        early, refused := Acquire(call, executionId, owner, token, gaps, clock);
        if early.Some? { return early.value, false, refused; }
      }
      Yield(gaps(6));
      reply := Conclude(clock(6), call, intents != null, owner, token, end);
      return reply, true, false;
    }

    /** The first lookup, and everything behind it. */
    method LookAndRun(call: ToolCall, executionId: Option<string>, owner: string, token: string,
                      gaps: nat -> Others, clock: nat -> int, end: RunEnd)
      returns (reply: Reply, ran: bool, refused: bool)
      requires Valid() && "" !in {call.key, owner, token}
      modifies this`cache, results, intents
      ensures Valid()
      ensures End(OnDisk(), cache, reply, ran, refused)
        == LookedAt(Its(), old(cache), old(OnDisk()), call, executionId, owner, token, gaps, clock, end)
    {
      if results != null {
        var early := LookUp(call);
        if early.Some? { return early.value, false, false; }
      }
      reply, ran, refused := RunIt(call, executionId, owner, token, gaps, clock, end);
    }

    /** One `execute`.  `gaps(n)` is what the others do in the n-th gap, `clock(n)` what the clock reads there,
        `end` how the tool ends if it is run; owner and token are new. */
    method Execute(call: ToolCall, executionId: Option<string>, owner: string, token: string,
                   gaps: nat -> Others, clock: nat -> int, end: RunEnd)
      returns (reply: Reply, ran: bool, refused: bool)
      requires Valid() && owner != "" && token != ""
      modifies this`cache, results, intents
      ensures Valid()
      ensures End(OnDisk(), cache, reply, ran, refused)
        == Executed(Its(), old(cache), old(OnDisk()), call, executionId, owner, token, gaps, clock, end)
    {
      if call.key == "" { return AnswerOf(end), true, false; }
      if call.key in cache && !cache[call.key].retryable { return Answer(cache[call.key]), false, false; }
      Yield(gaps(0));
      reply, ran, refused := LookAndRun(call, executionId, owner, token, gaps, clock, end);
    }
  }

  // ---------------------------------------------------------------- what a call is

  /** The parts of one `execute` that vary from call to call. */
  datatype Use = Use(call: ToolCall, executionId: Option<string>, owner: string, token: string,
                     gaps: nat -> Others, clock: nat -> int, end: RunEnd)

  function Used(st: Stores, cache: Cache, d: ToolDisk, u: Use): End {
    Executed(st, cache, d, u.call, u.executionId, u.owner, u.token, u.gaps, u.clock, u.end)
  }

  /** The others never change a stored result. */
  ghost predicate Fair(u: Use) {
    u.owner != "" && u.token != "" && forall n :: KeepsResults(u.gaps(n))
  }

  /** Everything a call can do to the cache: nothing for another key, nothing to a settled entry, nothing when
      the claim was refused; otherwise its answer is what is cached. */
  ghost predicate CachesItsAnswer(cache: Cache, x: End, call: ToolCall) {
    && x.cache == (if x.refused || Settled(cache, call.key) then cache else Caching(cache, call.key, x.reply))
    && (x.refused ==> !x.ran && x.reply == Answer(AlreadyClaimed(call)))
    && (Settled(cache, call.key) ==> !x.ran && !x.refused && x.reply == Answer(cache[call.key]))
  }

  lemma EarlyEnds(st: Stores, cache: Cache, d: ToolDisk, u: Use)
    requires !Settled(cache, u.call.key)
    ensures var a := AcquireAt(st, cache, d, u.call, u.executionId, u.owner, u.token, u.gaps, u.clock);
      a.Early? ==> CachesItsAnswer(cache, a.end, u.call)
  {
  }

  lemma RunEnds(st: Stores, cache: Cache, d: ToolDisk, u: Use)
    requires !Settled(cache, u.call.key)
    ensures CachesItsAnswer(cache, RunAt(st, cache, d, u.call, u.executionId, u.owner, u.token, u.gaps, u.clock, u.end), u.call)
  {
    EarlyEnds(st, cache, d, u);
  }

  lemma UseCachesItsAnswer(st: Stores, cache: Cache, d: ToolDisk, u: Use)
    requires u.call.key != ""
    ensures CachesItsAnswer(cache, Used(st, cache, d, u), u.call)
  {
    if !Settled(cache, u.call.key) { RunEnds(st, cache, Gap(st, u.gaps(0), d), u); }
  }

  // ---------------------------------------------------------------- final answers

  /** The next fair call with the key, whatever the others do before and during it, gets this answer and runs
      nothing. */
  ghost predicate Final(st: Stores, x: End, key: string) {
    forall u: Use :: Fair(u) && u.call.key == key ==>
      !Used(st, x.cache, x.disk, u).ran && Used(st, x.cache, x.disk, u).reply == x.reply
  }

  function Idle(): Others {
    d => d
  }

  /** The ledger with the key's intent open and unclaimed. */
  function Opened(call: ToolCall): Others {
    (d: ToolDisk) => d.(intents := d.intents[call.key := NewIntent(call, None)])
  }

  function OpenedAt(call: ToolCall, gap: nat): Others {
    if gap == 3 then Opened(call) else Idle()
  }

  function OpenedAtClaim(call: ToolCall): nat -> Others {
    (n: nat) => OpenedAt(call, n)
  }

  lemma OpenedIsFair(call: ToolCall)
    ensures KeepsResults(Opened(call)) && KeepsResults(Idle()) && forall n :: KeepsResults(OpenedAtClaim(call)(n))
  {
  }

  /** A later call that runs the tool, or is told something else: the refused call's claim has been released in
      the meantime. */
  lemma SomeoneElseRuns(st: Stores, x: End, key: string, name: string) returns (u: Use)
    requires st.intents && x.refused && !Settled(x.cache, key) && key != "" && name != ""
    requires st.results ==> key !in x.disk.results
    ensures Fair(u) && u.call.key == key && Used(st, x.cache, x.disk, u).ran
  {
    var call := ToolCall("", Null, "", key);
    u := Use(call, None, name, name, OpenedAtClaim(call), (n: nat) => 0, Cancelled);
    OpenedIsFair(call);
    RunsWhenOpened(st, x.cache, x.disk, u);
  }

  lemma RunsWhenOpened(st: Stores, cache: Cache, d: ToolDisk, u: Use)
    requires st.intents && !Settled(cache, u.call.key) && u.call.key != "" && (st.results ==> u.call.key !in d.results)
    requires u.gaps(0) == u.gaps(1) == u.gaps(2) == Idle() && u.gaps(3) == Opened(u.call)
    ensures Used(st, cache, d, u).ran
  {
    var d1 := d.(intents := Prepared(d.intents, u.call, u.executionId));
    assert Gap(st, Idle(), d) == d && Gap(st, Idle(), d1) == d1;
    var d3 := Gap(st, Opened(u.call), d1);
    assert d3.intents[u.call.key] == NewIntent(u.call, None);
    assert I.Claimed(d3.intents, u.clock(3), st.ttl, u.call.key, u.owner, u.token).Some?;
    assert ClaimAt(st, cache, d1, u.call, u.owner, u.token, u.gaps, u.clock).Held?;
  }

  lemma SomeoneElseConflicts(st: Stores, x: End, key: string) returns (u: Use)
    requires st.results && key in x.disk.results && !Settled(x.cache, key) && key != ""
    ensures Fair(u) && u.call.key == key && Used(st, x.cache, x.disk, u).reply == KeyConflict
  {
    var call := ToolCall("", Null, x.disk.results[key].callId + "'", key);
    u := Use(call, None, "o", "t", (n: nat) => Idle(), (n: nat) => 0, Cancelled);
    OpenedIsFair(call);
    assert |call.callId| == |x.disk.results[key].callId| + 1;
    ConflictsWithStored(st, x.cache, x.disk, u);
  }

  lemma ConflictsWithStored(st: Stores, cache: Cache, d: ToolDisk, u: Use)
    requires st.results && u.call.key in d.results && !Settled(cache, u.call.key) && u.call.key != ""
    requires u.gaps(0) == Idle() && u.call.callId != d.results[u.call.key].callId
    ensures Used(st, cache, d, u).reply == KeyConflict
  {
    assert Gap(st, Idle(), d) == d;
  }

  lemma OnlyClaimsAreRefused(st: Stores, cache: Cache, d: ToolDisk, u: Use)
    ensures Used(st, cache, d, u).refused ==> st.intents && !Settled(cache, u.call.key) && u.call.key != ""
  {
    if !st.intents && u.call.key != "" && !Settled(cache, u.call.key) {
      assert !ConcludeAt(st, cache, Gap(st, u.gaps(6), Gap(st, u.gaps(0), d)), u.clock(6), u.call, u.owner, u.token, u.end).refused;
    }
  }

  /** A non-retryable answer is final exactly when it was cached, and that is exactly when it was not the refusal
      of a claim: after a refusal there is always a next call with the key that runs the tool or is told
      otherwise. */
  lemma AnswerIsFinalIff(st: Stores, cache: Cache, d: ToolDisk, u: Use)
    requires u.call.key != "" && Used(st, cache, d, u).reply.Answer? && !Used(st, cache, d, u).reply.result.retryable
    ensures var x, key := Used(st, cache, d, u), u.call.key;
      && (Final(st, x, key) <==> !x.refused)
      && (!x.refused <==> Settled(x.cache, key) && x.reply == Answer(x.cache[key]))
  {
    var x, key := Used(st, cache, d, u), u.call.key;
    UseCachesItsAnswer(st, cache, d, u);
    OnlyClaimsAreRefused(st, cache, d, u);
    if x.refused {
      if st.results && key in x.disk.results {
        var next := SomeoneElseConflicts(st, x, key);
      } else {
        var next := SomeoneElseRuns(st, x, key, "o");
      }
    } else {
      forall next: Use | Fair(next) && next.call.key == key
        ensures !Used(st, x.cache, x.disk, next).ran && Used(st, x.cache, x.disk, next).reply == x.reply
      {
        UseCachesItsAnswer(st, x.cache, x.disk, next);
      }
    }
  }

  /** The run that shows it: refused under somebody's live claim, and run by the next call, after that claim was
      given back. */
  lemma RefusedThenRun(call: ToolCall, i: I.Intent) returns (d: ToolDisk, first: Use, second: Use)
    requires call.key != "" && i.key == call.key && i.state == I.Executing
    requires i.owner.Some? && i.owner.value != "o" && i.expires.Some?
    ensures var st := Stores(true, true, 60);
      var x := Used(st, map[], d, first);
      && Fair(first) && Fair(second) && first.call == second.call == call
      && x.reply == Answer(AlreadyClaimed(call)) && !x.ran && x.cache == map[]
      && Used(st, x.cache, x.disk, second).ran
  {
    var st := Stores(true, true, 60);
    d := ToolDisk(map[], map[call.key := i]);
    first := Use(call, None, "o", "t", (n: nat) => Idle(), (n: nat) => i.expires.value - 1, Cancelled);
    OpenedIsFair(call);
    RefusedWhileHeld(st, map[], d, first);
    var x := Used(st, map[], d, first);
    second := Use(call, None, "o", "t", OpenedAtClaim(call), (n: nat) => 0, Cancelled);
    RunsWhenOpened(st, x.cache, x.disk, second);
  }

  lemma RefusedWhileHeld(st: Stores, cache: Cache, d: ToolDisk, u: Use)
    requires st.intents && st.results && !Settled(cache, u.call.key) && u.call.key != "" && u.call.key !in d.results
    requires u.call.key in d.intents && d.intents[u.call.key].state == I.Executing && forall n :: u.gaps(n) == Idle()
    requires var i := d.intents[u.call.key];
      i.owner.Some? && i.owner.value != u.owner && i.expires.Some? && i.expires.value > u.clock(3)
    ensures Used(st, cache, d, u) == End(d, cache, Answer(AlreadyClaimed(u.call)), false, true)
  {
    assert Gap(st, Idle(), d) == d;
    assert d.(intents := Prepared(d.intents, u.call, u.executionId)) == d;
    assert ClaimAt(st, cache, d, u.call, u.owner, u.token, u.gaps, u.clock)
      == Early(End(d, cache, Answer(AlreadyClaimed(u.call)), false, true));
  }

  // ---------------------------------------------------------------- the cache agrees with the store

  predicate Keeps(d: Results, d': Results) {
    forall k :: k in d ==> k in d' && d'[k] == d[k]
  }

  lemma GapKeeps(st: Stores, others: Others, d: ToolDisk)
    requires KeepsResults(others)
    ensures Keeps(d.results, Gap(st, others, d).results)
  {
  }

  /** A definite, unambiguous answer is the stored outcome of its key. */
  predicate Truthful(d: Results, reply: Reply, key: string) {
    reply.Answer? && !IsOpen(reply.result) ==> key in d && SameOutcome(reply.result, d[key])
  }

  lemma KeepsOn(a: Results, b: Results, c: Results)
    requires Keeps(a, b) && Keeps(b, c)
    ensures Keeps(a, c)
  {
  }

  /** What an acquisition leaves durable. */
  function Left(a: Acquisition): Results {
    match a
    case Early(x) => x.disk.results
    case Held(d) => d.results
  }

  predicate EarlyTruth(a: Acquisition, key: string) {
    a.Early? && !a.end.refused ==> Truthful(a.end.disk.results, a.end.reply, key)
  }

  lemma RecallIsTruthful(cache: Cache, d: ToolDisk, call: ToolCall)
    ensures var r := Recall(cache, d, call);
      r.Some? ==> r.value.disk == d && !r.value.refused && Truthful(d.results, r.value.reply, call.key)
  {
  }

  lemma ClaimIsTruthful(st: Stores, cache: Cache, d: ToolDisk, u: Use)
    requires Fair(u)
    ensures var a := ClaimAt(st, cache, d, u.call, u.owner, u.token, u.gaps, u.clock);
      Keeps(d.results, Left(a)) && EarlyTruth(a, u.call.key)
  {
    var d3 := Gap(st, u.gaps(3), d);
    var d4 := Gap(st, u.gaps(4), d3);
    var d5 := Gap(st, u.gaps(5), d4);
    GapKeeps(st, u.gaps(3), d);
    GapKeeps(st, u.gaps(4), d3);
    GapKeeps(st, u.gaps(5), d4);
    KeepsOn(d.results, d3.results, d4.results);
    KeepsOn(d.results, d4.results, d5.results);
    RecallIsTruthful(cache, d5, u.call);
    var a := ClaimAt(st, cache, d, u.call, u.owner, u.token, u.gaps, u.clock);
    assert Left(a) in {d3.results, d5.results};
  }

  lemma AcquireIsTruthful(st: Stores, cache: Cache, d: ToolDisk, u: Use)
    requires Fair(u)
    ensures var a := AcquireAt(st, cache, d, u.call, u.executionId, u.owner, u.token, u.gaps, u.clock);
      Keeps(d.results, Left(a)) && EarlyTruth(a, u.call.key)
  {
    var d1 := Gap(st, u.gaps(1), d);
    var d1' := d1.(intents := Prepared(d1.intents, u.call, u.executionId));
    var d2 := Gap(st, u.gaps(2), d1');
    GapKeeps(st, u.gaps(1), d);
    GapKeeps(st, u.gaps(2), d1');
    KeepsOn(d.results, d1.results, d2.results);
    RecallIsTruthful(cache, d2, u.call);
    var c := ClaimAt(st, cache, d2, u.call, u.owner, u.token, u.gaps, u.clock);
    ClaimIsTruthful(st, cache, d2, u);
    KeepsOn(d.results, d2.results, Left(c));
    AcquireIs(st, cache, d, u, d2, c);
  }

  lemma AcquireIs(st: Stores, cache: Cache, d: ToolDisk, u: Use, d2: ToolDisk, c: Acquisition)
    requires var d1 := Gap(st, u.gaps(1), d);
      d2 == Gap(st, u.gaps(2), d1.(intents := Prepared(d1.intents, u.call, u.executionId)))
    requires c == ClaimAt(st, cache, d2, u.call, u.owner, u.token, u.gaps, u.clock)
    ensures var a := AcquireAt(st, cache, d, u.call, u.executionId, u.owner, u.token, u.gaps, u.clock);
      a == c || (Recall(cache, d2, u.call).Some? && a == Early(Recall(cache, d2, u.call).value))
  {
  }

  lemma ConcludeIsTruthful(st: Stores, cache: Cache, d: ToolDisk, when: int, u: Use)
    requires st.results
    ensures var x := ConcludeAt(st, cache, d, when, u.call, u.owner, u.token, u.end);
      Keeps(d.results, x.disk.results) && Truthful(x.disk.results, x.reply, u.call.key)
  {
  }

  lemma RunIsTruthful(st: Stores, cache: Cache, d: ToolDisk, u: Use)
    requires st.results && Fair(u)
    ensures var x := RunAt(st, cache, d, u.call, u.executionId, u.owner, u.token, u.gaps, u.clock, u.end);
      Keeps(d.results, x.disk.results) && (!x.refused ==> Truthful(x.disk.results, x.reply, u.call.key))
  {
    var a := if st.intents then AcquireAt(st, cache, d, u.call, u.executionId, u.owner, u.token, u.gaps, u.clock) else Held(d);
    AcquireIsTruthful(st, cache, d, u);
    if a.Held? {
      var d6 := Gap(st, u.gaps(6), a.disk);
      var x := ConcludeAt(st, cache, d6, u.clock(6), u.call, u.owner, u.token, u.end);
      GapKeeps(st, u.gaps(6), a.disk);
      ConcludeIsTruthful(st, cache, d6, u.clock(6), u);
      KeepsOn(d.results, a.disk.results, d6.results);
      KeepsOn(d.results, d6.results, x.disk.results);
    }
  }

  lemma UseIsTruthful(st: Stores, cache: Cache, d: ToolDisk, u: Use)
    requires st.results && Fair(u) && u.call.key != ""
    ensures var x := Used(st, cache, d, u);
      && Keeps(d.results, x.disk.results)
      && (!x.refused && !Settled(cache, u.call.key) ==> Truthful(x.disk.results, x.reply, u.call.key))
  {
    if !Settled(cache, u.call.key) {
      var d0 := Gap(st, u.gaps(0), d);
      GapKeeps(st, u.gaps(0), d);
      RunIsTruthful(st, cache, d0, u);
      RecallIsTruthful(cache, d0, u.call);
      KeepsOn(d.results, d0.results, Used(st, cache, d, u).disk.results);
    }
  }

  /** With a result store, every settled, unambiguous cache entry stays the stored outcome of its key. */
  lemma CacheStaysInAgreement(st: Stores, cache: Cache, d: ToolDisk, u: Use)
    requires st.results && Fair(u) && CacheAgrees(cache, d.results)
    ensures CacheAgrees(Used(st, cache, d, u).cache, Used(st, cache, d, u).disk.results)
  {
    if u.call.key != "" {
      UseIsTruthful(st, cache, d, u);
      UseCachesItsAnswer(st, cache, d, u);
    }
  }

  /** A call whose key has a stored result is answered from it, or refused as a conflict, and runs nothing. */
  lemma StoredIsAnswered(st: Stores, cache: Cache, d: ToolDisk, u: Use)
    requires st.results && Fair(u) && u.call.key != "" && u.call.key in d.results && !Settled(cache, u.call.key)
    ensures var x := Used(st, cache, d, u);
      !x.ran && x.reply == if Matches(d.results[u.call.key], u.call) then Answer(FromStored(u.call, d.results[u.call.key])) else KeyConflict
  {
    GapKeeps(st, u.gaps(0), d);
  }

  /** With a ledger, the tool is run only by a call that has just made the intent its own. */
  lemma RunsUnderAClaim(st: Stores, cache: Cache, d: ToolDisk, u: Use)
    requires st.intents && u.call.key != "" && Used(st, cache, d, u).ran
    ensures var a := AcquireAt(st, cache, Gap(st, u.gaps(0), d), u.call, u.executionId, u.owner, u.token, u.gaps, u.clock);
      && a.Held? && u.call.key in a.disk.intents
      && I.HeldBy(a.disk.intents[u.call.key], u.owner, u.token) && a.disk.intents[u.call.key].state == I.Executing
      && a.disk.intents[u.call.key].expires == Some(u.clock(3) + st.ttl)
  {
    var d0 := Gap(st, u.gaps(0), d);
    assert Used(st, cache, d, u) == RunAt(st, cache, d0, u.call, u.executionId, u.owner, u.token, u.gaps, u.clock, u.end);
  }

  // ---------------------------------------------------------------- histories of one executor

  /** Consecutive calls; what the others do between two calls is gap 0 of the second. */
  function Play(st: Stores, cache: Cache, d: ToolDisk, uses: seq<Use>): (ends: seq<End>)
    ensures |ends| == |uses|
    decreases |uses|
  {
    if uses == [] then []
    else
      var x := Used(st, cache, d, uses[0]);
      [x] + Play(st, x.cache, x.disk, uses[1..])
  }

  /** Once a result that is not retryable is cached for a key, every later call with that key returns it and
      runs no tool, and it stays cached. */
  lemma {:induction false} SettledIsForever(st: Stores, cache: Cache, d: ToolDisk, uses: seq<Use>, key: string, j: nat)
    requires j < |uses| && key != "" && Settled(cache, key)
    ensures var x := Play(st, cache, d, uses)[j];
      && Settled(x.cache, key) && x.cache[key] == cache[key]
      && (uses[j].call.key == key ==> !x.ran && x.reply == Answer(cache[key]))
    decreases j
  {
    var x := Used(st, cache, d, uses[0]);
    if uses[0].call.key != "" { UseCachesItsAnswer(st, cache, d, uses[0]); }
    if j > 0 { SettledIsForever(st, x.cache, x.disk, uses[1..], key, j - 1); }
  }

  /** So a non-retryable answer that was not the refusal of a claim is the answer of every later call. */
  lemma AnswersAreFinal(st: Stores, cache: Cache, d: ToolDisk, uses: seq<Use>, j: nat)
    requires 0 < j < |uses| && uses[0].call.key == uses[j].call.key != ""
    requires var x := Used(st, cache, d, uses[0]); x.reply.Answer? && !x.reply.result.retryable && !x.refused
    ensures !Play(st, cache, d, uses)[j].ran && Play(st, cache, d, uses)[j].reply == Used(st, cache, d, uses[0]).reply
  {
    var x := Used(st, cache, d, uses[0]);
    UseCachesItsAnswer(st, cache, d, uses[0]);
    SettledIsForever(st, x.cache, x.disk, uses[1..], uses[0].call.key, j - 1);
  }
}
