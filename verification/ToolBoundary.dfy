/** First-writer-wins results (runtime/tool_idempotency_store.py) and the boundary that makes a result durable
    before it finalises the intent (runtime/execution_boundary.py). */
module ToolBoundary {
  import opened Base
  import I = ToolIntents

  datatype StoredResult = StoredResult(
    key: string, callId: string, tool: string, ok: bool, value: Value, error: Option<string>, arguments: Option<Value>)

  type Results = map<string, StoredResult>

  datatype BoundaryError = OtherTool

  /** What `put_if_absent` answers: the first result of the key, unless that came from another tool. */
  function Kept(d: Results, r: StoredResult): Result<StoredResult, BoundaryError> {
    if r.key !in d then Success(r)
    else if d[r.key].tool != r.tool then Failure(OtherTool)
    else Success(d[r.key])
  }

  function PutIfAbsent(d: Results, r: StoredResult): Results {
    if r.key in d then d else d[r.key := r]
  }

  class ResultStore {
    var data: Results

    constructor ()
      ensures data == map[]
    {
      data := map[];
    }

    method Get(key: string) returns (r: Option<StoredResult>)
      ensures r == if key != "" && key in data then Some(data[key]) else None
    {
      r := if key != "" && key in data then Some(data[key]) else None;
    }

    method Put(result: StoredResult) returns (r: Result<StoredResult, BoundaryError>)
      modifies this`data
      ensures r == Kept(old(data), result)
      ensures data == PutIfAbsent(old(data), result)
    {
      if result.key in data {
        if data[result.key].tool != result.tool { return Failure(OtherTool); }
        return Success(data[result.key]);
      }
      data := data[result.key := result];
      return Success(result);
    }
  }

  /** One call of the boundary. */
  datatype BoundaryCall = BoundaryCall(
    key: string, callId: string, tool: string, arguments: Option<Value>,
    owner: string, token: string, ok: bool, value: Value, error: Option<string>)

  datatype BoundaryCommit = BoundaryCommit(ok: bool, value: Value, error: Option<string>, committed: bool)

  datatype ToolDisk = ToolDisk(results: Results, intents: I.Ledger)

  function Offered(b: BoundaryCall): StoredResult {
    StoredResult(b.key, b.callId, b.tool, b.ok, if b.ok then b.value else Null, b.error, b.arguments)
  }

  function TerminalFor(ok: bool): I.IntentState {
    if ok then I.Completed else I.Failed
  }

  /** The durable states of one boundary call: before it, with the result, with the intent finalised (or not,
      when the claim is stale). */
  function BoundaryPath(d: ToolDisk, when: int, b: BoundaryCall): (path: seq<ToolDisk>)
    ensures path != [] && path[0] == d
  {
    var kept := Kept(d.results, Offered(b));
    if kept.Failure? then [d]
    else
      var d1 := d.(results := PutIfAbsent(d.results, Offered(b)));
      var marked := I.MarkedClaimed(d.intents, when, b.key, b.owner, b.token, TerminalFor(kept.value.ok));
      [d, d1, d1.(intents := I.Put(d.intents, b.key, marked))]
  }

  function BoundaryReply(d: ToolDisk, when: int, b: BoundaryCall): Result<BoundaryCommit, BoundaryError> {
    var kept := Kept(d.results, Offered(b));
    if kept.Failure? then Failure(kept.error)
    else
      var r := kept.value;
      Success(BoundaryCommit(r.ok, r.value, r.error,
                             I.MarkedClaimed(d.intents, when, b.key, b.owner, b.token, TerminalFor(r.ok)).Some?))
  }

  // ---------------------------------------------------------------- the same in terms of the call

  /** The stored record says what the caller reported: the value only of a success. */
  predicate Reports(s: StoredResult, b: BoundaryCall) {
    && s.key == b.key && s.callId == b.callId && s.tool == b.tool && s.arguments == b.arguments
    && s.ok == b.ok && s.error == b.error && (b.ok ==> s.value == b.value) && (!b.ok ==> s.value == Null)
  }

  /** The first result of a key is the caller's, and no later one replaces it. */
  predicate StoresOnce(d: Results, b: BoundaryCall, d': Results) {
    && b.key in d' && (if b.key in d then d' == d else d' == d[b.key := d'[b.key]] && Reports(d'[b.key], b))
  }

  predicate AnswersStored(reply: BoundaryCommit, s: StoredResult) {
    reply.ok == s.ok && reply.value == s.value && reply.error == s.error
  }

  /** A live claim ends in the terminal state of the outcome; without one the ledger stays as it is. */
  predicate EndsClaim(d: I.Ledger, when: int, b: BoundaryCall, ok: bool, d': I.Ledger) {
    if I.LiveClaim(d, b.key, b.owner, b.token, when) then
      && I.SameCall(d, b.key, d') && I.Free(d'[b.key])
      && (d'[b.key].state == I.Completed <==> ok) && (d'[b.key].state == I.Failed <==> !ok)
    else d' == d
  }

  /** What one call of the boundary does: another tool's key is refused, and nothing changes; else the stored
      outcome is answered and decides the intent, and the call commits exactly under its live claim. */
  predicate Settles(d: ToolDisk, when: int, b: BoundaryCall, reply: Result<BoundaryCommit, BoundaryError>, d': ToolDisk) {
    if b.key in d.results && d.results[b.key].tool != b.tool then reply == Failure(OtherTool) && d' == d
    else
      && StoresOnce(d.results, b, d'.results)
      && reply.Success? && AnswersStored(reply.value, d'.results[b.key])
      && (reply.value.committed <==> I.LiveClaim(d.intents, b.key, b.owner, b.token, when))
      && EndsClaim(d.intents, when, b, d'.results[b.key].ok, d'.intents)
  }

  /** With every durable state in between: the result is there before the intent is touched. */
  lemma BoundarySettles(d: ToolDisk, when: int, b: BoundaryCall)
    ensures var path := BoundaryPath(d, when, b);
      && Settles(d, when, b, BoundaryReply(d, when, b), Last(path))
      && (path == [d] || (|path| == 3 && path[1] == Last(path).(intents := d.intents)))
  {
  }

  /** For a key with no stored result: what the caller reports is what is stored and answered, and a live claim
      ends as the caller's outcome says. */
  lemma FirstOutcomeIsTheCallers(d: ToolDisk, when: int, b: BoundaryCall)
    requires b.key !in d.results
    ensures var d', reply := Last(BoundaryPath(d, when, b)), BoundaryReply(d, when, b);
      && b.key in d'.results && Reports(d'.results[b.key], b)
      && reply.Success? && reply.value.ok == b.ok && reply.value.error == b.error
      && reply.value.value == (if b.ok then b.value else Null)
      && (reply.value.committed <==> I.LiveClaim(d.intents, b.key, b.owner, b.token, when))
      && (reply.value.committed ==>
            b.key in d'.intents && d'.intents[b.key].state == if b.ok then I.Completed else I.Failed)
  {
    BoundarySettles(d, when, b);
  }

  class Boundary {
    const intents: I.IntentStore
    const results: ResultStore

    constructor (intents: I.IntentStore, results: ResultStore)
      ensures this.intents == intents && this.results == results
    {
      this.intents := intents;
      this.results := results;
    }

    function OnDisk(): ToolDisk
      reads results`data, intents`data
    {
      ToolDisk(results.data, intents.data)
    }

    method Commit(when: int, b: BoundaryCall)
      returns (reply: Result<BoundaryCommit, BoundaryError>, ghost path: seq<ToolDisk>)
      modifies results`data, intents`data
      ensures reply == BoundaryReply(old(OnDisk()), when, b)
      ensures path == BoundaryPath(old(OnDisk()), when, b) && OnDisk() == Last(path)
      ensures Settles(old(OnDisk()), when, b, reply, OnDisk())
    {
      BoundarySettles(OnDisk(), when, b);
      path := [OnDisk()];
      var stored := results.Put(Offered(b));
      if stored.Failure? { return Failure(stored.error), path; }
      path := path + [OnDisk()];
      var terminal := if stored.value.ok then I.Completed else I.Failed;
      var marked := intents.MarkClaimed(when, b.key, b.owner, b.token, terminal);
      path := path + [OnDisk()];
      var r := stored.value;
      return Success(BoundaryCommit(r.ok, r.value, r.error, marked.value.Some?)), path;
    }
  }
}
