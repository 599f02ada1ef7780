/** What an executor stores and answers, field by field (runtime/tool_executor.py:56-111): the result of its own
    run, the stored one of somebody else's, or the refusal. */
module ToolOutcomes {
  import opened Base
  import B = ToolBoundary
  import opened ToolExecutor
  import I = ToolIntents

  /** The stored record is the result of this call's run. */
  predicate Holds(s: B.StoredResult, call: ToolCall, r: ToolResult) {
    && s.key == call.key && s.callId == call.callId && s.tool == call.tool && s.arguments == Some(call.arguments)
    && s.ok == r.ok && s.error == r.error && (r.ok ==> s.value == r.value) && (!r.ok ==> s.value == Null)
  }

  /** The answer to this call is the stored record. */
  predicate Tells(reply: Reply, call: ToolCall, s: B.StoredResult) {
    && reply.Answer?
    && var a := reply.result;
    && a.callId == call.callId && a.tool == call.tool && a.key in {call.key, s.key} && !a.retryable
    && a.ok == s.ok && a.value == s.value && a.error == s.error
  }

  predicate SameCall(s: B.StoredResult, call: ToolCall) {
    && s.callId == call.callId && s.tool == call.tool
    && (s.arguments == None || s.arguments == Some(call.arguments))
  }

  /** The record can be answered to this call: behind the boundary only the tool is compared. */
  predicate Acceptable(st: Stores, s: B.StoredResult, call: ToolCall) {
    if st.intents then s.tool == call.tool else SameCall(s, call)
  }

  predicate Results(st: Stores, d: B.Results, call: ToolCall, r: ToolResult, x: End) {
    if !st.results then x.disk.results == d && x.reply == Answer(r)
    else
      && call.key in x.disk.results
      && (if call.key in d then x.disk.results == d
          else x.disk.results == d[call.key := x.disk.results[call.key]] && Holds(x.disk.results[call.key], call, r))
      && (if Acceptable(st, x.disk.results[call.key], call) then Tells(x.reply, call, x.disk.results[call.key])
          else x.reply == KeyConflict)
  }

  /** An answer is ambiguous exactly when the claim was lost before the intent could be finalised. */
  predicate Intents(st: Stores, d: I.Ledger, when: int, call: ToolCall, owner: string, token: string, x: End) {
    var live := I.LiveClaim(d, call.key, owner, token, when);
    && (st.results && x.reply.Answer? ==> (x.reply.result.ambiguous <==> st.intents && !live))
    && (if st.intents && live && x.reply.Answer? then
          && I.SameCall(d, call.key, x.disk.intents) && I.Free(x.disk.intents[call.key])
          && x.disk.intents[call.key].state == (if x.reply.result.ok then I.Completed else I.Failed)
        else x.disk.intents == d)
  }

  /** A definite result of a run: on a key with no stored result it is what is stored and answered. */
  lemma DefiniteResult(st: Stores, cache: Cache, d: B.ToolDisk, when: int, call: ToolCall, owner: string, token: string, r: ToolResult)
    requires !r.ambiguous && !r.retryable
    ensures var x := ConcludeAt(st, cache, d, when, call, owner, token, Returned(r));
      && Results(st, d.results, call, r, x) && Intents(st, d.intents, when, call, owner, token, x)
      && x.cache == (if x.reply.Answer? then cache[call.key := x.reply.result] else cache)
  {
  }

  /** Any other end of a run stores no result; a tool that may have acted gives its claim back as ambiguous. */
  lemma OpenEnd(st: Stores, cache: Cache, d: B.ToolDisk, when: int, call: ToolCall, owner: string, token: string, end: RunEnd)
    requires end.Returned? ==> end.result.ambiguous || end.result.retryable
    ensures var x := ConcludeAt(st, cache, d, when, call, owner, token, end);
      && x.disk.results == d.results
      && (end.Returned? ==> x.reply == Answer(end.result) && x.cache == cache[call.key := end.result])
      && (end.Cancelled? ==> x.reply == WasCancelled && x.cache == cache)
      && (end.Raised? ==> x.reply == ToolRaised && x.cache == cache)
      && (if st.intents && !end.Raised? && call.key in d.intents
             && d.intents[call.key].owner == Some(owner) && d.intents[call.key].claimToken == Some(token) then
            x.disk.intents == d.intents[call.key := d.intents[call.key].(
              state := I.Ambiguous, owner := None, claimToken := None, expires := None)]
          else x.disk.intents == d.intents)
  {
  }

  /** What a fresh intent says of its call. */
  lemma FreshIntent(d: I.Ledger, call: ToolCall, executionId: Option<string>)
    ensures var d' := Prepared(d, call, executionId);
      if call.key in d then d' == d
      else
        && call.key in d' && d' == d[call.key := d'[call.key]]
        && var i := d'[call.key];
        && i.key == call.key && i.callId == call.callId && i.tool == call.tool && i.arguments == call.arguments
        && i.executionId == executionId && i.state == I.Prepared && i.owner == i.claimToken == None && i.expires == None
  {
  }

  /** The refusal of a claim, in full. */
  lemma RefusalSays(st: Stores, cache: Cache, d: B.ToolDisk, u: Use)
    requires Used(st, cache, d, u).refused
    ensures var x := Used(st, cache, d, u);
      && !x.ran && x.cache == cache && x.reply.Answer?
      && var a := x.reply.result;
      && !a.ok && a.value == Null && a.error == Some("intent is already claimed") && !a.retryable && !a.ambiguous
      && a.callId == u.call.callId && a.tool == u.call.tool && a.key == u.call.key
  {
    if u.call.key != "" { UseCachesItsAnswer(st, cache, d, u); }
  }

  /** A stored result answers a call it matches, unambiguously, and conflicts with every other. */
  lemma StoredSays(st: Stores, cache: Cache, d: B.ToolDisk, u: Use)
    requires st.results && Fair(u) && u.call.key != "" && u.call.key in d.results && !Settled(cache, u.call.key)
    ensures var x, s := Used(st, cache, d, u), d.results[u.call.key];
      if SameCall(s, u.call) then Tells(x.reply, u.call, s) && !x.reply.result.ambiguous && !x.ran
      else x.reply == KeyConflict && !x.ran
  {
    StoredIsAnswered(st, cache, d, u);
  }

  /** A call without a key just runs the tool. */
  lemma KeylessRuns(st: Stores, cache: Cache, d: B.ToolDisk, u: Use)
    requires u.call.key == ""
    ensures var x := Used(st, cache, d, u);
      && x.ran && x.disk == d && x.cache == cache
      && (u.end.Returned? ==> x.reply == Answer(u.end.result))
      && (u.end.Cancelled? ==> x.reply == WasCancelled) && (u.end.Raised? ==> x.reply == ToolRaised)
  {
  }

  predicate AlikeEnd(x: End, y: End) {
    x.disk == y.disk && x.reply == y.reply && x.ran == y.ran && x.refused == y.refused
  }

  predicate AlikeStart(a: Acquisition, b: Acquisition) {
    if a.Held? then a == b else b.Early? && AlikeEnd(a.end, b.end)
  }

  lemma ClaimsAlike(st: Stores, cache: Cache, cache': Cache, d: B.ToolDisk, u: Use)
    ensures AlikeStart(ClaimAt(st, cache, d, u.call, u.owner, u.token, u.gaps, u.clock),
                       ClaimAt(st, cache', d, u.call, u.owner, u.token, u.gaps, u.clock))
  {
  }

  lemma AcquiresAlike(st: Stores, cache: Cache, cache': Cache, d: B.ToolDisk, u: Use)
    ensures AlikeStart(AcquireAt(st, cache, d, u.call, u.executionId, u.owner, u.token, u.gaps, u.clock),
                       AcquireAt(st, cache', d, u.call, u.executionId, u.owner, u.token, u.gaps, u.clock))
  {
    var d1 := Gap(st, u.gaps(1), d);
    ClaimsAlike(st, cache, cache', Gap(st, u.gaps(2), d1.(intents := Prepared(d1.intents, u.call, u.executionId))), u);
  }

  /** What the cache decides: an entry that is not retryable is the answer, and nothing happens; any other call
      goes as if nothing were cached, so a retryable result is tried again. */
  lemma CacheDecides(st: Stores, cache: Cache, d: B.ToolDisk, u: Use)
    requires u.call.key != ""
    ensures var x, key := Used(st, cache, d, u), u.call.key;
      if key in cache && !cache[key].retryable then
        x.disk == d && x.cache == cache && x.reply == Answer(cache[key]) && !x.ran && !x.refused
      else AlikeEnd(x, Used(st, map[], d, u))
  {
    AcquiresAlike(st, cache, map[], Gap(st, u.gaps(0), d), u);
  }

  /** A call is refused only while there is no outcome to tell: not when the intent is finalised and its result
      stored. */
  lemma RefusedMeansUnsettled(st: Stores, cache: Cache, d: B.ToolDisk, u: Use)
    requires Used(st, cache, d, u).refused && st.results && u.gaps(5) == Idle()
    ensures var d', key := Used(st, cache, d, u).disk, u.call.key;
      key in d'.intents && d'.intents[key].state in {I.Completed, I.Failed} ==> key !in d'.results
  {
    var d0 := Gap(st, u.gaps(0), d);
    if u.call.key != "" && !Settled(cache, u.call.key) && st.intents {
      var d1 := Gap(st, u.gaps(1), d0);
      var d2 := Gap(st, u.gaps(2), d1.(intents := Prepared(d1.intents, u.call, u.executionId)));
      var a := ClaimAt(st, cache, d2, u.call, u.owner, u.token, u.gaps, u.clock);
      AcquireIs(st, cache, d0, u, d2, a);
      assert forall e: B.ToolDisk :: Gap(st, Idle(), e) == e;
    }
  }

  // ---------------------------------------------------------------- one whole call

  /** The others store no result for this key. */
  ghost predicate LeavesOpen(o: Others, key: string) {
    forall d: B.ToolDisk :: key !in d.results ==> key !in o(d).results
  }

  ghost predicate LeftOpen(u: Use) {
    forall n :: LeavesOpen(u.gaps(n), u.call.key)
  }

  lemma GapLeavesOpen(st: Stores, u: Use, n: nat, d: B.ToolDisk)
    requires LeftOpen(u) && u.call.key !in d.results
    ensures u.call.key !in Gap(st, u.gaps(n), d).results
  {
    assert LeavesOpen(u.gaps(n), u.call.key);
  }

  lemma AcquiresOpen(st: Stores, cache: Cache, d: B.ToolDisk, u: Use)
    requires LeftOpen(u) && u.call.key !in d.results
    ensures var a := AcquireAt(st, cache, d, u.call, u.executionId, u.owner, u.token, u.gaps, u.clock);
      a.Held? ==> u.call.key !in a.disk.results
  {
    var d1 := Gap(st, u.gaps(1), d);
    GapLeavesOpen(st, u, 1, d);
    var d1' := d1.(intents := Prepared(d1.intents, u.call, u.executionId));
    GapLeavesOpen(st, u, 2, d1');
    GapLeavesOpen(st, u, 3, Gap(st, u.gaps(2), d1'));
  }

  /** A call that runs the tool on a key nobody stores a result for: its definite result is what is stored,
      answered and cached. */
  lemma OwnResultIsStored(st: Stores, cache: Cache, d: B.ToolDisk, u: Use, r: ToolResult)
    requires st.results && u.call.key != "" && u.call.key !in d.results && LeftOpen(u)
    requires u.end == Returned(r) && !r.ambiguous && !r.retryable && Used(st, cache, d, u).ran
    ensures var x, key := Used(st, cache, d, u), u.call.key;
      && key in x.disk.results && Holds(x.disk.results[key], u.call, r)
      && Tells(x.reply, u.call, x.disk.results[key])
      && key in x.cache && x.cache[key] == x.reply.result
      && (!st.intents ==> !x.reply.result.ambiguous)
  {
    var d0 := Gap(st, u.gaps(0), d);
    GapLeavesOpen(st, u, 0, d);
    var x := Used(st, cache, d, u);
    assert x == RunAt(st, cache, d0, u.call, u.executionId, u.owner, u.token, u.gaps, u.clock, u.end);
    var a := if st.intents then AcquireAt(st, cache, d0, u.call, u.executionId, u.owner, u.token, u.gaps, u.clock) else Held(d0);
    EarlyDoesNotRun(st, cache, d0, u);
    AcquiresOpen(st, cache, d0, u);
    var d6 := Gap(st, u.gaps(6), a.disk);
    GapLeavesOpen(st, u, 6, a.disk);
    DefiniteResult(st, cache, d6, u.clock(6), u.call, u.owner, u.token, r);
  }

  lemma EarlyDoesNotRun(st: Stores, cache: Cache, d: B.ToolDisk, u: Use)
    ensures var a := AcquireAt(st, cache, d, u.call, u.executionId, u.owner, u.token, u.gaps, u.clock);
      a.Early? ==> !a.end.ran
  {
  }

  /** With both stores, nobody acting while the tool runs and the claim still alive at its end, the intent ends
      as the result says and the answer is unambiguous. */
  lemma OwnResultIsFinal(st: Stores, cache: Cache, d: B.ToolDisk, u: Use, r: ToolResult)
    requires st.results && st.intents && u.call.key != "" && u.call.key !in d.results && LeftOpen(u)
    requires u.end == Returned(r) && !r.ambiguous && !r.retryable && Used(st, cache, d, u).ran
    requires u.gaps(6) == Idle() && u.clock(6) < u.clock(3) + st.ttl
    ensures var x, key := Used(st, cache, d, u), u.call.key;
      && x.reply.Answer? && !x.reply.result.ambiguous && x.reply.result.ok == r.ok
      && key in x.disk.intents && x.disk.intents[key].state == (if r.ok then I.Completed else I.Failed)
      && x.disk.intents[key].owner == None
  {
    var d0 := Gap(st, u.gaps(0), d);
    GapLeavesOpen(st, u, 0, d);
    var x := Used(st, cache, d, u);
    RunsUnderAClaim(st, cache, d, u);
    assert x == RunAt(st, cache, d0, u.call, u.executionId, u.owner, u.token, u.gaps, u.clock, u.end);
    var a := AcquireAt(st, cache, d0, u.call, u.executionId, u.owner, u.token, u.gaps, u.clock);
    AcquiresOpen(st, cache, d0, u);
    assert Gap(st, Idle(), a.disk) == a.disk;
    DefiniteResult(st, cache, a.disk, u.clock(6), u.call, u.owner, u.token, r);
  }
}
