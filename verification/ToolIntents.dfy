/** The intent ledger for side-effecting tool calls (runtime/tool_intent_store.py): who may run a call, under
    which claim, until when.  Every operation takes the clock reading it made. */
module ToolIntents {
  import opened Base

  datatype IntentState = Prepared | Executing | Ambiguous | Completed | Failed | Invalid(text: string)

  datatype Intent = Intent(
    key: string, callId: string, tool: string, arguments: Value, executionId: Option<string>,
    state: IntentState, owner: Option<string>, claimToken: Option<string>, expires: Option<int>)

  type Ledger = map<string, Intent>

  datatype IntentError = MissingArgument | BadState

  predicate Open(s: IntentState) {
    s in {Prepared, Executing, Ambiguous}
  }

  predicate Terminal(s: IntentState) {
    s in {Completed, Failed}
  }

  predicate HeldBy(i: Intent, owner: string, token: string) {
    i.owner == Some(owner) && i.claimToken == Some(token)
  }

  /** The pair holds the claim, and it has not expired. */
  predicate LiveClaim(d: Ledger, key: string, owner: string, token: string, when: int) {
    && key in d && d[key].owner == Some(owner) && d[key].claimToken == Some(token)
    && d[key].expires.Some? && d[key].expires.value > when
  }

  /** An open intent that nobody else holds by a live claim, nor this owner by another token. */
  predicate Claimable(d: Ledger, key: string, owner: string, token: string, when: int) {
    && key != "" && key in d && d[key].state in {Prepared, Executing, Ambiguous}
    && (d[key].owner in {None, Some(owner)} || d[key].expires.None? || d[key].expires.value <= when)
    && (d[key].owner == Some(owner) ==> d[key].claimToken in {None, Some(token)})
  }

  function Unclaimed(i: Intent, state: IntentState): Intent {
    i.(state := state, owner := None, claimToken := None, expires := None)
  }

  /** The claimed intent, or None when the claim is refused. */
  function Claimed(d: Ledger, when: int, ttl: nat, key: string, owner: string, token: string): Option<Intent> {
    if key !in d || !Open(d[key].state) then None
    else
      var i := d[key];
      if i.owner.Some? && i.owner.value != owner && i.expires.Some? && i.expires.value > when then None
      else if i.owner == Some(owner) && i.claimToken.Some? && i.claimToken.value != token then None
      else Some(i.(owner := Some(owner), claimToken := Some(token), expires := Some(when + ttl), state := Executing))
  }

  function Renewed(d: Ledger, when: int, ttl: nat, key: string, owner: string, token: string): Option<Intent> {
    if key in d && Open(d[key].state) && HeldBy(d[key], owner, token)
       && d[key].expires.Some? && d[key].expires.value > when
    then Some(d[key].(expires := Some(when + ttl))) else None
  }

  function Released(d: Ledger, key: string, owner: string, token: string, state: IntentState): Option<Intent> {
    if key in d && HeldBy(d[key], owner, token) then Some(Unclaimed(d[key], state)) else None
  }

  function MarkedClaimed(d: Ledger, when: int, key: string, owner: string, token: string, state: IntentState): Option<Intent> {
    if key in d && HeldBy(d[key], owner, token) && d[key].expires.Some? && d[key].expires.value > when
    then Some(Unclaimed(d[key], state)) else None
  }

  function Finalized(d: Ledger, key: string, state: IntentState): Option<Intent> {
    if key !in d then None
    else if Terminal(d[key].state) then Some(d[key])
    else if !Open(d[key].state) then None
    else Some(Unclaimed(d[key], state))
  }

  function MarkedFreely(d: Ledger, key: string, state: IntentState): Option<Intent> {
    if key !in d || d[key].owner.Some? then None
    else if Terminal(state) && Terminal(d[key].state) then Some(d[key])
    else Some(d[key].(state := state))
  }

  function Put(d: Ledger, key: string, i: Option<Intent>): Ledger {
    if i.Some? then d[key := i.value] else d
  }

  class IntentStore {
    const ttl: nat
    var data: Ledger

    constructor (claimTtlSeconds: int)
      ensures data == map[] && ttl == Max(1, claimTtlSeconds)
    {
      ttl := Max(1, claimTtlSeconds);
      data := map[];
    }

    method Get(key: string) returns (r: Option<Intent>)
      ensures r == if key != "" && key in data then Some(data[key]) else None
    {
      r := if key != "" && key in data then Some(data[key]) else None;
    }

    method Prepare(intent: Intent) returns (r: Result<Intent, IntentError>)
      modifies this`data
      ensures intent.state.Invalid? ==> r == Failure(BadState) && data == old(data)
      ensures !intent.state.Invalid? ==>
        data == (if intent.key in old(data) then old(data) else old(data)[intent.key := intent])
        && r == Success(data[intent.key])
    {
      if intent.state.Invalid? { return Failure(BadState); }
      if intent.key in data { return Success(data[intent.key]); }
      data := data[intent.key := intent];
      return Success(intent);
    }

    method Claim(when: int, key: string, owner: string, token: string) returns (r: Result<Option<Intent>, IntentError>)
      modifies this`data
      ensures "" in {key, owner, token} ==> r == Failure(MissingArgument) && data == old(data)
      ensures "" !in {key, owner, token} ==>
        r == Success(Claimed(old(data), when, ttl, key, owner, token)) && data == Put(old(data), key, r.value)
      ensures "" !in {key, owner, token} ==>
        if old(Claimable(data, key, owner, token, when)) then r == Success(Some(data[key])) && Held(data[key], owner, token, when + ttl)
        else r == Success(None)
    {
      if key == "" || owner == "" || token == "" { return Failure(MissingArgument); }
      if key !in data || !Open(data[key].state) { return Success(None); }
      var raw := data[key];
      if raw.owner != None && raw.owner != Some(owner) && raw.expires.Some? && raw.expires.value > when {
        return Success(None);
      }
      if raw.owner == Some(owner) && raw.claimToken != None && raw.claimToken != Some(token) { return Success(None); }
      raw := raw.(owner := Some(owner), claimToken := Some(token), expires := Some(when + ttl), state := Executing);
      data := data[key := raw];
      return Success(Some(raw));
    }

    method RenewClaim(when: int, key: string, owner: string, token: string) returns (renewed: bool)
      modifies this`data
      ensures renewed <==> Renewed(old(data), when, ttl, key, owner, token).Some?
      ensures data == Put(old(data), key, Renewed(old(data), when, ttl, key, owner, token))
      ensures renewed <==> old(LiveClaim(data, key, owner, token, when) && data[key].state in {Prepared, Executing, Ambiguous})
    {
      if key !in data || !Open(data[key].state) || data[key].owner != Some(owner) || data[key].claimToken != Some(token) {
        return false;
      }
      if data[key].expires.None? || data[key].expires.value <= when { return false; }
      data := data[key := data[key].(expires := Some(when + ttl))];
      return true;
    }

    method ReleaseClaim(key: string, owner: string, token: string, state: IntentState)
      returns (r: Result<bool, IntentError>)
      modifies this`data
      ensures !Open(state) ==> r == Failure(BadState) && data == old(data)
      ensures Open(state) ==>
        r == Success(Released(old(data), key, owner, token, state).Some?)
        && data == Put(old(data), key, Released(old(data), key, owner, token, state))
        && r.value == old(key in data && data[key].owner == Some(owner) && data[key].claimToken == Some(token))
    {
      if !Open(state) { return Failure(BadState); }
      if key !in data || data[key].owner != Some(owner) || data[key].claimToken != Some(token) { return Success(false); }
      data := data[key := data[key].(owner := None, claimToken := None, expires := None, state := state)];
      return Success(true);
    }

    method MarkClaimed(when: int, key: string, owner: string, token: string, state: IntentState)
      returns (r: Result<Option<Intent>, IntentError>)
      modifies this`data
      ensures !Terminal(state) ==> r == Failure(BadState) && data == old(data)
      ensures Terminal(state) ==>
        r == Success(MarkedClaimed(old(data), when, key, owner, token, state)) && data == Put(old(data), key, r.value)
        && r.value == if old(LiveClaim(data, key, owner, token, when)) then Some(data[key]) else None
    {
      if !Terminal(state) { return Failure(BadState); }
      if key !in data || data[key].owner != Some(owner) || data[key].claimToken != Some(token) { return Success(None); }
      if data[key].expires.None? || data[key].expires.value <= when { return Success(None); }
      data := data[key := data[key].(state := state, owner := None, claimToken := None, expires := None)];
      return Success(Some(data[key]));
    }

    method FinalizeFromJournal(key: string, state: IntentState) returns (r: Result<Option<Intent>, IntentError>)
      modifies this`data
      ensures !Terminal(state) ==> r == Failure(BadState) && data == old(data)
      ensures Terminal(state) ==>
        r == Success(Finalized(old(data), key, state)) && data == Put(old(data), key, r.value)
        && r.value == if key in data && !data[key].state.Invalid? then Some(data[key]) else None
    {
      if !Terminal(state) { return Failure(BadState); }
      if key !in data { return Success(None); }
      if Terminal(data[key].state) {
        assert data == data[key := data[key]];
        return Success(Some(data[key]));
      }
      if !Open(data[key].state) { return Success(None); }
      data := data[key := data[key].(state := state, owner := None, claimToken := None, expires := None)];
      return Success(Some(data[key]));
    }

    method Mark(key: string, state: IntentState) returns (r: Result<Option<Intent>, IntentError>)
      modifies this`data
      ensures state.Invalid? ==> r == Failure(BadState) && data == old(data)
      ensures !state.Invalid? ==>
        r == Success(MarkedFreely(old(data), key, state)) && data == Put(old(data), key, r.value)
        && r.value == if key in data && data[key].owner.None? then Some(data[key]) else None
    {
      if state.Invalid? { return Failure(BadState); }
      if key !in data { return Success(None); }
      if data[key].owner.Some? { return Success(None); }
      if Terminal(state) && Terminal(data[key].state) {
        assert data == data[key := data[key]];
        return Success(Some(data[key]));
      }
      data := data[key := data[key].(state := state)];
      return Success(Some(data[key]));
    }
  }

  // ---------------------------------------------------------------- whole histories

  datatype IntentOp =
    | Prepare(intent: Intent)
    | Claim(when: int, key: string, owner: string, token: string)
    | Renew(when: int, key: string, owner: string, token: string)
    | Release(key: string, owner: string, token: string, state: IntentState)
    | MarkClaimed(when: int, key: string, owner: string, token: string, state: IntentState)
    | Finalize(key: string, state: IntentState)
    | Mark(key: string, state: IntentState)

  /** Operations whose arguments the store rejects change nothing. */
  function After(d: Ledger, ttl: nat, op: IntentOp): Ledger {
    match op
    case Prepare(i) => if i.state.Invalid? || i.key in d then d else d[i.key := i]
    case Claim(w, k, o, t) => if "" in {k, o, t} then d else Put(d, k, Claimed(d, w, ttl, k, o, t))
    case Renew(w, k, o, t) => Put(d, k, Renewed(d, w, ttl, k, o, t))
    case Release(k, o, t, st) => if !Open(st) then d else Put(d, k, Released(d, k, o, t, st))
    case MarkClaimed(w, k, o, t, st) => if !Terminal(st) then d else Put(d, k, MarkedClaimed(d, w, k, o, t, st))
    case Finalize(k, st) => if !Terminal(st) then d else Put(d, k, Finalized(d, k, st))
    case Mark(k, st) => if st.Invalid? then d else Put(d, k, MarkedFreely(d, k, st))
  }

  function Run(d: Ledger, ttl: nat, ops: seq<IntentOp>): Ledger
    decreases |ops|
  {
    if ops == [] then d else Run(After(d, ttl, ops[0]), ttl, ops[1..])
  }

  // ---------------------------------------------------------------- each operation, field by field

  /** Only the intent of the key is another, and it is still about the same call. */
  predicate SameCall(d: Ledger, key: string, d': Ledger) {
    && key in d && key in d' && d' == d[key := d'[key]]
    && d'[key].key == d[key].key && d'[key].callId == d[key].callId && d'[key].tool == d[key].tool
    && d'[key].arguments == d[key].arguments && d'[key].executionId == d[key].executionId
  }

  predicate Held(i: Intent, owner: string, token: string, expires: int) {
    i.owner == Some(owner) && i.claimToken == Some(token) && i.expires == Some(expires)
  }

  predicate Free(i: Intent) {
    i.owner == None && i.claimToken == None && i.expires == None
  }

  lemma ClaimDoes(d: Ledger, ttl: nat, when: int, key: string, owner: string, token: string)
    ensures var d' := After(d, ttl, Claim(when, key, owner, token));
      if owner != "" && token != "" && Claimable(d, key, owner, token, when) then
        SameCall(d, key, d') && d'[key].state == Executing && Held(d'[key], owner, token, when + ttl)
      else d' == d
  {
  }

  lemma RenewDoes(d: Ledger, ttl: nat, when: int, key: string, owner: string, token: string)
    ensures var d' := After(d, ttl, Renew(when, key, owner, token));
      if LiveClaim(d, key, owner, token, when) && d[key].state in {Prepared, Executing, Ambiguous} then
        SameCall(d, key, d') && d'[key].state == d[key].state && Held(d'[key], owner, token, when + ttl)
      else d' == d
  {
  }

  lemma ReleaseDoes(d: Ledger, ttl: nat, key: string, owner: string, token: string, state: IntentState)
    ensures var d' := After(d, ttl, Release(key, owner, token, state));
      if key in d && d[key].owner == Some(owner) && d[key].claimToken == Some(token)
         && state in {Prepared, Executing, Ambiguous} then
        SameCall(d, key, d') && d'[key].state == state && Free(d'[key])
      else d' == d
  {
  }

  lemma MarkClaimedDoes(d: Ledger, ttl: nat, when: int, key: string, owner: string, token: string, state: IntentState)
    ensures var d' := After(d, ttl, MarkClaimed(when, key, owner, token, state));
      if LiveClaim(d, key, owner, token, when) && state in {Completed, Failed} then
        SameCall(d, key, d') && d'[key].state == state && Free(d'[key])
      else d' == d
  {
  }

  lemma FinalizeDoes(d: Ledger, ttl: nat, key: string, state: IntentState)
    ensures var d' := After(d, ttl, Finalize(key, state));
      if key in d && d[key].state in {Prepared, Executing, Ambiguous} && state in {Completed, Failed} then
        SameCall(d, key, d') && d'[key].state == state && Free(d'[key])
      else d' == d
  {
    assert key in d ==> d[key := d[key]] == d;
  }

  lemma MarkDoes(d: Ledger, ttl: nat, key: string, state: IntentState)
    ensures var d' := After(d, ttl, Mark(key, state));
      if key in d && d[key].owner.None? && !state.Invalid?
         && !(state in {Completed, Failed} && d[key].state in {Completed, Failed}) then
        SameCall(d, key, d') && d'[key].state == state
        && d'[key].owner == None && d'[key].claimToken == d[key].claimToken && d'[key].expires == d[key].expires
      else d' == d
  {
    assert key in d ==> d[key := d[key]] == d;
  }

  // ---------------------------------------------------------------- over whole histories

  /** An owned intent is executing with a token and an expiry; an unowned one has neither. */
  predicate Coherent(i: Intent) {
    && !i.state.Invalid?
    && (if i.owner.Some? then i.state == Executing && i.claimToken.Some? && i.expires.Some?
        else i.claimToken.None? && i.expires.None?)
  }

  predicate Sound(d: Ledger) {
    forall k :: k in d ==> d[k].key == k && Coherent(d[k])
  }

  /** New intents enter unclaimed; nothing else is asked of a history. */
  predicate Fair(op: IntentOp) {
    op.Prepare? ==> op.intent.owner.None? && op.intent.claimToken.None? && op.intent.expires.None?
  }

  lemma StepStaysSound(d: Ledger, ttl: nat, op: IntentOp, k: string)
    requires Sound(d) && Fair(op) && k in After(d, ttl, op)
    ensures After(d, ttl, op)[k].key == k && Coherent(After(d, ttl, op)[k])
    ensures k in d ==> After(d, ttl, op)[k].executionId == d[k].executionId
  {
  }

  lemma {:induction false} LedgerStaysSound(d: Ledger, ttl: nat, ops: seq<IntentOp>)
    requires Sound(d) && forall i :: 0 <= i < |ops| ==> Fair(ops[i])
    ensures Sound(Run(d, ttl, ops))
    ensures forall k :: k in d ==> k in Run(d, ttl, ops) && Run(d, ttl, ops)[k].executionId == d[k].executionId
    decreases |ops|
  {
    if ops != [] {
      assert Fair(ops[0]);
      var d' := After(d, ttl, ops[0]);
      forall k | k in d'
        ensures d'[k].key == k && Coherent(d'[k]) && (k in d ==> d'[k].executionId == d[k].executionId)
      {
        StepStaysSound(d, ttl, ops[0], k);
      }
      LedgerStaysSound(After(d, ttl, ops[0]), ttl, ops[1..]);
    }
  }

  /** The only ways a claim ends: its holder gives it up, its holder finalises before it expires, a journal
      finalises, or another owner claims after it expired.  In particular a live claim is never taken. */
  lemma HowClaimsEnd(d: Ledger, ttl: nat, op: IntentOp, k: string, owner: string, token: string)
    requires Sound(d) && k in d && HeldBy(d[k], owner, token) && !HeldBy(After(d, ttl, op)[k], owner, token)
    ensures
      || (op.Release? && op.key == k && op.owner == owner && op.token == token && After(d, ttl, op)[k] == Unclaimed(d[k], op.state))
      || (op.MarkClaimed? && op.key == k && op.owner == owner && op.token == token && d[k].expires.value > op.when
          && After(d, ttl, op)[k] == Unclaimed(d[k], op.state))
      || (op.Finalize? && op.key == k && After(d, ttl, op)[k] == Unclaimed(d[k], op.state))
      || (op.Claim? && op.key == k && op.owner != owner && d[k].expires.value <= op.when
          && HeldBy(After(d, ttl, op)[k], op.owner, op.token))
  {
  }

  predicate ClaimsAs(op: IntentOp, k: string, owner: string, token: string) {
    op.Claim? && op.key == k && op.owner == owner && op.token == token
  }

  lemma {:induction false} SupersededStaysOut(d: Ledger, ttl: nat, ops: seq<IntentOp>, k: string, owner: string, token: string)
    requires forall i :: 0 <= i < |ops| ==> Fair(ops[i]) && !ClaimsAs(ops[i], k, owner, token)
    requires k in d ==> !HeldBy(d[k], owner, token)
    ensures k in Run(d, ttl, ops) ==> !HeldBy(Run(d, ttl, ops)[k], owner, token)
    decreases |ops|
  {
    if ops != [] {
      assert Fair(ops[0]) && !ClaimsAs(ops[0], k, owner, token);
      SupersededStaysOut(After(d, ttl, ops[0]), ttl, ops[1..], k, owner, token);
    }
  }

  /** A pair that does not hold the claim cannot renew, release or finalise after any history in which it
      does not claim again. */
  lemma SupersededIsPowerless(d: Ledger, ttl: nat, ops: seq<IntentOp>, k: string, owner: string, token: string,
                              when: int, state: IntentState)
    requires forall i :: 0 <= i < |ops| ==> Fair(ops[i]) && !ClaimsAs(ops[i], k, owner, token)
    requires k in d ==> !HeldBy(d[k], owner, token)
    ensures var v := Run(d, ttl, ops);
      && Renewed(v, when, ttl, k, owner, token).None?
      && Released(v, k, owner, token, state).None?
      && MarkedClaimed(v, when, k, owner, token, state).None?
  {
    SupersededStaysOut(d, ttl, ops, k, owner, token);
  }

  /** `mark` with a state that is not terminal reopens a terminal intent; no other operation changes one. */
  predicate Reopens(op: IntentOp, k: string) {
    op.Mark? && op.key == k && Open(op.state)
  }

  lemma TerminalChangesIff(d: Ledger, ttl: nat, op: IntentOp, k: string)
    requires Sound(d) && Fair(op) && k in d && Terminal(d[k].state)
    ensures After(d, ttl, op)[k] != d[k] <==> Reopens(op, k)
    ensures Reopens(op, k) ==> Open(After(d, ttl, op)[k].state)
  {
  }

  lemma {:induction false} TerminalIsForever(d: Ledger, ttl: nat, ops: seq<IntentOp>, k: string)
    requires Sound(d) && k in d && Terminal(d[k].state)
    requires forall i :: 0 <= i < |ops| ==> Fair(ops[i]) && !Reopens(ops[i], k)
    ensures k in Run(d, ttl, ops) && Run(d, ttl, ops)[k] == d[k]
    decreases |ops|
  {
    if ops != [] {
      assert Fair(ops[0]) && !Reopens(ops[0], k);
      TerminalChangesIff(d, ttl, ops[0], k);
      TerminalIsForever(After(d, ttl, ops[0]), ttl, ops[1..], k);
    }
  }
}
