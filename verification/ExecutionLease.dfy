/** Execution leases with fencing tokens (runtime/execution_lease.py).  The clock is a number. */
module ExecutionLease {
  import opened Base

  datatype Lease = Lease(owner: string, expires: int, token: nat)

  type Leases = map<string, Lease>

  datatype LeaseError = MissingArgument

  predicate Live(l: Lease, now: int) {
    l.expires > now
  }

  predicate TokenMatches(l: Lease, token: Option<nat>) {
    token.None? || token.value == l.token
  }

  predicate IsOwner(d: Leases, now: int, key: string, owner: string, token: Option<nat>) {
    key in d && d[key].owner == owner && TokenMatches(d[key], token) && Live(d[key], now)
  }

  function Token(d: Leases, key: string): nat {
    if key in d then d[key].token else 0
  }

  predicate CanAcquire(d: Leases, now: int, key: string, owner: string) {
    key !in d || !Live(d[key], now) || d[key].owner == owner
  }

  function Acquired(d: Leases, now: int, ttl: nat, key: string, owner: string): (r: Option<Lease>) {
    if CanAcquire(d, now, key, owner) then Some(Lease(owner, now + ttl, Token(d, key) + 1)) else None
  }

  function Renewed(d: Leases, now: int, ttl: nat, key: string, owner: string, token: Option<nat>): (r: Option<Lease>) {
    if IsOwner(d, now, key, owner, token) then Some(Lease(owner, now + ttl, d[key].token)) else None
  }

  function Released(d: Leases, now: int, key: string, owner: string, token: Option<nat>): (r: Option<Lease>) {
    if key in d && d[key].owner == owner && TokenMatches(d[key], token) then Some(Lease("", now, d[key].token)) else None
  }

  function Put(d: Leases, key: string, l: Option<Lease>): Leases {
    if l.Some? then d[key := l.value] else d
  }

  /** The lease is the owner's, and the token, if one is given, is its token. */
  predicate Mine(d: Leases, key: string, owner: string, token: Option<nat>) {
    key in d && d[key].owner == owner && (token.Some? ==> d[key].token == token.value)
  }

  class LeaseStore {
    const ttl: nat
    var data: Leases

    constructor (ttlSeconds: int)
      ensures data == map[] && ttl >= 1 && ttl == Max(1, ttlSeconds)
    {
      ttl := Max(1, ttlSeconds);
      data := map[];
    }

    method Acquire(now: int, key: string, owner: string) returns (r: Result<Option<Lease>, LeaseError>)
      modifies this`data
      ensures key == "" || owner == "" ==> r == Failure(MissingArgument) && data == old(data)
      ensures key != "" && owner != "" ==>
        r == Success(Acquired(old(data), now, ttl, key, owner)) && data == Put(old(data), key, r.value)
      ensures key != "" && owner != "" ==>
        if key in old(data) && old(data)[key].owner != owner && now < old(data)[key].expires then r == Success(None)
        else r == Success(Some(data[key]))
    {
      if key == "" || owner == "" { return Failure(MissingArgument); }
      var token := 1;
      if key in data {
        if data[key].expires > now && data[key].owner != owner { return Success(None); }
        token := data[key].token + 1;
      }
      var lease := Lease(owner, now + ttl, token);
      data := data[key := lease];
      return Success(Some(lease));
    }

    method Renew(now: int, key: string, owner: string, token: Option<nat>) returns (r: Option<Lease>)
      modifies this`data
      ensures r == Renewed(old(data), now, ttl, key, owner, token)
      ensures data == Put(old(data), key, r)
      ensures r == if key in data && old(Mine(data, key, owner, token) && now < data[key].expires) then Some(data[key]) else None
    {
      if key !in data || data[key].owner != owner || (token.Some? && data[key].token != token.value)
         || data[key].expires <= now {
        return None;
      }
      var lease := Lease(owner, now + ttl, data[key].token);
      data := data[key := lease];
      return Some(lease);
    }

    method Release(now: int, key: string, owner: string, token: Option<nat>) returns (released: bool)
      modifies this`data
      ensures released <==> Released(old(data), now, key, owner, token).Some?
      ensures data == Put(old(data), key, Released(old(data), now, key, owner, token))
      ensures released == old(Mine(data, key, owner, token))
    {
      if key !in data || data[key].owner != owner || (token.Some? && data[key].token != token.value) {
        return false;
      }
      data := data[key := data[key].(owner := "", expires := now)];
      return true;
    }

    function Owns(now: int, key: string, owner: string, token: Option<nat>): (r: bool)
      reads this`data
    {
      IsOwner(data, now, key, owner, token)
    }
  }

  // ---------------------------------------------------------------- whole runs

  /** One lease operation, or the passing of time.  `acquire` refuses empty names. */
  datatype LeaseOp =
    | Acquire(key: string, owner: string)
    | Renew(key: string, owner: string, token: Option<nat>)
    | Release(key: string, owner: string, token: Option<nat>)
    | Tick(to: int)

  datatype World = World(leases: Leases, now: int, ttl: nat)

  function Step(w: World, op: LeaseOp): World {
    match op
    case Acquire(k, o) => if k == "" || o == "" then w else w.(leases := Put(w.leases, k, Acquired(w.leases, w.now, w.ttl, k, o)))
    case Renew(k, o, t) => w.(leases := Put(w.leases, k, Renewed(w.leases, w.now, w.ttl, k, o, t)))
    case Release(k, o, t) => w.(leases := Put(w.leases, k, Released(w.leases, w.now, k, o, t)))
    case Tick(to) => w.(now := to)
  }

  /** Each operation in terms of the lease table: a grant runs `ttl` from now under the next token, a renewal runs
      `ttl` from now under the same token, a release leaves nobody's lease, expired, under the same token. */
  lemma StepDoes(w: World, op: LeaseOp)
    ensures var d, d' := w.leases, Step(w, op).leases;
      match op
      case Acquire(k, o) =>
        if k == "" || o == "" || (k in d && d[k].owner != o && w.now < d[k].expires) then d' == d
        else d' == d[k := Lease(o, w.now + w.ttl, if k in d then d[k].token + 1 else 1)]
      case Renew(k, o, t) =>
        if Mine(d, k, o, t) && w.now < d[k].expires then d' == d[k := Lease(o, w.now + w.ttl, d[k].token)] else d' == d
      case Release(k, o, t) =>
        if Mine(d, k, o, t) then d' == d[k := Lease("", w.now, d[k].token)] else d' == d
      case Tick(_) => d' == d
  {
  }

  /** Owning is holding the unexpired lease. */
  lemma OwnsIff(d: Leases, now: int, key: string, owner: string, token: Option<nat>)
    ensures IsOwner(d, now, key, owner, token) <==> Mine(d, key, owner, token) && now < d[key].expires
  {
  }

  function Run(w: World, ops: seq<LeaseOp>): World
    decreases |ops|
  {
    if ops == [] then w else Run(Step(w, ops[0]), ops[1..])
  }

  predicate Grants(w: World, op: LeaseOp) {
    op.Acquire? && op.key != "" && op.owner != "" && CanAcquire(w.leases, w.now, op.key, op.owner)
  }

  /** No clock reading is earlier than the one before it. */
  ghost predicate ClockForward(w: World, ops: seq<LeaseOp>)
    decreases |ops|
  {
    ops != [] ==> (ops[0].Tick? ==> ops[0].to >= w.now) && ClockForward(Step(w, ops[0]), ops[1..])
  }

  /** The token of a key never goes down, whatever happens and whichever way the clock moves. */
  lemma {:induction false} TokensNeverDecrease(w: World, ops: seq<LeaseOp>, key: string)
    ensures Token(Run(w, ops).leases, key) >= Token(w.leases, key)
    ensures key in w.leases ==> key in Run(w, ops).leases
    decreases |ops|
  {
    if ops != [] { TokensNeverDecrease(Step(w, ops[0]), ops[1..], key); }
  }

  /** Each grant's token is greater than every token granted for the key before it. */
  lemma LaterGrantsHaveGreaterTokens(w: World, first: LeaseOp, between: seq<LeaseOp>, second: LeaseOp)
    requires Grants(w, first) && second.Acquire? && second.key == first.key
    requires Grants(Run(Step(w, first), between), second)
    ensures var w1 := Step(w, first);
      var w2 := Run(w1, between);
      Token(Step(w2, second).leases, first.key) > Token(w1.leases, first.key) > Token(w.leases, first.key)
  {
    TokensNeverDecrease(Step(w, first), between, first.key);
  }

  /** A token below the key's current one is dead for good: no later run of operations lets it renew,
      release or own again. */
  lemma SupersededIsPowerless(w: World, ops: seq<LeaseOp>, key: string, owner: string, token: nat)
    requires token < Token(w.leases, key)
    ensures var v := Run(w, ops);
      && !IsOwner(v.leases, v.now, key, owner, Some(token))
      && Renewed(v.leases, v.now, v.ttl, key, owner, Some(token)).None?
      && Released(v.leases, v.now, key, owner, Some(token)).None?
  {
    TokensNeverDecrease(w, ops, key);
  }

  lemma {:induction false} OwnerOfAToken(w: World, ops: seq<LeaseOp>, key: string, owner: string)
    requires key in w.leases && w.leases[key].owner in {owner, ""}
    ensures var d := Run(w, ops).leases;
      key in d && (d[key].token == w.leases[key].token ==> d[key].owner in {owner, ""})
    decreases |ops|
  {
    if ops != [] {
      var w' := Step(w, ops[0]);
      TokensNeverDecrease(w', ops[1..], key);
      if w'.leases[key].token == w.leases[key].token { OwnerOfAToken(w', ops[1..], key, owner); }
    }
  }

  /** Ownership only moves forward: whoever passes the ownership test after any run holds a greater token
      than an earlier owner, or is that owner.  With no operation in between, two owners of one key at one
      moment are the same owner with the same token. */
  lemma OwnershipMovesForward(w: World, ops: seq<LeaseOp>, key: string, o1: string, t1: nat, o2: string, t2: nat)
    requires IsOwner(w.leases, w.now, key, o1, Some(t1)) && o2 != ""
    requires IsOwner(Run(w, ops).leases, Run(w, ops).now, key, o2, Some(t2))
    ensures t1 < t2 || (t1 == t2 && o1 == o2)
    ensures ops == [] ==> t1 == t2
  {
    TokensNeverDecrease(w, ops, key);
    OwnerOfAToken(w, ops, key, o1);
  }

  /** With a clock that never runs back, a lease that has expired (or was released) under a token can
      neither be renewed nor owned under that token again. */
  lemma {:induction false} ExpiredStaysExpired(w: World, ops: seq<LeaseOp>, key: string, owner: string, token: nat)
    requires ClockForward(w, ops)
    requires key in w.leases && (token < w.leases[key].token || !Live(w.leases[key], w.now))
    requires token <= w.leases[key].token
    ensures var v := Run(w, ops);
      && !IsOwner(v.leases, v.now, key, owner, Some(token))
      && Renewed(v.leases, v.now, v.ttl, key, owner, Some(token)).None?
    decreases |ops|
  {
    if ops != [] { ExpiredStaysExpired(Step(w, ops[0]), ops[1..], key, owner, token); }
  }
}
