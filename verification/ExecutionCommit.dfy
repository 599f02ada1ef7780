/** The crash-recoverable commit protocol (runtime/execution_commit.py): journal, compare-and-set, audit,
    mark.  `CommitPath` and `Pass` say what the methods do to durable state, write by write. */
module ExecutionCommit {
  import opened Base
  import opened StateMachine
  import opened ExecutionStore
  import opened ExecutionLease
  import opened ExecutionAudit
  import opened CommitJournal

  /** Everything durable the coordinator writes. */
  datatype Disk = Disk(executions: Table, audit: seq<Event>, journal: seq<Line>)

  /** What a coordinator is configured with: the graph of its store, its fencing token, and the verdict of
      the lease check for an execution at the n-th visit of the lock, and the digest that identifies an event
      without an id. */
  datatype Config = Config(machine: Graph, token: Option<nat>, verdict: (nat, string) -> bool, digest: Event -> string)

  datatype Request = Request(state: Execution, to: Status, checkpoint: Value, reason: Option<string>)

  datatype Reply = Returned(commit: Commit) | JournalRaised | StoreRaised(error: StoreError)

  function Digits(n: nat): string {
    (if n < 10 then "" else Digits(n / 10)) + ["0123456789"[n % 10]]
  }

  function Number(n: int): string {
    if n < 0 then "-" + Digits(-n) else Digits(n)
  }

  function IdText(executionId: string, attempt: int, to: Status, correlationId: Option<string>): string {
    executionId + ":" + (Number(attempt) + ":" + (Text(to) + ":" + correlationId.GetOr("")))
  }

  function CommitId(state: Execution, to: Status): string {
    IdText(state.id, state.attempt, to, state.correlationId)
  }

  function NewCommit(q: Request): Commit {
    Commit(CommitId(q.state, q.to), q.state.id, q.state.status, q.to, q.state.attempt, q.checkpoint, q.reason,
           q.state.correlationId, Waiting, 0, false)
  }

  function NextState(x: Execution, to: Status, checkpoint: Value, reason: Option<string>): Execution {
    x.(status := to,
       result := if to == Completed then checkpoint else x.result,
       error := if to == Failed then reason else x.error)
  }

  /** The store errors the protocol catches; the others leave the method. */
  predicate Caught(e: StoreError) {
    e in {VersionConflict, StatusConflict, MissingValidator, StaleToken}
  }

  function Validator(cfg: Config, n: nat): Fence {
    (id, token) => token == cfg.token && cfg.verdict(n, id)
  }

  function CommitCas(cfg: Config, n: nat, t: Table, current: Execution, expected: Status,
                     to: Status, checkpoint: Value, reason: Option<string>): Result<Execution, StoreError>
  {
    CasOutcome(cfg.machine, t, NextState(current, to, checkpoint, reason), current.version, Some(expected),
               cfg.token, Some(Validator(cfg, n)))
  }

  function CommitEvent(x: Execution, c: Commit): Event {
    Event(x.id, x.status, c.to, x.attempt, c.reason, x.correlationId, c.id)
  }

  function RepairEvent(cfg: Config, c: Commit): Event {
    var e := Event(c.executionId, c.from, c.to, c.attempt, c.reason, c.correlationId, c.id);
    if c.id == "" then e.(id := cfg.digest(e)) else e
  }

  /** The locked section of `commit`, for the journalled record `c`: the durable states from taking the lock
      on, and the error that leaves it, if any. */
  function ApplyPath(cfg: Config, d: Disk, q: Request, c: Commit): (path: seq<Disk>)
    ensures path != [] && path[0] == d
  {
    if q.state.id !in d.executions || !cfg.verdict(0, d.executions[q.state.id].id) then [d]
    else
      var x := d.executions[q.state.id];
      var r := CommitCas(cfg, 0, d.executions, x, x.status, q.to, q.checkpoint, q.reason);
      if r.Failure? then [d]
      else
        var d2 := d.(executions := Stored(d.executions, r));
        var d3 := d2.(audit := Appended(d.audit, CommitEvent(x, c)));
        [d, d2, d3, d3.(journal := Marked(d.journal, c.id, Applied))]
  }

  function ApplyRaises(cfg: Config, d: Disk, q: Request): Option<StoreError> {
    if q.state.id !in d.executions || !cfg.verdict(0, d.executions[q.state.id].id) then None
    else
      var x := d.executions[q.state.id];
      var r := CommitCas(cfg, 0, d.executions, x, x.status, q.to, q.checkpoint, q.reason);
      if r.Failure? && !Caught(r.error) then Some(r.error) else None
  }

  /** The durable states of one `commit` call: before it, then after each durable write.  A crash leaves one
      of them behind. */
  function CommitPath(cfg: Config, d: Disk, q: Request): (path: seq<Disk>)
    ensures path != [] && path[0] == d
  {
    if !Readable(d.journal) || Lookup(Records(d.journal), CommitId(q.state, q.to)).Some? then [d]
    else
      [d] + ApplyPath(cfg, d.(journal := Append(d.journal, NewCommit(q))), q, Numbered(d.journal, NewCommit(q)))
  }

  function CommitReply(cfg: Config, d: Disk, q: Request): Reply {
    if !Readable(d.journal) then JournalRaised
    else
      var known := Lookup(Records(d.journal), CommitId(q.state, q.to));
      if known.Some? then Returned(known.value)
      else
        var raised := ApplyRaises(cfg, d.(journal := Append(d.journal, NewCommit(q))), q);
        if raised.Some? then StoreRaised(raised.value) else Returned(Numbered(d.journal, NewCommit(q)))
  }

  /** The durable states of `reconcile` visiting one pending record. */
  function VisitPath(cfg: Config, n: nat, d: Disk, c: Commit): (path: seq<Disk>)
    ensures path != [] && path[0] == d
  {
    if c.executionId !in d.executions || !cfg.verdict(n, c.executionId) then [d]
    else
      var x := d.executions[c.executionId];
      if x.status == c.to then
        var d1 := d.(audit := Appended(d.audit, RepairEvent(cfg, c)));
        [d, d1, d1.(journal := Marked(d.journal, c.id, Reconciled))]
      else if x.status != c.from then [d]
      else
        var r := CommitCas(cfg, n, d.executions, x, c.from, c.to, c.checkpoint, c.reason);
        if r.Failure? then [d]
        else
          var d1 := d.(executions := Stored(d.executions, r));
          var d2 := d1.(audit := Appended(d.audit, RepairEvent(cfg, c)));
          [d, d1, d2, d2.(journal := Marked(d.journal, c.id, Reconciled))]
  }

  function VisitRaises(cfg: Config, n: nat, d: Disk, c: Commit): Option<StoreError> {
    if c.executionId !in d.executions || !cfg.verdict(n, c.executionId) then None
    else
      var x := d.executions[c.executionId];
      if x.status == c.to || x.status != c.from then None
      else
        var r := CommitCas(cfg, n, d.executions, x, c.from, c.to, c.checkpoint, c.reason);
        if r.Failure? && !Caught(r.error) then Some(r.error) else None
  }

  datatype PassState = PassState(disk: Disk, repaired: seq<string>, raised: Option<StoreError>)

  /** `reconcile` over a list of pending records taken before it started: record n is visited on what the
      visits before it left behind, until one raises. */
  function Pass(cfg: Config, d: Disk, todo: seq<Commit>): PassState {
    if todo == [] then PassState(d, [], None)
    else
      var n := |todo| - 1;
      PassVisit(cfg, n, Pass(cfg, d, todo[..n]), todo[n])
  }

  function PassVisit(cfg: Config, n: nat, p: PassState, c: Commit): PassState {
    if p.raised.Some? then p
    else
      var path := VisitPath(cfg, n, p.disk, c);
      PassState(Last(path), if |path| > 1 then p.repaired + [c.id] else p.repaired, VisitRaises(cfg, n, p.disk, c))
  }

  lemma PassUpTo(cfg: Config, d: Disk, todo: seq<Commit>, n: nat)
    requires n < |todo|
    ensures Pass(cfg, d, todo[..n + 1]) == PassVisit(cfg, n, Pass(cfg, d, todo[..n]), todo[n])
  {
    assert todo[..n + 1][..n] == todo[..n];
  }

  class Coordinator {
    const store: Store
    const audit: AuditLog
    const journal: Journal
    const leases: LeaseStore?
    const owner: string
    const token: Option<nat>
    const digest: Event -> string

    constructor (store: Store, audit: AuditLog, journal: Journal, leases: LeaseStore?, owner: string,
                 token: Option<nat>, digest: Event -> string)
      ensures this.store == store && this.audit == audit && this.journal == journal
      ensures this.leases == leases && this.owner == owner && this.token == token
    {
      this.store := store; this.audit := audit; this.journal := journal;
      this.leases := leases; this.owner := owner; this.token := token; this.digest := digest;
    }

    function OnDisk(): Disk
      reads store`data, audit`events, journal`lines
    {
      Disk(store.data, audit.events, journal.lines)
    }

    predicate LeaseValid(now: int, executionId: string)
      reads leases
    {
      leases == null || (owner != "" && token.Some? && leases.Owns(now, executionId, owner, token))
    }

    /** There is no lease store, or the lease on the execution is this coordinator's, under its token, and lives. */
    predicate MayAct(now: int, executionId: string)
      reads leases
    {
      leases != null ==>
        && owner != "" && executionId in leases.data && leases.data[executionId].owner == owner
        && token == Some(leases.data[executionId].token) && now < leases.data[executionId].expires
    }

    /** The configuration this coordinator acts under while the lease table stays what it is; `clock(n)` is
        the time at the n-th visit of the lock. */
    ghost function Cfg(clock: nat -> int): Config
      reads leases
    {
      var held := if leases == null then map[] else leases.data;
      Config(store.machine, token,
             (n: nat, id: string) => leases == null || (owner != "" && token.Some? && IsOwner(held, clock(n), id, owner, token)),
             digest)
    }

    /** The locked section of `commit`. */
    method Apply(when: int, ghost clock: nat -> int, q: Request, c: Commit)
      returns (raised: Option<StoreError>, ghost path: seq<Disk>)
      requires when == clock(0) && c.id != "" && Readable(journal.lines)
      modifies store`data, audit`events, journal`lines
      ensures path == ApplyPath(Cfg(clock), old(OnDisk()), q, c)
      ensures raised == ApplyRaises(Cfg(clock), old(OnDisk()), q)
      ensures OnDisk() == Last(path)
    {
      ghost var cfg := Cfg(clock);
      ghost var d := OnDisk();
      raised, path := None, [d];
      if q.state.id !in store.data || !LeaseValid(when, store.data[q.state.id].id) { return; }
      var current := store.data[q.state.id];
      var r := Swap(when, 0, clock, current, current.status, q.to, q.checkpoint, q.reason);
      if r.Failure? {
        if !Caught(r.error) { raised := Some(r.error); }
        return;
      }
      ghost var d2 := OnDisk();
      var _ := audit.Append(CommitEvent(current, c), "");
      ghost var d3 := OnDisk();
      var _ := journal.Mark(c.id, Applied);
      path := [d, d2, d3, OnDisk()];
    }

    /** The fenced compare-and-set both protocols use: the validator repeats the lease check. */
    method Swap(when: int, ghost n: nat, ghost clock: nat -> int, current: Execution, expected: Status,
                to: Status, checkpoint: Value, reason: Option<string>) returns (r: Result<Execution, StoreError>)
      requires when == clock(n)
      modifies store`data
      ensures r == CommitCas(Cfg(clock), n, old(store.data), current, expected, to, checkpoint, reason)
      ensures store.data == Stored(old(store.data), r)
    {
      var mine, own, held := token, owner, if leases == null then map[] else leases.data;
      var bound := leases != null;
      var fence: Fence := (i, t) =>
        t == mine && (!bound || (own != "" && mine.Some? && IsOwner(held, when, i, own, mine)));
      r := store.CompareAndSet(NextState(current, to, checkpoint, reason), current.version,
                               Some(expected), token, Some(fence));
    }

    method Commit(clock: nat -> int, state: Execution, to: Status, checkpoint: Value, reason: Option<string>)
      returns (reply: Reply, ghost path: seq<Disk>)
      modifies store`data, audit`events, journal`lines
      ensures path == CommitPath(Cfg(clock), old(OnDisk()), Request(state, to, checkpoint, reason))
      ensures OnDisk() == Last(path)
      ensures reply == CommitReply(Cfg(clock), old(OnDisk()), Request(state, to, checkpoint, reason))
    {
      var q := Request(state, to, checkpoint, reason);
      path := [OnDisk()];
      var known := journal.Read();
      if known.None? { return JournalRaised, path; }
      var existing := Lookup(known.value, CommitId(state, to));
      if existing.Some? { return Returned(existing.value), path; }
      AppendStaysReadable(journal.lines, NewCommit(q));
      var commit := journal.AppendRecord(NewCommit(q));
      IdIsNotEmpty(state, to);
      var raised;
      ghost var rest;
      raised, rest := Apply(clock(0), clock, q, commit);
      reply := if raised.Some? then StoreRaised(raised.value) else Returned(commit);
      path := path + rest;
    }

    /** One visit of `reconcile`'s loop; `when` is the time it holds the lock. */
    method Visit(when: int, ghost n: nat, ghost clock: nat -> int, c: Commit)
      returns (repaired: bool, raised: Option<StoreError>)
      requires when == clock(n) && Readable(journal.lines)
      modifies store`data, audit`events, journal`lines
      ensures var path := VisitPath(Cfg(clock), n, old(OnDisk()), c);
        OnDisk() == Last(path) && repaired == (|path| > 1)
      ensures raised == VisitRaises(Cfg(clock), n, old(OnDisk()), c)
      ensures Readable(journal.lines)
    {
      ghost var cfg := Cfg(clock);
      repaired, raised := false, None;
      if c.executionId !in store.data || !LeaseValid(when, c.executionId) { return; }
      var state := store.data[c.executionId];
      if state.status != c.to {
        if state.status != c.from { return; }
        var r := Swap(when, n, clock, state, c.from, c.to, c.checkpoint, c.reason);
        if r.Failure? {
          if !Caught(r.error) { raised := Some(r.error); }
          return;
        }
      }
      var event := Event(c.executionId, c.from, c.to, c.attempt, c.reason, c.correlationId, c.id);
      var _ := audit.Append(event, digest(event));
      MarkStaysReadable(journal.lines, c.id, Reconciled);
      var _ := journal.Mark(c.id, Reconciled);
      repaired := true;
    }

    /** None when reading the journal raises. */
    method Reconcile(clock: nat -> int) returns (repaired: Option<seq<string>>, raised: Option<StoreError>)
      modifies store`data, audit`events, journal`lines
      ensures !Readable(old(journal.lines)) ==> repaired.None? && OnDisk() == old(OnDisk())
      ensures Readable(old(journal.lines)) ==>
        var p := Pass(Cfg(clock), old(OnDisk()), PendingOf(Records(old(journal.lines))));
        OnDisk() == p.disk && repaired == Some(p.repaired) && raised == p.raised
    {
      raised := None;
      var read := journal.Read();
      if read.None? { return None, None; }
      var todo := PendingOf(read.value);
      var done: seq<string> := [];
      ghost var cfg, before := Cfg(clock), OnDisk();
      for n := 0 to |todo|
        invariant Readable(journal.lines)
        invariant Pass(cfg, before, todo[..n]) == PassState(OnDisk(), done, None)
      {
        PassUpTo(cfg, before, todo, n);
        var ok, error := Visit(clock(n), n, clock, todo[n]);
        if ok { done := done + [todo[n].id]; }
        if error.Some? {
          PassStopsAtRaise(cfg, before, todo, n + 1);
          return Some(done), error;
        }
      }
      assert todo[..|todo|] == todo;
      return Some(done), None;
    }
  }

  /** The verdict a coordinator acts under: its own live lease, or no lease store. */
  lemma VerdictIff(k: Coordinator, clock: nat -> int, n: nat, id: string)
    ensures var cfg := k.Cfg(clock);
      && (cfg.verdict(n, id) <==> k.MayAct(clock(n), id))
      && cfg.machine == k.store.machine && cfg.token == k.token
  {
  }

  lemma IdIsNotEmpty(state: Execution, to: Status)
    ensures CommitId(state, to) != ""
  {
    assert ":" in [":"];
  }

  lemma AppendStaysReadable(lines: seq<Line>, c: Commit)
    requires Readable(lines)
    ensures Readable(Append(lines, c))
  {
  }

  lemma MarkStaysReadable(lines: seq<Line>, id: string, phase: Phase)
    requires Readable(lines)
    ensures Readable(Marked(lines, id, phase))
  {
  }

  lemma {:induction false} PassStopsAtRaise(cfg: Config, d: Disk, todo: seq<Commit>, n: nat)
    requires n <= |todo| && Pass(cfg, d, todo[..n]).raised.Some?
    ensures Pass(cfg, d, todo) == Pass(cfg, d, todo[..n])
    decreases |todo| - n
  {
    if n == |todo| {
      assert todo[..n] == todo;
    } else {
      assert todo[..n + 1][..n] == todo[..n];
      PassStopsAtRaise(cfg, d, todo, n + 1);
    }
  }
}
