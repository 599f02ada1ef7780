/** Any number of coordinators, lease holders and clock ticks, interleaved at every durable write.

    The store's lock is the lease store's lock (runtime/execution_commit.py:33), so it is one field here.
    Inside it a coordinator writes up to three times and may die after each; the journal has a lock of its
    own, so other coordinators read and append it meanwhile. */
module CommitSystem {
  import opened Base
  import opened StateMachine
  import opened ExecutionStore
  import opened ExecutionLease
  import opened ExecutionAudit
  import opened CommitJournal
  import opened ExecutionCommit

  /** A coordinator's configuration; `bound` says that it was given a lease store. */
  datatype Party = Party(bound: bool, owner: string, token: Option<nat>)

  /** Where a coordinator is.  `todo` and `rest` are what `reconcile` still has to visit;
      no `rest` means `commit`. */
  datatype Pc =
    | Idle
    | Checked(q: Request)
    | Journalled(q: Request, c: Commit)
    | Visiting(todo: seq<Commit>)
    | Swapped(c: Commit, event: Event, rest: Option<seq<Commit>>)
    | Audited(c: Commit, rest: Option<seq<Commit>>)

  /** One fenced compare-and-set, for the history. */
  datatype Write = Write(executionId: string, token: nat)

  datatype System = System(
    machine: Graph, digest: Event -> string, parties: map<nat, Party>, ttl: nat,
    disk: Disk, leases: Leases, now: int, lock: Option<nat>, pcs: map<nat, Pc>, writes: seq<Write>)

  datatype Action =
    | Check(p: nat, q: Request)
    | AppendRecord(p: nat)
    | Apply(p: nat)
    | ReadPending(p: nat)
    | VisitNext(p: nat)
    | AppendEvent(p: nat)
    | MarkRecord(p: nat)
    | Crash(p: nat)
    | LeaseAction(op: LeaseOp)

  predicate LeaseValid(s: System, p: nat, e: string)
    requires p in s.parties
  {
    var party := s.parties[p];
    !party.bound || (party.owner != "" && party.token.Some? && IsOwner(s.leases, s.now, e, party.owner, party.token))
  }

  function Cfg(s: System, p: nat): Config
    requires p in s.parties
  {
    Config(s.machine, s.parties[p].token, (n: nat, e: string) => LeaseValid(s, p, e), s.digest)
  }

  function Goto(s: System, p: nat, pc: Pc): System {
    s.(pcs := s.pcs[p := pc])
  }

  /** The compare-and-set with the lock just taken: on success the lock is kept and the write recorded. */
  function Swap(s: System, p: nat, r: Result<Execution, StoreError>, c: Commit, event: Event,
                rest: Option<seq<Commit>>, refused: Pc): System
    requires p in s.parties
  {
    if r.Failure? then Goto(s, p, if Caught(r.error) then refused else Idle)
    else
      var party := s.parties[p];
      Goto(s, p, Swapped(c, event, rest)).(
        disk := s.disk.(executions := Stored(s.disk.executions, r)),
        lock := Some(p),
        writes := if party.bound && party.token.Some? then s.writes + [Write(r.value.id, party.token.value)] else s.writes)
  }

  function Next(rest: Option<seq<Commit>>): Pc {
    if rest.Some? then Visiting(rest.value) else Idle
  }

  /** One step; an action that is not enabled changes nothing. */
  function Step(s: System, a: Action): System {
    match a
    case Check(p, q) =>
      if p !in s.parties || p !in s.pcs || !s.pcs[p].Idle? || !Readable(s.disk.journal)
         || Lookup(Records(s.disk.journal), CommitId(q.state, q.to)).Some? then s
      else Goto(s, p, Checked(q))
    case AppendRecord(p) =>
      if p !in s.parties || p !in s.pcs || !s.pcs[p].Checked? then s
      else
        var c := NewCommit(s.pcs[p].q);
        Goto(s, p, Journalled(s.pcs[p].q, Numbered(s.disk.journal, c))).(
          disk := s.disk.(journal := Append(s.disk.journal, c)))
    case Apply(p) =>
      if p !in s.parties || p !in s.pcs || !s.pcs[p].Journalled? || s.lock.Some? then s
      else
        var q, c, t := s.pcs[p].q, s.pcs[p].c, s.disk.executions;
        if q.state.id !in t || !LeaseValid(s, p, t[q.state.id].id) then Goto(s, p, Idle)
        else
          var x := t[q.state.id];
          Swap(s, p, CommitCas(Cfg(s, p), 0, t, x, x.status, q.to, q.checkpoint, q.reason), c, CommitEvent(x, c), None, Idle)
    case ReadPending(p) =>
      if p !in s.parties || p !in s.pcs || !s.pcs[p].Idle? || !Readable(s.disk.journal) then s
      else Goto(s, p, Visiting(PendingOf(Records(s.disk.journal))))
    case VisitNext(p) =>
      if p !in s.parties || p !in s.pcs || !s.pcs[p].Visiting? || s.lock.Some? then s
      else if s.pcs[p].todo == [] then Goto(s, p, Idle)
      else
        var c, rest, t := s.pcs[p].todo[0], s.pcs[p].todo[1..], s.disk.executions;
        if c.executionId !in t || !LeaseValid(s, p, c.executionId) then Goto(s, p, Visiting(rest))
        else
          var x, event := t[c.executionId], RepairEvent(Cfg(s, p), c);
          if x.status == c.to then Goto(s, p, Swapped(c, event, Some(rest))).(lock := Some(p))
          else if x.status != c.from then Goto(s, p, Visiting(rest))
          else
            Swap(s, p, CommitCas(Cfg(s, p), 0, t, x, c.from, c.to, c.checkpoint, c.reason), c, event, Some(rest), Visiting(rest))
    case AppendEvent(p) =>
      if p !in s.pcs || !s.pcs[p].Swapped? then s
      else
        Goto(s, p, Audited(s.pcs[p].c, s.pcs[p].rest)).(disk := s.disk.(audit := Appended(s.disk.audit, s.pcs[p].event)))
    case MarkRecord(p) =>
      if p !in s.pcs || !s.pcs[p].Audited? then s
      else if !Readable(s.disk.journal) then Goto(s, p, Idle).(lock := None)
      else
        var phase := if s.pcs[p].rest.Some? then Reconciled else Applied;
        Goto(s, p, Next(s.pcs[p].rest)).(
          disk := s.disk.(journal := Marked(s.disk.journal, s.pcs[p].c.id, phase)), lock := None)
    case Crash(p) =>
      if p !in s.pcs then s
      else Goto(s, p, Idle).(lock := if s.lock == Some(p) then None else s.lock)
    case LeaseAction(op) =>
      if s.lock.Some? && !op.Tick? then s
      else
        var w := ExecutionLease.Step(World(s.leases, s.now, s.ttl), op);
        s.(leases := w.leases, now := w.now)
  }

  function Run(s: System, actions: seq<Action>): System
    decreases |actions|
  {
    if actions == [] then s else Run(Step(s, actions[0]), actions[1..])
  }

  ghost predicate Initial(s: System) {
    && s.lock.None? && s.writes == []
    && (forall p :: p in s.pcs ==> s.pcs[p].Idle?)
    && Keyed(s.disk.executions) && UniqueIds(s.disk.audit) && Evidenced(s.disk)
  }

  // ---------------------------------------------------------------- the steps are the methods' writes

  /** Undisturbed, the locked steps of a commit leave the disks its method writes, one by one. */
  lemma StepsOfApply(s: System, p: nat)
    requires p in s.parties && p in s.pcs && s.pcs[p].Journalled? && s.lock.None? && Readable(s.disk.journal)
    ensures var path := ApplyPath(Cfg(s, p), s.disk, s.pcs[p].q, s.pcs[p].c);
      var s1 := Step(s, Apply(p));
      if |path| == 1 then s1.disk == path[0] && s1.lock.None?
      else
        var s2 := Step(s1, AppendEvent(p));
        var s3 := Step(s2, MarkRecord(p));
        path == [s.disk, s1.disk, s2.disk, s3.disk] && s1.lock == s2.lock == Some(p) && s3.lock.None?
  {
  }

  /** The two steps that follow a visit's first write. */
  function AuditAndMark(s: System, p: nat): System {
    Step(Step(s, AppendEvent(p)), MarkRecord(p))
  }

  lemma StepsOfMark(s: System, p: nat, c: Commit, event: Event, rest: seq<Commit>)
    requires p in s.pcs && s.pcs[p] == Swapped(c, event, Some(rest)) && Readable(s.disk.journal)
    ensures var s2 := Step(s, AppendEvent(p));
      && s2.disk == s.disk.(audit := Appended(s.disk.audit, event)) && s2.lock == s.lock
      && AuditAndMark(s, p).disk == s2.disk.(journal := Marked(s.disk.journal, c.id, Reconciled))
      && AuditAndMark(s, p).lock.None?
  {
  }

  /** The first step of a visit: nothing, straight to the audit, or the compare-and-set. */
  lemma StepsOfLook(s: System, p: nat)
    requires p in s.parties && p in s.pcs && s.pcs[p].Visiting? && s.pcs[p].todo != [] && s.lock.None?
    ensures var c, s1 := s.pcs[p].todo[0], Step(s, VisitNext(p));
      var path, event := VisitPath(Cfg(s, p), 0, s.disk, c), RepairEvent(Cfg(s, p), c);
      if |path| == 1 then s1.disk == s.disk && s1.lock.None?
      else
        && s1.lock == Some(p) && p in s1.pcs && s1.pcs[p] == Swapped(c, event, Some(s.pcs[p].todo[1..]))
        && var d2 := s1.disk.(audit := Appended(s1.disk.audit, event));
        && s1.disk.audit == s.disk.audit && s1.disk.journal == s.disk.journal
        && path == [s.disk] + (if |path| == 4 then [s1.disk] else []) + [d2, d2.(journal := Marked(s.disk.journal, c.id, Reconciled))]
        && (|path| == 3 ==> s1.disk == s.disk)
  {
  }

  /** Undisturbed, the steps of one visit leave the disks the method writes; where the status is already the
      target there is one write less. */
  lemma StepsOfVisit(s: System, p: nat)
    requires p in s.parties && p in s.pcs && s.pcs[p].Visiting? && s.pcs[p].todo != []
    requires s.lock.None? && Readable(s.disk.journal)
    ensures var path := VisitPath(Cfg(s, p), 0, s.disk, s.pcs[p].todo[0]);
      var s1 := Step(s, VisitNext(p));
      if |path| == 1 then s1.disk == path[0] && s1.lock.None?
      else
        var s2 := Step(s1, AppendEvent(p));
        && path == [s.disk] + (if |path| == 4 then [s1.disk] else []) + [s2.disk, AuditAndMark(s1, p).disk]
        && s1.lock == s2.lock == Some(p) && AuditAndMark(s1, p).lock.None?
  {
    var c, s1 := s.pcs[p].todo[0], Step(s, VisitNext(p));
    StepsOfLook(s, p);
    if |VisitPath(Cfg(s, p), 0, s.disk, c)| > 1 {
      StepsOfMark(s1, p, c, RepairEvent(Cfg(s, p), c), s.pcs[p].todo[1..]);
    }
  }

  // ---------------------------------------------------------------- fencing

  /** Tokens along the fenced writes of an execution never go down, and none exceeds the current token. */
  ghost predicate Fenced(writes: seq<Write>, leases: Leases) {
    && (forall i :: 0 <= i < |writes| ==> writes[i].token <= Token(leases, writes[i].executionId))
    && (forall i, j :: 0 <= i < j < |writes| && writes[i].executionId == writes[j].executionId
          ==> writes[i].token <= writes[j].token)
  }

  lemma FencedExtends(writes: seq<Write>, leases: Leases, w: Write)
    requires Fenced(writes, leases) && w.token == Token(leases, w.executionId)
    ensures Fenced(writes + [w], leases)
  {
  }

  lemma CasFacts(cfg: Config, t: Table, x: Execution, expected: Status, to: Status, checkpoint: Value, reason: Option<string>)
    requires CommitCas(cfg, 0, t, x, expected, to, checkpoint, reason).Success?
    ensures var r := CommitCas(cfg, 0, t, x, expected, to, checkpoint, reason).value;
      r.id == x.id && r.status == to && cfg.verdict(0, x.id) && x.id != ""
  {
  }

  /** What one step of `Swap` records: nothing, or a write under the lease held at this moment. */
  ghost predicate WroteUnderLease(s: System, p: nat, s': System)
    requires p in s.parties
  {
    && s'.leases == s.leases && s'.now == s.now
    && (s'.writes == s.writes ||
        (s'.writes != [] &&
        var w := Last(s'.writes);
        && s'.writes == s.writes + [w] && s.parties[p].token == Some(w.token) && s.parties[p].bound
        && IsOwner(s.leases, s.now, w.executionId, s.parties[p].owner, Some(w.token))))
    && (s.parties[p].bound && s'.disk.executions != s.disk.executions ==> s'.writes != s.writes)
  }

  lemma SwapUnderLease(s: System, p: nat, r: Result<Execution, StoreError>, c: Commit, event: Event,
                       rest: Option<seq<Commit>>, refused: Pc)
    requires p in s.parties && (r.Success? ==> LeaseValid(s, p, r.value.id))
    ensures WroteUnderLease(s, p, Swap(s, p, r, c, event, rest, refused))
  {
    var party := s.parties[p];
    if r.Success? && party.bound {
      var w := Write(r.value.id, party.token.value);
      assert Swap(s, p, r, c, event, rest, refused).writes == s.writes + [w];
    }
  }

  lemma ApplyUnderLease(s: System, p: nat)
    requires p in s.parties
    ensures WroteUnderLease(s, p, Step(s, Apply(p)))
  {
    if p in s.pcs && s.pcs[p].Journalled? && s.lock.None? {
      var q, c, t := s.pcs[p].q, s.pcs[p].c, s.disk.executions;
      if q.state.id in t && LeaseValid(s, p, t[q.state.id].id) {
        var x := t[q.state.id];
        var r := CommitCas(Cfg(s, p), 0, t, x, x.status, q.to, q.checkpoint, q.reason);
        if r.Success? { CasFacts(Cfg(s, p), t, x, x.status, q.to, q.checkpoint, q.reason); }
        SwapUnderLease(s, p, r, c, CommitEvent(x, c), None, Idle);
      }
    }
  }

  lemma VisitUnderLease(s: System, p: nat)
    requires p in s.parties
    ensures WroteUnderLease(s, p, Step(s, VisitNext(p)))
  {
    if p in s.pcs && s.pcs[p].Visiting? && s.lock.None? && s.pcs[p].todo != [] {
      var c, rest, t := s.pcs[p].todo[0], s.pcs[p].todo[1..], s.disk.executions;
      if c.executionId in t && LeaseValid(s, p, c.executionId) {
        var x := t[c.executionId];
        var r := CommitCas(Cfg(s, p), 0, t, x, c.from, c.to, c.checkpoint, c.reason);
        if r.Success? { CasFacts(Cfg(s, p), t, x, c.from, c.to, c.checkpoint, c.reason); }
        SwapUnderLease(s, p, r, c, RepairEvent(Cfg(s, p), c), Some(rest), Visiting(rest));
      }
    }
  }

  /** Only the two compare-and-set steps write executions or record fenced writes. */
  lemma OtherStepsDoNotWrite(s: System, a: Action)
    requires (a.Apply? || a.VisitNext?) ==> a.p !in s.parties
    ensures Step(s, a).writes == s.writes && Step(s, a).disk.executions == s.disk.executions
    ensures forall e :: Token(Step(s, a).leases, e) >= Token(s.leases, e)
  {
    if a.LeaseAction? {
      forall e ensures Token(Step(s, a).leases, e) >= Token(s.leases, e) {
        TokensNeverDecrease(World(s.leases, s.now, s.ttl), [a.op], e);
      }
    }
  }

  lemma FencedStep(s: System, a: Action)
    requires Fenced(s.writes, s.leases)
    ensures Fenced(Step(s, a).writes, Step(s, a).leases)
  {
    if (a.Apply? || a.VisitNext?) && a.p in s.parties {
      if a.Apply? { ApplyUnderLease(s, a.p); } else { VisitUnderLease(s, a.p); }
      var s' := Step(s, a);
      assert WroteUnderLease(s, a.p, s');
      if s'.writes != s.writes { FencedExtends(s.writes, s.leases, Last(s'.writes)); }
    } else {
      OtherStepsDoNotWrite(s, a);
    }
  }

  lemma {:induction false} FencingHolds(s: System, actions: seq<Action>)
    requires Fenced(s.writes, s.leases)
    ensures Fenced(Run(s, actions).writes, Run(s, actions).leases)
    decreases |actions|
  {
    if actions != [] {
      FencedStep(s, actions[0]);
      FencingHolds(Step(s, actions[0]), actions[1..]);
    }
  }

  // ---------------------------------------------------------------- the audit log

  /** The commit on a line, if it has one. */
  function OnLine(l: Line): Option<Commit> {
    match l
    case Record(c) => Some(c)
    case Unnumbered(c) => Some(c)
    case _ => None
  }

  /** Every record that is no longer pending has its commit id in the audit log. */
  ghost predicate Evidenced(d: Disk) {
    forall i :: 0 <= i < |d.journal| && OnLine(d.journal[i]).Some? ==>
      var c := OnLine(d.journal[i]).value;
      c.id != "" && (c.phase != Waiting ==> Recorded(d.audit, c.id))
  }

  /** A coordinator between compare-and-set and mark holds the lock; before the audit append the stored status
      is the event's target; before the mark the event is in the log. */
  ghost predicate Truthful(s: System) {
    && Keyed(s.disk.executions) && UniqueIds(s.disk.audit) && Evidenced(s.disk)
    && (forall p :: p in s.pcs ==> TruthfulPc(s, p, s.pcs[p]))
  }

  ghost predicate TruthfulPc(s: System, p: nat, pc: Pc) {
    match pc
    case Swapped(c, event, rest) =>
      && s.lock == Some(p) && event.id == c.id != "" && event.executionId in s.disk.executions
      && s.disk.executions[event.executionId].status == event.to
      && (rest.Some? ==> NonEmptyIds(rest.value))
    case Audited(c, rest) =>
      s.lock == Some(p) && Recorded(s.disk.audit, c.id) && (rest.Some? ==> NonEmptyIds(rest.value))
    case Visiting(rest) => NonEmptyIds(rest)
    case Journalled(q, c) => c.id != "" && c.to == q.to
    case _ => true
  }

  ghost predicate NonEmptyIds(cs: seq<Commit>) {
    forall i :: 0 <= i < |cs| ==> cs[i].id != ""
  }

  predicate Shows(l: Line, c: Commit) {
    OnLine(l).Some? && OnLine(l).value.id == c.id && OnLine(l).value.phase == c.phase
  }

  lemma {:induction false} RecordsComeFromLines(lines: seq<Line>, c: Commit)
    requires c in Records(lines)
    ensures exists i :: 0 <= i < |lines| && Shows(lines[i], c)
  {
    var n := |lines| - 1;
    if c in Records(lines[..n]) {
      RecordsComeFromLines(lines[..n], c);
      var i :| 0 <= i < n && Shows(lines[..n][i], c);
      assert Shows(lines[i], c);
    } else {
      assert c in Accept(lines[n], Cursor(lines[..n]));
      assert Shows(lines[n], c);
    }
  }

  /** A mark whose event is in the log keeps every record evidenced, whatever the rewrite drops. */
  lemma MarkKeepsEvidence(d: Disk, id: string, phase: Phase)
    requires Evidenced(d) && Readable(d.journal) && Recorded(d.audit, id)
    ensures Evidenced(d.(journal := Marked(d.journal, id, phase)))
  {
    var cs := Records(d.journal);
    var marked := MarkFirst(cs, id, phase);
    forall i | 0 <= i < |cs|
      ensures marked[i].id != "" && (marked[i].phase != Waiting ==> Recorded(d.audit, marked[i].id))
    {
      MarkFirstAt(cs, id, phase, i);
      RecordsComeFromLines(d.journal, cs[i]);
    }
  }

  lemma AppendKeepsEvidence(d: Disk, q: Request)
    requires Evidenced(d)
    ensures Evidenced(d.(journal := Append(d.journal, NewCommit(q))))
  {
    IdIsNotEmpty(q.state, q.to);
  }

  lemma EventKeepsEvidence(d: Disk, e: Event)
    requires Evidenced(d) && UniqueIds(d.audit)
    ensures Evidenced(d.(audit := Appended(d.audit, e))) && UniqueIds(Appended(d.audit, e))
    ensures Recorded(Appended(d.audit, e), e.id)
    ensures forall id :: Recorded(d.audit, id) ==> Recorded(Appended(d.audit, e), id)
  {
    AppendIsIdempotent(d.audit, e);
    forall id | Recorded(d.audit, id) ensures Recorded(Appended(d.audit, e), id) {
      var i :| 0 <= i < |d.audit| && d.audit[i].id == id;
      assert Appended(d.audit, e)[i].id == id;
    }
  }

  lemma PendingHasIds(d: Disk)
    requires Evidenced(d)
    ensures NonEmptyIds(PendingOf(Records(d.journal)))
  {
    var cs := Records(d.journal);
    forall i | 0 <= i < |PendingOf(cs)| ensures PendingOf(cs)[i].id != "" {
      PendingOfComesFrom(cs, PendingOf(cs)[i]);
      RecordsComeFromLines(d.journal, PendingOf(cs)[i]);
    }
  }

  lemma {:induction false} PendingOfComesFrom(cs: seq<Commit>, c: Commit)
    requires c in PendingOf(cs)
    ensures c in cs
  {
    if c in PendingOf(cs[..|cs| - 1]) { PendingOfComesFrom(cs[..|cs| - 1], c); }
  }

  lemma SwapIsTruthful(s: System, p: nat, r: Result<Execution, StoreError>, c: Commit, event: Event,
                       rest: Option<seq<Commit>>, refused: Pc)
    requires Truthful(s) && p in s.parties && s.lock.None? && c.id != "" && event.id == c.id
    requires r.Success? ==> r.value.id == event.executionId && r.value.status == event.to
    requires rest.Some? ==> NonEmptyIds(rest.value)
    requires refused == Next(rest)
    ensures Truthful(Swap(s, p, r, c, event, rest, refused))
  {
    var s' := Swap(s, p, r, c, event, rest, refused);
    forall o | o in s'.pcs ensures TruthfulPc(s', o, s'.pcs[o]) {
      if o != p { assert TruthfulPc(s, o, s.pcs[o]); }
    }
  }

  lemma ApplyIsTruthful(s: System, p: nat)
    requires Truthful(s)
    ensures Truthful(Step(s, Apply(p)))
  {
    if p in s.parties && p in s.pcs && s.pcs[p].Journalled? && s.lock.None? {
      assert TruthfulPc(s, p, s.pcs[p]);
      var q, c, t := s.pcs[p].q, s.pcs[p].c, s.disk.executions;
      if q.state.id in t && LeaseValid(s, p, t[q.state.id].id) {
        var x := t[q.state.id];
        var r := CommitCas(Cfg(s, p), 0, t, x, x.status, q.to, q.checkpoint, q.reason);
        if r.Success? { CasFacts(Cfg(s, p), t, x, x.status, q.to, q.checkpoint, q.reason); }
        SwapIsTruthful(s, p, r, c, CommitEvent(x, c), None, Idle);
      } else {
        GotoIsTruthful(s, p, Idle);
      }
    }
  }

  lemma GotoIsTruthful(s: System, p: nat, pc: Pc)
    requires Truthful(s) && TruthfulPc(s, p, pc)
    ensures Truthful(Goto(s, p, pc))
  {
  }

  lemma VisitIsTruthful(s: System, p: nat)
    requires Truthful(s)
    ensures Truthful(Step(s, VisitNext(p)))
  {
    if p in s.parties && p in s.pcs && s.pcs[p].Visiting? && s.lock.None? {
      assert TruthfulPc(s, p, s.pcs[p]);
      if s.pcs[p].todo == [] {
        GotoIsTruthful(s, p, Idle);
      } else {
        var c, rest, t := s.pcs[p].todo[0], s.pcs[p].todo[1..], s.disk.executions;
        if c.executionId in t && LeaseValid(s, p, c.executionId) && t[c.executionId].status != c.to
           && t[c.executionId].status == c.from {
          var x := t[c.executionId];
          var r := CommitCas(Cfg(s, p), 0, t, x, c.from, c.to, c.checkpoint, c.reason);
          if r.Success? { CasFacts(Cfg(s, p), t, x, c.from, c.to, c.checkpoint, c.reason); }
          SwapIsTruthful(s, p, r, c, RepairEvent(Cfg(s, p), c), Some(rest), Visiting(rest));
        } else if c.executionId in t && LeaseValid(s, p, c.executionId) && t[c.executionId].status == c.to {
          LockIsTruthful(s, p, c, RepairEvent(Cfg(s, p), c), rest);
        } else {
          GotoIsTruthful(s, p, Visiting(rest));
        }
      }
    }
  }

  lemma LockIsTruthful(s: System, p: nat, c: Commit, event: Event, rest: seq<Commit>)
    requires Truthful(s) && s.lock.None? && event.id == c.id != "" && NonEmptyIds(rest)
    requires event.executionId in s.disk.executions && s.disk.executions[event.executionId].status == event.to
    ensures Truthful(Goto(s, p, Swapped(c, event, Some(rest))).(lock := Some(p)))
  {
    forall o | o in s.pcs && o != p ensures !s.pcs[o].Swapped? && !s.pcs[o].Audited? {
      assert TruthfulPc(s, o, s.pcs[o]);
    }
  }

  lemma AppendEventIsTruthful(s: System, p: nat)
    requires Truthful(s)
    ensures Truthful(Step(s, AppendEvent(p)))
  {
    if p in s.pcs && s.pcs[p].Swapped? {
      assert TruthfulPc(s, p, s.pcs[p]);
      EventKeepsEvidence(s.disk, s.pcs[p].event);
    }
  }

  lemma MarkIsTruthful(s: System, p: nat)
    requires Truthful(s)
    ensures Truthful(Step(s, MarkRecord(p)))
  {
    if p in s.pcs && s.pcs[p].Audited? {
      assert TruthfulPc(s, p, s.pcs[p]);
      forall o | o in s.pcs && o != p ensures !s.pcs[o].Swapped? && !s.pcs[o].Audited? {
        assert TruthfulPc(s, o, s.pcs[o]);
      }
      if Readable(s.disk.journal) {
        MarkKeepsEvidence(s.disk, s.pcs[p].c.id, if s.pcs[p].rest.Some? then Reconciled else Applied);
      }
    }
  }

  lemma TruthfulStep(s: System, a: Action)
    requires Truthful(s)
    ensures Truthful(Step(s, a))
  {
    match a
    case AppendRecord(p) =>
      if p in s.pcs && s.pcs[p].Checked? {
        AppendKeepsEvidence(s.disk, s.pcs[p].q);
        IdIsNotEmpty(s.pcs[p].q.state, s.pcs[p].q.to);
      }
    case ReadPending(p) => PendingHasIds(s.disk);
    case AppendEvent(p) => AppendEventIsTruthful(s, p);
    case MarkRecord(p) => MarkIsTruthful(s, p);
    case Apply(p) => ApplyIsTruthful(s, p);
    case VisitNext(p) => VisitIsTruthful(s, p);
    case _ =>
  }

  lemma {:induction false} TruthHolds(s: System, actions: seq<Action>)
    requires Truthful(s)
    ensures Truthful(Run(s, actions))
    decreases |actions|
  {
    if actions != [] {
      TruthfulStep(s, actions[0]);
      TruthHolds(Step(s, actions[0]), actions[1..]);
    }
  }

  // ---------------------------------------------------------------- the two theorems

  /** In every run of any coordinators and lease holders, crashes included, every write to an execution by a
      lease-bound coordinator carries the token that is live at that moment, and along the fenced writes of
      an execution the tokens never go down. */
  lemma FencingOrder(s: System, actions: seq<Action>, a: Action)
    requires Initial(s)
    ensures var v := Run(s, actions);
      && (forall i, j :: 0 <= i < j < |v.writes| && v.writes[i].executionId == v.writes[j].executionId
            ==> v.writes[i].token <= v.writes[j].token)
      && (Step(v, a).disk.executions != v.disk.executions ==>
            (a.Apply? || a.VisitNext?) && a.p in v.parties && WroteUnderLease(v, a.p, Step(v, a)))
  {
    FencingHolds(s, actions);
    var v := Run(s, actions);
    if (a.Apply? || a.VisitNext?) && a.p in v.parties {
      if a.Apply? { ApplyUnderLease(v, a.p); } else { VisitUnderLease(v, a.p); }
    } else {
      OtherStepsDoNotWrite(v, a);
    }
  }

  lemma OnlyAppendEventAudits(s: System, a: Action)
    requires Step(s, a).disk.audit != s.disk.audit
    ensures a.AppendEvent? && a.p in s.pcs && s.pcs[a.p].Swapped?
    ensures Step(s, a).disk.audit == s.disk.audit + [s.pcs[a.p].event]
  {
  }

  /** In every such run event ids are unique, every record no longer pending has its commit id in the log, and
      each event is appended while its target is the stored status of its execution. */
  lemma AuditSoundness(s: System, actions: seq<Action>, a: Action)
    requires Initial(s)
    ensures var v := Run(s, actions);
      && UniqueIds(v.disk.audit) && Evidenced(v.disk)
      && (Step(v, a).disk.audit != v.disk.audit ==>
            var e := Last(Step(v, a).disk.audit);
            && Step(v, a).disk.audit == v.disk.audit + [e]
            && e.executionId in v.disk.executions && v.disk.executions[e.executionId].status == e.to)
  {
    TruthHolds(s, actions);
    var v := Run(s, actions);
    if Step(v, a).disk.audit != v.disk.audit {
      OnlyAppendEventAudits(v, a);
      assert TruthfulPc(v, a.p, v.pcs[a.p]);
    }
  }
}
