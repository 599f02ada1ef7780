/** When a step writes an execution, and when one commit record is applied twice in a run of the commit system
    (runtime/execution_commit.py:85-89,107-114, runtime/execution_state_machine.py:52). */
module AppliedTwice {
  import opened Base
  import opened StateMachine
  import opened ExecutionStore
  import opened ExecutionLease
  import opened ExecutionAudit
  import opened CommitJournal
  import opened ExecutionCommit
  import S = CommitSystem

  /** A commit that is about to write: it has the lock to take, its execution, its lease, and an edge from the
      status stored by now. */
  predicate Applies(s: S.System, p: nat) {
    && p in s.parties && p in s.pcs && s.pcs[p].Journalled? && s.lock.None?
    && var q := s.pcs[p].q;
    && q.state.id in s.disk.executions && q.state.id != "" && S.LeaseValid(s, p, q.state.id)
    && CanTransition(s.machine, s.disk.executions[q.state.id].status, q.to)
  }

  /** A recovery pass that is about to write: the same, but only from the status the record left. */
  predicate Repairs(s: S.System, p: nat) {
    && p in s.parties && p in s.pcs && s.pcs[p].Visiting? && s.pcs[p].todo != [] && s.lock.None?
    && var c := s.pcs[p].todo[0];
    && c.executionId in s.disk.executions && c.executionId != "" && S.LeaseValid(s, p, c.executionId)
    && s.disk.executions[c.executionId].status == c.from != c.to && CanTransition(s.machine, c.from, c.to)
  }

  predicate Writes(s: S.System, a: S.Action) {
    (a.Apply? && Applies(s, a.p)) || (a.VisitNext? && Repairs(s, a.p))
  }

  /** The record a writing step applies. */
  function RecordOf(s: S.System, a: S.Action): Commit
    requires Writes(s, a)
  {
    if a.Apply? then s.pcs[a.p].c else s.pcs[a.p].todo[0]
  }

  lemma CasIff(cfg: Config, t: Table, x: Execution, to: Status, checkpoint: Value, reason: Option<string>)
    requires Keyed(t) && x.id in t && t[x.id] == x && cfg.verdict(0, x.id)
    ensures var r := CommitCas(cfg, 0, t, x, x.status, to, checkpoint, reason);
      && (r.Success? <==> x.id != "" && CanTransition(cfg.machine, x.status, to))
      && (r.Success? ==> r.value == NextState(x, to, checkpoint, reason).(version := x.version + 1))
  {
  }

  /** What a writing step leaves of its execution: the target status, one version up. */
  predicate Wrote(t: Table, t': Table, e: string, to: Status) {
    e in t && e in t' && t' == t[e := t'[e]] && t'[e].id == e && t'[e].version == t[e].version + 1 && t'[e].status == to
  }

  lemma ApplyWrites(s: S.System, p: nat)
    requires Keyed(s.disk.executions)
    ensures var t' := S.Step(s, S.Apply(p)).disk.executions;
      if Applies(s, p) then Wrote(s.disk.executions, t', s.pcs[p].q.state.id, s.pcs[p].q.to) else t' == s.disk.executions
  {
    if p in s.parties && p in s.pcs && s.pcs[p].Journalled? && s.lock.None? {
      var q, t := s.pcs[p].q, s.disk.executions;
      if q.state.id in t && S.LeaseValid(s, p, t[q.state.id].id) {
        CasIff(S.Cfg(s, p), t, t[q.state.id], q.to, q.checkpoint, q.reason);
      }
    }
  }

  lemma VisitWrites(s: S.System, p: nat)
    requires Keyed(s.disk.executions)
    ensures var t' := S.Step(s, S.VisitNext(p)).disk.executions;
      if Repairs(s, p) then Wrote(s.disk.executions, t', s.pcs[p].todo[0].executionId, s.pcs[p].todo[0].to)
      else t' == s.disk.executions
  {
    if p in s.parties && p in s.pcs && s.pcs[p].Visiting? && s.pcs[p].todo != [] && s.lock.None? {
      var c, t := s.pcs[p].todo[0], s.disk.executions;
      if c.executionId in t && S.LeaseValid(s, p, c.executionId) && t[c.executionId].status == c.from {
        CasIff(S.Cfg(s, p), t, t[c.executionId], c.to, c.checkpoint, c.reason);
      }
    }
  }

  /** A step changes the executions exactly when it writes, and then exactly one of them, one version up. */
  lemma WritesIff(s: S.System, a: S.Action)
    requires Keyed(s.disk.executions)
    ensures S.Step(s, a).disk.executions != s.disk.executions <==> Writes(s, a)
    ensures a.Apply? && Writes(s, a) ==>
      Wrote(s.disk.executions, S.Step(s, a).disk.executions, s.pcs[a.p].q.state.id, s.pcs[a.p].q.to)
    ensures a.VisitNext? && Writes(s, a) ==>
      Wrote(s.disk.executions, S.Step(s, a).disk.executions, RecordOf(s, a).executionId, RecordOf(s, a).to)
  {
    if a.Apply? {
      ApplyWrites(s, a.p);
    } else if a.VisitNext? {
      VisitWrites(s, a.p);
    } else {
      S.OtherStepsDoNotWrite(s, a);
    }
  }

  // ---------------------------------------------------------------- the same record again

  /** A journalled record names its request's execution and target. */
  ghost predicate Named(s: S.System) {
    forall p :: p in s.pcs && s.pcs[p].Journalled? ==>
      s.pcs[p].c.executionId == s.pcs[p].q.state.id && s.pcs[p].c.to == s.pcs[p].q.to
  }

  lemma AppendKeepsNamed(s: S.System, p: nat)
    requires Named(s)
    ensures Named(S.Step(s, S.AppendRecord(p)))
  {
  }

  lemma ApplyKeepsNamed(s: S.System, p: nat)
    requires Named(s)
    ensures Named(S.Step(s, S.Apply(p)))
  {
  }

  lemma VisitKeepsNamed(s: S.System, p: nat)
    requires Named(s)
    ensures Named(S.Step(s, S.VisitNext(p)))
  {
  }

  lemma QuietKeepsNamed(s: S.System, a: S.Action)
    requires Named(s) && (a.AppendEvent? || a.MarkRecord? || a.Crash? || a.LeaseAction?)
    ensures Named(S.Step(s, a))
  {
  }

  lemma StartKeepsNamed(s: S.System, a: S.Action)
    requires Named(s) && (a.Check? || a.ReadPending?)
    ensures Named(S.Step(s, a))
  {
  }

  lemma StepKeepsNamed(s: S.System, a: S.Action)
    requires Named(s)
    ensures Named(S.Step(s, a))
  {
    match a
    case AppendRecord(p) => AppendKeepsNamed(s, p);
    case Apply(p) => ApplyKeepsNamed(s, p);
    case VisitNext(p) => VisitKeepsNamed(s, p);
    case Check(_, _) => StartKeepsNamed(s, a);
    case ReadPending(_) => StartKeepsNamed(s, a);
    case AppendEvent(_) => QuietKeepsNamed(s, a);
    case MarkRecord(_) => QuietKeepsNamed(s, a);
    case Crash(_) => QuietKeepsNamed(s, a);
    case LeaseAction(_) => QuietKeepsNamed(s, a);
  }

  lemma {:induction false} NamedHolds(s: S.System, actions: seq<S.Action>)
    requires Named(s)
    ensures Named(S.Run(s, actions))
    decreases |actions|
  {
    if actions != [] {
      StepKeepsNamed(s, actions[0]);
      NamedHolds(S.Step(s, actions[0]), actions[1..]);
    }
  }

  lemma {:induction false} MachineStays(s: S.System, actions: seq<S.Action>)
    ensures S.Run(s, actions).machine == s.machine
    decreases |actions|
  {
    if actions != [] { MachineStays(S.Step(s, actions[0]), actions[1..]); }
  }

  /** This step is about record `c`: a commit that journalled it, or a pass that comes to it. */
  predicate About(s: S.System, a: S.Action, c: Commit) {
    || (a.Apply? && a.p in s.pcs && s.pcs[a.p].Journalled?
        && s.pcs[a.p].c.executionId == c.executionId && s.pcs[a.p].c.to == c.to)
    || (a.VisitNext? && a.p in s.pcs && s.pcs[a.p].Visiting? && s.pcs[a.p].todo != []
        && s.pcs[a.p].todo[0].executionId == c.executionId && s.pcs[a.p].todo[0].to == c.to)
  }

  /** In any run: a record was applied, and nobody has written its execution since.  A step about the record
      writes again exactly when it is a commit that has yet to take the lock and holds its lease; a recovery
      pass never does.  The second write is a self-transition: same status, one more version. */
  lemma AppliedAgainIff(init: S.System, before: seq<S.Action>, a: S.Action, between: seq<S.Action>, b: S.Action)
    requires S.Initial(init) && Writes(S.Run(init, before), a)
    requires var s := S.Run(init, before); var s1 := S.Step(s, a); var v := S.Run(s1, between); var c := RecordOf(s, a);
      && About(v, b, c)
      && c.executionId in s1.disk.executions && c.executionId in v.disk.executions
      && v.disk.executions[c.executionId] == s1.disk.executions[c.executionId]
    ensures var s := S.Run(init, before); var v := S.Run(S.Step(s, a), between); var c := RecordOf(s, a);
      && (Writes(v, b) <==>
            b.Apply? && b.p in v.parties && v.lock.None? && S.LeaseValid(v, b.p, c.executionId))
      && (Writes(v, b) ==> Wrote(v.disk.executions, S.Step(v, b).disk.executions, c.executionId, c.to))
  {
    S.TruthHolds(init, before);
    NamedHolds(init, before);
    var s := S.Run(init, before);
    var s1 := S.Step(s, a);
    S.TruthfulStep(s, a);
    StepKeepsNamed(s, a);
    MachineStays(s, [a] + between);
    assert ([a] + between)[1..] == between;
    S.TruthHolds(s1, between);
    NamedHolds(s1, between);
    FirstTime(s, a);
    SecondTime(S.Run(s1, between), b, RecordOf(s, a));
  }

  /** After a write the execution shows the record's target, and the graph knows it. */
  lemma FirstTime(s: S.System, a: S.Action)
    requires Keyed(s.disk.executions) && Named(s) && Writes(s, a)
    ensures var c, t := RecordOf(s, a), S.Step(s, a).disk.executions;
      c.executionId in t && t[c.executionId].status == c.to && c.to in s.machine && c.executionId != ""
  {
    WritesIff(s, a);
  }

  lemma SecondTime(v: S.System, b: S.Action, c: Commit)
    requires Keyed(v.disk.executions) && Named(v) && About(v, b, c) && c.to in v.machine && c.executionId != ""
    requires c.executionId in v.disk.executions && v.disk.executions[c.executionId].status == c.to
    ensures Writes(v, b) <==> b.Apply? && b.p in v.parties && v.lock.None? && S.LeaseValid(v, b.p, c.executionId)
    ensures Writes(v, b) ==> Wrote(v.disk.executions, S.Step(v, b).disk.executions, c.executionId, c.to)
  {
    WritesIff(v, b);
  }

  // ---------------------------------------------------------------- it happens

  lemma {:induction false} RunConcat(s: S.System, a: seq<S.Action>, b: seq<S.Action>)
    ensures S.Run(s, a + b) == S.Run(S.Run(s, a), b)
    decreases |a|
  {
    if a == [] {
      assert a + b == b;
    } else {
      assert (a + b)[1..] == a[1..] + b;
      RunConcat(S.Step(s, a[0]), a[1..], b);
    }
  }

  lemma RunTwo(s: S.System, a: S.Action, b: S.Action, v: S.System)
    requires v == S.Step(S.Step(s, a), b)
    ensures S.Run(s, [a, b]) == v
  {
    assert [a, b][1..] == [b] && [b][1..] == [];
    assert S.Run(S.Step(s, a), [b]) == S.Run(v, []);
  }

  /** A request that a coordinator without leases can journal and that recovery can apply. */
  ghost predicate Ready(s: S.System, p: nat, r: nat, q: Request) {
    && p != r && p in s.parties && r in s.parties && p in s.pcs && r in s.pcs
    && !s.parties[p].bound && !s.parties[r].bound && s.pcs[p].Idle? && s.pcs[r].Idle? && s.lock.None?
    && Keyed(s.disk.executions) && Readable(s.disk.journal)
    && q.state.id != "" && q.state.id in s.disk.executions && s.disk.executions[q.state.id] == q.state
    && q.to != q.state.status && CanTransition(s.machine, q.state.status, q.to)
    && Lookup(Records(s.disk.journal), CommitId(q.state, q.to)).None?
    && Cursor(s.disk.journal) == NextSequence(s.disk.journal) && PendingOf(Records(s.disk.journal)) == []
  }

  lemma PendingAfterAppend(lines: seq<Line>, c: Commit)
    requires Cursor(lines) == NextSequence(lines) && PendingOf(Records(lines)) == [] && c.phase == Waiting
    ensures PendingOf(Records(Append(lines, c))) == [Numbered(lines, c)]
  {
    AppendedIsReadable(lines, c);
    var cs := Records(lines);
    assert (cs + [Numbered(lines, c)])[..|cs|] == cs;
  }

  lemma Journals(s: S.System, p: nat, r: nat, q: Request)
    requires Ready(s, p, r, q)
    ensures var c := Numbered(s.disk.journal, NewCommit(q));
      S.Step(S.Step(s, S.Check(p, q)), S.AppendRecord(p)) ==
      S.Goto(s, p, S.Journalled(q, c)).(disk := s.disk.(journal := Append(s.disk.journal, NewCommit(q))))
  {
  }

  /** A pass that writes keeps the lock, and everything else as it was. */
  lemma VisitMoves(s: S.System, p: nat, r: nat)
    requires Keyed(s.disk.executions) && Repairs(s, r) && p != r && p in s.pcs
    ensures var v := S.Step(s, S.VisitNext(r));
      && v.pcs[p] == s.pcs[p] && r in v.pcs && v.pcs[r].Swapped? && v.parties == s.parties && v.machine == s.machine
      && v.disk.journal == s.disk.journal
  {
    var c, t := s.pcs[r].todo[0], s.disk.executions;
    CasIff(S.Cfg(s, r), t, t[c.executionId], c.to, c.checkpoint, c.reason);
  }

  /** The other coordinator reads the pending record and applies it. */
  lemma Recovers(s: S.System, p: nat, r: nat, q: Request, c: Commit) returns (v: S.System)
    requires p != r && p in s.pcs && r in s.pcs && r in s.parties && !s.parties[r].bound && s.pcs[r].Idle? && s.lock.None?
    requires c.executionId == q.state.id && c.from == q.state.status && c.to == q.to
    requires Keyed(s.disk.executions) && Readable(s.disk.journal) && PendingOf(Records(s.disk.journal)) == [c]
    requires q.state.id != "" && q.state.id in s.disk.executions && s.disk.executions[q.state.id] == q.state
    requires q.to != q.state.status && CanTransition(s.machine, q.state.status, q.to)
    ensures v == S.Run(s, [S.ReadPending(r), S.VisitNext(r)])
    ensures p in v.pcs && v.pcs[p] == s.pcs[p] && r in v.pcs && v.pcs[r].Swapped?
    ensures v.parties == s.parties && v.machine == s.machine
    ensures Wrote(s.disk.executions, v.disk.executions, q.state.id, q.to) && Keyed(v.disk.executions)
  {
    var s1 := S.Goto(s, r, S.Visiting([c]));
    v := S.Step(s1, S.VisitNext(r));
    assert S.Step(s, S.ReadPending(r)) == s1;
    VisitWrites(s1, r);
    VisitMoves(s1, p, r);
    RunTwo(s, S.ReadPending(r), S.VisitNext(r), v);
  }

  /** Audit and mark; the lock is free again. */
  lemma Marks(s: S.System, p: nat, r: nat)
    requires p != r && p in s.pcs && r in s.pcs && s.pcs[r].Swapped?
    ensures var v := S.Step(S.Step(s, S.AppendEvent(r)), S.MarkRecord(r));
      && v.pcs[p] == s.pcs[p] && v.lock.None? && v.disk.executions == s.disk.executions
      && v.parties == s.parties && v.machine == s.machine
  {
  }

  predicate TwoUp(t: Table, before: Execution, e: string, to: Status) {
    e in t && t[e].version == before.version + 2 && t[e].status == to
  }

  function AuditMarkApply(p: nat, r: nat): seq<S.Action> {
    [S.AppendEvent(r), S.MarkRecord(r)] + [S.Apply(p)]
  }

  lemma ThenApplied(s: S.System, p: nat, r: nat, q: Request, c: Commit)
    requires p != r && p in s.pcs && r in s.pcs && p in s.parties && !s.parties[p].bound && s.pcs[r].Swapped?
    requires s.pcs[p] == S.Journalled(q, c) && q.to in s.machine
    requires Keyed(s.disk.executions) && q.state.id != "" && q.state.id in s.disk.executions
    requires s.disk.executions[q.state.id].status == q.to && s.disk.executions[q.state.id].version == q.state.version + 1
    ensures TwoUp(S.Run(s, AuditMarkApply(p, r)).disk.executions, q.state, q.state.id, q.to)
  {
    var s6 := S.Step(S.Step(s, S.AppendEvent(r)), S.MarkRecord(r));
    Marks(s, p, r);
    AppliesAgain(s6, p, q, c);
    RunTwo(s, S.AppendEvent(r), S.MarkRecord(r), s6);
    RunConcat(s, [S.AppendEvent(r), S.MarkRecord(r)], [S.Apply(p)]);
    RunOne(s6, S.Apply(p));
  }

  lemma RunOne(s: S.System, a: S.Action)
    ensures S.Run(s, [a]) == S.Step(s, a)
  {
    assert [a][1..] == [];
    assert S.Run(S.Step(s, a), []) == S.Step(s, a);
  }

  function RecoverThenApply(p: nat, r: nat): seq<S.Action> {
    [S.ReadPending(r), S.VisitNext(r)] + AuditMarkApply(p, r)
  }

  /** The commit has journalled its record: a pass applies it, then the commit does. */
  lemma TwiceFromHere(s: S.System, p: nat, r: nat, q: Request, c: Commit)
    requires p != r && p in s.pcs && r in s.pcs && p in s.parties && r in s.parties
    requires !s.parties[p].bound && !s.parties[r].bound && s.pcs[r].Idle? && s.lock.None?
    requires s.pcs[p] == S.Journalled(q, c) && c.executionId == q.state.id && c.from == q.state.status && c.to == q.to
    requires Keyed(s.disk.executions) && Readable(s.disk.journal) && PendingOf(Records(s.disk.journal)) == [c]
    requires q.state.id != "" && q.state.id in s.disk.executions && s.disk.executions[q.state.id] == q.state
    requires q.to != q.state.status && CanTransition(s.machine, q.state.status, q.to)
    ensures TwoUp(S.Run(s, RecoverThenApply(p, r)).disk.executions, q.state, q.state.id, q.to)
  {
    var s4 := Recovers(s, p, r, q, c);
    ThenApplied(s4, p, r, q, c);
    RunConcat(s, [S.ReadPending(r), S.VisitNext(r)], AuditMarkApply(p, r));
  }

  lemma AppliesAgain(s: S.System, p: nat, q: Request, c: Commit)
    requires p in s.pcs && p in s.parties && !s.parties[p].bound && s.pcs[p] == S.Journalled(q, c) && s.lock.None?
    requires Keyed(s.disk.executions) && q.state.id != "" && q.state.id in s.disk.executions
    requires s.disk.executions[q.state.id].status == q.to && q.to in s.machine
    ensures var t := S.Step(s, S.Apply(p)).disk.executions;
      q.state.id in t && t[q.state.id].version == s.disk.executions[q.state.id].version + 1 && t[q.state.id].status == q.to
  {
    ApplyWrites(s, p);
  }

  /** The run that shows it: a commit stalls after its journal append, a recovery pass applies its record, and the
      commit then applies it again. */
  lemma AppliedTwice(s: S.System, p: nat, r: nat, q: Request) returns (actions: seq<S.Action>)
    requires Ready(s, p, r, q)
    ensures TwoUp(S.Run(s, actions).disk.executions, q.state, q.state.id, q.to)
  {
    var s2 := S.Step(S.Step(s, S.Check(p, q)), S.AppendRecord(p));
    Journals(s, p, r, q);
    PendingAfterAppend(s.disk.journal, NewCommit(q));
    AppendStaysReadable(s.disk.journal, NewCommit(q));
    TwiceFromHere(s2, p, r, q, Numbered(s.disk.journal, NewCommit(q)));
    RunTwo(s, S.Check(p, q), S.AppendRecord(p), s2);
    RunConcat(s, [S.Check(p, q), S.AppendRecord(p)], RecoverThenApply(p, r));
    actions := [S.Check(p, q), S.AppendRecord(p)] + RecoverThenApply(p, r);
  }
}
