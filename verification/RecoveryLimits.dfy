/** Where commit and recovery do not do what one might hope, and exactly when: records that make a pass raise,
    executions a pass leaves alone, and the price of a gap in the journal (runtime/execution_commit.py). */
module RecoveryLimits {
  import opened Base
  import opened StateMachine
  import opened ExecutionStore
  import opened CommitJournal
  import opened ExecutionCommit
  import opened CommitRecovery

  // ---------------------------------------------------------------- what raises

  /** A pending record that a visit tries to apply and the store refuses with an error nobody catches. */
  predicate InTheWay(cfg: Config, n: nat, t: Table, c: Commit) {
    && c.executionId in t && cfg.verdict(n, c.executionId) && t[c.executionId].status == c.from != c.to
    && (c.executionId == "" || !CanTransition(cfg.machine, c.from, c.to))
  }

  lemma VisitRaisesIff(cfg: Config, n: nat, d: Disk, c: Commit)
    requires Keyed(d.executions)
    ensures VisitRaises(cfg, n, d, c).Some? <==> InTheWay(cfg, n, d.executions, c)
    ensures InTheWay(cfg, n, d.executions, c) ==>
      VisitPath(cfg, n, d, c) == [d]
      && VisitRaises(cfg, n, d, c) == Some(if c.executionId == "" then EmptyId else IllegalTransition)
  {
  }

  lemma RaisesAtFront(cfg: Config, d: Disk, todo: seq<Commit>, k: nat)
    requires todo != [] && k < |todo| - 1
    ensures RaisesAt(cfg, d, todo[..|todo| - 1], k) <==> RaisesAt(cfg, d, todo, k)
  {
    assert todo[..|todo| - 1][..k] == todo[..k];
  }

  lemma RaisesAtTheEnd(cfg: Config, d: Disk, todo: seq<Commit>)
    requires todo != []
    ensures var front := todo[..|todo| - 1];
      Pass(cfg, d, todo).raised.Some? <==> Pass(cfg, d, front).raised.Some? || RaisesAt(cfg, d, todo, |todo| - 1)
  {
  }

  /** A pass raises exactly when one of its visits does, after visits that did not. */
  lemma {:induction false} PassRaisesIff(cfg: Config, d: Disk, todo: seq<Commit>)
    ensures Pass(cfg, d, todo).raised.Some? <==> exists n: nat :: RaisesAt(cfg, d, todo, n)
    decreases |todo|
  {
    if todo != [] {
      var front := todo[..|todo| - 1];
      PassRaisesIff(cfg, d, front);
      RaisesAtTheEnd(cfg, d, todo);
      forall k: nat | k < |todo| - 1 ensures RaisesAt(cfg, d, front, k) <==> RaisesAt(cfg, d, todo, k) {
        RaisesAtFront(cfg, d, todo, k);
      }
      assert forall k: nat :: RaisesAt(cfg, d, front, k) ==> k < |todo| - 1;
    }
  }

  ghost predicate RaisesAt(cfg: Config, d: Disk, todo: seq<Commit>, n: nat) {
    n < |todo| && Pass(cfg, d, todo[..n]).raised.None? && VisitRaises(cfg, n, Pass(cfg, d, todo[..n]).disk, todo[n]).Some?
  }

  /** `commit` raises a store error exactly when it gets as far as the compare-and-set under its lease and the
      edge from the status that is stored by then is missing; the record is then already in the journal. */
  lemma CommitRaisesIff(cfg: Config, d: Disk, q: Request)
    requires Keyed(d.executions)
    ensures var e := q.state.id;
      CommitReply(cfg, d, q).StoreRaised? <==>
      (Readable(d.journal) && Lookup(Records(d.journal), CommitId(q.state, q.to)).None?
       && e in d.executions && cfg.verdict(0, e)
       && (e == "" || !CanTransition(cfg.machine, d.executions[e].status, q.to)))
    ensures CommitReply(cfg, d, q).StoreRaised? ==>
      CommitPath(cfg, d, q) == [d, d.(journal := Append(d.journal, NewCommit(q)))]
  {
    if Readable(d.journal) && q.state.id in d.executions && cfg.verdict(0, q.state.id) {
      var x := d.executions[q.state.id];
      CasRefusedIff(cfg, d.executions, x, q.to, q.checkpoint, q.reason);
    }
  }

  lemma CasRefusedIff(cfg: Config, t: Table, x: Execution, to: Status, checkpoint: Value, reason: Option<string>)
    requires Keyed(t) && x.id in t && t[x.id] == x && cfg.verdict(0, x.id)
    ensures var r := CommitCas(cfg, 0, t, x, x.status, to, checkpoint, reason);
      && (r.Failure? <==> x.id == "" || !CanTransition(cfg.machine, x.status, to))
      && (r.Failure? ==> r.error in {EmptyId, IllegalTransition})
  {
  }

  // ---------------------------------------------------------------- what a pass leaves alone

  predicate Same(e: string, t: Table, t': Table) {
    (e in t' <==> e in t) && (e in t ==> t'[e] == t[e])
  }

  lemma VisitLeavesAlone(cfg: Config, n: nat, d: Disk, c: Commit, e: string, i: nat)
    requires Keyed(d.executions) && c.executionId != e && i < |VisitPath(cfg, n, d, c)|
    ensures Keyed(VisitPath(cfg, n, d, c)[i].executions) && Same(e, d.executions, VisitPath(cfg, n, d, c)[i].executions)
  {
  }

  lemma {:induction false} PassLeavesAlone(cfg: Config, d: Disk, todo: seq<Commit>, e: string)
    requires Keyed(d.executions) && forall c :: c in todo ==> c.executionId != e
    ensures Keyed(Pass(cfg, d, todo).disk.executions) && Same(e, d.executions, Pass(cfg, d, todo).disk.executions)
    decreases |todo|
  {
    if todo != [] {
      var n := |todo| - 1;
      PassLeavesAlone(cfg, d, todo[..n], e);
      var p := Pass(cfg, d, todo[..n]);
      VisitLeavesAlone(cfg, n, p.disk, todo[n], e, |VisitPath(cfg, n, p.disk, todo[n])| - 1);
    }
  }

  /** No pending record of the execution. */
  ghost predicate NoneOf(lines: seq<Line>, e: string) {
    forall r :: r in Records(lines) && r.phase == Waiting ==> r.executionId != e
  }

  lemma MarkKeepsNoneOf(lines: seq<Line>, id: string, phase: Phase, e: string)
    requires NoneOf(lines, e) && phase != Waiting
    ensures NoneOf(Marked(lines, id, phase), e)
  {
    if Readable(lines) {
      var cs := Records(lines);
      MarkThenRead(lines, id, phase);
      forall r | r in Records(Marked(lines, id, phase)) && r.phase == Waiting ensures r.executionId != e {
        SurvivorIsMember(MarkFirst(cs, id, phase), r);
        var i :| 0 <= i < |cs| && MarkFirst(cs, id, phase)[i] == r;
        MarkFirstAt(cs, id, phase, i);
        assert cs[i] in cs;
      }
    }
  }

  /** The execution stands in the table as it did, and nothing pending is about it. */
  ghost predicate Bystander(d: Disk, e: string) {
    Keyed(d.executions) && NoneOf(d.journal, e)
  }

  lemma VisitOfAnother(cfg: Config, n: nat, d: Disk, c: Commit, e: string, i: nat)
    requires Bystander(d, e) && c.executionId != e && i < |VisitPath(cfg, n, d, c)|
    ensures Bystander(VisitPath(cfg, n, d, c)[i], e) && Same(e, d.executions, VisitPath(cfg, n, d, c)[i].executions)
  {
    VisitLeavesAlone(cfg, n, d, c, e, i);
    VisitMarksLast(cfg, n, d, c);
    MarkKeepsNoneOf(d.journal, c.id, Reconciled, e);
  }

  lemma {:induction false} PassOfOthers(cfg: Config, d: Disk, todo: seq<Commit>, e: string)
    requires Bystander(d, e) && forall c :: c in todo ==> c.executionId != e
    ensures Bystander(Pass(cfg, d, todo).disk, e) && Same(e, d.executions, Pass(cfg, d, todo).disk.executions)
    decreases |todo|
  {
    if todo != [] {
      var n := |todo| - 1;
      PassOfOthers(cfg, d, todo[..n], e);
      var p := Pass(cfg, d, todo[..n]);
      VisitOfAnother(cfg, n, p.disk, todo[n], e, |VisitPath(cfg, n, p.disk, todo[n])| - 1);
    }
  }

  lemma TodoOfOthers(d: Disk, e: string)
    requires NoneOf(d.journal, e)
    ensures forall c :: c in Todo(d) ==> c.executionId != e
  {
    forall c | c in Todo(d) ensures c.executionId != e { PendingOfMembers(Records(d.journal), c); }
  }

  /** A recovery pass, whole or killed at any write, leaves alone every execution that has no pending record. */
  lemma CrashedPassOfOthers(d: Disk, crash: CrashedPass, e: string)
    requires Bystander(d, e)
    ensures Bystander(AfterCrash(d, crash), e) && Same(e, d.executions, AfterCrash(d, crash).executions)
  {
    var todo := Todo(d);
    TodoOfOthers(d, e);
    if crash.visits >= |todo| {
      PassOfOthers(crash.cfg, d, todo, e);
    } else {
      PassOfOthers(crash.cfg, d, todo[..crash.visits], e);
      var d1 := Pass(crash.cfg, d, todo[..crash.visits]).disk;
      var path := VisitPath(crash.cfg, crash.visits, d1, todo[crash.visits]);
      VisitOfAnother(crash.cfg, crash.visits, d1, todo[crash.visits], e, if crash.writes < |path| then crash.writes else |path| - 1);
    }
  }

  lemma {:induction false} CrashedPassesOfOthers(d: Disk, crashes: seq<CrashedPass>, e: string)
    requires Bystander(d, e)
    ensures Bystander(AfterCrashes(d, crashes), e) && Same(e, d.executions, AfterCrashes(d, crashes).executions)
    decreases |crashes|
  {
    if crashes != [] {
      CrashedPassOfOthers(d, crashes[0], e);
      CrashedPassesOfOthers(AfterCrash(d, crashes[0]), crashes[1..], e);
    }
  }

  // ---------------------------------------------------------------- illegal commits

  lemma {:induction false} LegalPassDoesNotRaise(cfg: Config, d: Disk, todo: seq<Commit>, e: string)
    requires Keyed(d.executions) && forall c :: c in todo ==> Legal(cfg.machine, c) && c.executionId != e
    ensures Pass(cfg, d, todo).raised.None?
    decreases |todo|
  {
    if todo != [] {
      var n := |todo| - 1;
      LegalPassDoesNotRaise(cfg, d, todo[..n], e);
      PassLeavesAlone(cfg, d, todo[..n], e);
      VisitRaisesIff(cfg, n, Pass(cfg, d, todo[..n]).disk, todo[n]);
      assert todo[n] in todo;
    }
  }

  /** What is pending besides: legal records of other executions. */
  ghost predicate OthersAreLegal(g: Graph, todo: seq<Commit>, e: string) {
    forall r :: r in todo ==> Legal(g, r) && r.executionId != e
  }

  /** A pass over legal records of others and then `c`: it raises exactly when `c` is in the way to start with. */
  lemma LastInTheWay(cfg: Config, d: Disk, front: seq<Commit>, c: Commit)
    requires Keyed(d.executions) && OthersAreLegal(cfg.machine, front, c.executionId)
    ensures Pass(cfg, d, front + [c]).raised.Some? <==> InTheWay(cfg, |front|, d.executions, c)
    ensures InTheWay(cfg, |front|, d.executions, c) ==>
      Pass(cfg, d, front + [c]).disk == Pass(cfg, d, front).disk
  {
    assert (front + [c])[..|front|] == front;
    LegalPassDoesNotRaise(cfg, d, front, c.executionId);
    PassLeavesAlone(cfg, d, front, c.executionId);
    VisitRaisesIff(cfg, |front|, Pass(cfg, d, front).disk, c);
  }

  lemma TodoAfterAppend(d: Disk, q: Request)
    ensures var d1 := d.(journal := Append(d.journal, NewCommit(q)));
      Todo(d1) == Todo(d) + (if Cursor(d.journal) == NextSequence(d.journal) then [Numbered(d.journal, NewCommit(q))] else [])
  {
    var cs, c := Records(d.journal), Numbered(d.journal, NewCommit(q));
    AppendedIsReadable(d.journal, NewCommit(q));
    assert (cs + [c])[..|cs|] == cs;
  }

  /** An illegal commit from a current copy, next to legal records of other executions, makes the next recovery
      pass raise exactly when its record can be read back and that pass holds the lease when it comes to it. */
  lemma IllegalCommitBlocksIff(cfg: Config, d: Disk, q: Request, next: Config)
    requires Keyed(d.executions) && CommitReply(cfg, d, q).StoreRaised? && q.state.id != ""
    requires d.executions[q.state.id] == q.state && next.machine == cfg.machine
    requires OthersAreLegal(cfg.machine, Todo(d), q.state.id)
    ensures var d1 := Last(CommitPath(cfg, d, q));
      && d1 == d.(journal := Append(d.journal, NewCommit(q)))
      && (Pass(next, d1, Todo(d1)).raised.Some? <==>
            Cursor(d.journal) == NextSequence(d.journal) && q.to != q.state.status
            && next.verdict(|Todo(d)|, q.state.id))
  {
    CommitRaisesIff(cfg, d, q);
    NextPassAfterAppend(d, q, next);
  }

  lemma NextPassAfterAppend(d: Disk, q: Request, next: Config)
    requires Keyed(d.executions) && q.state.id != "" && q.state.id in d.executions && d.executions[q.state.id] == q.state
    requires OthersAreLegal(next.machine, Todo(d), q.state.id) && !CanTransition(next.machine, q.state.status, q.to)
    ensures var d1 := d.(journal := Append(d.journal, NewCommit(q)));
      Pass(next, d1, Todo(d1)).raised.Some? <==>
        Cursor(d.journal) == NextSequence(d.journal) && q.to != q.state.status && next.verdict(|Todo(d)|, q.state.id)
  {
    var d1 := d.(journal := Append(d.journal, NewCommit(q)));
    TodoAfterAppend(d, q);
    if Cursor(d.journal) == NextSequence(d.journal) {
      LastInTheWay(next, d1, Todo(d), Numbered(d.journal, NewCommit(q)));
    } else {
      assert Todo(d1) == Todo(d);
      LegalPassDoesNotRaise(next, d1, Todo(d), q.state.id);
    }
  }

  /** A readable journal with one record that is in the way, and nothing illegal or of the same execution
      beside it. */
  ghost predicate Stuck(g: Graph, d: Disk, c: Commit) {
    && Keyed(d.executions) && GapFree(d.journal) && Distinct(Records(d.journal))
    && c in Records(d.journal) && c.phase == Waiting && c.id != "" && c.executionId != ""
    && c.executionId in d.executions && d.executions[c.executionId].status == c.from != c.to
    && !CanTransition(g, c.from, c.to)
    && (forall r :: r in Records(d.journal) && r.phase == Waiting && r != c ==> Legal(g, r) && r.executionId != c.executionId)
  }

  /** On a sound disk an illegal commit of an execution with nothing else pending leaves a stuck one. */
  lemma IllegalCommitGetsStuck(cfg: Config, d: Disk, q: Request)
    requires Sound(cfg.machine, d) && CommitReply(cfg, d, q).StoreRaised? && q.state.id != "" && q.to != q.state.status
    requires d.executions[q.state.id] == q.state && NoneOf(d.journal, q.state.id)
    ensures Stuck(cfg.machine, Last(CommitPath(cfg, d, q)), Numbered(d.journal, NewCommit(q)))
  {
    CommitRaisesIff(cfg, d, q);
    GapFreeAppend(d.journal, NewCommit(q));
    IdIsNotEmpty(q.state, q.to);
    var cs, c := Records(d.journal), Numbered(d.journal, NewCommit(q));
    assert (cs + [c])[|cs|] == c;
  }

  lemma VisitKeepsStuck(cfg: Config, n: nat, d: Disk, c: Commit, r: Commit, i: nat)
    requires Stuck(cfg.machine, d, c) && r.executionId != c.executionId && r.id != c.id
    requires i < |VisitPath(cfg, n, d, r)|
    ensures Stuck(cfg.machine, VisitPath(cfg, n, d, r)[i], c)
  {
    VisitLeavesAlone(cfg, n, d, r, c.executionId, i);
    VisitMarksLast(cfg, n, d, r);
    if VisitPath(cfg, n, d, r)[i].journal != d.journal {
      GapFreeMark(d.journal, r.id, Reconciled);
      MarkDistinct(Records(d.journal), r.id, Reconciled);
      MarkMembers(Records(d.journal), r.id, Reconciled, c);
      forall x | x in MarkFirst(Records(d.journal), r.id, Reconciled) && x.phase == Waiting && x != c
        ensures Legal(cfg.machine, x) && x.executionId != c.executionId
      {
        MarkMembers(Records(d.journal), r.id, Reconciled, x);
      }
    }
  }

  lemma TodoOfStuck(g: Graph, d: Disk, c: Commit)
    requires Stuck(g, d, c)
    ensures Distinct(Todo(d)) && c in Todo(d)
    ensures forall r :: r in Todo(d) && r != c ==> Legal(g, r) && r.executionId != c.executionId && r.id != c.id
  {
    var cs := Records(d.journal);
    PendingOfMembers(cs, c);
    PendingOfIsDistinct(cs);
    forall r | r in Todo(d) && r != c ensures Legal(g, r) && r.executionId != c.executionId && r.id != c.id {
      PendingOfMembers(cs, r);
    }
  }

  lemma {:induction false} PassKeepsStuck(cfg: Config, d: Disk, c: Commit, todo: seq<Commit>)
    requires Stuck(cfg.machine, d, c)
    requires forall r :: r in todo ==> r.executionId != c.executionId && r.id != c.id && Legal(cfg.machine, r)
    ensures Stuck(cfg.machine, Pass(cfg, d, todo).disk, c) && Pass(cfg, d, todo).raised.None?
    decreases |todo|
  {
    LegalPassDoesNotRaise(cfg, d, todo, c.executionId);
    if todo != [] {
      var n := |todo| - 1;
      PassKeepsStuck(cfg, d, c, todo[..n]);
      var p := Pass(cfg, d, todo[..n]);
      VisitKeepsStuck(cfg, n, p.disk, c, todo[n], |VisitPath(cfg, n, p.disk, todo[n])| - 1);
    }
  }

  /** The pass raises at `c`, visits nothing behind it, and leaves it stuck. */
  ghost predicate RaisesAndStays(cfg: Config, d: Disk, c: Commit) {
    var p := Pass(cfg, d, Todo(d));
    && p.raised == Some(IllegalTransition) && Stuck(cfg.machine, p.disk, c)
    && exists n: nat :: n < |Todo(d)| && Todo(d)[n] == c && p.disk == Pass(cfg, d, Todo(d)[..n]).disk
  }

  /** A visit that raises without a write ends the pass where it stands. */
  lemma RaiseEndsPass(cfg: Config, d: Disk, todo: seq<Commit>, n: nat, error: StoreError)
    requires n < |todo| && Pass(cfg, d, todo[..n]).raised.None?
    requires VisitPath(cfg, n, Pass(cfg, d, todo[..n]).disk, todo[n]) == [Pass(cfg, d, todo[..n]).disk]
    requires VisitRaises(cfg, n, Pass(cfg, d, todo[..n]).disk, todo[n]) == Some(error)
    ensures Pass(cfg, d, todo).disk == Pass(cfg, d, todo[..n]).disk && Pass(cfg, d, todo).raised == Some(error)
  {
    PassUpTo(cfg, d, todo, n);
    PassStopsAtRaise(cfg, d, todo, n + 1);
  }

  lemma BeforeIt(todo: seq<Commit>, n: nat)
    requires Distinct(todo) && n < |todo|
    ensures forall r :: r in todo[..n] ==> r != todo[n] && r in todo
  {
  }

  /** With the lease, a pass over a stuck journal raises at the record and leaves it stuck. */
  lemma StuckPassRaises(cfg: Config, d: Disk, c: Commit)
    requires Stuck(cfg.machine, d, c) && Holds(cfg, c.executionId)
    ensures RaisesAndStays(cfg, d, c)
  {
    var todo := Todo(d);
    TodoOfStuck(cfg.machine, d, c);
    var n: nat :| n < |todo| && todo[n] == c;
    BeforeIt(todo, n);
    PassKeepsStuck(cfg, d, c, todo[..n]);
    VisitRaisesIff(cfg, n, Pass(cfg, d, todo[..n]).disk, c);
    RaiseEndsPass(cfg, d, todo, n, IllegalTransition);
  }

  ghost predicate StuckAfter(cfg: Config, d: Disk, c: Commit, n: nat)
    decreases n
  {
    if n == 0 then Stuck(cfg.machine, d, c) else StuckAfter(cfg, Pass(cfg, d, Todo(d)).disk, c, n - 1)
  }

  lemma {:induction false} StuckAfterIs(cfg: Config, d: Disk, c: Commit, n: nat)
    ensures StuckAfter(cfg, d, c, n) <==> Stuck(cfg.machine, Passes(cfg, d, n), c)
    decreases n
  {
    if n > 0 { StuckAfterIs(cfg, Pass(cfg, d, Todo(d)).disk, c, n - 1); }
  }

  lemma OnePassStuck(cfg: Config, d: Disk, c: Commit)
    requires Stuck(cfg.machine, d, c) && Holds(cfg, c.executionId)
    ensures Stuck(cfg.machine, Pass(cfg, d, Todo(d)).disk, c)
  {
    StuckPassRaises(cfg, d, c);
  }

  lemma {:induction false} StaysStuck(cfg: Config, d: Disk, c: Commit, n: nat)
    requires Stuck(cfg.machine, d, c) && Holds(cfg, c.executionId)
    ensures StuckAfter(cfg, d, c, n)
    decreases n
  {
    if n > 0 {
      OnePassStuck(cfg, d, c);
      StaysStuck(cfg, Pass(cfg, d, Todo(d)).disk, c, n - 1);
    }
  }

  /** So on a sound disk one illegal commit makes every later pass raise, one after the other. */
  lemma EveryPassRaises(cfg: Config, d: Disk, c: Commit, n: nat)
    requires Stuck(cfg.machine, d, c) && Holds(cfg, c.executionId)
    ensures RaisesAndStays(cfg, Passes(cfg, d, n), c)
  {
    StaysStuck(cfg, d, c, n);
    StuckAfterIs(cfg, d, c, n);
    StuckPassRaises(cfg, Passes(cfg, d, n), c);
  }

  // ---------------------------------------------------------------- the duplicate guard

  /** An applied commit rewrites the journal, and the guard against a second commit with its id reads the
      rewritten file: it knows the commit exactly when reader and allocator agreed on the record's number and
      that number followed the last accepted one.  Otherwise the same commit would be carried out again. */
  lemma GuardSurvivesIff(cfg: Config, d: Disk, q: Request)
    requires |CommitPath(cfg, d, q)| == 5
    ensures var id, after := CommitId(q.state, q.to), Last(CommitPath(cfg, d, q)).journal;
      && Readable(after) && Cursor(after) == NextSequence(after)
      && (Lookup(Records(after), id).Some? <==>
            Cursor(d.journal) == NextSequence(d.journal) == LastSequence(Records(d.journal)) + 1)
  {
    var c := Numbered(d.journal, NewCommit(q));
    var lines := Append(d.journal, NewCommit(q));
    assert Last(CommitPath(cfg, d, q)).journal == Marked(lines, c.id, Applied);
    AppendStaysReadable(d.journal, NewCommit(q));
    MarkThenRead(lines, c.id, Applied);
    MarkHealsTheGap(lines, c.id, Applied);
    MarkedRecordStaysIff(d.journal, NewCommit(q), Applied);
  }
}
