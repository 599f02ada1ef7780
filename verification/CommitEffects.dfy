/** What a commit and a recovery pass leave on disk, field by field (runtime/execution_commit.py:79-118). */
module CommitEffects {
  import opened Base
  import opened StateMachine
  import opened ExecutionStore
  import opened ExecutionAudit
  import opened CommitJournal
  import opened ExecutionCommit
  import opened CommitRecovery
  import N = CommitNames

  // ---------------------------------------------------------------- one write of each kind

  /** `y` is `x` moved to a status: a completion brings the checkpoint as its result, a failure the reason as its
      error, and nothing else changes but the version. */
  predicate Moves(x: Execution, y: Execution, to: Status, checkpoint: Value, reason: Option<string>) {
    && y.status == to && y.version == x.version + 1
    && y.id == x.id && y.goal == x.goal && y.attempt == x.attempt && y.plan == x.plan && y.correlationId == x.correlationId
    && (if to == Completed then y.result == checkpoint else y.result == x.result)
    && (if to == Failed then y.error == reason else y.error == x.error)
  }

  predicate Describes(e: Event, executionId: string, from: Status, to: Status, attempt: int, reason: Option<string>,
                      correlationId: Option<string>, id: string)
  {
    && e.executionId == executionId && e.from == from && e.to == to && e.attempt == attempt
    && e.reason == reason && e.correlationId == correlationId && e.id == id
  }

  /** An event joins the log unless one with its id is there. */
  predicate Joins(log: seq<Event>, log': seq<Event>, e: Event) {
    if exists x :: x in log && x.id == e.id then log' == log else log' == log + [e]
  }

  lemma AppendedJoins(log: seq<Event>, e: Event)
    ensures Joins(log, Appended(log, e), e)
  {
    if Recorded(log, e.id) {
      var i :| 0 <= i < |log| && log[i].id == e.id;
      assert log[i] in log;
    }
    if x :| x in log && x.id == e.id {
      var i :| 0 <= i < |log| && log[i] == x;
      assert Recorded(log, e.id);
    }
  }

  /** The swap of either protocol goes through exactly along an edge, for a held lease. */
  lemma SwapIff(cfg: Config, n: nat, t: Table, id: string, to: Status, checkpoint: Value, reason: Option<string>)
    requires Keyed(t) && id in t && cfg.verdict(n, id)
    ensures var r := CommitCas(cfg, n, t, t[id], t[id].status, to, checkpoint, reason);
      && (r.Success? <==> id != "" && CanTransition(cfg.machine, t[id].status, to))
      && (r.Success? ==> r.value.id == id && Moves(t[id], r.value, to, checkpoint, reason))
  {
  }

  // ---------------------------------------------------------------- the locked section of a commit

  /** The journalled record meets its execution: stored, under the lease, with an edge to the target. */
  predicate Meets(cfg: Config, d: Disk, q: Request) {
    && q.state.id != "" && q.state.id in d.executions && cfg.verdict(0, q.state.id)
    && CanTransition(cfg.machine, d.executions[q.state.id].status, q.to)
  }

  /** Then the execution moves, the event names what it was moved from, and the record is marked applied, in this
      order; otherwise nothing is written. */
  lemma ApplyDoes(cfg: Config, d: Disk, q: Request, c: Commit)
    requires Keyed(d.executions)
    ensures var path := ApplyPath(cfg, d, q, c);
      if Meets(cfg, d, q) then
        var x, d' := d.executions[q.state.id], Last(path);
        var e := Event(x.id, x.status, c.to, x.attempt, c.reason, x.correlationId, c.id);
        && |path| == 4
        && OnlyAt(d.executions, x.id, d'.executions) && Moves(x, d'.executions[x.id], q.to, q.checkpoint, q.reason)
        && Joins(d.audit, d'.audit, e)
        && d'.journal == Marked(d.journal, c.id, Applied)
        && path[1] == d.(executions := d'.executions) && path[2] == path[1].(audit := d'.audit)
      else path == [d]
  {
    if q.state.id in d.executions && cfg.verdict(0, q.state.id) {
      var x := d.executions[q.state.id];
      SwapIff(cfg, 0, d.executions, q.state.id, q.to, q.checkpoint, q.reason);
      AppendedJoins(d.audit, Event(x.id, x.status, c.to, x.attempt, c.reason, x.correlationId, c.id));
    }
  }

  // ---------------------------------------------------------------- one visit of a pass

  predicate Reaches(cfg: Config, n: nat, d: Disk, c: Commit) {
    && c.executionId in d.executions && cfg.verdict(n, c.executionId)
    && d.executions[c.executionId].status in {c.from, c.to}
  }

  /** A record that is still at its source moves the execution as the commit would have; one that is at its target
      already moves nothing.  Either way the event is the record's and the record is marked reconciled. */
  lemma VisitDoes(cfg: Config, n: nat, d: Disk, c: Commit)
    requires Keyed(d.executions) && Legal(cfg.machine, c)
    ensures var path := VisitPath(cfg, n, d, c);
      if Reaches(cfg, n, d, c) then
        var x, d' := d.executions[c.executionId], Last(path);
        var e := Event(c.executionId, c.from, c.to, c.attempt, c.reason, c.correlationId, c.id);
        && (if x.status == c.to then d'.executions == d.executions
            else OnlyAt(d.executions, x.id, d'.executions) && Moves(x, d'.executions[x.id], c.to, c.checkpoint, c.reason))
        && Joins(d.audit, d'.audit, e)
        && d'.journal == Marked(d.journal, c.id, Reconciled)
      else path == [d]
  {
    if Reaches(cfg, n, d, c) {
      SwapIff(cfg, n, d.executions, c.executionId, c.to, c.checkpoint, c.reason);
      AppendedJoins(d.audit, Event(c.executionId, c.from, c.to, c.attempt, c.reason, c.correlationId, c.id));
    }
  }

  // ---------------------------------------------------------------- a whole commit

  lemma FreshEnds(cfg: Config, d: Disk, q: Request, c: Commit)
    requires Fresh(cfg, d, q) && c == Numbered(d.journal, NewCommit(q))
    ensures var d1 := d.(journal := Append(d.journal, NewCommit(q)));
      Meets(cfg, d1, q) && Last(CommitPath(cfg, d, q)) == Last(ApplyPath(cfg, d1, q, c))
    ensures CommitReply(cfg, d, q) == Returned(c)
  {
    var d1 := d.(journal := Append(d.journal, NewCommit(q)));
    GapFreeReads(d.journal);
    SwapIff(cfg, 0, d1.executions, q.state.id, q.to, q.checkpoint, q.reason);
    assert CommitPath(cfg, d, q) == [d] + ApplyPath(cfg, d1, q, c);
  }

  lemma FreshRecord(cfg: Config, d: Disk, q: Request, c: Commit)
    requires Fresh(cfg, d, q) && c == Numbered(d.journal, NewCommit(q))
    ensures N.LineFor(Record(c), q, |d.journal| + 1)
    ensures Records(Marked(Append(d.journal, NewCommit(q)), c.id, Applied)) == Records(d.journal) + [c.(phase := Applied)]
  {
    GapFreeReads(d.journal);
    GapFreeAppend(d.journal, NewCommit(q));
    GapFreeMark(Append(d.journal, NewCommit(q)), c.id, Applied);
    MarkTheLast(Records(d.journal), c, Applied);
  }

  lemma FreshEvent(log: seq<Event>, id: string)
    requires EventsOf(log, id) == []
    ensures forall x :: x in log ==> x.id != id
  {
    NoEventsOf(log, id);
    forall x | x in log ensures x.id != id {
      var i :| 0 <= i < |log| && log[i] == x;
    }
  }

  /** The execution moved, one event about it behind all others, one record about it behind all others, marked
      applied, and nothing else changed. */
  predicate GoesThrough(d: Disk, q: Request, d': Disk) {
    var id, x := q.state.id, q.state;
    && OnlyAt(d.executions, id, d'.executions) && Moves(x, d'.executions[id], q.to, q.checkpoint, q.reason)
    && |d'.audit| == |d.audit| + 1 && d'.audit[..|d.audit|] == d.audit
    && Describes(d'.audit[|d.audit|], id, x.status, q.to, x.attempt, q.reason, x.correlationId,
                 IdText(id, x.attempt, q.to, x.correlationId))
  }

  /** What a commit that goes through leaves. */
  lemma WhatACommitLeaves(cfg: Config, d: Disk, q: Request)
    requires Fresh(cfg, d, q)
    ensures var d' := Last(CommitPath(cfg, d, q));
      && GoesThrough(d, q, d') && CommitReply(cfg, d, q).Returned?
      && var c := CommitReply(cfg, d, q).commit;
      && N.LineFor(Record(c), q, |d.journal| + 1)
      && Records(d'.journal) == Records(d.journal) + [c.(phase := Applied)]
  {
    var d1, c := d.(journal := Append(d.journal, NewCommit(q))), Numbered(d.journal, NewCommit(q));
    FreshEnds(cfg, d, q, c);
    FreshRecord(cfg, d, q, c);
    FreshEvent(d.audit, c.id);
    ApplyDoes(cfg, d1, q, c);
  }

  /** The same seen from a disk that may have had any traffic since: the execution moved, its one event, its
      record marked by the commit or by recovery. */
  ghost predicate Survives(q: Request, sequence: int, d': Disk) {
    var id, x := q.state.id, q.state;
    var eventId := IdText(id, x.attempt, q.to, x.correlationId);
    && id in d'.executions && Moves(x, d'.executions[id], q.to, q.checkpoint, q.reason)
    && |EventsOf(d'.audit, eventId)| == 1
    && Describes(EventsOf(d'.audit, eventId)[0], id, x.status, q.to, x.attempt, q.reason, x.correlationId, eventId)
    && exists r :: r in Records(d'.journal) && r.phase in {Applied, Reconciled} && N.LineFor(Record(r.(phase := Waiting)), q, sequence)
  }

  lemma DoneSurvives(j: Job, q: Request, d': Disk, sequence: int)
    requires j.before == q.state && N.LineFor(Record(j.c), q, sequence) && j.c.id == CommitId(q.state, q.to)
    requires q.state.id in d'.executions && d'.executions[q.state.id] == j.Goal()
    requires EventsOf(d'.audit, j.c.id) == [j.Trace()] && Marked3(j, d')
    ensures Survives(q, sequence, d')
  {
    var r := if j.c.(phase := Applied) in Records(d'.journal) then j.c.(phase := Applied) else j.c.(phase := Reconciled);
    assert r in Records(d'.journal) && r.(phase := Waiting) == j.c;
  }

  /** And what is left of the same commit when it was killed after any write, and so were any recovery passes
      behind it, once a pass runs through. */
  lemma WhatRecoveryLeaves(cfg: Config, d: Disk, q: Request, k: nat, crashes: seq<CrashedPass>, final: Config)
    requires Fresh(cfg, d, q) && 1 <= k <= 4
    requires forall i :: 0 <= i < |crashes| ==> crashes[i].cfg.machine == cfg.machine
    requires final.machine == cfg.machine && Holds(final, q.state.id)
    ensures k < |CommitPath(cfg, d, q)|
    ensures var left := AfterCrashes(CommitPath(cfg, d, q)[k], crashes);
      Survives(q, |d.journal| + 1, Pass(final, left, Todo(left)).disk)
  {
    var j := JobOf(d, q);
    CrashRefinement(cfg, d, q, k, crashes, final);
    FreshRecord(cfg, d, q, j.c);
    var left := AfterCrashes(CommitPath(cfg, d, q)[k], crashes);
    DoneSurvives(j, q, Pass(final, left, Todo(left)).disk, |d.journal| + 1);
  }

  // ---------------------------------------------------------------- what a pass reports

  /** After `n` visits: the ids listed as repaired are those of the visited records that are no longer pending. */
  ghost predicate Listed(d: Disk, n: nat, p: PassState)
    requires n <= |Todo(d)|
  {
    && (forall m :: 0 <= m < n ==> (Todo(d)[m].id in p.repaired <==> Todo(d)[m] !in Todo(p.disk)))
    && (forall id :: id in p.repaired ==> exists m :: 0 <= m < n && Todo(d)[m].id == id)
  }

  ghost function ListedAt(d: Disk, n: nat): PassState -> bool
    requires n <= |Todo(d)|
  {
    p => Listed(d, n, p)
  }

  lemma ListsOneMore(cfg: Config, d: Disk, n: nat, p: PassState)
    requires Sound(cfg.machine, d) && n < |Todo(d)| && CountedAt(cfg, d, n)(p) && ListedAt(d, n)(p)
    ensures ListedAt(d, n + 1)(PassVisit(cfg, n, p, Todo(d)[n]))
  {
    var todo, r := Todo(d), Todo(d)[n];
    var p' := PassVisit(cfg, n, p, r);
    assert Counted(cfg, d, n, p) && Listed(d, n, p);
    PendingOfIsDistinct(Records(d.journal));
    if |VisitPath(cfg, n, p.disk, r)| > 1 {
      VisitMarksLast(cfg, n, p.disk, r);
      forall m | 0 <= m < n + 1 ensures todo[m].id in p'.repaired <==> todo[m] !in Todo(p'.disk) {
        StaysPendingIff(cfg.machine, p.disk, p'.disk, r, todo[m]);
      }
    }
    assert todo[n] == r;
    assert Listed(d, n + 1, p');
  }

  /** A mark takes its record, and no other, off the pending ones. */
  lemma StaysPendingIff(g: Graph, d: Disk, d': Disk, r: Commit, c: Commit)
    requires Sound(g, d) && d'.journal == Marked(d.journal, r.id, Reconciled)
    ensures c in Todo(d') <==> c in Todo(d) && c.id != r.id
  {
    var cs := Records(d.journal);
    MarkKeepsSound(g, d, r.id, Reconciled);
    MarkMembers(cs, r.id, Reconciled, c);
    PendingOfMembers(cs, c);
    PendingOfMembers(Records(d'.journal), c);
  }

  lemma ListsNothing(cfg: Config, d: Disk)
    ensures ListedAt(d, 0)(Pass(cfg, d, Todo(d)[..0]))
  {
    assert Listed(d, 0, Pass(cfg, d, []));
  }

  lemma ListsNext(cfg: Config, d: Disk, n: nat)
    requires Sound(cfg.machine, d) && n < |Todo(d)| && ListedAt(d, n)(Pass(cfg, d, Todo(d)[..n]))
    ensures ListedAt(d, n + 1)(Pass(cfg, d, Todo(d)[..n + 1]))
  {
    PassCounts(cfg, d, n);
    ListsOneMore(cfg, d, n, Pass(cfg, d, Todo(d)[..n]));
    PassUpTo(cfg, d, Todo(d), n);
  }

  lemma {:induction false} PassLists(cfg: Config, d: Disk, n: nat)
    requires Sound(cfg.machine, d) && n <= |Todo(d)|
    ensures ListedAt(d, n)(Pass(cfg, d, Todo(d)[..n]))
  {
    if n == 0 {
      ListsNothing(cfg, d);
    } else {
      PassLists(cfg, d, n - 1);
      ListsNext(cfg, d, n - 1);
    }
  }

  /** The ids a pass returns are exactly those of the records that were pending before it and are not after it. */
  lemma RepairedExactly(cfg: Config, d: Disk, id: string)
    requires Sound(cfg.machine, d)
    ensures var p := Pass(cfg, d, Todo(d));
      id in p.repaired <==> exists r :: r in Todo(d) && r.id == id && r !in Todo(p.disk)
  {
    var p := Pass(cfg, d, Todo(d));
    PassLists(cfg, d, |Todo(d)|);
    assert Todo(d)[..|Todo(d)|] == Todo(d);
    assert Listed(d, |Todo(d)|, p);
    if id in p.repaired {
      var m :| 0 <= m < |Todo(d)| && Todo(d)[m].id == id;
      assert Todo(d)[m] in Todo(d);
    }
    if r :| r in Todo(d) && r.id == id && r !in Todo(p.disk) {
      var m :| 0 <= m < |Todo(d)| && Todo(d)[m] == r;
    }
  }
}
