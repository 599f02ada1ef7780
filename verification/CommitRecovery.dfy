/** What a restart can rely on: a commit cut short at any durable write, followed by any number of recovery
    passes that are themselves cut short, is finished by one uninterrupted pass; and passes reach a fixpoint.

    The proof follows the life of one record through four stages (see `Stage`): journalled, compare-and-set
    done, audited, marked.  Every durable write of `commit` and `reconcile` keeps or advances the stage. */
module CommitRecovery {
  import opened Base
  import opened StateMachine
  import opened ExecutionStore
  import opened ExecutionAudit
  import opened CommitJournal
  import opened ExecutionCommit

  ghost predicate Distinct(cs: seq<Commit>) {
    forall i, j :: 0 <= i < j < |cs| ==> cs[i].id != cs[j].id
  }

  /** A pending record that no store check but the lease can refuse once the status is right. */
  predicate Legal(g: Graph, c: Commit) {
    c.id != "" && c.executionId != "" && CanTransition(g, c.from, c.to)
  }

  /** A gap-free journal of distinct commits whose pending records are legal transitions. */
  ghost predicate SoundJournal(g: Graph, lines: seq<Line>) {
    && GapFree(lines) && Distinct(Records(lines))
    && forall c :: c in Records(lines) && c.phase == Waiting ==> Legal(g, c)
  }

  /** The disk of a store that only this protocol writes. */
  ghost predicate Sound(g: Graph, d: Disk) {
    SoundJournal(g, d.journal) && Keyed(d.executions)
  }

  function Todo(d: Disk): seq<Commit> {
    PendingOf(Records(d.journal))
  }

  // ---------------------------------------------------------------- records, pending records, marks

  lemma {:induction false} PendingOfMembers(cs: seq<Commit>, c: Commit)
    ensures c in PendingOf(cs) <==> c in cs && c.phase == Waiting
  {
    if cs != [] {
      var front, last := cs[..|cs| - 1], cs[|cs| - 1];
      PendingOfMembers(front, c);
      assert cs == front + [last];
    }
  }

  lemma {:induction false} PendingOfIsDistinct(cs: seq<Commit>)
    requires Distinct(cs)
    ensures Distinct(PendingOf(cs))
  {
    if cs != [] {
      var front, last := cs[..|cs| - 1], cs[|cs| - 1];
      PendingOfIsDistinct(front);
      forall i | 0 <= i < |PendingOf(front)| ensures PendingOf(front)[i].id != last.id {
        PendingOfMembers(front, PendingOf(front)[i]);
      }
    }
  }

  /** With distinct ids a mark changes exactly the record that has the id. */
  lemma MarkDistinct(cs: seq<Commit>, id: string, phase: Phase)
    requires Distinct(cs)
    ensures var m := MarkFirst(cs, id, phase);
      && (forall i :: 0 <= i < |cs| ==> m[i] == if cs[i].id == id then cs[i].(phase := phase) else cs[i])
      && Distinct(m)
  {
    forall i | 0 <= i < |cs|
      ensures MarkFirst(cs, id, phase)[i] == if cs[i].id == id then cs[i].(phase := phase) else cs[i]
    {
      MarkFirstAt(cs, id, phase, i);
    }
  }

  /** Membership after a mark: the marked record under its new phase, every other record as it was. */
  lemma MarkMembers(cs: seq<Commit>, id: string, phase: Phase, c: Commit)
    requires Distinct(cs)
    ensures c.id != id ==> (c in MarkFirst(cs, id, phase) <==> c in cs)
    ensures c.id == id && c in MarkFirst(cs, id, phase) ==> c.phase == phase
    ensures c.id == id && c in cs ==> c.(phase := phase) in MarkFirst(cs, id, phase)
  {
    MarkDistinct(cs, id, phase);
    var m := MarkFirst(cs, id, phase);
    if c in cs {
      var i :| 0 <= i < |cs| && cs[i] == c;
      assert m[i] == if c.id == id then c.(phase := phase) else c;
    }
    if c in m {
      var i :| 0 <= i < |m| && m[i] == c;
      assert c == if cs[i].id == id then cs[i].(phase := phase) else cs[i];
    }
  }

  /** Marking commutes with dropping the last record. */
  lemma MarkFront(cs: seq<Commit>, id: string, phase: Phase)
    requires Distinct(cs) && cs != []
    ensures var n := |cs| - 1; var m := MarkFirst(cs, id, phase);
      && m[..n] == MarkFirst(cs[..n], id, phase)
      && m[n] == (if cs[n].id == id then cs[n].(phase := phase) else cs[n])
      && (cs[n].id == id ==> m[..n] == cs[..n])
  {
    var n := |cs| - 1;
    var m := MarkFirst(cs, id, phase);
    MarkDistinct(cs, id, phase);
    MarkDistinct(cs[..n], id, phase);
    assert m[..n] == MarkFirst(cs[..n], id, phase);
    if cs[n].id == id {
      forall i | 0 <= i < n ensures m[i] == cs[i] { assert cs[i].id != id; }
      assert m[..n] == cs[..n];
    }
  }

  lemma PendingOfOneMore(cs: seq<Commit>)
    requires cs != []
    ensures |PendingOf(cs)| == |PendingOf(cs[..|cs| - 1])| + (if cs[|cs| - 1].phase == Waiting then 1 else 0)
  {
  }

  lemma DistinctFront(cs: seq<Commit>, c: Commit)
    requires Distinct(cs) && c in cs
    ensures var front, last := cs[..|cs| - 1], cs[|cs| - 1];
      Distinct(front) && (last == c || (c in front && last.id != c.id))
  {
    var i :| 0 <= i < |cs| && cs[i] == c;
    if i < |cs| - 1 { assert cs[..|cs| - 1][i] == c; }
  }

  /** The last record's share of a mark. */
  lemma MarkCounts(cs: seq<Commit>, c: Commit, phase: Phase)
    requires Distinct(cs) && c in cs && c.phase == Waiting && phase != Waiting
    ensures var front, last := cs[..|cs| - 1], cs[|cs| - 1];
      |PendingOf(MarkFirst(cs, c.id, phase))| - |PendingOf(cs)| ==
      if last == c then -1 else |PendingOf(MarkFirst(front, c.id, phase))| - |PendingOf(front)|
  {
    MarkFront(cs, c.id, phase);
    DistinctFront(cs, c);
    CountsFrom(cs, MarkFirst(cs, c.id, phase), MarkFirst(cs[..|cs| - 1], c.id, phase), c, phase);
  }

  lemma CountsFrom(cs: seq<Commit>, m: seq<Commit>, fm: seq<Commit>, c: Commit, phase: Phase)
    requires cs != [] && |m| == |cs| && c.phase == Waiting && phase != Waiting
    requires var last := cs[|cs| - 1];
      && (last == c || last.id != c.id) && m[..|m| - 1] == fm
      && m[|m| - 1] == (if last.id == c.id then last.(phase := phase) else last)
      && (last.id == c.id ==> fm == cs[..|cs| - 1])
    ensures |PendingOf(m)| - |PendingOf(cs)| ==
      if cs[|cs| - 1] == c then -1 else |PendingOf(fm)| - |PendingOf(cs[..|cs| - 1])|
  {
    LastCounts(cs, m);
  }

  /** What the last records contribute to two pending counts. */
  lemma LastCounts(cs: seq<Commit>, m: seq<Commit>)
    requires cs != [] && |m| == |cs|
    ensures |PendingOf(m)| - |PendingOf(cs)| == |PendingOf(m[..|m| - 1])| - |PendingOf(cs[..|cs| - 1])|
      + (if m[|m| - 1].phase == Waiting then 1 else 0) - (if cs[|cs| - 1].phase == Waiting then 1 else 0)
  {
    PendingOfOneMore(cs);
    PendingOfOneMore(m);
  }

  lemma {:induction false} MarkLowersPending(cs: seq<Commit>, c: Commit, phase: Phase)
    requires Distinct(cs) && c in cs && c.phase == Waiting && phase != Waiting
    ensures |PendingOf(MarkFirst(cs, c.id, phase))| == |PendingOf(cs)| - 1
  {
    MarkCounts(cs, c, phase);
    DistinctFront(cs, c);
    if cs[|cs| - 1] != c { MarkLowersPending(cs[..|cs| - 1], c, phase); }
  }

  lemma MarkKeepsSound(g: Graph, d: Disk, id: string, phase: Phase)
    requires Sound(g, d) && phase != Waiting
    ensures Sound(g, d.(journal := Marked(d.journal, id, phase)))
    ensures Records(Marked(d.journal, id, phase)) == MarkFirst(Records(d.journal), id, phase)
  {
    GapFreeMark(d.journal, id, phase);
    MarkDistinct(Records(d.journal), id, phase);
    forall c | c in MarkFirst(Records(d.journal), id, phase) && c.phase == Waiting ensures Legal(g, c) {
      MarkMembers(Records(d.journal), id, phase, c);
    }
  }

  // ---------------------------------------------------------------- the events of one commit

  function EventsOf(log: seq<Event>, id: string): seq<Event> {
    if log == [] then []
    else
      var n := |log| - 1;
      EventsOf(log[..n], id) + (if log[n].id == id then [log[n]] else [])
  }

  lemma {:induction false} NoEventsOf(log: seq<Event>, id: string)
    ensures EventsOf(log, id) == [] <==> !Recorded(log, id)
  {
    if log != [] {
      var n := |log| - 1;
      NoEventsOf(log[..n], id);
      if log[n].id != id && Recorded(log, id) {
        var i :| 0 <= i < |log| && log[i].id == id;
        assert log[..n][i].id == id;
      }
      if Recorded(log[..n], id) {
        var i :| 0 <= i < n && log[..n][i].id == id;
        assert log[i].id == id;
      }
    }
  }

  lemma EventsAfterAppend(log: seq<Event>, e: Event, id: string)
    ensures EventsOf(Appended(log, e), id) ==
      if e.id == id && EventsOf(log, id) == [] then [e] else EventsOf(log, id)
  {
    NoEventsOf(log, id);
    if !Recorded(log, e.id) { assert (log + [e])[..|log|] == log; }
  }

  // ---------------------------------------------------------------- one visit

  /** With the lease and the right status, the compare-and-set of a legal record succeeds, one version up. */
  lemma CasSucceeds(cfg: Config, n: nat, t: Table, x: Execution, c: Commit)
    requires Keyed(t) && c.executionId in t && t[c.executionId] == x && x.status == c.from
    requires cfg.verdict(n, c.executionId) && Legal(cfg.machine, c)
    ensures CommitCas(cfg, n, t, x, c.from, c.to, c.checkpoint, c.reason)
         == Success(NextState(x, c.to, c.checkpoint, c.reason).(version := x.version + 1))
  {
  }

  /** What one record's visit may change. */
  ghost predicate OnlyTouches(d: Disk, d': Disk, c: Commit) {
    && (forall e :: e != c.executionId ==> (e in d'.executions <==> e in d.executions)
                                           && (e in d.executions ==> d'.executions[e] == d.executions[e]))
    && (forall id :: id != c.id ==> EventsOf(d'.audit, id) == EventsOf(d.audit, id))
    && (d'.journal == d.journal || d'.journal == Marked(d.journal, c.id, Reconciled))
  }

  lemma AuditOnlyTouches(log: seq<Event>, e: Event)
    ensures forall id :: id != e.id ==> EventsOf(Appended(log, e), id) == EventsOf(log, id)
  {
    forall id | id != e.id ensures EventsOf(Appended(log, e), id) == EventsOf(log, id) {
      EventsAfterAppend(log, e, id);
    }
  }

  ghost predicate LocalAndSound(g: Graph, d: Disk, d': Disk, c: Commit) {
    Sound(g, d') && OnlyTouches(d, d', c)
  }

  lemma LocalAudit(g: Graph, d: Disk, d': Disk, c: Commit, e: Event)
    requires LocalAndSound(g, d, d', c) && e.id == c.id
    ensures LocalAndSound(g, d, d'.(audit := Appended(d'.audit, e)), c)
  {
    AuditOnlyTouches(d'.audit, e);
  }

  lemma LocalMark(g: Graph, d: Disk, d': Disk, c: Commit)
    requires LocalAndSound(g, d, d', c) && d'.journal == d.journal
    ensures LocalAndSound(g, d, d'.(journal := Marked(d.journal, c.id, Reconciled)), c)
  {
    MarkKeepsSound(g, d', c.id, Reconciled);
  }

  lemma LocalCas(cfg: Config, n: nat, d: Disk, c: Commit)
    requires Sound(cfg.machine, d) && Legal(cfg.machine, c) && c.executionId in d.executions
    requires cfg.verdict(n, c.executionId) && d.executions[c.executionId].status == c.from
    ensures var r := CommitCas(cfg, n, d.executions, d.executions[c.executionId], c.from, c.to, c.checkpoint, c.reason);
      r.Success? && LocalAndSound(cfg.machine, d, d.(executions := Stored(d.executions, r)), c)
  {
    CasSucceeds(cfg, n, d.executions, d.executions[c.executionId], c);
  }

  ghost function Around(g: Graph, d: Disk, c: Commit): Disk -> bool {
    d' => LocalAndSound(g, d, d', c)
  }

  /** The journal is untouched until the last write, which marks the record. */
  predicate MarksLast(d: Disk, path: seq<Disk>, c: Commit)
    requires path != []
  {
    && (forall k :: 0 <= k < |path| - 1 ==> path[k].journal == d.journal)
    && Last(path).journal == if |path| > 1 then Marked(d.journal, c.id, Reconciled) else d.journal
  }

  lemma RepairWrites(g: Graph, d: Disk, d1: Disk, c: Commit, e: Event)
    requires Sound(g, d) && LocalAndSound(g, d, d1, c) && d1.journal == d.journal && e.id == c.id
    ensures var d2 := d1.(audit := Appended(d1.audit, e));
      var d3 := d2.(journal := Marked(d.journal, c.id, Reconciled));
      All(Around(g, d, c), [d, d2, d3]) && All(Around(g, d, c), [d, d1, d2, d3])
  {
    var d2 := d1.(audit := Appended(d1.audit, e));
    LocalAudit(g, d, d1, c, e);
    LocalMark(g, d, d2, c);
    AllOfFour(Around(g, d, c), d, d1, d2, d2.(journal := Marked(d.journal, c.id, Reconciled)));
  }

  lemma PathWhenThere(cfg: Config, n: nat, d: Disk, c: Commit)
    requires c.executionId in d.executions && cfg.verdict(n, c.executionId)
    requires d.executions[c.executionId].status == c.to
    ensures var d2 := d.(audit := Appended(d.audit, RepairEvent(cfg, c)));
      VisitPath(cfg, n, d, c) == [d, d2, d2.(journal := Marked(d.journal, c.id, Reconciled))]
  {
  }

  lemma PathWhenNotThere(cfg: Config, n: nat, d: Disk, c: Commit, r: Result<Execution, StoreError>)
    requires c.executionId in d.executions && cfg.verdict(n, c.executionId)
    requires d.executions[c.executionId].status == c.from != c.to
    requires r == CommitCas(cfg, n, d.executions, d.executions[c.executionId], c.from, c.to, c.checkpoint, c.reason)
    requires r.Success?
    ensures var d1 := d.(executions := Stored(d.executions, r));
      var d2 := d1.(audit := Appended(d1.audit, RepairEvent(cfg, c)));
      VisitPath(cfg, n, d, c) == [d, d1, d2, d2.(journal := Marked(d.journal, c.id, Reconciled))]
  {
  }

  /** A visit of a legal pending record never raises. */
  lemma VisitNeverRaises(cfg: Config, n: nat, d: Disk, c: Commit)
    requires Sound(cfg.machine, d) && Legal(cfg.machine, c)
    ensures VisitRaises(cfg, n, d, c).None?
  {
    var t := d.executions;
    if c.executionId in t && cfg.verdict(n, c.executionId) && t[c.executionId].status == c.from {
      CasSucceeds(cfg, n, t, t[c.executionId], c);
    }
  }

  /** A visit marks its record exactly when it writes anything, and last. */
  lemma VisitMarksLast(cfg: Config, n: nat, d: Disk, c: Commit)
    ensures MarksLast(d, VisitPath(cfg, n, d, c), c)
  {
  }

  /** A visit of a legal pending record touches only its execution, its event and its journal entry, and
      keeps the disk sound at every write. */
  lemma VisitIsLocal(cfg: Config, n: nat, d: Disk, c: Commit)
    requires Sound(cfg.machine, d) && Legal(cfg.machine, c)
    ensures All(Around(cfg.machine, d, c), VisitPath(cfg, n, d, c))
  {
    var g, t := cfg.machine, d.executions;
    if c.executionId !in t || !cfg.verdict(n, c.executionId) || t[c.executionId].status !in {c.from, c.to} {
      assert VisitPath(cfg, n, d, c) == [d];
    } else if t[c.executionId].status == c.to {
      PathWhenThere(cfg, n, d, c);
      RepairWrites(g, d, d, c, RepairEvent(cfg, c));
    } else {
      LocalCas(cfg, n, d, c);
      var r := CommitCas(cfg, n, t, t[c.executionId], c.from, c.to, c.checkpoint, c.reason);
      PathWhenNotThere(cfg, n, d, c, r);
      RepairWrites(g, d, d.(executions := Stored(t, r)), c, RepairEvent(cfg, c));
    }
  }

  /** A visit does something exactly when the execution is there, the lease is held and its status is the one
      the record left or the one it leads to.  A record written from a stale copy of the execution is
      stranded: no pass applies it until the status happens to return. */
  lemma VisitActsIff(cfg: Config, n: nat, d: Disk, c: Commit)
    requires Keyed(d.executions) && Legal(cfg.machine, c)
    ensures |VisitPath(cfg, n, d, c)| > 1 <==>
      (c.executionId in d.executions && cfg.verdict(n, c.executionId)
       && d.executions[c.executionId].status in {c.from, c.to})
  {
    var t := d.executions;
    if c.executionId in t && cfg.verdict(n, c.executionId) && t[c.executionId].status == c.from {
      CasSucceeds(cfg, n, t, t[c.executionId], c);
    }
  }

  // ---------------------------------------------------------------- the life of one commit

  /** The execution a commit started from, and the record it journalled. */
  datatype Job = Job(before: Execution, c: Commit) {
    function Goal(): Execution {
      NextState(before, c.to, c.checkpoint, c.reason).(version := before.version + 1)
    }

    function Trace(): Event {
      CommitEvent(before, c)
    }

    ghost predicate WellFormed(g: Graph) {
      && Legal(g, c) && c.phase == Waiting && c.signed && c.to != c.from
      && before.id == c.executionId && before.status == c.from
      && before.attempt == c.attempt && before.correlationId == c.correlationId
    }
  }

  /** How far the record has come: 0 journalled, 1 compare-and-set done, 2 audited, 3 marked. */
  ghost predicate Stage(g: Graph, j: Job, d: Disk, s: nat) {
    && j.WellFormed(g) && Sound(g, d) && s <= 3
    && (forall r :: r in Records(d.journal) && r.phase == Waiting && r.executionId == j.before.id ==> r == j.c)
    && j.before.id in d.executions
    && d.executions[j.before.id] == (if s == 0 then j.before else j.Goal())
    && EventsOf(d.audit, j.c.id) == (if s <= 1 then [] else [j.Trace()])
    && (if s < 3 then j.c in Records(d.journal) else Marked3(j, d))
  }

  ghost predicate Marked3(j: Job, d: Disk) {
    j.c.(phase := Applied) in Records(d.journal) || j.c.(phase := Reconciled) in Records(d.journal)
  }

  /** Another record's visit leaves this commit where it is. */
  lemma OtherVisitKeepsStage(cfg: Config, n: nat, j: Job, d: Disk, s: nat, c: Commit, k: nat)
    requires Stage(cfg.machine, j, d, s) && Legal(cfg.machine, c)
    requires c.id != j.c.id && c.executionId != j.before.id && k < |VisitPath(cfg, n, d, c)|
    ensures Stage(cfg.machine, j, VisitPath(cfg, n, d, c)[k], s)
  {
    VisitIsLocal(cfg, n, d, c);
    var d' := VisitPath(cfg, n, d, c)[k];
    var cs := Records(d.journal);
    assert Around(cfg.machine, d, c)(d');
    if d'.journal != d.journal {
      MarkKeepsSound(cfg.machine, d, c.id, Reconciled);
      MarkMembers(cs, c.id, Reconciled, j.c);
      MarkMembers(cs, c.id, Reconciled, j.c.(phase := Applied));
      MarkMembers(cs, c.id, Reconciled, j.c.(phase := Reconciled));
      forall r | r in Records(d'.journal) && r.phase == Waiting && r.executionId == j.before.id ensures r == j.c {
        MarkMembers(cs, c.id, Reconciled, r);
      }
    }
  }

  lemma CasWrite(cfg: Config, n: nat, j: Job, d: Disk)
    requires Stage(cfg.machine, j, d, 0) && cfg.verdict(n, j.c.executionId)
    ensures var r := CommitCas(cfg, n, d.executions, j.before, j.c.from, j.c.to, j.c.checkpoint, j.c.reason);
      r == Success(j.Goal()) && Stage(cfg.machine, j, d.(executions := Stored(d.executions, r)), 1)
  {
    CasSucceeds(cfg, n, d.executions, j.before, j.c);
  }

  lemma AuditWrite(g: Graph, j: Job, d: Disk, s: nat)
    requires Stage(g, j, d, s) && s in {1, 2}
    ensures Stage(g, j, d.(audit := Appended(d.audit, j.Trace())), 2)
  {
    EventsAfterAppend(d.audit, j.Trace(), j.c.id);
  }

  lemma MarkWrite(g: Graph, j: Job, d: Disk, phase: Phase)
    requires Stage(g, j, d, 2) && phase in {Applied, Reconciled}
    ensures Stage(g, j, d.(journal := Marked(d.journal, j.c.id, phase)), 3)
  {
    var cs := Records(d.journal);
    MarkKeepsSound(g, d, j.c.id, phase);
    MarkMembers(cs, j.c.id, phase, j.c);
    forall r | r in MarkFirst(cs, j.c.id, phase) && r.phase == Waiting && r.executionId == j.before.id
      ensures r == j.c
    {
      MarkMembers(cs, j.c.id, phase, r);
    }
  }

  ghost predicate Started(g: Graph, j: Job, d: Disk) {
    Stage(g, j, d, 0) || Stage(g, j, d, 1) || Stage(g, j, d, 2) || Stage(g, j, d, 3)
  }

  ghost function Underway(g: Graph, j: Job): Disk -> bool {
    d => Started(g, j, d)
  }

  /** From the audit on, both branches of the visit write the same two things. */
  lemma OwnTail(g: Graph, j: Job, d: Disk, d1: Disk, s: nat, phase: Phase)
    requires Started(g, j, d) && Stage(g, j, d1, s) && s in {1, 2} && phase in {Applied, Reconciled}
    ensures var d2 := d1.(audit := Appended(d1.audit, j.Trace()));
      var d3 := d2.(journal := Marked(d1.journal, j.c.id, phase));
      && All(Underway(g, j), [d, d1, d2, d3]) && All(Underway(g, j), [d, d2, d3]) && Stage(g, j, d3, 3)
  {
    var d2 := d1.(audit := Appended(d1.audit, j.Trace()));
    AuditWrite(g, j, d1, s);
    MarkWrite(g, j, d2, phase);
    AllOfFour(Underway(g, j), d, d1, d2, d2.(journal := Marked(d1.journal, j.c.id, phase)));
  }

  /** Its own visit, with the lease, takes it write by write to stage 3; without, it does nothing. */
  lemma OwnVisitAdvances(cfg: Config, n: nat, j: Job, d: Disk, s: nat)
    requires Stage(cfg.machine, j, d, s) && s < 3
    ensures All(Underway(cfg.machine, j), VisitPath(cfg, n, d, j.c))
    ensures cfg.verdict(n, j.c.executionId) ==> Stage(cfg.machine, j, Last(VisitPath(cfg, n, d, j.c)), 3)
  {
    var g := cfg.machine;
    if !cfg.verdict(n, j.c.executionId) {
      assert VisitPath(cfg, n, d, j.c) == [d];
    } else if s == 0 {
      CasWrite(cfg, n, j, d);
      var r := CommitCas(cfg, n, d.executions, j.before, j.c.from, j.c.to, j.c.checkpoint, j.c.reason);
      PathWhenNotThere(cfg, n, d, j.c, r);
      OwnTail(g, j, d, d.(executions := Stored(d.executions, r)), 1, Reconciled);
    } else {
      PathWhenThere(cfg, n, d, j.c);
      OwnTail(g, j, d, d, s, Reconciled);
    }
  }

  // ---------------------------------------------------------------- whole passes, cut short or not

  /** The lease check for the execution answers yes throughout. */
  ghost predicate Holds(cfg: Config, e: string) {
    forall n :: cfg.verdict(n, e)
  }

  /** A pending record found at the start of a pass is this commit, not yet marked, or a stranger to it. */
  lemma TodoIsMineOrStranger(g: Graph, j: Job, d: Disk, r: Commit)
    requires Started(g, j, d) && r in Todo(d)
    ensures Legal(g, r)
    ensures (r == j.c && !Stage(g, j, d, 3)) || (r.id != j.c.id && r.executionId != j.before.id)
  {
    var cs := Records(d.journal);
    PendingOfMembers(cs, r);
    if r.id == j.c.id {
      var mine := if j.c in cs then j.c
        else if j.c.(phase := Applied) in cs then j.c.(phase := Applied) else j.c.(phase := Reconciled);
      assert mine in cs && r in cs && mine.id == r.id;
      assert mine == r;
    }
  }

  lemma VisitKeepsStarted(cfg: Config, n: nat, j: Job, d: Disk, r: Commit)
    requires Started(cfg.machine, j, d) && Legal(cfg.machine, r)
    requires (r == j.c && !Stage(cfg.machine, j, d, 3)) || (r.id != j.c.id && r.executionId != j.before.id)
    ensures All(Underway(cfg.machine, j), VisitPath(cfg, n, d, r))
  {
    var g, path := cfg.machine, VisitPath(cfg, n, d, r);
    forall k | 0 <= k < |path| ensures Underway(g, j)(path[k]) {
      if r == j.c {
        OwnVisitAdvances(cfg, n, j, d, if Stage(g, j, d, 0) then 0 else if Stage(g, j, d, 1) then 1 else 2);
      } else {
        var s: nat :| s <= 3 && Stage(g, j, d, s);
        OtherVisitKeepsStage(cfg, n, j, d, s, r, k);
      }
    }
  }

  /** After `n` visits of a pass that found the commit at stage `s`: no visit raised, the commit is underway;
      before its own visit it is where it was, after it (with the lease) it is done. */
  ghost predicate Advanced(cfg: Config, j: Job, d: Disk, s: nat, n: nat, p: PassState)
    requires n <= |Todo(d)|
  {
    && p.raised.None? && Started(cfg.machine, j, p.disk)
    && (j.c !in Todo(d)[..n] ==> Stage(cfg.machine, j, p.disk, s))
    && (j.c in Todo(d)[..n] && Holds(cfg, j.c.executionId) ==> Stage(cfg.machine, j, p.disk, 3))
  }

  lemma FirstSeen(todo: seq<Commit>, n: nat, c: Commit)
    requires n < |todo|
    ensures c in todo[..n + 1] <==> c in todo[..n] || c == todo[n]
  {
    assert todo[..n + 1] == todo[..n] + [todo[n]];
  }

  lemma NotSeenBefore(todo: seq<Commit>, n: nat)
    requires Distinct(todo) && n < |todo|
    ensures todo[n] !in todo[..n]
  {
  }

  lemma OwnTurn(cfg: Config, n: nat, j: Job, d: Disk, s: nat)
    requires Stage(cfg.machine, j, d, s) && s <= 2
    ensures var path := VisitPath(cfg, n, d, j.c);
      && VisitRaises(cfg, n, d, j.c).None? && All(Underway(cfg.machine, j), path) && Started(cfg.machine, j, Last(path))
      && (Holds(cfg, j.c.executionId) ==> Stage(cfg.machine, j, Last(path), 3))
  {
    var path := VisitPath(cfg, n, d, j.c);
    VisitNeverRaises(cfg, n, d, j.c);
    OwnVisitAdvances(cfg, n, j, d, s);
    assert Underway(cfg.machine, j)(path[|path| - 1]);
  }

  lemma StrangersTurn(cfg: Config, n: nat, j: Job, d: Disk, s: nat, r: Commit)
    requires Started(cfg.machine, j, d) && Legal(cfg.machine, r) && r.id != j.c.id && r.executionId != j.before.id
    ensures var path := VisitPath(cfg, n, d, r);
      && VisitRaises(cfg, n, d, r).None? && All(Underway(cfg.machine, j), path) && Started(cfg.machine, j, Last(path))
      && (Stage(cfg.machine, j, d, s) ==> Stage(cfg.machine, j, Last(path), s))
  {
    var path := VisitPath(cfg, n, d, r);
    VisitNeverRaises(cfg, n, d, r);
    VisitKeepsStarted(cfg, n, j, d, r);
    assert Underway(cfg.machine, j)(path[|path| - 1]);
    if Stage(cfg.machine, j, d, s) { OtherVisitKeepsStage(cfg, n, j, d, s, r, |path| - 1); }
  }

  lemma OneMoreVisit(cfg: Config, n: nat, j: Job, d: Disk, s: nat, d1: Disk)
    requires Stage(cfg.machine, j, d, s) && Started(cfg.machine, j, d1) && n < |Todo(d)|
    requires j.c !in Todo(d)[..n] ==> Stage(cfg.machine, j, d1, s)
    requires j.c in Todo(d)[..n] && Holds(cfg, j.c.executionId) ==> Stage(cfg.machine, j, d1, 3)
    ensures var r := Todo(d)[n];
      var d2 := Last(VisitPath(cfg, n, d1, r));
      && VisitRaises(cfg, n, d1, r).None? && All(Underway(cfg.machine, j), VisitPath(cfg, n, d1, r))
      && Started(cfg.machine, j, d2)
      && (j.c !in Todo(d)[..n + 1] ==> Stage(cfg.machine, j, d2, s))
      && (j.c in Todo(d)[..n + 1] && Holds(cfg, j.c.executionId) ==> Stage(cfg.machine, j, d2, 3))
  {
    var todo, r := Todo(d), Todo(d)[n];
    TodoIsMineOrStranger(cfg.machine, j, d, r);
    FirstSeen(todo, n, j.c);
    if r == j.c {
      PendingOfIsDistinct(Records(d.journal));
      NotSeenBefore(todo, n);
      OwnTurn(cfg, n, j, d1, s);
    } else {
      StrangersTurn(cfg, n, j, d1, if j.c in todo[..n] then 3 else s, r);
    }
  }

  ghost function AdvancedAt(cfg: Config, j: Job, d: Disk, s: nat, n: nat): PassState -> bool
    requires n <= |Todo(d)|
  {
    p => Advanced(cfg, j, d, s, n, p)
  }

  lemma AdvancedByOne(cfg: Config, j: Job, d: Disk, s: nat, n: nat, p: PassState)
    requires Stage(cfg.machine, j, d, s) && n < |Todo(d)| && AdvancedAt(cfg, j, d, s, n)(p)
    ensures AdvancedAt(cfg, j, d, s, n + 1)(PassVisit(cfg, n, p, Todo(d)[n]))
  {
    OneMoreVisit(cfg, n, j, d, s, p.disk);
    assert Advanced(cfg, j, d, s, n + 1, PassVisit(cfg, n, p, Todo(d)[n]));
  }

  lemma {:induction false} PassAdvances(cfg: Config, j: Job, d: Disk, s: nat, n: nat)
    requires Stage(cfg.machine, j, d, s) && n <= |Todo(d)|
    ensures AdvancedAt(cfg, j, d, s, n)(Pass(cfg, d, Todo(d)[..n]))
  {
    if n == 0 {
      assert Todo(d)[..0] == [];
    } else {
      PassAdvances(cfg, j, d, s, n - 1);
      AdvancedByOne(cfg, j, d, s, n - 1, Pass(cfg, d, Todo(d)[..n - 1]));
      PassUpTo(cfg, d, Todo(d), n - 1);
    }
  }

  /** A recovery pass that dies: it completes `visits` visits, then `writes` durable writes of the next. */
  datatype CrashedPass = CrashedPass(cfg: Config, visits: nat, writes: nat)

  function AfterCrash(d: Disk, crash: CrashedPass): Disk {
    var todo := Todo(d);
    if crash.visits >= |todo| then Pass(crash.cfg, d, todo).disk
    else
      var path := VisitPath(crash.cfg, crash.visits, Pass(crash.cfg, d, todo[..crash.visits]).disk, todo[crash.visits]);
      path[if crash.writes < |path| then crash.writes else |path| - 1]
  }

  function AfterCrashes(d: Disk, crashes: seq<CrashedPass>): Disk
    decreases |crashes|
  {
    if crashes == [] then d else AfterCrashes(AfterCrash(d, crashes[0]), crashes[1..])
  }

  lemma CrashKeepsStarted(g: Graph, j: Job, d: Disk, crash: CrashedPass)
    requires Started(g, j, d) && crash.cfg.machine == g
    ensures Started(g, j, AfterCrash(d, crash))
  {
    var todo, n, cfg := Todo(d), crash.visits, crash.cfg;
    var s: nat :| s <= 3 && Stage(g, j, d, s);
    if n >= |todo| {
      PassAdvances(cfg, j, d, s, |todo|);
      assert todo[..|todo|] == todo;
    } else {
      PassAdvances(cfg, j, d, s, n);
      OneMoreVisit(cfg, n, j, d, s, Pass(cfg, d, todo[..n]).disk);
      assert Underway(g, j)(AfterCrash(d, crash));
    }
  }

  lemma {:induction false} CrashesKeepStarted(g: Graph, j: Job, d: Disk, crashes: seq<CrashedPass>)
    requires Started(g, j, d) && forall i :: 0 <= i < |crashes| ==> crashes[i].cfg.machine == g
    ensures Started(g, j, AfterCrashes(d, crashes))
    decreases |crashes|
  {
    if crashes != [] {
      CrashKeepsStarted(g, j, d, crashes[0]);
      CrashesKeepStarted(g, j, AfterCrash(d, crashes[0]), crashes[1..]);
    }
  }

  /** A whole pass takes the commit to its last stage and raises nothing. */
  ghost predicate Finishes(cfg: Config, j: Job, d: Disk) {
    Pass(cfg, d, Todo(d)).raised.None? && Stage(cfg.machine, j, Pass(cfg, d, Todo(d)).disk, 3)
  }

  /** One uninterrupted pass with the lease finishes any commit that is underway. */
  lemma PassFinishes(cfg: Config, j: Job, d: Disk)
    requires Started(cfg.machine, j, d) && Holds(cfg, j.c.executionId)
    ensures Finishes(cfg, j, d)
  {
    var s: nat :| s <= 3 && Stage(cfg.machine, j, d, s);
    PassAdvances(cfg, j, d, s, |Todo(d)|);
    assert Todo(d)[..|Todo(d)|] == Todo(d);
    if s < 3 { PendingOfMembers(Records(d.journal), j.c); }
  }

  // ---------------------------------------------------------------- crash refinement

  /** A commit request the protocol can carry out: the caller's copy is current, the transition is legal and
      goes somewhere, nothing of it or of another pending commit of the execution is on disk yet, and the
      lease is held. */
  ghost predicate Fresh(cfg: Config, d: Disk, q: Request) {
    && Sound(cfg.machine, d)
    && q.state.id != "" && q.state.id in d.executions && d.executions[q.state.id] == q.state
    && q.to != q.state.status && CanTransition(cfg.machine, q.state.status, q.to)
    && Lookup(Records(d.journal), CommitId(q.state, q.to)).None?
    && EventsOf(d.audit, CommitId(q.state, q.to)) == []
    && (forall r :: r in Records(d.journal) && r.phase == Waiting ==> r.executionId != q.state.id)
    && cfg.verdict(0, q.state.id)
  }

  function JobOf(d: Disk, q: Request): Job {
    Job(q.state, Numbered(d.journal, NewCommit(q)))
  }

  lemma Journalled(cfg: Config, d: Disk, q: Request)
    requires Fresh(cfg, d, q)
    ensures Stage(cfg.machine, JobOf(d, q), d.(journal := Append(d.journal, NewCommit(q))), 0)
  {
    var c := Numbered(d.journal, NewCommit(q));
    IdIsNotEmpty(q.state, q.to);
    GapFreeAppend(d.journal, NewCommit(q));
    var cs := Records(d.journal);
    var cs' := cs + [c];
    forall r | r in cs' && r.phase == Waiting ensures Legal(cfg.machine, r) && (r.executionId == q.state.id ==> r == c) {
      assert r in cs || r == c;
    }
    assert cs'[|cs|] == c;
  }

  lemma AppliesInFour(cfg: Config, d: Disk, q: Request, c: Commit)
    requires q.state.id in d.executions && d.executions[q.state.id] == q.state && cfg.verdict(0, q.state.id)
    ensures
      var r := CommitCas(cfg, 0, d.executions, q.state, q.state.status, q.to, q.checkpoint, q.reason);
      var d2 := d.(executions := Stored(d.executions, r));
      var d3 := d2.(audit := Appended(d2.audit, CommitEvent(q.state, c)));
      r.Success? ==> ApplyPath(cfg, d, q, c) == [d, d2, d3, d3.(journal := Marked(d.journal, c.id, Applied))]
  {
  }

  /** The disks of an uncrashed commit are the five stages of its record. */
  lemma CommitGoesThroughTheStages(cfg: Config, d: Disk, q: Request)
    requires Fresh(cfg, d, q)
    ensures var path := CommitPath(cfg, d, q);
      && |path| == 5
      && All(Underway(cfg.machine, JobOf(d, q)), path[1..])
      && Stage(cfg.machine, JobOf(d, q), Last(path), 3)
  {
    var g, j, path := cfg.machine, JobOf(d, q), CommitPath(cfg, d, q);
    var d1 := d.(journal := Append(d.journal, NewCommit(q)));
    GapFreeReads(d.journal);
    Journalled(cfg, d, q);
    CasWrite(cfg, 0, j, d1);
    var r := CommitCas(cfg, 0, d1.executions, q.state, q.state.status, q.to, q.checkpoint, q.reason);
    var d2 := d1.(executions := Stored(d1.executions, r));
    OwnTail(g, j, d1, d2, 1, Applied);
    var d3 := d2.(audit := Appended(d2.audit, j.Trace()));
    AppliesInFour(cfg, d1, q, j.c);
    assert path == [d] + ApplyPath(cfg, d1, q, j.c);
    assert path[1..] == [d1, d2, d3, d3.(journal := Marked(d1.journal, j.c.id, Applied))];
  }

  /** From `crashed`, killed recovery passes and then a whole one lead to where the job ends uncrashed: the
      execution as it is there, exactly the one audit event, the record marked, nothing of it pending, and a
      finished execution not resumable. */
  ghost predicate Refined(final: Config, crashes: seq<CrashedPass>, j: Job, crashed: Disk, uncrashed: Disk) {
    var left := AfterCrashes(crashed, crashes);
    var p := Pass(final, left, Todo(left));
    var e := j.before.id;
    && p.raised.None?
    && e in p.disk.executions && e in uncrashed.executions
    && p.disk.executions[e] == uncrashed.executions[e] == j.Goal()
    && EventsOf(p.disk.audit, j.c.id) == EventsOf(uncrashed.audit, j.c.id) == [j.Trace()]
    && Marked3(j, p.disk) && Marked3(j, uncrashed)
    && (forall r :: r in Todo(p.disk) ==> r.executionId != e)
    && (j.c.to in {Completed, Failed} ==> e !in Resumable(p.disk.executions))
  }

  lemma RefinedFrom(final: Config, crashes: seq<CrashedPass>, j: Job, crashed: Disk, uncrashed: Disk)
    requires Started(final.machine, j, crashed) && Stage(final.machine, j, uncrashed, 3) && Holds(final, j.c.executionId)
    requires forall i :: 0 <= i < |crashes| ==> crashes[i].cfg.machine == final.machine
    ensures Refined(final, crashes, j, crashed, uncrashed)
  {
    var left := AfterCrashes(crashed, crashes);
    CrashesAreFinished(j, crashed, crashes, final);
    StageThreeIs(final.machine, j, Pass(final, left, Todo(left)).disk);
    StageThreeIs(final.machine, j, uncrashed);
  }

  /** Crash refinement.  Kill `commit` after any of its four durable writes, kill any number of recovery passes
      at any of their durable writes, then let one pass run with the lease: the execution is exactly what the
      uncrashed commit leaves (status, result, error, one version up), exactly its one audit event is in the
      log, its record is no longer pending, and a finished execution is not resumable. */
  lemma CrashRefinement(cfg: Config, d: Disk, q: Request, k: nat, crashes: seq<CrashedPass>, final: Config)
    requires Fresh(cfg, d, q) && 1 <= k <= 4
    requires forall i :: 0 <= i < |crashes| ==> crashes[i].cfg.machine == cfg.machine
    requires final.machine == cfg.machine && Holds(final, q.state.id)
    ensures |CommitPath(cfg, d, q)| == 5
    ensures Refined(final, crashes, JobOf(d, q), CommitPath(cfg, d, q)[k], Last(CommitPath(cfg, d, q)))
    ensures JobOf(d, q).before == q.state && JobOf(d, q).c == Numbered(d.journal, NewCommit(q))
    ensures JobOf(d, q).Goal() == NextState(q.state, q.to, q.checkpoint, q.reason).(version := q.state.version + 1)
  {
    var j, path := JobOf(d, q), CommitPath(cfg, d, q);
    CommitGoesThroughTheStages(cfg, d, q);
    assert path[k] == path[1..][k - 1];
    assert Underway(cfg.machine, j)(path[k]);
    RefinedFrom(final, crashes, j, path[k], Last(path));
  }

  lemma CrashesAreFinished(j: Job, d: Disk, crashes: seq<CrashedPass>, final: Config)
    requires Started(final.machine, j, d) && Holds(final, j.c.executionId)
    requires forall i :: 0 <= i < |crashes| ==> crashes[i].cfg.machine == final.machine
    ensures Finishes(final, j, AfterCrashes(d, crashes))
  {
    CrashesKeepStarted(final.machine, j, d, crashes);
    PassFinishes(final, j, AfterCrashes(d, crashes));
  }

  lemma StageThreeIs(g: Graph, j: Job, d: Disk)
    requires Stage(g, j, d, 3)
    ensures j.before.id in d.executions && d.executions[j.before.id] == j.Goal()
    ensures EventsOf(d.audit, j.c.id) == [j.Trace()] && Marked3(j, d)
    ensures forall r :: r in Todo(d) ==> r.executionId != j.before.id
    ensures j.c.to in {Completed, Failed} ==> j.before.id !in Resumable(d.executions)
  {
    forall r | r in Todo(d) ensures r.executionId != j.before.id {
      if r.executionId == j.before.id { StageThreeHasNoPending(g, j, d, r); }
    }
  }

  lemma StageThreeHasNoPending(g: Graph, j: Job, d: Disk, r: Commit)
    requires Stage(g, j, d, 3) && r in Todo(d)
    ensures r.executionId != j.before.id
  {
    PendingOfMembers(Records(d.journal), r);
    TodoIsMineOrStranger(g, j, d, r);
  }

  // ---------------------------------------------------------------- the fixpoint of recovery passes

  /** What `n` visits of a pass have done to the pending records. */
  ghost predicate Counted(cfg: Config, d: Disk, n: nat, p: PassState)
    requires n <= |Todo(d)|
  {
    && p.raised.None? && Sound(cfg.machine, p.disk)
    && |Todo(p.disk)| + |p.repaired| == |Todo(d)|
    && (forall m :: n <= m < |Todo(d)| ==> Todo(d)[m] in Todo(p.disk))
    && (p.repaired == [] ==> p.disk == d)
  }

  ghost function CountedAt(cfg: Config, d: Disk, n: nat): PassState -> bool
    requires n <= |Todo(d)|
  {
    p => Counted(cfg, d, n, p)
  }

  lemma CountedByOne(cfg: Config, d: Disk, n: nat, p: PassState)
    requires Sound(cfg.machine, d) && n < |Todo(d)| && CountedAt(cfg, d, n)(p)
    ensures CountedAt(cfg, d, n + 1)(PassVisit(cfg, n, p, Todo(d)[n]))
  {
    var g, todo, r := cfg.machine, Todo(d), Todo(d)[n];
    var cs := Records(p.disk.journal);
    PendingOfMembers(cs, r);
    var path := VisitPath(cfg, n, p.disk, r);
    VisitNeverRaises(cfg, n, p.disk, r);
    VisitIsLocal(cfg, n, p.disk, r);
    VisitMarksLast(cfg, n, p.disk, r);
    assert Around(g, p.disk, r)(path[|path| - 1]);
    if |path| > 1 {
      MarkKeepsSound(g, p.disk, r.id, Reconciled);
      MarkLowersPending(cs, r, Reconciled);
      PendingOfIsDistinct(Records(d.journal));
      forall m | n + 1 <= m < |todo| ensures todo[m] in Todo(Last(path)) {
        PendingOfMembers(cs, todo[m]);
        MarkMembers(cs, r.id, Reconciled, todo[m]);
        PendingOfMembers(Records(Last(path).journal), todo[m]);
      }
    }
    assert Counted(cfg, d, n + 1, PassVisit(cfg, n, p, r));
  }

  lemma {:induction false} PassCounts(cfg: Config, d: Disk, n: nat)
    requires Sound(cfg.machine, d) && n <= |Todo(d)|
    ensures CountedAt(cfg, d, n)(Pass(cfg, d, Todo(d)[..n]))
  {
    if n == 0 {
      assert Todo(d)[..0] == [];
    } else {
      PassCounts(cfg, d, n - 1);
      CountedByOne(cfg, d, n - 1, Pass(cfg, d, Todo(d)[..n - 1]));
      PassUpTo(cfg, d, Todo(d), n - 1);
    }
  }

  /** A pass that repairs k commits lowers the number of pending records by exactly k; a pass that repairs
      none changes no execution, audit event or journal line. */
  lemma RepairsLowerPending(cfg: Config, d: Disk)
    requires Sound(cfg.machine, d)
    ensures var p := Pass(cfg, d, Todo(d));
      && p.raised.None? && Sound(cfg.machine, p.disk)
      && |Todo(p.disk)| == |Todo(d)| - |p.repaired|
      && (p.repaired == [] <==> p.disk == d)
  {
    PassCounts(cfg, d, |Todo(d)|);
    assert Todo(d)[..|Todo(d)|] == Todo(d);
  }

  function Passes(cfg: Config, d: Disk, n: nat): Disk
    decreases n
  {
    if n == 0 then d else Passes(cfg, Pass(cfg, d, Todo(d)).disk, n - 1)
  }

  lemma {:induction false} FixpointStays(cfg: Config, d: Disk, n: nat)
    requires Pass(cfg, d, Todo(d)).disk == d
    ensures Passes(cfg, d, n) == d
  {
    if n > 0 { FixpointStays(cfg, d, n - 1); }
  }

  /** Repeating the pass, with the lease verdicts fixed, repairs something at most as often as there were
      pending records, whatever order dependent records are in; from then on nothing ever changes. */
  lemma {:induction false} RecoveryReachesAFixpoint(cfg: Config, d: Disk) returns (n: nat)
    requires Sound(cfg.machine, d)
    ensures n <= |Todo(d)|
    ensures forall i :: 0 <= i < n ==>
      Pass(cfg, Passes(cfg, d, i), Todo(Passes(cfg, d, i))).repaired != []
    ensures forall m :: m >= n ==> Passes(cfg, d, m) == Passes(cfg, d, n)
    decreases |Todo(d)|
  {
    RepairsLowerPending(cfg, d);
    var p := Pass(cfg, d, Todo(d));
    if p.repaired == [] {
      n := 0;
      forall m: nat ensures Passes(cfg, d, m) == d { FixpointStays(cfg, d, m); }
    } else {
      var rest := RecoveryReachesAFixpoint(cfg, p.disk);
      n := rest + 1;
      forall m: nat | m >= n ensures Passes(cfg, d, m) == Passes(cfg, d, n) {
        assert Passes(cfg, d, m) == Passes(cfg, p.disk, m - 1);
      }
      forall i | 0 <= i < n
        ensures Pass(cfg, Passes(cfg, d, i), Todo(Passes(cfg, d, i))).repaired != []
      {
        if i > 0 { assert Passes(cfg, d, i) == Passes(cfg, p.disk, i - 1); }
      }
    }
  }
}
