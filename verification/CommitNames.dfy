/** What identifies a commit: its id is a text built from execution, attempt, target and correlation, and
    `commit` takes a readable record with the same text for the same commit (runtime/execution_commit.py:81-84). */
module CommitNames {
  import opened Base
  import opened StateMachine
  import opened ExecutionStore
  import opened CommitJournal
  import opened ExecutionCommit

  // ---------------------------------------------------------------- texts

  /** No colon. */
  predicate Plain(s: string) {
    ':' !in s
  }

  lemma {:induction false} DigitsArePlain(n: nat)
    ensures Digits(n) != "" && Plain(Digits(n)) && '-' !in Digits(n)
  {
    if n >= 10 { DigitsArePlain(n / 10); }
    assert "0123456789"[n % 10] in {'0', '1', '2', '3', '4', '5', '6', '7', '8', '9'};
  }

  lemma {:induction false} DigitsDetermine(m: nat, n: nat)
    requires Digits(m) == Digits(n)
    ensures m == n
    decreases m + n
  {
    var a, b := Digits(m), Digits(n);
    assert a[|a| - 1] == "0123456789"[m % 10] && b[|b| - 1] == "0123456789"[n % 10];
    DigitIsItsPlace(m % 10, n % 10);
    var front := a[..|a| - 1];
    assert front == (if m < 10 then "" else Digits(m / 10)) == (if n < 10 then "" else Digits(n / 10));
    if m >= 10 { DigitsArePlain(m / 10); }
    if n >= 10 { DigitsArePlain(n / 10); }
    if m >= 10 && n >= 10 { DigitsDetermine(m / 10, n / 10); }
  }

  lemma DigitIsItsPlace(i: nat, j: nat)
    requires i < 10 && j < 10 && "0123456789"[i] == "0123456789"[j]
    ensures i == j
  {
  }

  lemma SignShows(n: int)
    ensures Number(n) != "" && (Number(n)[0] == '-' <==> n < 0)
    ensures Number(n) == if n < 0 then ['-'] + Digits(-n) else Digits(n)
  {
    DigitsArePlain(if n < 0 then -n else n);
    if n >= 0 { assert Digits(n)[0] in Digits(n); }
  }

  lemma NumberDetermines(m: int, n: int)
    requires Number(m) == Number(n)
    ensures m == n
  {
    SignShows(m);
    SignShows(n);
    if m < 0 {
      SamePrefix(['-'], Digits(-m), Digits(-n));
      DigitsDetermine(-m, -n);
    } else {
      DigitsDetermine(m, n);
    }
  }

  lemma NumberIsPlain(n: int)
    ensures Plain(Number(n))
  {
    DigitsArePlain(if n < 0 then -n else n);
  }

  lemma SamePrefix(e: string, a: string, b: string)
    requires e + a == e + b
    ensures a == b
  {
    assert (e + a)[|e|..] == a && (e + b)[|e|..] == b;
  }

  lemma SameEnd(a: string, b: string, e: string)
    requires a + e == b + e
    ensures a == b
  {
    assert (a + e)[..|a|] == a && (b + e)[..|b|] == b && |a| == |b|;
  }

  lemma ColonIsPast(a: string, b: string, c: string, d: string)
    requires Plain(c) && a + ":" + b == c + ":" + d
    ensures |a| >= |c|
  {
    var s := c + ":" + d;
    forall i | 0 <= i < |c| ensures s[i] != ':' {
      assert s[i] == c[i];
    }
    assert (a + ":" + b)[|a|] == ':';
  }

  /** The text before the first colon. */
  lemma SplitsAtColon(a: string, b: string, c: string, d: string)
    requires Plain(a) && Plain(c) && a + ":" + b == c + ":" + d
    ensures a == c && b == d
  {
    ColonIsPast(a, b, c, d);
    ColonIsPast(c, d, a, b);
    assert (a + ":" + b)[..|a|] == a && (c + ":" + d)[..|c|] == c;
    assert (a + ":" + b)[|a| + 1..] == b && (c + ":" + d)[|c| + 1..] == d;
  }

  lemma IdIs(e: string, a: int, t: Status, corr: Option<string>)
    ensures IdText(e, a, t, corr) == (e + ":") + (Number(a) + ":" + (Text(t) + (":" + corr.GetOr(""))))
  {
    assert Text(t) + ":" + corr.GetOr("") == Text(t) + (":" + corr.GetOr(""));
  }

  /** With execution and correlation given, an id tells attempt and target. */
  lemma IdTellsAttemptAndTarget(e: string, a1: int, t1: Status, a2: int, t2: Status, corr: Option<string>)
    requires IdText(e, a1, t1, corr) == IdText(e, a2, t2, corr)
    ensures a1 == a2 && t1 == t2
  {
    var end := ":" + corr.GetOr("");
    var tail1, tail2 := Text(t1) + end, Text(t2) + end;
    var s1, s2 := Number(a1) + ":" + tail1, Number(a2) + ":" + tail2;
    IdIs(e, a1, t1, corr);
    IdIs(e, a2, t2, corr);
    SamePrefix(e + ":", s1, s2);
    NumberIsPlain(a1);
    NumberIsPlain(a2);
    SplitsAtColon(Number(a1), tail1, Number(a2), tail2);
    NumberDetermines(a1, a2);
    SameEnd(Text(t1), Text(t2), end);
    TextIsInjective(t1, t2);
  }

  /** Where execution and target have no colon in them, an id tells everything it was made of. */
  lemma IdTellsAll(e1: string, a1: int, t1: Status, c1: Option<string>, e2: string, a2: int, t2: Status, c2: Option<string>)
    requires Plain(e1) && Plain(e2) && Plain(Text(t1)) && Plain(Text(t2))
    ensures IdText(e1, a1, t1, c1) == IdText(e2, a2, t2, c2) <==>
      e1 == e2 && a1 == a2 && t1 == t2 && c1.GetOr("") == c2.GetOr("")
  {
    if IdText(e1, a1, t1, c1) == IdText(e2, a2, t2, c2) {
      var tail1, tail2 := Text(t1) + ":" + c1.GetOr(""), Text(t2) + ":" + c2.GetOr("");
      var s1, s2 := Number(a1) + ":" + tail1, Number(a2) + ":" + tail2;
      SplitsAtColon(e1, s1, e2, s2);
      NumberIsPlain(a1);
      NumberIsPlain(a2);
      SplitsAtColon(Number(a1), tail1, Number(a2), tail2);
      NumberDetermines(a1, a2);
      SplitsAtColon(Text(t1), c1.GetOr(""), Text(t2), c2.GetOr(""));
      TextIsInjective(t1, t2);
    }
  }

  /** With a colon in it, a name can make two commits look like one. */
  lemma ColonsCollide()
    ensures IdText("job:1", 2, Failed, None) == IdText("job", 1, Named("2:failed"), None)
  {
    assert Number(1) == "1" && Number(2) == "2";
    assert IdText("job:1", 2, Failed, None) == "job:1:2:failed:";
    assert IdText("job", 1, Named("2:failed"), None) == "job:1:2:failed:";
  }

  /** The id of a completion, written out. */
  lemma IdSpelledOut()
    ensures IdText("e", 12, Completed, Some("c")) == "e:12:completed:c" && IdText("e", -3, Failed, None) == "e:-3:failed:"
    ensures Text(Pending) == "pending" && Text(Running) == "running" && Text(Retrying) == "retrying"
  {
    assert Digits(1) == "1" && Digits(12) == "12" && Digits(3) == "3";
    assert IdText("e", 12, Completed, Some("c")) == "e:12:completed:c";
    assert IdText("e", -3, Failed, None) == "e:-3:failed:";
  }

  // ---------------------------------------------------------------- journals of named records

  /** Every readable record carries the id made of its own fields. */
  ghost predicate WellNamed(lines: seq<Line>) {
    forall r :: r in Records(lines) ==> r.id == IdText(r.executionId, r.attempt, r.to, r.correlationId)
  }

  /** Appending and marking keep a journal well named. */
  lemma StaysWellNamed(lines: seq<Line>, q: Request, id: string, phase: Phase)
    requires WellNamed(lines)
    ensures WellNamed(Append(lines, NewCommit(q))) && WellNamed(Marked(lines, id, phase))
  {
    AppendedIsReadable(lines, NewCommit(q));
    if Readable(lines) {
      var cs := Records(lines);
      MarkThenRead(lines, id, phase);
      forall r | r in Records(Marked(lines, id, phase))
        ensures r.id == IdText(r.executionId, r.attempt, r.to, r.correlationId)
      {
        SurvivorIsMember(MarkFirst(cs, id, phase), r);
        var i :| 0 <= i < |cs| && MarkFirst(cs, id, phase)[i] == r;
        MarkFirstAt(cs, id, phase, i);
        assert cs[i] in cs;
      }
    }
  }

  predicate SameCase(r: Commit, q: Request) {
    r.executionId == q.state.id && r.correlationId.GetOr("") == q.state.correlationId.GetOr("")
  }

  /** The record is about this execution, attempt, target and correlation. */
  predicate IsFor(r: Commit, q: Request) {
    SameCase(r, q) && r.attempt == q.state.attempt && r.to == q.to
  }

  /** The record names the request's execution and correlation, or no name in the two has a colon. */
  predicate ToldApart(r: Commit, q: Request) {
    || SameCase(r, q)
    || (Plain(r.executionId) && Plain(Text(r.to)) && Plain(q.state.id) && Plain(Text(q.to)))
  }

  lemma SameIdIff(r: Commit, q: Request)
    requires r.id == IdText(r.executionId, r.attempt, r.to, r.correlationId) && ToldApart(r, q)
    ensures r.id == CommitId(q.state, q.to) <==> IsFor(r, q)
  {
    if SameCase(r, q) {
      var corr := Some(q.state.correlationId.GetOr(""));
      assert r.id == IdText(r.executionId, r.attempt, r.to, corr);
      assert CommitId(q.state, q.to) == IdText(q.state.id, q.state.attempt, q.to, corr);
      if r.id == CommitId(q.state, q.to) {
        IdTellsAttemptAndTarget(q.state.id, r.attempt, r.to, q.state.attempt, q.to, corr);
      }
    } else {
      IdTellsAll(r.executionId, r.attempt, r.to, r.correlationId, q.state.id, q.state.attempt, q.to, q.state.correlationId);
    }
  }

  lemma LookupIff(cs: seq<Commit>, id: string)
    ensures Lookup(cs, id).Some? <==> exists r :: r in cs && r.id == id
  {
    if r :| r in cs && r.id == id {
      var i :| 0 <= i < |cs| && cs[i] == r;
    }
  }

  /** The line that a commit request puts into the journal. */
  predicate LineFor(l: Line, q: Request, sequence: int) {
    && l.Record?
    && var c := l.commit;
    && IsFor(c, q) && c.correlationId == q.state.correlationId && c.from == q.state.status
    && c.checkpoint == q.checkpoint && c.reason == q.reason && c.phase == Waiting && c.signed && c.sequence == sequence
  }

  /** Over a well-named journal `commit` takes a request for a duplicate exactly when a readable record is about
      the same execution, attempt, target and correlation; then it returns such a record and writes nothing.
      Otherwise its first write appends the request's record under the next number, and that record is what
      it returns.  Only a record of another execution or correlation can be mistaken, and only by a colon. */
  lemma DuplicateIff(cfg: Config, d: Disk, q: Request)
    requires Readable(d.journal) && WellNamed(d.journal)
    requires forall r :: r in Records(d.journal) ==> ToldApart(r, q)
    ensures var path := CommitPath(cfg, d, q);
      if exists r :: r in Records(d.journal) && IsFor(r, q) then
        path == [d] && CommitReply(cfg, d, q).Returned?
        && CommitReply(cfg, d, q).commit in Records(d.journal) && IsFor(CommitReply(cfg, d, q).commit, q)
      else
        |path| >= 2 && path[1].executions == d.executions && path[1].audit == d.audit
        && |path[1].journal| == |d.journal| + 1 && path[1].journal[..|d.journal|] == d.journal
        && LineFor(path[1].journal[|d.journal|], q, NextSequence(d.journal))
        && (CommitReply(cfg, d, q).Returned? ==> path[1].journal[|d.journal|] == Record(CommitReply(cfg, d, q).commit))
  {
    var cs, id := Records(d.journal), CommitId(q.state, q.to);
    LookupIff(cs, id);
    forall r | r in cs ensures r.id == id <==> IsFor(r, q) {
      SameIdIff(r, q);
    }
    if Lookup(cs, id).None? {
      var d1 := d.(journal := Append(d.journal, NewCommit(q)));
      assert CommitPath(cfg, d, q) == [d] + ApplyPath(cfg, d1, q, Numbered(d.journal, NewCommit(q)));
    }
  }

  /** In particular: an execution that failed at one attempt and fails again at another has both failures
      journalled. */
  lemma LaterAttemptIsNoDuplicate(cfg: Config, d: Disk, q: Request)
    requires Readable(d.journal) && WellNamed(d.journal)
    requires forall r :: r in Records(d.journal) ==> ToldApart(r, q)
    requires forall r :: r in Records(d.journal) ==> r.attempt != q.state.attempt || r.to != q.to || !SameCase(r, q)
    ensures |CommitPath(cfg, d, q)| >= 2 && |CommitPath(cfg, d, q)[1].journal| == |d.journal| + 1
    ensures LineFor(CommitPath(cfg, d, q)[1].journal[|d.journal|], q, NextSequence(d.journal))
  {
    DuplicateIff(cfg, d, q);
  }
}
