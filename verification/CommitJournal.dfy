/** The commit journal: an append-only file of lines, a sequence allocator and a reader that are separate
    loops over the same text (runtime/execution_commit.py). */
module CommitJournal {
  import opened Base
  import opened StateMachine

  datatype Phase = Waiting | Applied | Reconciled | Unknown(text: string)

  /** A journal record.  `signed` says that its checksum is not empty, which is all the reader looks at. */
  datatype Commit = Commit(
    id: string, executionId: string, from: Status, to: Status, attempt: int, checkpoint: Value,
    reason: Option<string>, correlationId: Option<string>, phase: Phase, sequence: int, signed: bool)

  /** One line of the file, as the two loops see it.
      - Unparsable: not JSON.
      - Poison: JSON, but not an object or with a sequence that is not a number; the reader raises.
      - Fragment: an object, with or without a sequence, whose fields do not make a commit.
      - Record: a commit with its sequence.
      - Unnumbered: a commit without a sequence; the reader gives it the one it expects. */
  datatype Line =
    | Blank | Unparsable | Poison
    | Fragment(at: Option<int>)
    | Record(commit: Commit)
    | Unnumbered(bare: Commit)

  predicate Readable(lines: seq<Line>) {
    forall i :: 0 <= i < |lines| ==> lines[i] != Poison
  }

  /** What the reader takes from a line when it expects sequence `cursor`. */
  function Accept(line: Line, cursor: int): seq<Commit> {
    match line
    case Record(c) => if c.sequence == cursor && c.signed then [c] else []
    case Unnumbered(c) => if c.signed then [c.(sequence := cursor)] else []
    case _ => []
  }

  function Advance(line: Line, cursor: int): int {
    match line
    case Blank | Poison => cursor
    case Unparsable | Unnumbered(_) => cursor + 1
    case Fragment(s) => Max(cursor + 1, s.GetOr(cursor) + 1)
    case Record(c) => if c.sequence == cursor && c.signed then cursor + 1 else Max(cursor + 1, c.sequence + 1)
  }

  /** The sequence number the allocator reads off a line; zero when it finds none. */
  function Claimed(line: Line): int {
    match line
    case Record(c) => c.sequence
    case Fragment(s) => s.GetOr(0)
    case _ => 0
  }

  function Cursor(lines: seq<Line>): int {
    if lines == [] then 1
    else Advance(lines[|lines| - 1], Cursor(lines[..|lines| - 1]))
  }

  function Records(lines: seq<Line>): seq<Commit> {
    if lines == [] then []
    else
      var front := lines[..|lines| - 1];
      Records(front) + Accept(lines[|lines| - 1], Cursor(front))
  }

  function Highest(lines: seq<Line>): int {
    if lines == [] then 0 else Max(Highest(lines[..|lines| - 1]), Claimed(lines[|lines| - 1]))
  }

  function NextSequence(lines: seq<Line>): int {
    Highest(lines) + 1
  }

  function Numbered(lines: seq<Line>, c: Commit): Commit {
    c.(sequence := NextSequence(lines), signed := true)
  }

  function Append(lines: seq<Line>, c: Commit): seq<Line> {
    lines + [Record(Numbered(lines, c))]
  }

  function Lines(cs: seq<Commit>): seq<Line> {
    seq(|cs|, i requires 0 <= i < |cs| => Record(cs[i].(signed := true)))
  }

  /** The first record with the id gets the phase; every other record is kept. */
  function MarkFirst(cs: seq<Commit>, id: string, phase: Phase): (r: seq<Commit>)
    ensures |r| == |cs|
  {
    if cs == [] then []
    else if cs[0].id == id then [cs[0].(phase := phase)] + cs[1..]
    else [cs[0]] + MarkFirst(cs[1..], id, phase)
  }

  /** The file after `_mark` rewrote it. */
  function Marked(lines: seq<Line>, id: string, phase: Phase): seq<Line> {
    if Readable(lines) then Lines(MarkFirst(Records(lines), id, phase)) else lines
  }

  function PendingOf(cs: seq<Commit>): (r: seq<Commit>) {
    if cs == [] then []
    else PendingOf(cs[..|cs| - 1]) + (if cs[|cs| - 1].phase == Waiting then [cs[|cs| - 1]] else [])
  }

  /** The last record with the id: the one a dictionary built from the records holds. */
  function Lookup(cs: seq<Commit>, id: string): (r: Option<Commit>)
    ensures r.None? ==> forall i :: 0 <= i < |cs| ==> cs[i].id != id
    ensures r.Some? ==> r.value in cs && r.value.id == id
  {
    if cs == [] then None
    else if cs[|cs| - 1].id == id then Some(cs[|cs| - 1])
    else Lookup(cs[..|cs| - 1], id)
  }

  class Journal {
    var lines: seq<Line>

    constructor ()
      ensures lines == []
    {
      lines := [];
    }

    method NextSequenceUnlocked() returns (next: int)
      ensures next == NextSequence(lines)
    {
      var maximum := 0;
      for i := 0 to |lines|
        invariant maximum == Highest(lines[..i])
      {
        assert lines[..i + 1][..i] == lines[..i];
        match lines[i] {
          case Record(c) => maximum := Max(maximum, c.sequence);
          case Fragment(s) => maximum := Max(maximum, s.GetOr(0));
          case _ => maximum := Max(maximum, 0);
        }
      }
      assert lines[..|lines|] == lines;
      return maximum + 1;
    }

    method AppendRecord(c: Commit) returns (written: Commit)
      modifies this`lines
      ensures written == Numbered(old(lines), c)
      ensures lines == Append(old(lines), c)
    {
      var next := NextSequenceUnlocked();
      written := c.(sequence := next, signed := true);
      lines := lines + [Record(written)];
    }

    /** None when the reader raises. */
    method Read() returns (r: Option<seq<Commit>>)
      ensures r == if Readable(lines) then Some(Records(lines)) else None
    {
      var result: seq<Commit> := [];
      var expected := 1;
      for i := 0 to |lines|
        invariant forall j :: 0 <= j < i ==> lines[j] != Poison
        invariant result == Records(lines[..i]) && expected == Cursor(lines[..i])
      {
        assert lines[..i + 1][..i] == lines[..i];
        match lines[i] {
          case Blank =>
          case Poison => return None;
          case Unparsable => expected := expected + 1;
          case Fragment(s) => expected := Max(expected + 1, s.GetOr(expected) + 1);
          case Record(c) =>
            if c.sequence != expected || !c.signed {
              expected := Max(expected + 1, c.sequence + 1);
            } else {
              result := result + [c];
              expected := c.sequence + 1;
            }
          case Unnumbered(c) =>
            if c.signed { result := result + [c.(sequence := expected)]; }
            expected := expected + 1;
        }
      }
      assert lines[..|lines|] == lines;
      return Some(result);
    }

    /** False when the reader raises; the file is then untouched. */
    method Mark(id: string, phase: Phase) returns (done: bool)
      modifies this`lines
      ensures done <==> Readable(old(lines))
      ensures lines == Marked(old(lines), id, phase)
    {
      var read := Read();
      if read.None? { return false; }
      var commits := read.value;
      var i := 0;
      while i < |commits| && commits[i].id != id
        invariant 0 <= i <= |commits|
        invariant forall j :: 0 <= j < i ==> commits[j].id != id
      {
        i := i + 1;
      }
      MarkFirstIs(commits, id, phase, i);
      if i < |commits| { commits := commits[i := commits[i].(phase := phase)]; }
      lines := Lines(commits);
      return true;
    }
  }

  // ---------------------------------------------------------------- allocator and reader

  ghost predicate Increasing(cs: seq<Commit>) {
    && (forall i :: 0 <= i < |cs| ==> 1 <= cs[i].sequence && cs[i].signed)
    && (forall i, j :: 0 <= i < j < |cs| ==> cs[i].sequence < cs[j].sequence)
  }

  ghost predicate Below(cs: seq<Commit>, n: int) {
    forall i :: 0 <= i < |cs| ==> cs[i].sequence < n
  }

  lemma IncreasingExtends(cs: seq<Commit>, n: int, c: Commit)
    requires Increasing(cs) && Below(cs, n) && 1 <= n <= c.sequence && c.signed
    ensures Increasing(cs + [c]) && Below(cs + [c], c.sequence + 1)
  {
  }

  /** Accepted sequence numbers start at 1 or later, strictly increase and stay below the cursor; the cursor
      is never below the next number the allocator would give. */
  lemma {:induction false} ReaderAndAllocatorAgree(lines: seq<Line>)
    ensures Cursor(lines) >= NextSequence(lines) >= 1
    ensures Increasing(Records(lines)) && Below(Records(lines), Cursor(lines))
  {
    if lines != [] {
      var front, last := lines[..|lines| - 1], lines[|lines| - 1];
      ReaderAndAllocatorAgree(front);
      var taken := Accept(last, Cursor(front));
      if taken != [] {
        IncreasingExtends(Records(front), Cursor(front), taken[0]);
      } else {
        assert Records(lines) == Records(front);
      }
    }
  }

  /** A freshly appended record can be read back exactly when the reader's cursor and the allocator agree;
      the distance between the two is the same after the append, so one gap hides every later record
      until the file is rewritten. */
  lemma AppendedIsReadable(lines: seq<Line>, c: Commit)
    ensures var after := Append(lines, c);
      && (Cursor(lines) == NextSequence(lines) <==> Records(after) == Records(lines) + [Numbered(lines, c)])
      && (Cursor(lines) != NextSequence(lines) ==> Records(after) == Records(lines))
      && Cursor(after) - NextSequence(after) == Cursor(lines) - NextSequence(lines)
  {
    ReaderAndAllocatorAgree(lines);
    var after := Append(lines, c);
    assert after[..|after| - 1] == lines;
    assert |Records(lines) + [Numbered(lines, c)]| == |Records(lines)| + 1;
  }

  function AppendAll(lines: seq<Line>, cs: seq<Commit>): seq<Line>
    decreases |cs|
  {
    if cs == [] then lines else AppendAll(Append(lines, cs[0]), cs[1..])
  }

  /** After a line that does not parse, no number of appended commits is ever readable. */
  lemma {:induction false} GarbageHidesAllLaterCommits(lines: seq<Line>, cs: seq<Commit>)
    requires Cursor(lines) > NextSequence(lines)
    ensures Records(AppendAll(lines, cs)) == Records(lines)
    decreases |cs|
  {
    if cs != [] {
      AppendedIsReadable(lines, cs[0]);
      GarbageHidesAllLaterCommits(Append(lines, cs[0]), cs[1..]);
    }
  }

  lemma TrailingGarbageOpensAGap(lines: seq<Line>)
    ensures Cursor(lines + [Unparsable]) > NextSequence(lines + [Unparsable])
  {
    ReaderAndAllocatorAgree(lines);
    assert (lines + [Unparsable])[..|lines|] == lines;
  }

  // ---------------------------------------------------------------- both loops, line by line

  /** What the reader does with one more line: a blank one is skipped, a record with the expected number and a
      checksum is taken, one without a number is given it, and anything else costs a number, or as many as it
      takes to get past the number it carries. */
  predicate ReadsLine(line: Line, n: int, m: int, taken: seq<Commit>) {
    match line
    case Blank => m == n && taken == []
    case Poison => m == n && taken == []
    case Unparsable => m == n + 1 && taken == []
    case Fragment(s) => n < m && (s.Some? ==> s.value < m) && (m == n + 1 || (s.Some? && m == s.value + 1)) && taken == []
    case Record(c) =>
      n < m && c.sequence < m && (m == n + 1 || m == c.sequence + 1)
      && taken == if c.signed && c.sequence == n then [c] else []
    case Unnumbered(c) => m == n + 1 && taken == if c.signed then [c.(sequence := n)] else []
  }

  lemma ReaderTakesLine(lines: seq<Line>, line: Line)
    ensures Cursor([]) == 1 && Records([]) == []
    ensures exists taken ::
      Records(lines + [line]) == Records(lines) + taken && ReadsLine(line, Cursor(lines), Cursor(lines + [line]), taken)
  {
    ReadOneMore(lines, line);
    assert ReadsLine(line, Cursor(lines), Advance(line, Cursor(lines)), Accept(line, Cursor(lines)));
  }

  /** The line carries this number. */
  predicate Numbers(line: Line, n: int) {
    (line.Record? && line.commit.sequence == n) || (line.Fragment? && line.at == Some(n))
  }

  /** The next number is past every number in the file, and no further than it has to be. */
  lemma {:induction false} NextIsTheLeast(lines: seq<Line>)
    ensures NextSequence(lines) >= 1
    ensures forall i, n :: 0 <= i < |lines| && Numbers(lines[i], n) ==> n < NextSequence(lines)
    ensures NextSequence(lines) > 1 ==> exists i :: 0 <= i < |lines| && Numbers(lines[i], NextSequence(lines) - 1)
  {
    if lines != [] {
      var k := |lines| - 1;
      NextIsTheLeast(lines[..k]);
      assert NextSequence(lines[..k]) > 1 ==> exists i :: 0 <= i < k && Numbers(lines[..k][i], NextSequence(lines[..k]) - 1);
      forall i, n | 0 <= i < |lines| && Numbers(lines[i], n) ensures n < NextSequence(lines) {
        if i < k { assert Numbers(lines[..k][i], n); }
      }
      if NextSequence(lines) > NextSequence(lines[..k]) {
        assert Numbers(lines[k], NextSequence(lines) - 1);
      } else if NextSequence(lines) > 1 {
        var i :| 0 <= i < k && Numbers(lines[..k][i], NextSequence(lines[..k]) - 1);
        assert Numbers(lines[i], NextSequence(lines) - 1);
      }
    }
  }

  /** The pending records are the waiting ones, in their order. */
  lemma {:induction false} PendingKeepsOrder(a: seq<Commit>, b: seq<Commit>)
    ensures PendingOf(a + b) == PendingOf(a) + PendingOf(b)
    ensures |b| == 1 ==> PendingOf(b) == if b[0].phase == Waiting then b else []
    decreases |b|
  {
    if b == [] {
      assert a + b == a;
    } else {
      var front, last := b[..|b| - 1], b[|b| - 1];
      assert (a + b)[..|a + b| - 1] == a + front;
      PendingKeepsOrder(a, front);
      if |b| == 1 { assert front == []; }
    }
  }

  /** Of several records with an id the last one is found. */
  lemma {:induction false} LookupFindsLast(cs: seq<Commit>, id: string, i: nat)
    requires i < |cs| && cs[i].id == id && forall j :: i < j < |cs| ==> cs[j].id != id
    ensures Lookup(cs, id) == Some(cs[i])
  {
    if i < |cs| - 1 { LookupFindsLast(cs[..|cs| - 1], id, i); }
  }

  // ---------------------------------------------------------------- rewriting

  function LastSequence(cs: seq<Commit>): int {
    if cs == [] then 0 else Last(cs).sequence
  }

  /** The records that survive a rewrite: those numbered one above the record before them. */
  function Survivors(cs: seq<Commit>): seq<Commit> {
    if cs == [] then []
    else
      var front, last := cs[..|cs| - 1], cs[|cs| - 1];
      Survivors(front) +
      (if last.sequence == LastSequence(front) + 1 then [last] else [])
  }

  lemma ReadOneMore(lines: seq<Line>, line: Line)
    ensures Records(lines + [line]) == Records(lines) + Accept(line, Cursor(lines))
    ensures Cursor(lines + [line]) == Advance(line, Cursor(lines))
  {
    assert (lines + [line])[..|lines|] == lines;
  }

  lemma SurvivesIff(front: seq<Commit>, last: Commit)
    ensures Survivors(front + [last]) ==
      Survivors(front) + (if last.sequence == LastSequence(front) + 1 then [last] else [])
  {
    assert (front + [last])[..|front|] == front;
  }

  lemma LinesOneMore(front: seq<Commit>, last: Commit)
    requires last.signed
    ensures Lines(front + [last]) == Lines(front) + [Record(last)]
  {
    assert last.(signed := true) == last;
  }

  lemma RereadOneMore(front: seq<Commit>, last: Commit)
    requires last.signed && last.sequence >= Cursor(Lines(front))
    ensures Cursor(Lines(front + [last])) == last.sequence + 1
    ensures Records(Lines(front + [last])) ==
      Records(Lines(front)) + (if last.sequence == Cursor(Lines(front)) then [last] else [])
  {
    LinesOneMore(front, last);
    ReadOneMore(Lines(front), Record(last));
  }

  lemma IncreasingFront(cs: seq<Commit>)
    requires Increasing(cs) && cs != []
    ensures var front, last := cs[..|cs| - 1], cs[|cs| - 1];
      cs == front + [last] && Increasing(front) && last.signed && last.sequence >= LastSequence(front) + 1
  {
    var front := cs[..|cs| - 1];
    assert front != [] ==> cs[|cs| - 2].sequence < Last(cs).sequence;
  }

  lemma {:induction false} RereadKeepsSurvivors(cs: seq<Commit>)
    requires Increasing(cs)
    ensures Records(Lines(cs)) == Survivors(cs)
    ensures Cursor(Lines(cs)) == LastSequence(cs) + 1
  {
    if cs != [] {
      var front, last := cs[..|cs| - 1], cs[|cs| - 1];
      IncreasingFront(cs);
      RereadKeepsSurvivors(front);
      RereadOneMore(front, last);
      SurvivesIff(front, last);
    }
  }

  lemma {:induction false} MarkFirstAt(cs: seq<Commit>, id: string, phase: Phase, i: nat)
    requires i < |cs|
    ensures MarkFirst(cs, id, phase)[i] ==
      if cs[i].id == id && (forall j :: 0 <= j < i ==> cs[j].id != id) then cs[i].(phase := phase) else cs[i]
  {
    if cs[0].id != id && i > 0 {
      MarkFirstAt(cs[1..], id, phase, i - 1);
      if j :| 0 <= j < i && cs[j].id == id { assert cs[1..][j - 1].id == id; }
      if j :| 0 <= j < i - 1 && cs[1..][j].id == id { assert cs[j + 1].id == id; }
    }
  }

  lemma MarkFirstIs(cs: seq<Commit>, id: string, phase: Phase, i: nat)
    requires i <= |cs| && (forall j :: 0 <= j < i ==> cs[j].id != id) && (i < |cs| ==> cs[i].id == id)
    ensures MarkFirst(cs, id, phase) == if i < |cs| then cs[i := cs[i].(phase := phase)] else cs
  {
    forall j | 0 <= j < |cs|
      ensures MarkFirst(cs, id, phase)[j] == if j == i then cs[j].(phase := phase) else cs[j]
    {
      MarkFirstAt(cs, id, phase, j);
    }
  }

  /** Only numbers and signatures matter for the order. */
  lemma SameNumbers(a: seq<Commit>, b: seq<Commit>)
    requires Increasing(a) && |b| == |a|
    requires forall i :: 0 <= i < |a| ==> b[i].sequence == a[i].sequence && b[i].signed == a[i].signed
    ensures Increasing(b) && LastSequence(b) == LastSequence(a)
  {
  }

  lemma MarkedIsIncreasing(lines: seq<Line>, id: string, phase: Phase)
    ensures Increasing(MarkFirst(Records(lines), id, phase))
    ensures LastSequence(MarkFirst(Records(lines), id, phase)) == LastSequence(Records(lines))
  {
    var cs := Records(lines);
    var marked := MarkFirst(cs, id, phase);
    ReaderAndAllocatorAgree(lines);
    forall i | 0 <= i < |cs| ensures marked[i].sequence == cs[i].sequence && marked[i].signed == cs[i].signed {
      MarkFirstAt(cs, id, phase, i);
    }
    SameNumbers(cs, marked);
  }

  /** In general: marking and reading back keeps exactly the accepted records whose number is one more than
      that of the accepted record before them, with one phase changed. */
  lemma MarkThenRead(lines: seq<Line>, id: string, phase: Phase)
    requires Readable(lines)
    ensures Records(Marked(lines, id, phase)) == Survivors(MarkFirst(Records(lines), id, phase))
    ensures Readable(Marked(lines, id, phase))
  {
    var marked := MarkFirst(Records(lines), id, phase);
    MarkedIsIncreasing(lines, id, phase);
    RereadKeepsSurvivors(marked);
    assert Lines(marked) == Marked(lines, id, phase);
  }

  lemma {:induction false} HighestOfLines(cs: seq<Commit>)
    requires Increasing(cs)
    ensures Highest(Lines(cs)) == LastSequence(cs)
  {
    if cs != [] {
      var front := cs[..|cs| - 1];
      IncreasingFront(cs);
      HighestOfLines(front);
      assert Lines(cs)[..|cs| - 1] == Lines(front);
    }
  }

  /** A rewrite brings reader and allocator together again, whatever kept them apart. */
  lemma MarkHealsTheGap(lines: seq<Line>, id: string, phase: Phase)
    requires Readable(lines)
    ensures var m := Marked(lines, id, phase); Cursor(m) == NextSequence(m) == LastSequence(Records(lines)) + 1
  {
    var marked := MarkFirst(Records(lines), id, phase);
    MarkedIsIncreasing(lines, id, phase);
    RereadKeepsSurvivors(marked);
    HighestOfLines(marked);
  }

  /** It does so by forgetting: the file after the rewrite is the one it would have been had the records behind
      the gap never been appended. */
  lemma {:induction false} MarkDropsTheHidden(lines: seq<Line>, cs: seq<Commit>, id: string, phase: Phase)
    requires Readable(lines) && Cursor(lines) > NextSequence(lines)
    ensures Marked(AppendAll(lines, cs), id, phase) == Marked(lines, id, phase)
    decreases |cs|
  {
    if cs != [] {
      AppendedIsReadable(lines, cs[0]);
      MarkDropsTheHidden(Append(lines, cs[0]), cs[1..], id, phase);
    }
  }

  lemma MarkTheLast(cs: seq<Commit>, c: Commit, phase: Phase)
    requires forall i :: 0 <= i < |cs| ==> cs[i].id != c.id
    ensures MarkFirst(cs + [c], c.id, phase) == cs + [c.(phase := phase)]
  {
    MarkFirstIs(cs + [c], c.id, phase, |cs|);
    assert (cs + [c])[|cs| := c.(phase := phase)] == cs + [c.(phase := phase)];
  }

  lemma MarkedRecordStays(lines: seq<Line>, c: Commit, phase: Phase)
    requires Readable(lines) && Lookup(Records(lines), c.id).None? && Cursor(lines) == NextSequence(lines)
    ensures var cs, n := Records(lines), Numbered(lines, c).(phase := phase);
      Records(Marked(Append(lines, c), c.id, phase)) ==
      Survivors(cs) + (if n.sequence == LastSequence(cs) + 1 then [n] else [])
  {
    var cs, n := Records(lines), Numbered(lines, c);
    AppendedIsReadable(lines, c);
    MarkThenRead(Append(lines, c), c.id, phase);
    MarkTheLast(cs, n, phase);
    SurvivesIff(cs, n.(phase := phase));
  }

  lemma MarkedRecordGoes(lines: seq<Line>, c: Commit, phase: Phase)
    requires Readable(lines) && Lookup(Records(lines), c.id).None? && Cursor(lines) != NextSequence(lines)
    ensures Records(Marked(Append(lines, c), c.id, phase)) == Survivors(Records(lines))
  {
    var cs := Records(lines);
    AppendedIsReadable(lines, c);
    MarkThenRead(Append(lines, c), c.id, phase);
    MarkFirstIs(cs, c.id, phase, |cs|);
  }

  /** Whether a record is still there after it was appended and marked: exactly when reader and allocator agreed
      on its number and that number follows the last accepted one. */
  lemma MarkedRecordStaysIff(lines: seq<Line>, c: Commit, phase: Phase)
    requires Readable(lines) && Lookup(Records(lines), c.id).None?
    ensures Lookup(Records(Marked(Append(lines, c), c.id, phase)), c.id).Some? <==>
      Cursor(lines) == NextSequence(lines) == LastSequence(Records(lines)) + 1
  {
    var cs := Records(lines);
    if Cursor(lines) == NextSequence(lines) {
      MarkedRecordStays(lines, c, phase);
      LookupLast(Survivors(cs), Numbered(lines, c).(phase := phase));
    } else {
      MarkedRecordGoes(lines, c, phase);
    }
    if Lookup(Survivors(cs), c.id).Some? { SurvivorIsMember(cs, Lookup(Survivors(cs), c.id).value); }
    assert Survivors(cs) + [] == Survivors(cs);
  }

  lemma LookupLast(cs: seq<Commit>, c: Commit)
    ensures Lookup(cs + [c], c.id) == Some(c)
  {
  }

  lemma {:induction false} SurvivorIsMember(cs: seq<Commit>, c: Commit)
    requires c in Survivors(cs)
    ensures c in cs
  {
    var front := cs[..|cs| - 1];
    if c in Survivors(front) { SurvivorIsMember(front, c); }
  }

  // ---------------------------------------------------------------- gap-free journals

  /** The file holds the records numbered 1, 2, 3, ... and nothing else. */
  predicate GapFree(lines: seq<Line>) {
    forall i :: 0 <= i < |lines| ==> lines[i].Record? && lines[i].commit.signed && lines[i].commit.sequence == i + 1
  }

  lemma {:induction false} GapFreeReads(lines: seq<Line>)
    requires GapFree(lines)
    ensures Readable(lines) && Cursor(lines) == NextSequence(lines) == |lines| + 1
    ensures |Records(lines)| == |lines| && forall i :: 0 <= i < |lines| ==> Records(lines)[i] == lines[i].commit
  {
    if lines != [] {
      var front := lines[..|lines| - 1];
      GapFreeReads(front);
    }
  }

  lemma GapFreeAppend(lines: seq<Line>, c: Commit)
    requires GapFree(lines)
    ensures GapFree(Append(lines, c))
    ensures Records(Append(lines, c)) == Records(lines) + [Numbered(lines, c)]
  {
    GapFreeReads(lines);
    assert Cursor(lines) == NextSequence(lines) == |lines| + 1;
    AppendedIsReadable(lines, c);
    assert Append(lines, c)[..|lines|] == lines;
  }

  /** On a gap-free journal marking changes the phase of one record and nothing else, and the file stays
      gap-free. */
  lemma GapFreeMark(lines: seq<Line>, id: string, phase: Phase)
    requires GapFree(lines)
    ensures GapFree(Marked(lines, id, phase))
    ensures Records(Marked(lines, id, phase)) == MarkFirst(Records(lines), id, phase)
  {
    GapFreeReads(lines);
    var cs := Records(lines);
    forall i | 0 <= i < |cs|
      ensures var l := Marked(lines, id, phase)[i];
        l.Record? && l.commit.signed && l.commit.sequence == i + 1 && l.commit == MarkFirst(cs, id, phase)[i]
    {
      MarkFirstAt(cs, id, phase, i);
    }
    GapFreeReads(Marked(lines, id, phase));
    assert Records(Marked(lines, id, phase)) == MarkFirst(cs, id, phase);
  }
}
