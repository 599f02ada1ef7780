/** One recovery worker as the source writes it (runtime/intent_recovery_worker.py:29-83).  Its run is proved
    to be a run of the step system, so what holds of every interleaving there holds of this code. */
module RecoveryWorker {
  import opened Base
  import L = ExecutionLease
  import I = ToolIntents
  import J = ReconciliationJournal
  import opened ToolBoundary
  import opened RecoverySystem

  datatype Reply =
    | SkippedByLease | SkippedByClaim | JournalReplay(ok: bool) | StillAmbiguous | StaleClaim
    | Recovered(ok: bool) | RaisedMissingArgument | RaisedInvalidRecord

  lemma {:induction false} RunExtends(s: System, actions: seq<Action>, a: Action)
    ensures Run(s, actions + [a]) == Step(Run(s, actions), a)
    decreases |actions|
  {
    if actions == [] {
      assert actions + [a] == [a] && [a][1..] == [];
      assert Run(Step(s, a), []) == Step(s, a);
    } else {
      assert (actions + [a])[1..] == actions[1..] + [a];
      RunExtends(Step(s, actions[0]), actions[1..], a);
    }
  }

  /** No terminal record of the key, and none that does not pass the reader's checks. */
  predicate NoVerdict(j: J.Records, key: string) {
    key in j ==> j[key].valid && !j[key].status.Terminal?
  }

  /** The verdict and the value are in the journal. */
  predicate Recorded(j: J.Records, key: string, ok: bool, value: Value) {
    key in j && j[key].status == J.Terminal(ok) && j[key].result == value
  }

  class Worker {
    const store: I.IntentStore
    const leases: L.LeaseStore
    const journal: J.Journal?
    const owner: string

    constructor (store: I.IntentStore, leases: L.LeaseStore, journal: J.Journal?, owner: string)
      ensures this.store == store && this.leases == leases && this.journal == journal && this.owner == owner
    {
      this.store := store; this.leases := leases; this.journal := journal; this.owner := owner;
    }

    /** In `s`, worker 0 is this one, at `pc`, and the stores are where they are. */
    ghost predicate Matches(s: System, pc: Pc, lock: Option<nat>)
      reads store`data, leases`data, journal
    {
      && s.owners == map[0 := owner] && s.pcs == map[0 := pc] && s.lock == lock
      && s.journalled == (journal != null) && s.claimTtl == store.ttl && s.leaseTtl == leases.ttl
      && s.intents == store.data && s.leases == leases.data && (journal != null ==> s.journal == journal.data)
    }

    /** The lease in the store is this worker's, under this token, and lives. */
    predicate LeaseHeld(i: I.Intent, t: nat, now: int)
      reads leases`data
    {
      && LeaseKey(i) in leases.data && leases.data[LeaseKey(i)].owner == owner
      && leases.data[LeaseKey(i)].token == t && leases.data[LeaseKey(i)].expires > now
    }

    predicate Holds(i: I.Intent, c: string)
      reads store`data
    {
      i.key in store.data && I.HeldBy(store.data[i.key], owner, c)
    }

    /** The intent is ambiguous again, and nobody's. */
    predicate GivenBack(i: I.Intent)
      reads store`data
    {
      i.key in store.data && store.data[i.key].state == I.Ambiguous && I.Free(store.data[i.key])
    }

    /** Finalise from the journal while still owning the lease. */
    method Replay(now: int, i: I.Intent, t: nat, ok: bool, again: bool, ghost s: System)
      returns (finalized: bool, ghost s': System)
      requires Matches(s, Replaying(i, t, ok, again), None) && s.now == now
      modifies store`data
      ensures s' == DoReplay(s, 0)
      ensures Matches(s', if finalized || again then Leaving(i, t) else Claiming(i, t), None)
      ensures old(i.key in store.data && I.Open(store.data[i.key].state) && LeaseHeld(i, t, now)) ==> finalized && Shows(i, ok)
      ensures finalized ==> old(LeaseHeld(i, t, now))
    {
      s' := DoReplay(s, 0);
      finalized := false;
      if leases.Owns(now, LeaseKey(i), owner, Some(t)) {
        var f := store.FinalizeFromJournal(i.key, TerminalFor(ok));
        finalized := f.value.Some?;
      }
    }

    /** First half of the locked commit: check the lease, make the record durable.  A reply means that the
        worker leaves here. */
    method WriteRecord(now: int, i: I.Intent, t: nat, c: string, ok: bool, value: Value, ghost s: System)
      returns (reply: Option<Reply>, ghost s': System)
      requires Matches(s, Resolved(i, t, c, ok, value), None) && s.now == now
      modifies store`data, journal
      ensures s' == DoWriteJournal(s, 0) && s'.now == now
      ensures if reply.Some? then Matches(s', Leaving(i, t), None) && reply.value in {SkippedByLease, RaisedInvalidRecord}
              else Matches(s', Marking(i, t, c, ok), Some(0)) && (journal != null ==> TerminalRecord(journal.data, i.key))
      ensures reply == Some(SkippedByLease) <==> !LeaseHeld(i, t, now)
      ensures reply == Some(SkippedByLease) && old(Holds(i, c)) ==> GivenBack(i)
      ensures LeaseHeld(i, t, now) ==> store.data == old(store.data)
      ensures journal != null && LeaseHeld(i, t, now) && old(NoVerdict(journal.data, i.key)) ==>
        reply.None? && Recorded(journal.data, i.key, ok, value)
    {
      if !leases.Owns(now, LeaseKey(i), owner, Some(t)) {
        s' := LoseIt(i, t, c, ok, value, s);
        return Some(SkippedByLease), s';
      }
      reply, s' := Conclude(i, t, c, ok, value, s);
    }

    /** The lease is gone: give the claim back. */
    method LoseIt(i: I.Intent, t: nat, c: string, ok: bool, value: Value, ghost s: System) returns (ghost s': System)
      requires Matches(s, Resolved(i, t, c, ok, value), None) && !Owns(s, 0, i, t)
      modifies store`data
      ensures s' == DoWriteJournal(s, 0) && s'.now == s.now && Matches(s', Leaving(i, t), None)
      ensures old(Holds(i, c)) ==> GivenBack(i)
    {
      s' := DoWriteJournal(s, 0);
      var _ := store.ReleaseClaim(i.key, owner, c, I.Ambiguous);
    }

    method Conclude(i: I.Intent, t: nat, c: string, ok: bool, value: Value, ghost s: System)
      returns (reply: Option<Reply>, ghost s': System)
      requires Matches(s, Resolved(i, t, c, ok, value), None) && Owns(s, 0, i, t)
      modifies journal
      ensures s' == DoWriteJournal(s, 0) && s'.now == s.now
      ensures if reply.Some? then Matches(s', Leaving(i, t), None) && reply.value == RaisedInvalidRecord
              else Matches(s', Marking(i, t, c, ok), Some(0)) && (journal != null ==> TerminalRecord(journal.data, i.key))
      ensures journal != null && old(NoVerdict(journal.data, i.key)) ==> reply.None? && Recorded(journal.data, i.key, ok, value)
    {
      s' := DoWriteJournal(s, 0);
      WriteIs(s, i, t, c, ok, value);
      if journal != null {
        var written := journal.Conclude(i.key, ok, value);
        if written.Failure? { return Some(RaisedInvalidRecord), s'; }
      }
      return None, s';
    }

    /** Second half: mark the intent while the lock is still held. */
    method MarkClaimed(now: int, i: I.Intent, t: nat, c: string, ok: bool, ghost s: System)
      returns (reply: Reply, ghost s': System)
      requires Matches(s, Marking(i, t, c, ok), Some(0)) && s.now == now
      modifies store`data
      ensures s' == DoMark(s, 0) && Matches(s', Leaving(i, t), None)
      ensures reply == if old(I.LiveClaim(store.data, i.key, owner, c, now)) then Recovered(ok) else StaleClaim
      ensures reply == Recovered(ok) ==> i.key in store.data && store.data[i.key].state == TerminalFor(ok)
      ensures reply == StaleClaim ==> store.data == old(store.data)
    {
      s' := DoMark(s, 0);
      var committed := store.MarkClaimed(now, i.key, owner, c, TerminalFor(ok));
      reply := if committed.value.None? then StaleClaim else Recovered(ok);
    }

    /** Claim the intent; a reply means that the worker leaves here. */
    method ClaimIt(when: int, i: I.Intent, t: nat, c: string, ghost s: System)
      returns (reply: Option<Reply>, ghost s': System)
      requires Matches(s, Claiming(i, t), None) && c != "" && owner != ""
      modifies store`data
      ensures s' == DoClaim(s, 0, when, c)
      ensures Matches(s', if reply.Some? then Leaving(i, t) else Beginning(i, t, c), None)
      ensures reply == (if i.key == "" then Some(RaisedMissingArgument)
                        else if old(I.Claimable(store.data, i.key, owner, c, when)) then None else Some(SkippedByClaim))
      ensures reply.None? ==> I.LiveClaim(store.data, i.key, owner, c, when + store.ttl - 1)
    {
      s' := DoClaim(s, 0, when, c);
      ClaimIs(s, i, t, when, c);
      var claimed := store.Claim(when, i.key, owner, c);
      if claimed.Failure? { return Some(RaisedMissingArgument), s'; }
      if claimed.value.None? { return Some(SkippedByClaim), s'; }
      return None, s';
    }

    method Begin(i: I.Intent, t: nat, c: string, ghost s: System)
      returns (reply: Option<Reply>, evidence: Option<bool>, ghost s': System)
      requires Matches(s, Beginning(i, t, c), None)
      modifies journal
      ensures s' == DoBegin(s, 0)
      ensures
        if reply.Some? then Matches(s', Leaving(i, t), None)
        else if evidence.Some? then Matches(s', Replaying(i, t, evidence.value, true), None)
        else Matches(s', Resolving(i, t, c), None)
      ensures reply.None? && journal != null && old(TerminalRecord(journal.data, i.key)) ==> evidence.Some?
      ensures reply.Some? ==> reply.value == RaisedInvalidRecord
      ensures journal != null && old(NoVerdict(journal.data, i.key)) ==>
        reply.None? && evidence.None? && NoVerdict(journal.data, i.key)
      ensures journal != null && i.key !in old(journal.data) ==>
        i.key in journal.data && journal.data[i.key].executionId == i.executionId && journal.data[i.key].status == J.Pending
    {
      s' := DoBegin(s, 0);
      reply, evidence := None, None;
      if journal != null {
        var record := journal.Begin(i.key, i.executionId);
        if record.Failure? { return Some(RaisedInvalidRecord), None, s'; }
        evidence := J.Evidence(Some(record.value));
      }
    }

    /** After an inconclusive resolver: begin again; a reply means that the worker leaves here. */
    method OpenAgain(i: I.Intent, t: nat, c: string, ghost s: System) returns (reply: Option<Reply>, ghost s': System)
      requires Matches(s, Unresolved(i, t, c), None)
      modifies journal
      ensures s' == DoBeginAgain(s, 0)
      ensures Matches(s', if reply.Some? then Leaving(i, t) else Releasing(i, t, c), None)
      ensures reply.Some? ==> reply.value == RaisedInvalidRecord
      ensures journal != null && old(NoVerdict(journal.data, i.key)) ==> reply.None?
    {
      s' := DoBeginAgain(s, 0);
      if journal != null {
        var record := journal.Begin(i.key, i.executionId);
        if record.Failure? { return Some(RaisedInvalidRecord), s'; }
      }
      return None, s';
    }

    method GiveBack(i: I.Intent, t: nat, c: string, ghost s: System) returns (ghost s': System)
      requires Matches(s, Releasing(i, t, c), None)
      modifies store`data
      ensures s' == DoReleaseClaim(s, 0) && Matches(s', Leaving(i, t), None)
      ensures old(Holds(i, c)) ==> GivenBack(i)
    {
      s' := DoReleaseClaim(s, 0);
      var _ := store.ReleaseClaim(i.key, owner, c, I.Ambiguous);
    }

    /** The `finally`: release the lease. */
    method Leave(now: int, i: I.Intent, t: nat, ghost s: System) returns (ghost s': System)
      requires Matches(s, Leaving(i, t), None) && s.now == now
      modifies leases`data
      ensures s' == DoReleaseLease(s, 0) && Matches(s', Idle, None)
      ensures !L.IsOwner(leases.data, now, LeaseKey(i), owner, Some(t))
      ensures old(L.Mine(leases.data, LeaseKey(i), owner, Some(t))) ==>
        LeaseKey(i) in leases.data && leases.data[LeaseKey(i)] == L.Lease("", now, t)
    {
      s' := DoReleaseLease(s, 0);
      var _ := leases.Release(now, LeaseKey(i), owner, Some(t));
    }

    /** The first look at the journal; a reply means that the worker leaves here. */
    method ReadEvidence(i: I.Intent, t: nat, ghost s: System)
      returns (reply: Option<Reply>, evidence: Option<bool>, ghost s': System)
      requires Matches(s, Leased(i, t), None)
      ensures s' == DoReadJournal(s, 0)
      ensures
        if reply.Some? then Matches(s', Leaving(i, t), None)
        else if evidence.Some? then Matches(s', Replaying(i, t, evidence.value, false), None)
        else Matches(s', Claiming(i, t), None)
      ensures reply.None? && journal != null && TerminalRecord(journal.data, i.key) ==>
        evidence == Some(journal.data[i.key].status.ok)
      ensures reply.Some? ==> reply.value == RaisedInvalidRecord && journal != null && Broken(s, i.key)
    {
      s' := DoReadJournal(s, 0);
      reply, evidence := None, None;
      if journal != null {
        var record := journal.Get(i.key);
        if record.Failure? { return Some(RaisedInvalidRecord), None, s'; }
        evidence := J.Evidence(record.value);
      }
    }

    /** The resolver had no answer. */
    method GiveUp(i: I.Intent, t: nat, c: string, now: int, ghost g: Log) returns (reply: Reply, ghost g': Log)
      requires Good(g) && Matches(g.s, Unresolved(i, t, c), None)
      modifies store`data, journal
      ensures Follows(g, g') && Matches(g'.s, Leaving(i, t), None)
      ensures reply in {StillAmbiguous, RaisedInvalidRecord}
      ensures reply == StillAmbiguous && old(Holds(i, c)) ==> GivenBack(i)
      ensures journal != null && old(NoVerdict(journal.data, i.key)) ==> reply == StillAmbiguous
    {
      ghost var moved;
      var early;
      g' := ThenBeginAgain(g, now);
      early, moved := OpenAgain(i, t, c, g.s.(now := now));
      if early.Some? { return early.value, g'; }
      ghost var before := g'.s.(now := now);
      g' := ThenReleaseClaim(g', now);
      moved := GiveBack(i, t, c, before);
      return StillAmbiguous, g';
    }

    /** The resolver answered: journal and intent, under the lease lock. */
    method Commit(i: I.Intent, t: nat, c: string, ok: bool, value: Value, clock: nat -> int, ghost g: Log)
      returns (reply: Reply, ghost g': Log)
      requires Good(g) && Matches(g.s, Resolved(i, t, c, ok, value), None)
      modifies store`data, journal
      ensures Follows(g, g') && Matches(g'.s, Leaving(i, t), None)
      ensures reply in {SkippedByLease, RaisedInvalidRecord, StaleClaim, Recovered(ok)}
      ensures reply == Recovered(ok) ==> Shows(i, ok)
      ensures reply == SkippedByLease <==> !LeaseHeld(i, t, clock(4))
      ensures reply == SkippedByLease && old(Holds(i, c)) ==> GivenBack(i)
      ensures journal != null && LeaseHeld(i, t, clock(4)) && old(NoVerdict(journal.data, i.key)) ==>
        Recorded(journal.data, i.key, ok, value)
        && reply == if old(I.LiveClaim(store.data, i.key, owner, c, clock(5))) then Recovered(ok) else StaleClaim
    {
      ghost var moved;
      var early;
      g' := ThenWriteJournal(g, clock(4));
      early, moved := WriteRecord(clock(4), i, t, c, ok, value, g.s.(now := clock(4)));
      if early.Some? { return early.value, g'; }
      ghost var before := g'.s.(now := clock(5));
      g' := ThenMark(g', clock(5));
      reply, moved := MarkClaimed(clock(5), i, t, c, ok, before);
    }

    /** From the resolver on. */
    method ResolveAndCommit(i: I.Intent, t: nat, c: string, clock: nat -> int, verdict: Option<bool>, value: Value, ghost g: Log)
      returns (reply: Reply, ghost g': Log)
      requires Good(g) && Matches(g.s, Resolving(i, t, c), None)
      modifies store`data, journal
      ensures Follows(g, g') && Matches(g'.s, Leaving(i, t), None)
      ensures reply.Recovered? ==> verdict == Some(reply.ok) && Shows(i, reply.ok)
      ensures !reply.JournalReplay?
      ensures reply in {StillAmbiguous, SkippedByLease} && old(Holds(i, c)) ==> GivenBack(i)
      ensures verdict.None? && journal != null && old(NoVerdict(journal.data, i.key)) ==> reply == StillAmbiguous
      ensures verdict.Some? && journal != null && LeaseHeld(i, t, clock(4)) && old(NoVerdict(journal.data, i.key)) ==>
        Recorded(journal.data, i.key, verdict.value, value)
        && reply == if old(I.LiveClaim(store.data, i.key, owner, c, clock(5))) then Recovered(verdict.value) else StaleClaim
    {
      g' := ThenResolve(g, clock(4), verdict, value);
      if verdict.None? {
        reply, g' := GiveUp(i, t, c, clock(4), g');
      } else {
        reply, g' := Commit(i, t, c, verdict.value, value, clock, g');
      }
    }

    /** Claim and begin; a reply means that the worker leaves here. */
    method ClaimAndBegin(i: I.Intent, t: nat, c: string, clock: nat -> int, ghost g: Log)
      returns (reply: Option<Reply>, evidence: Option<bool>, ghost g': Log)
      requires Good(g) && Matches(g.s, Claiming(i, t), None) && c != "" && owner != ""
      modifies store`data, journal
      ensures Follows(g, g')
      ensures
        if reply.Some? then Matches(g'.s, Leaving(i, t), None)
        else if evidence.Some? then Matches(g'.s, Replaying(i, t, evidence.value, true), None)
        else Matches(g'.s, Resolving(i, t, c), None)
      ensures reply.None? && journal != null && old(TerminalRecord(journal.data, i.key)) ==> evidence.Some?
      ensures reply.Some? ==> reply.value in {SkippedByClaim, RaisedMissingArgument, RaisedInvalidRecord}
      ensures i.key != "" && !old(I.Claimable(store.data, i.key, owner, c, clock(2))) ==> reply == Some(SkippedByClaim)
      ensures reply.None? ==> Holds(i, c)
      ensures journal != null && old(NoVerdict(journal.data, i.key)) && old(I.Claimable(store.data, i.key, owner, c, clock(2))) ==>
        && reply.None? && evidence.None? && NoVerdict(journal.data, i.key)
        && I.LiveClaim(store.data, i.key, owner, c, clock(2) + store.ttl - 1)
    {
      ghost var moved;
      g' := ThenClaim(g, clock(2), c);
      evidence := None;
      reply, moved := ClaimIt(clock(2), i, t, c, g.s.(now := clock(2)));
      if reply.Some? { return; }
      ghost var before := g'.s.(now := clock(3));
      g' := ThenBegin(g', clock(3));
      reply, evidence, moved := Begin(i, t, c, before);
    }

    /** From the claim on. */
    method ClaimAndOn(i: I.Intent, t: nat, c: string, clock: nat -> int, verdict: Option<bool>, value: Value, ghost g: Log)
      returns (reply: Reply, resolved: bool, ghost g': Log)
      requires Good(g) && Matches(g.s, Claiming(i, t), None) && c != "" && owner != ""
      modifies store`data, journal
      ensures Follows(g, g') && Matches(g'.s, Leaving(i, t), None)
      ensures journal != null && old(TerminalRecord(journal.data, i.key)) ==> !resolved
      ensures reply.Recovered? ==> resolved && verdict == Some(reply.ok) && Shows(i, reply.ok)
      ensures old(Winnable(i, t, c, clock)) && verdict.Some? ==>
        reply == Recovered(verdict.value) && resolved && Recorded(journal.data, i.key, verdict.value, value)
      ensures old(Winnable(i, t, c, clock)) && verdict.None? ==> reply == StillAmbiguous && resolved
      ensures reply in {StillAmbiguous, SkippedByLease} ==> resolved && GivenBack(i)
    {
      var early, evidence;
      early, evidence, g' := ClaimAndBegin(i, t, c, clock, g);
      if early.Some? { return early.value, false, g'; }
      if evidence.Some? {
        ghost var moved, before := g'.s, g'.s.(now := clock(3));
        g' := ThenReplay(g', clock(3));
        var finalized;
        finalized, moved := Replay(clock(3), i, t, evidence.value, true, before);
        return JournalReplay(evidence.value), false, g';
      }
      reply, g' := ResolveAndCommit(i, t, c, clock, verdict, value, g');
      return reply, true, g';
    }

    /** Replay the journal if it has a verdict; a reply means that the worker leaves here. */
    method ReplayFirst(i: I.Intent, t: nat, now: int, ghost g: Log) returns (reply: Option<Reply>, ghost g': Log)
      requires Good(g) && Matches(g.s, Leased(i, t), None)
      modifies store`data
      ensures Follows(g, g') && Matches(g'.s, if reply.Some? then Leaving(i, t) else Claiming(i, t), None)
      ensures reply.Some? ==> reply.value.JournalReplay? || reply.value.RaisedInvalidRecord?
      ensures old(Replayable(store.data, i, t, now)) ==>
        reply == Some(JournalReplay(journal.data[i.key].status.ok)) && Shows(i, journal.data[i.key].status.ok)
      ensures journal != null && NoVerdict(journal.data, i.key) ==> reply.None? && store.data == old(store.data)
    {
      ghost var moved;
      var evidence;
      g' := ThenRead(g, now);
      reply, evidence, moved := ReadEvidence(i, t, g.s.(now := now));
      if reply.Some? || evidence.None? { return; }
      ghost var before := g'.s.(now := now);
      g' := ThenReplay(g', now);
      var finalized;
      finalized, moved := Replay(now, i, t, evidence.value, false, before);
      reply := if finalized then Some(JournalReplay(evidence.value)) else None;
    }

    /** No verdict yet, a claim to be had, and lease and claim that last. */
    predicate Winnable(i: I.Intent, t: nat, c: string, clock: nat -> int)
      reads leases`data, journal, store`data
    {
      && journal != null && NoVerdict(journal.data, i.key) && I.Claimable(store.data, i.key, owner, c, clock(2))
      && LeaseHeld(i, t, clock(4)) && clock(5) < clock(2) + store.ttl
    }

    /** A valid terminal record, an open intent, and the lease. */
    predicate Replayable(ledger: I.Ledger, i: I.Intent, t: nat, now: int)
      reads leases`data, journal
    {
      && journal != null && TerminalRecord(journal.data, i.key) && journal.data[i.key].valid
      && i.key in ledger && I.Open(ledger[i.key].state) && LeaseHeld(i, t, now)
    }

    predicate Shows(i: I.Intent, ok: bool)
      reads store`data
    {
      i.key in store.data && store.data[i.key].state == TerminalFor(ok)
    }

    /** Everything between lease and `finally`. */
    method UnderLease(i: I.Intent, t: nat, c: string, clock: nat -> int, verdict: Option<bool>, value: Value, ghost g: Log)
      returns (reply: Reply, resolved: bool, ghost g': Log)
      requires Good(g) && Matches(g.s, Leased(i, t), None) && c != "" && owner != ""
      modifies store`data, journal
      ensures Follows(g, g') && Matches(g'.s, Leaving(i, t), None)
      ensures journal != null && old(TerminalRecord(journal.data, i.key)) ==> !resolved
      ensures reply.Recovered? ==> resolved && verdict == Some(reply.ok) && Shows(i, reply.ok)
      ensures old(Replayable(store.data, i, t, clock(1))) ==>
        var ok := old(journal.data)[i.key].status.ok; reply == JournalReplay(ok) && Shows(i, ok)
      ensures old(Winnable(i, t, c, clock)) && verdict.Some? ==>
        reply == Recovered(verdict.value) && resolved && Recorded(journal.data, i.key, verdict.value, value)
      ensures old(Winnable(i, t, c, clock)) && verdict.None? ==> reply == StillAmbiguous && resolved
      ensures reply in {StillAmbiguous, SkippedByLease} ==> resolved && GivenBack(i)
    {
      var early;
      early, g' := ReplayFirst(i, t, clock(1), g);
      if early.Some? { return early.value, false, g'; }
      reply, resolved, g' := ClaimAndOn(i, t, c, clock, verdict, value, g');
    }

    /** A valid terminal record, an open intent, and a lease to be had for long enough to look. */
    predicate Revisitable(i: I.Intent, clock: nat -> int)
      reads leases`data, journal, store`data
    {
      && journal != null && TerminalRecord(journal.data, i.key) && journal.data[i.key].valid
      && i.key in store.data && I.Open(store.data[i.key].state) && LeaseKey(i) != "" && owner != ""
      && LeaseFree(i, clock(0)) && clock(1) < clock(0) + leases.ttl
    }

    predicate LeaseGivenBack(i: I.Intent)
      reads leases`data
    {
      LeaseKey(i) in leases.data && leases.data[LeaseKey(i)].owner == ""
    }

    /** Nobody else's lease lives: on the execution, or, for an intent without one, on its key. */
    predicate LeaseFree(i: I.Intent, now: int)
      reads leases`data
    {
      var k := if i.executionId.Some? && i.executionId.value != "" then i.executionId.value else i.key;
      k in leases.data ==> leases.data[k].expires <= now || leases.data[k].owner == owner
    }

    /** The intent can be recovered: a configured journal without a verdict, a lease and a claim to be had, and
        clock readings before both run out. */
    predicate Recoverable(i: I.Intent, c: string, clock: nat -> int)
      reads leases`data, journal, store`data
    {
      && journal != null && NoVerdict(journal.data, i.key) && LeaseKey(i) != "" && owner != "" && LeaseFree(i, clock(0))
      && I.Claimable(store.data, i.key, owner, c, clock(2))
      && clock(4) < clock(0) + leases.ttl && clock(5) < clock(2) + store.ttl
    }

    /** `recover_one`.  `clock(n)` is the n-th clock reading, `c` a new claim token, `verdict` what the resolver
        answers if it is called (None: an unknown state).  The log shows which run of the step system this call
        is.  With a terminal record in the journal the resolver is never called, and while the lease lasts the
        intent is brought to the recorded verdict.  A recoverable intent is recovered with the resolver's verdict,
        or given back as ambiguous without one; a lease that somebody else holds is left alone, and the worker's
        own is given back. */
    method RecoverOne(i: I.Intent, c: string, clock: nat -> int, verdict: Option<bool>, value: Value, ghost g: Log)
      returns (reply: Reply, resolved: bool, ghost g': Log)
      requires Good(g) && Matches(g.s, Idle, None) && c != ""
      requires i.key in store.data && store.data[i.key].executionId == i.executionId
      modifies store`data, leases`data, journal
      ensures Follows(g, g') && Matches(g'.s, Idle, None)
      ensures journal != null && old(TerminalRecord(journal.data, i.key)) ==> !resolved
      ensures reply.Recovered? ==> resolved && verdict == Some(reply.ok) && Shows(i, reply.ok)
      ensures old(Revisitable(i, clock)) ==>
        var ok := old(journal.data)[i.key].status.ok; reply == JournalReplay(ok) && Shows(i, ok)
      ensures old(Recoverable(i, c, clock)) && verdict.Some? ==>
        && reply == Recovered(verdict.value) && resolved
        && Recorded(journal.data, i.key, verdict.value, value) && Shows(i, verdict.value)
      ensures old(Recoverable(i, c, clock)) && verdict.None? ==> reply == StillAmbiguous && resolved
      ensures reply == StillAmbiguous || (reply == SkippedByLease && resolved) ==> GivenBack(i)
      ensures LeaseKey(i) != "" && owner != "" && old(LeaseFree(i, clock(0))) ==> LeaseGivenBack(i)
      ensures LeaseKey(i) != "" && owner != "" && !old(LeaseFree(i, clock(0))) ==>
        reply == SkippedByLease && store.data == old(store.data)
    {
      if LeaseKey(i) == "" || owner == "" { return RaisedMissingArgument, false, g; }
      var t;
      t, g' := TakeTheLease(i, clock(0), g);
      if t.None? { return SkippedByLease, false, g'; }
      reply, resolved, g' := UnderLease(i, t.value, c, clock, verdict, value, g');
      ghost var moved, before := g'.s, g'.s.(now := clock(6));
      g' := ThenReleaseLease(g', clock(6));
      moved := Leave(clock(6), i, t.value, before);
    }

    method TakeTheLease(i: I.Intent, now: int, ghost g: Log) returns (t: Option<nat>, ghost g': Log)
      requires Good(g) && Matches(g.s, Idle, None) && LeaseKey(i) != "" && owner != ""
      requires i.key in store.data && store.data[i.key].executionId == i.executionId
      modifies leases`data
      ensures Follows(g, g') && Matches(g'.s, if t.Some? then Leased(i, t.value) else Idle, None)
      ensures t.Some? <==> old(LeaseFree(i, now))
      ensures t.Some? ==> LeaseKey(i) in leases.data && leases.data[LeaseKey(i)] == L.Lease(owner, now + leases.ttl, t.value)
    {
      g' := g;
      var lease := leases.Acquire(now, LeaseKey(i), owner);
      if lease.value.None? { return None, g'; }
      g' := ThenTakeLease(g, now, i);
      return Some(lease.value.value.token), g';
    }
  }

  // ---------------------------------------------------------------- steps of a lone worker

  /** The lone worker goes to `pc`. */
  function At(s: System, pc: Pc): System {
    s.(pcs := map[0 := pc])
  }

  lemma ClaimIs(s: System, i: I.Intent, t: nat, when: int, c: string)
    requires 0 in s.owners && s.pcs == map[0 := Claiming(i, t)] && c != ""
    ensures DoClaim(s, 0, when, c) ==
      var claimed := I.Claimed(s.intents, when, s.claimTtl, i.key, s.owners[0], c);
      if i.key == "" || claimed.None? then At(s, Leaving(i, t))
      else At(s, Beginning(i, t, c)).(intents := s.intents[i.key := claimed.value])
  {
    assert forall pc: Pc :: s.pcs[0 := pc] == map[0 := pc];
  }

  lemma WriteIs(s: System, i: I.Intent, t: nat, c: string, ok: bool, value: Value)
    requires 0 in s.owners && s.pcs == map[0 := Resolved(i, t, c, ok, value)] && s.lock.None? && Owns(s, 0, i, t)
    ensures var v, journal := DoWriteJournal(s, 0), J.Concluded(s.journal, i.key, ok, value);
      && v.owners == s.owners && v.journalled == s.journalled && v.claimTtl == s.claimTtl && v.leaseTtl == s.leaseTtl
      && v.intents == s.intents && v.leases == s.leases && v.now == s.now
      && v.journal == (if s.journalled then journal else s.journal)
      && (if s.journalled && !journal[i.key].valid then v.pcs == map[0 := Leaving(i, t)] && v.lock.None?
          else v.pcs == map[0 := Marking(i, t, c, ok)] && v.lock == Some(0))
  {
    assert forall pc: Pc :: s.pcs[0 := pc] == map[0 := pc];
  }

  // ---------------------------------------------------------------- logs

  /** A run of the step system: where it started, what happened, where it is. */
  datatype Log = Log(start: System, actions: seq<Action>, s: System)

  ghost predicate Good(g: Log) {
    Run(g.start, g.actions) == g.s
  }

  ghost predicate Follows(g: Log, g': Log) {
    Good(g') && g'.start == g.start
  }

  /** One more step, after the clock is read. */
  lemma Then(g: Log, now: int, a: Action) returns (g': Log)
    requires Good(g)
    ensures Follows(g, g') && g'.s == Step(g.s.(now := now), a)
  {
    RunExtends(g.start, g.actions, Tick(now));
    RunExtends(g.start, g.actions + [Tick(now)], a);
    g' := Log(g.start, g.actions + [Tick(now)] + [a], Step(g.s.(now := now), a));
  }

  lemma ThenTakeLease(g: Log, now: int, i: I.Intent) returns (g': Log)
    requires Good(g) && Known(g.s, 0)
    ensures Follows(g, g') && g'.s == DoAcquire(g.s.(now := now), 0, i)
  {
    g' := Then(g, now, TakeLease(0, i));
  }

  lemma ThenRead(g: Log, now: int) returns (g': Log)
    requires Good(g) && Known(g.s, 0)
    ensures Follows(g, g') && g'.s == DoReadJournal(g.s.(now := now), 0)
  {
    g' := Then(g, now, ReadJournal(0));
  }

  lemma ThenReplay(g: Log, now: int) returns (g': Log)
    requires Good(g) && Known(g.s, 0)
    ensures Follows(g, g') && g'.s == DoReplay(g.s.(now := now), 0)
  {
    g' := Then(g, now, Action.Replay(0));
  }

  lemma ThenClaim(g: Log, now: int, c: string) returns (g': Log)
    requires Good(g) && Known(g.s, 0)
    ensures Follows(g, g') && g'.s == DoClaim(g.s.(now := now), 0, now, c)
  {
    g' := Then(g, now, ClaimIntent(0, now, c));
  }

  lemma ThenBegin(g: Log, now: int) returns (g': Log)
    requires Good(g) && Known(g.s, 0)
    ensures Follows(g, g') && g'.s == DoBegin(g.s.(now := now), 0)
  {
    g' := Then(g, now, BeginRecord(0));
  }

  lemma ThenResolve(g: Log, now: int, verdict: Option<bool>, value: Value) returns (g': Log)
    requires Good(g) && Known(g.s, 0)
    ensures Follows(g, g') && g'.s == DoResolve(g.s.(now := now), 0, verdict, value)
  {
    g' := Then(g, now, Resolve(0, verdict, value));
  }

  lemma ThenBeginAgain(g: Log, now: int) returns (g': Log)
    requires Good(g) && Known(g.s, 0)
    ensures Follows(g, g') && g'.s == DoBeginAgain(g.s.(now := now), 0)
  {
    g' := Then(g, now, BeginAgain(0));
  }

  lemma ThenReleaseClaim(g: Log, now: int) returns (g': Log)
    requires Good(g) && Known(g.s, 0)
    ensures Follows(g, g') && g'.s == DoReleaseClaim(g.s.(now := now), 0)
  {
    g' := Then(g, now, ReleaseClaim(0));
  }

  lemma ThenWriteJournal(g: Log, now: int) returns (g': Log)
    requires Good(g) && Known(g.s, 0)
    ensures Follows(g, g') && g'.s == DoWriteJournal(g.s.(now := now), 0)
  {
    g' := Then(g, now, WriteJournal(0));
  }

  lemma ThenMark(g: Log, now: int) returns (g': Log)
    requires Good(g) && Known(g.s, 0)
    ensures Follows(g, g') && g'.s == DoMark(g.s.(now := now), 0)
  {
    g' := Then(g, now, MarkIntent(0));
  }

  lemma ThenReleaseLease(g: Log, now: int) returns (g': Log)
    requires Good(g) && Known(g.s, 0)
    ensures Follows(g, g') && g'.s == DoReleaseLease(g.s.(now := now), 0)
  {
    g' := Then(g, now, ReleaseLease(0));
  }
}
