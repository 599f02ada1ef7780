/** Any number of intent recovery workers over one ledger, one reconciliation journal and one lease store,
    interleaved at every store operation, with stalls, expiries and crashes
    (runtime/intent_recovery_worker.py:29-83).

    The journal record is the commit point: a worker writes it, and then marks the intent, inside the lease
    lock; it may die in between.  Claims, journal reads and `begin` happen outside that lock. */
module RecoverySystem {
  import opened Base
  import opened ExecutionLease
  import I = ToolIntents
  import J = ReconciliationJournal
  import opened ToolBoundary

  /** Where a worker is; `t` is the token of the lease it was granted, `c` its claim token. */
  datatype Pc =
    | Idle
    | Leased(i: I.Intent, t: nat)
    | Replaying(i: I.Intent, t: nat, ok: bool, again: bool)
    | Claiming(i: I.Intent, t: nat)
    | Beginning(i: I.Intent, t: nat, c: string)
    | Resolving(i: I.Intent, t: nat, c: string)
    | Resolved(i: I.Intent, t: nat, c: string, ok: bool, value: Value)
    | Unresolved(i: I.Intent, t: nat, c: string)
    | Releasing(i: I.Intent, t: nat, c: string)
    | Marking(i: I.Intent, t: nat, c: string, ok: bool)
    | Leaving(i: I.Intent, t: nat)

  /** `owners` are the workers' owner ids, which need not differ.  History: `writes` lists the keys whose
      terminal record was written, `written` the lease token the last such write was made under. */
  datatype System = System(
    owners: map<nat, string>, journalled: bool, claimTtl: nat, leaseTtl: nat,
    intents: I.Ledger, journal: J.Records, leases: Leases, now: int, lock: Option<nat>,
    pcs: map<nat, Pc>, writes: seq<string>, written: map<string, nat>)

  datatype Action =
    | TakeLease(p: nat, i: I.Intent)
    | ReadJournal(p: nat)
    | Replay(p: nat)
    | ClaimIntent(p: nat, when: int, c: string)
    | BeginRecord(p: nat)
    | Resolve(p: nat, verdict: Option<bool>, value: Value)
    | BeginAgain(p: nat)
    | ReleaseClaim(p: nat)
    | WriteJournal(p: nat)
    | MarkIntent(p: nat)
    | ReleaseLease(p: nat)
    | Crash(p: nat)
    | Tick(to: int)
    | LeaseAction(op: LeaseOp)
    | IntentAction(use: I.IntentOp)

  function Goto(s: System, p: nat, pc: Pc): System {
    s.(pcs := s.pcs[p := pc])
  }

  predicate Known(s: System, p: nat) {
    p in s.pcs && p in s.owners
  }

  function LeaseKey(i: I.Intent): string {
    if i.executionId.Some? && i.executionId.value != "" then i.executionId.value else i.key
  }

  predicate Owns(s: System, p: nat, i: I.Intent, t: nat)
    requires p in s.owners
  {
    IsOwner(s.leases, s.now, LeaseKey(i), s.owners[p], Some(t))
  }

  /** The worker is handed an intent it read from the store. */
  function DoAcquire(s: System, p: nat, i: I.Intent): System
    requires Known(s, p)
  {
    if !s.pcs[p].Idle? || s.lock.Some? || s.owners[p] == "" || LeaseKey(i) == ""
       || i.key !in s.intents || s.intents[i.key].executionId != i.executionId then s
    else
      var l := Acquired(s.leases, s.now, s.leaseTtl, LeaseKey(i), s.owners[p]);
      if l.None? then s
      else Goto(s, p, Leased(i, l.value.token)).(leases := s.leases[LeaseKey(i) := l.value])
  }

  function Verdict(s: System, key: string): Option<bool> {
    J.Evidence(if key in s.journal then Some(s.journal[key]) else None)
  }

  predicate Broken(s: System, key: string) {
    key in s.journal && !s.journal[key].valid
  }

  function DoReadJournal(s: System, p: nat): System
    requires Known(s, p)
  {
    if !s.pcs[p].Leased? then s
    else
      var Leased(i, t) := s.pcs[p];
      if !s.journalled then Goto(s, p, Claiming(i, t))
      else if Broken(s, i.key) then Goto(s, p, Leaving(i, t))
      else if Verdict(s, i.key).Some? then Goto(s, p, Replaying(i, t, Verdict(s, i.key).value, false))
      else Goto(s, p, Claiming(i, t))
  }

  /** Finalise from the journal, if still the lease owner; the first time round a worker that could not
      finalise goes on to claim. */
  function DoReplay(s: System, p: nat): System
    requires Known(s, p)
  {
    if !s.pcs[p].Replaying? || s.lock.Some? then s
    else
      var Replaying(i, t, ok, again) := s.pcs[p];
      var f := if Owns(s, p, i, t) then I.Finalized(s.intents, i.key, TerminalFor(ok)) else None;
      Goto(s, p, if f.Some? || again then Leaving(i, t) else Claiming(i, t)).(intents := I.Put(s.intents, i.key, f))
  }

  /** The clock reading `when` was made before the ledger's lock was taken. */
  function DoClaim(s: System, p: nat, when: int, c: string): System
    requires Known(s, p)
  {
    if !s.pcs[p].Claiming? || c == "" then s
    else if s.pcs[p].i.key == "" then Goto(s, p, Leaving(s.pcs[p].i, s.pcs[p].t))
    else
      var Claiming(i, t) := s.pcs[p];
      var claimed := I.Claimed(s.intents, when, s.claimTtl, i.key, s.owners[p], c);
      Goto(s, p, if claimed.None? then Leaving(i, t) else Beginning(i, t, c)).(intents := I.Put(s.intents, i.key, claimed))
  }

  function DoBegin(s: System, p: nat): System
    requires Known(s, p)
  {
    if !s.pcs[p].Beginning? then s
    else
      var Beginning(i, t, c) := s.pcs[p];
      if !s.journalled then Goto(s, p, Resolving(i, t, c))
      else
        var s' := s.(journal := J.Begun(s.journal, i.key, i.executionId));
        if Broken(s', i.key) then Goto(s', p, Leaving(i, t))
        else if Verdict(s', i.key).Some? then Goto(s', p, Replaying(i, t, Verdict(s', i.key).value, true))
        else Goto(s', p, Resolving(i, t, c))
  }

  function DoResolve(s: System, p: nat, verdict: Option<bool>, value: Value): System
    requires Known(s, p)
  {
    if !s.pcs[p].Resolving? then s
    else
      var Resolving(i, t, c) := s.pcs[p];
      Goto(s, p, if verdict.Some? then Resolved(i, t, c, verdict.value, value) else Unresolved(i, t, c))
  }

  /** After an inconclusive resolver: begin again, then release the claim. */
  function DoBeginAgain(s: System, p: nat): System
    requires Known(s, p)
  {
    if !s.pcs[p].Unresolved? then s
    else
      var Unresolved(i, t, c) := s.pcs[p];
      if !s.journalled then Goto(s, p, Releasing(i, t, c))
      else
        var s' := s.(journal := J.Begun(s.journal, i.key, i.executionId));
        Goto(s', p, if Broken(s', i.key) then Leaving(i, t) else Releasing(i, t, c))
  }

  function DoReleaseClaim(s: System, p: nat): System
    requires Known(s, p)
  {
    if !s.pcs[p].Releasing? then s
    else
      var Releasing(i, t, c) := s.pcs[p];
      Goto(s, p, Leaving(i, t)).(
        intents := I.Put(s.intents, i.key, I.Released(s.intents, i.key, s.owners[p], c, I.Ambiguous)))
  }

  predicate TerminalRecord(d: J.Records, k: string) {
    k in d && d[k].status.Terminal?
  }

  /** Take the lease lock, check the lease, write the journal; the lock is kept for the mark. */
  function DoWriteJournal(s: System, p: nat): System
    requires Known(s, p)
  {
    if !s.pcs[p].Resolved? || s.lock.Some? then s
    else
      var Resolved(i, t, c, ok, value) := s.pcs[p];
      if !Owns(s, p, i, t) then
        Goto(s, p, Leaving(i, t)).(
          intents := I.Put(s.intents, i.key, I.Released(s.intents, i.key, s.owners[p], c, I.Ambiguous)))
      else if !s.journalled then Goto(s, p, Marking(i, t, c, ok)).(lock := Some(p))
      else
        var journal := J.Concluded(s.journal, i.key, ok, value);
        var after := if TerminalRecord(s.journal, i.key) then s
          else s.(journal := journal, writes := s.writes + [i.key], written := s.written[i.key := t]);
        if Broken(after, i.key) then Goto(after, p, Leaving(i, t))
        else Goto(after, p, Marking(i, t, c, ok)).(lock := Some(p))
  }

  function DoMark(s: System, p: nat): System
    requires Known(s, p)
  {
    if !s.pcs[p].Marking? then s
    else
      var Marking(i, t, c, ok) := s.pcs[p];
      Goto(s, p, Leaving(i, t)).(
        intents := I.Put(s.intents, i.key, I.MarkedClaimed(s.intents, s.now, i.key, s.owners[p], c, TerminalFor(ok))),
        lock := None)
  }

  function DoReleaseLease(s: System, p: nat): System
    requires Known(s, p)
  {
    if !s.pcs[p].Leaving? || s.lock.Some? then s
    else
      var Leaving(i, t) := s.pcs[p];
      Goto(s, p, Idle).(
        leases := Put(s.leases, LeaseKey(i), Released(s.leases, s.now, LeaseKey(i), s.owners[p], Some(t))))
  }

  /** What other users of the ledger may do: prepare, claim, renew, release; not finalise or reopen. */
  predicate Harmless(op: I.IntentOp) {
    match op
    case Prepare(i) => I.Open(i.state) && I.Fair(op)
    case Claim(_, _, _, _) => true
    case Renew(_, _, _, _) => true
    case Release(_, _, _, _) => true
    case _ => false
  }

  function StepOf(s: System, a: Action): System
    requires !a.Tick? && !a.LeaseAction? && !a.IntentAction? && Known(s, a.p)
  {
    match a
    case TakeLease(p, i) => DoAcquire(s, p, i)
    case ReadJournal(p) => DoReadJournal(s, p)
    case Replay(p) => DoReplay(s, p)
    case ClaimIntent(p, when, c) => DoClaim(s, p, when, c)
    case BeginRecord(p) => DoBegin(s, p)
    case Resolve(p, verdict, value) => DoResolve(s, p, verdict, value)
    case BeginAgain(p) => DoBeginAgain(s, p)
    case ReleaseClaim(p) => DoReleaseClaim(s, p)
    case WriteJournal(p) => DoWriteJournal(s, p)
    case MarkIntent(p) => DoMark(s, p)
    case ReleaseLease(p) => DoReleaseLease(s, p)
    case Crash(p) => Goto(s, p, Idle).(lock := if s.lock == Some(p) then None else s.lock)
  }

  /** One step; an action that is not enabled changes nothing.  The clock may move either way. */
  function Step(s: System, a: Action): System {
    match a
    case Tick(to) => s.(now := to)
    case LeaseAction(op) =>
      if s.lock.Some? || op.Tick? then s else s.(leases := ExecutionLease.Step(World(s.leases, s.now, s.leaseTtl), op).leases)
    case IntentAction(use) => if Harmless(use) then s.(intents := I.After(s.intents, s.claimTtl, use)) else s
    case _ => if Known(s, a.p) then StepOf(s, a) else s
  }

  function Run(s: System, actions: seq<Action>): System
    decreases |actions|
  {
    if actions == [] then s else Run(Step(s, actions[0]), actions[1..])
  }

  ghost predicate Initial(s: System) {
    && s.journalled && s.lock.None? && s.writes == [] && s.written == map[]
    && (forall p :: p in s.pcs ==> s.pcs[p].Idle?)
    && (forall k :: k in s.journal ==> !s.journal[k].status.Terminal?)
    && (forall k :: k in s.intents ==> s.intents[k].key == k && !I.Terminal(s.intents[k].state))
  }

  // ---------------------------------------------------------------- the invariant

  /** Terminal records are exactly the ones written; no key is written twice; every write was made under a
      lease token that had been granted. */
  ghost predicate JournalInv(s: System) {
    && s.journalled
    && (forall k :: TerminalRecord(s.journal, k) <==> k in s.written)
    && (forall n :: 0 <= n < |s.writes| ==> s.writes[n] in s.written)
    && (forall m, n :: 0 <= m < n < |s.writes| ==> s.writes[m] != s.writes[n])
    && (forall k :: k in s.written ==> k in s.intents && s.written[k] <= Token(s.leases, LeaseKey(s.intents[k])))
  }

  /** A terminal intent shows the verdict of its terminal record. */
  ghost predicate IntentInv(s: System) {
    && (forall k :: k in s.intents ==> s.intents[k].key == k)
    && (forall k :: k in s.intents && I.Terminal(s.intents[k].state) ==>
          TerminalRecord(s.journal, k) && s.intents[k].state == TerminalFor(s.journal[k].status.ok))
  }

  /** What a worker's place tells.  Past `begin` with no verdict found, a terminal record can only have been
      written under a later lease; in the middle of the locked section the record is the worker's own. */
  ghost predicate PcInv(s: System, p: nat, pc: Pc) {
    !pc.Idle? ==>
      && pc.i.key in s.intents && s.intents[pc.i.key].executionId == pc.i.executionId
      && pc.t <= Token(s.leases, LeaseKey(pc.i))
      && (pc.Replaying? ==> TerminalRecord(s.journal, pc.i.key) && s.journal[pc.i.key].status.ok == pc.ok)
      && (pc.Resolving? || pc.Resolved? || pc.Unresolved? || pc.Releasing? ==>
            (pc.i.key in s.written ==> pc.t < s.written[pc.i.key]))
      && (pc.Marking? && s.journalled ==>
            TerminalRecord(s.journal, pc.i.key) && s.journal[pc.i.key].status.ok == pc.ok)
      && (pc.Marking? ==> s.lock == Some(p))
  }

  /** Two workers under one lease key never hold the same token. */
  ghost predicate Apart(a: Pc, b: Pc) {
    a.Idle? || b.Idle? || LeaseKey(a.i) != LeaseKey(b.i) || a.t != b.t
  }

  ghost predicate WorkersInv(s: System) {
    && (forall p :: p in s.pcs ==> PcInv(s, p, s.pcs[p]))
    && (forall p, q :: p in s.pcs && q in s.pcs && p != q ==> Apart(s.pcs[p], s.pcs[q]))
  }

  ghost predicate Inv(s: System) {
    JournalInv(s) && IntentInv(s) && WorkersInv(s)
  }

  // ---------------------------------------------------------------- frames

  /** What every step keeps: terminal records, intents and the ids they carry, lease tokens, the history. */
  ghost predicate Keeps(s: System, s': System) {
    && s'.journalled == s.journalled && s'.written == s.written && s'.writes == s.writes
    && (forall k :: TerminalRecord(s.journal, k) ==> TerminalRecord(s'.journal, k) && s'.journal[k] == s.journal[k])
    && (forall k :: TerminalRecord(s'.journal, k) ==> TerminalRecord(s.journal, k))
    && (forall k :: k in s.intents ==>
          k in s'.intents && s'.intents[k].executionId == s.intents[k].executionId
          && LeaseKey(s'.intents[k]) == LeaseKey(s.intents[k]))
    && (forall e :: Token(s'.leases, e) >= Token(s.leases, e))
  }

  lemma KeepsPc(s: System, s': System, p: nat, pc: Pc)
    requires Keeps(s, s') && PcInv(s, p, pc) && (pc.Marking? ==> s'.lock == s.lock)
    ensures PcInv(s', p, pc)
  {
  }

  /** One worker moves on with the intent and token it has. */
  ghost predicate Moves(s: System, s': System, p: nat) {
    && p in s.pcs && p in s'.pcs && s'.pcs == s.pcs[p := s'.pcs[p]]
    && (!s'.pcs[p].Idle? ==> !s.pcs[p].Idle? && s'.pcs[p].i == s.pcs[p].i && s'.pcs[p].t == s.pcs[p].t)
  }

  lemma MoveKeepsWorkers(s: System, s': System, p: nat)
    requires WorkersInv(s) && Keeps(s, s') && Moves(s, s', p) && PcInv(s', p, s'.pcs[p])
    requires s'.lock == s.lock || s.lock.None? || s.lock == Some(p)
    ensures WorkersInv(s')
  {
    forall q | q in s'.pcs ensures PcInv(s', q, s'.pcs[q]) {
      if q != p {
        assert PcInv(s, q, s.pcs[q]);
        KeepsPc(s, s', q, s.pcs[q]);
      }
    }
    forall q, r | q in s'.pcs && r in s'.pcs && q != r ensures Apart(s'.pcs[q], s'.pcs[r]) {
      assert Apart(s.pcs[q], s.pcs[r]);
    }
  }

  lemma KeepsJournalInv(s: System, s': System)
    requires JournalInv(s) && Keeps(s, s')
    ensures JournalInv(s')
  {
  }

  /** Intents that become or stay terminal do so with the verdict of their record. */
  ghost predicate IntentsAgree(s: System, s': System) {
    && (forall k :: k in s'.intents ==> s'.intents[k].key == k)
    && (forall k :: k in s'.intents && I.Terminal(s'.intents[k].state) ==>
          (k in s.intents && s'.intents[k].state == s.intents[k].state)
          || (TerminalRecord(s'.journal, k) && s'.intents[k].state == TerminalFor(s'.journal[k].status.ok)))
  }

  lemma KeepsIntentInv(s: System, s': System)
    requires IntentInv(s) && Keeps(s, s') && IntentsAgree(s, s')
    ensures IntentInv(s')
  {
  }

  // ---------------------------------------------------------------- every step keeps the invariant

  lemma WorkerMoves(s: System, s': System, p: nat)
    requires Inv(s) && Keeps(s, s') && Moves(s, s', p) && PcInv(s', p, s'.pcs[p]) && IntentsAgree(s, s')
    requires s'.lock == s.lock || s.lock.None? || s.lock == Some(p)
    ensures Inv(s')
  {
    MoveKeepsWorkers(s, s', p);
    KeepsJournalInv(s, s');
    KeepsIntentInv(s, s');
  }

  lemma WorldMoves(s: System, s': System)
    requires Inv(s) && Keeps(s, s') && IntentsAgree(s, s') && s'.pcs == s.pcs && s'.lock == s.lock
    ensures Inv(s')
  {
    forall q | q in s'.pcs ensures PcInv(s', q, s'.pcs[q]) { KeepsPc(s, s', q, s.pcs[q]); }
    KeepsJournalInv(s, s');
    KeepsIntentInv(s, s');
  }

  /** Places that need nothing but the lease, or a verdict that is in the journal. */
  predicate SafePlace(s: System, pc: Pc) {
    pc.Claiming? || pc.Beginning? || pc.Leaving?
    || (pc.Replaying? && TerminalRecord(s.journal, pc.i.key) && s.journal[pc.i.key].status.ok == pc.ok)
  }

  /** The worker goes to such a place; meanwhile one intent may have been claimed or released. */
  lemma GoesToSafePlace(s: System, p: nat, pc: Pc, intents: I.Ledger)
    requires Inv(s) && p in s.pcs && !s.pcs[p].Idle? && SafePlace(s, pc)
    requires pc.i == s.pcs[p].i && pc.t == s.pcs[p].t && (s.pcs[p].Marking? ==> s.lock == Some(p))
    requires forall k :: k in s.intents ==> k in intents && intents[k].executionId == s.intents[k].executionId
    requires forall k :: k in intents ==> intents[k].key == k
    requires forall k :: k in intents && I.Terminal(intents[k].state) ==> k in s.intents && intents[k].state == s.intents[k].state
    ensures Inv(Goto(s, p, pc).(intents := intents))
  {
    assert PcInv(s, p, s.pcs[p]);
    WorkerMoves(s, Goto(s, p, pc).(intents := intents), p);
  }

  lemma ReadJournalKeepsInv(s: System, p: nat)
    requires Inv(s) && Known(s, p)
    ensures Inv(DoReadJournal(s, p))
  {
    if s.pcs[p].Leased? { GoesToSafePlace(s, p, DoReadJournal(s, p).pcs[p], s.intents); }
  }

  lemma ReplayKeepsInv(s: System, p: nat)
    requires Inv(s) && Known(s, p)
    ensures Inv(DoReplay(s, p))
  {
    if s.pcs[p].Replaying? && s.lock.None? {
      assert PcInv(s, p, s.pcs[p]);
      WorkerMoves(s, DoReplay(s, p), p);
    }
  }

  lemma ClaimKeepsInv(s: System, p: nat, when: int, c: string)
    requires Inv(s) && Known(s, p)
    ensures Inv(DoClaim(s, p, when, c))
  {
    if s.pcs[p].Claiming? && c != "" {
      var Claiming(i, t) := s.pcs[p];
      var claimed := I.Claimed(s.intents, when, s.claimTtl, i.key, s.owners[p], c);
      if i.key == "" || claimed.None? {
        GoesToSafePlace(s, p, Leaving(i, t), s.intents);
      } else {
        GoesToSafePlace(s, p, Beginning(i, t, c), s.intents[i.key := claimed.value]);
      }
    }
  }

  /** `begin` never touches a terminal record. */
  lemma BeginsJournal(s: System, i: I.Intent)
    requires Inv(s)
    ensures Inv(s.(journal := J.Begun(s.journal, i.key, i.executionId)))
  {
    WorldMoves(s, s.(journal := J.Begun(s.journal, i.key, i.executionId)));
  }

  /** With no verdict in the journal the key was never written. */
  lemma GoesToTheResolver(s: System, p: nat, pc: Pc)
    requires Inv(s) && p in s.pcs && s.pcs[p].Beginning? && pc == Resolving(s.pcs[p].i, s.pcs[p].t, s.pcs[p].c)
    requires Verdict(s, pc.i.key).None?
    ensures Inv(Goto(s, p, pc))
  {
    assert PcInv(s, p, s.pcs[p]);
    assert !TerminalRecord(s.journal, pc.i.key);
    WorkerMoves(s, Goto(s, p, pc), p);
  }

  lemma BeginKeepsInv(s: System, p: nat)
    requires Inv(s) && Known(s, p)
    ensures Inv(DoBegin(s, p))
  {
    if s.pcs[p].Beginning? {
      var Beginning(i, t, c) := s.pcs[p];
      var s' := s.(journal := J.Begun(s.journal, i.key, i.executionId));
      BeginsJournal(s, i);
      if Broken(s', i.key) {
        GoesToSafePlace(s', p, Leaving(i, t), s.intents);
      } else if Verdict(s', i.key).Some? {
        GoesToSafePlace(s', p, Replaying(i, t, Verdict(s', i.key).value, true), s.intents);
      } else {
        GoesToTheResolver(s', p, Resolving(i, t, c));
      }
    }
  }

  lemma ResolveKeepsInv(s: System, p: nat, verdict: Option<bool>, value: Value)
    requires Inv(s) && Known(s, p)
    ensures Inv(DoResolve(s, p, verdict, value))
  {
    if s.pcs[p].Resolving? {
      assert PcInv(s, p, s.pcs[p]);
      WorkerMoves(s, DoResolve(s, p, verdict, value), p);
    }
  }

  lemma BeginAgainKeepsInv(s: System, p: nat)
    requires Inv(s) && Known(s, p)
    ensures Inv(DoBeginAgain(s, p))
  {
    if s.pcs[p].Unresolved? {
      assert PcInv(s, p, s.pcs[p]);
      WorkerMoves(s, DoBeginAgain(s, p), p);
    }
  }

  lemma ReleaseClaimKeepsInv(s: System, p: nat)
    requires Inv(s) && Known(s, p)
    ensures Inv(DoReleaseClaim(s, p))
  {
    if s.pcs[p].Releasing? {
      assert PcInv(s, p, s.pcs[p]);
      WorkerMoves(s, DoReleaseClaim(s, p), p);
    }
  }

  lemma MarkKeepsInv(s: System, p: nat)
    requires Inv(s) && Known(s, p)
    ensures Inv(DoMark(s, p))
  {
    if s.pcs[p].Marking? {
      assert PcInv(s, p, s.pcs[p]);
      WorkerMoves(s, DoMark(s, p), p);
    }
  }

  lemma GoneIdle(s: System, p: nat, leases: Leases)
    requires Inv(s) && p in s.pcs && forall e :: Token(leases, e) >= Token(s.leases, e)
    ensures Inv(Goto(s, p, Idle).(leases := leases))
  {
    WorkerMoves(s, Goto(s, p, Idle).(leases := leases), p);
  }

  lemma ReleaseLeaseKeepsInv(s: System, p: nat)
    requires Inv(s) && Known(s, p)
    ensures Inv(DoReleaseLease(s, p))
  {
    if s.pcs[p].Leaving? && s.lock.None? {
      var Leaving(i, t) := s.pcs[p];
      var leases := Put(s.leases, LeaseKey(i), Released(s.leases, s.now, LeaseKey(i), s.owners[p], Some(t)));
      GoneIdle(s, p, leases);
    }
  }

  function Granted(s: System, p: nat, i: I.Intent, l: Lease): System {
    Goto(s, p, Leased(i, l.token)).(leases := s.leases[LeaseKey(i) := l])
  }

  ghost predicate Grantable(s: System, p: nat, i: I.Intent, l: Lease) {
    && Inv(s) && p in s.pcs && s.pcs[p].Idle? && l.token == Token(s.leases, LeaseKey(i)) + 1
    && i.key in s.intents && s.intents[i.key].executionId == i.executionId
  }

  lemma GrantKeepsPcs(s: System, p: nat, i: I.Intent, l: Lease)
    requires Grantable(s, p, i, l)
    ensures var s' := Granted(s, p, i, l); forall q :: q in s'.pcs ==> PcInv(s', q, s'.pcs[q])
  {
    var s' := Granted(s, p, i, l);
    assert Keeps(s, s');
    forall q | q in s'.pcs ensures PcInv(s', q, s'.pcs[q]) {
      if q != p {
        assert PcInv(s, q, s.pcs[q]);
        KeepsPc(s, s', q, s.pcs[q]);
      }
    }
  }

  lemma GrantKeepsApart(s: System, p: nat, i: I.Intent, l: Lease)
    requires Grantable(s, p, i, l)
    ensures var s' := Granted(s, p, i, l); forall q, r :: q in s'.pcs && r in s'.pcs && q != r ==> Apart(s'.pcs[q], s'.pcs[r])
  {
    var s' := Granted(s, p, i, l);
    forall q, r | q in s'.pcs && r in s'.pcs && q != r ensures Apart(s'.pcs[q], s'.pcs[r]) {
      assert Apart(s.pcs[q], s.pcs[r]);
      assert PcInv(s, q, s.pcs[q]) && PcInv(s, r, s.pcs[r]);
    }
  }

  lemma GrantKeepsInv(s: System, p: nat, i: I.Intent, l: Lease)
    requires Grantable(s, p, i, l)
    ensures Inv(Granted(s, p, i, l))
  {
    var s' := Granted(s, p, i, l);
    GrantKeepsPcs(s, p, i, l);
    GrantKeepsApart(s, p, i, l);
    KeepsJournalInv(s, s');
    KeepsIntentInv(s, s');
  }

  /** A grant's token is above everything granted before. */
  lemma AcquireKeepsInv(s: System, p: nat, i: I.Intent)
    requires Inv(s) && Known(s, p)
    ensures Inv(DoAcquire(s, p, i))
  {
    if DoAcquire(s, p, i) != s {
      GrantKeepsInv(s, p, i, Acquired(s.leases, s.now, s.leaseTtl, LeaseKey(i), s.owners[p]).value);
    }
  }

  /** The commit point.  A worker that still owns its lease holds the greatest token, so nobody has written the
      record before it: the write is a real one. */
  lemma CommitIsFirst(s: System, p: nat)
    requires Inv(s) && Known(s, p) && s.pcs[p].Resolved? && s.lock.None?
    requires Owns(s, p, s.pcs[p].i, s.pcs[p].t)
    ensures var Resolved(i, t, c, ok, value) := s.pcs[p];
      && i.key !in s.written && i.key in s.intents && LeaseKey(s.intents[i.key]) == LeaseKey(i)
      && t == Token(s.leases, LeaseKey(i)) && !TerminalRecord(s.journal, i.key)
      && DoWriteJournal(s, p) == CommitTo(s, p, J.Concluded(s.journal, i.key, ok, value))
  {
    assert PcInv(s, p, s.pcs[p]);
    var Resolved(i, t, c, ok, value) := s.pcs[p];
    assert !TerminalRecord(s.journal, i.key);
  }

  function CommitTo(s: System, p: nat, journal: J.Records): System
    requires p in s.pcs && s.pcs[p].Resolved?
  {
    var Resolved(i, t, c, ok, _) := s.pcs[p];
    Goto(s, p, Marking(i, t, c, ok)).(
      journal := journal, writes := s.writes + [i.key], written := s.written[i.key := t], lock := Some(p))
  }

  ghost predicate Committable(s: System, p: nat, journal: J.Records) {
    && Inv(s) && p in s.pcs && s.pcs[p].Resolved? && s.lock.None?
    && s.pcs[p].i.key !in s.written && s.pcs[p].i.key in s.intents
    && LeaseKey(s.intents[s.pcs[p].i.key]) == LeaseKey(s.pcs[p].i)
    && s.pcs[p].t == Token(s.leases, LeaseKey(s.pcs[p].i))
    && s.pcs[p].i.key in journal && journal[s.pcs[p].i.key].status == J.Terminal(s.pcs[p].ok)
    && (forall k :: k != s.pcs[p].i.key ==>
          (k in journal <==> k in s.journal) && (k in journal ==> journal[k] == s.journal[k]))
  }

  lemma CommitKeepsJournal(s: System, p: nat, journal: J.Records)
    requires Committable(s, p, journal)
    ensures JournalInv(CommitTo(s, p, journal))
  {
    var s' := CommitTo(s, p, journal);
    forall m, n | 0 <= m < n < |s'.writes| ensures s'.writes[m] != s'.writes[n] {
      assert s.writes[m] in s.written;
    }
  }

  lemma CommitKeepsIntents(s: System, p: nat, journal: J.Records)
    requires Committable(s, p, journal)
    ensures IntentInv(CommitTo(s, p, journal))
  {
    assert !TerminalRecord(s.journal, s.pcs[p].i.key);
  }

  /** Everybody else past `begin` on this key holds another token, so a smaller one. */
  lemma CommitKeepsWorkers(s: System, p: nat, journal: J.Records)
    requires Committable(s, p, journal)
    ensures WorkersInv(CommitTo(s, p, journal))
  {
    var s' := CommitTo(s, p, journal);
    forall q | q in s'.pcs ensures PcInv(s', q, s'.pcs[q]) {
      assert PcInv(s, q, s.pcs[q]);
      if q != p { assert Apart(s.pcs[p], s.pcs[q]); }
    }
    forall q, r | q in s'.pcs && r in s'.pcs && q != r ensures Apart(s'.pcs[q], s'.pcs[r]) {
      assert Apart(s.pcs[q], s.pcs[r]);
    }
  }

  lemma CommitKeepsInv(s: System, p: nat)
    requires Inv(s) && Known(s, p) && s.pcs[p].Resolved? && s.lock.None?
    requires Owns(s, p, s.pcs[p].i, s.pcs[p].t)
    ensures Inv(DoWriteJournal(s, p))
  {
    CommitIsFirst(s, p);
    var journal := J.Concluded(s.journal, s.pcs[p].i.key, s.pcs[p].ok, s.pcs[p].value);
    CommitKeepsJournal(s, p, journal);
    CommitKeepsIntents(s, p, journal);
    CommitKeepsWorkers(s, p, journal);
  }

  lemma WriteJournalKeepsInv(s: System, p: nat)
    requires Inv(s) && Known(s, p)
    ensures Inv(DoWriteJournal(s, p))
  {
    if s.pcs[p].Resolved? && s.lock.None? {
      if Owns(s, p, s.pcs[p].i, s.pcs[p].t) {
        CommitKeepsInv(s, p);
      } else {
        assert PcInv(s, p, s.pcs[p]);
        WorkerMoves(s, DoWriteJournal(s, p), p);
      }
    }
  }

  lemma CrashKeepsInv(s: System, p: nat)
    requires Inv(s) && Known(s, p)
    ensures Inv(StepOf(s, Crash(p)))
  {
    WorkerMoves(s, StepOf(s, Crash(p)), p);
  }

  lemma LeasesMove(s: System, leases: Leases)
    requires Inv(s) && forall e :: Token(leases, e) >= Token(s.leases, e)
    ensures Inv(s.(leases := leases))
  {
    WorldMoves(s, s.(leases := leases));
  }

  lemma LeaseActionKeepsInv(s: System, op: LeaseOp)
    requires Inv(s)
    ensures Inv(Step(s, LeaseAction(op)))
  {
    var leases := ExecutionLease.Step(World(s.leases, s.now, s.leaseTtl), op).leases;
    forall e ensures Token(leases, e) >= Token(s.leases, e) {
      TokensNeverDecrease(World(s.leases, s.now, s.leaseTtl), [op], e);
      assert [op][1..] == [];
    }
    LeasesMove(s, leases);
  }

  lemma HarmlessUse(d: I.Ledger, ttl: nat, use: I.IntentOp, k: string)
    requires Harmless(use) && (forall j :: j in d ==> d[j].key == j) && k in I.After(d, ttl, use)
    ensures var i := I.After(d, ttl, use)[k];
      && i.key == k && (k in d ==> i.executionId == d[k].executionId)
      && (I.Terminal(i.state) ==> k in d && i.state == d[k].state)
  {
  }

  lemma LedgerMoves(s: System, intents: I.Ledger)
    requires Inv(s)
    requires forall k :: k in s.intents ==> k in intents && intents[k].executionId == s.intents[k].executionId
    requires forall k :: k in intents ==> intents[k].key == k
    requires forall k :: k in intents && I.Terminal(intents[k].state) ==> k in s.intents && intents[k].state == s.intents[k].state
    ensures Inv(s.(intents := intents))
  {
    WorldMoves(s, s.(intents := intents));
  }

  lemma IntentActionKeepsInv(s: System, use: I.IntentOp)
    requires Inv(s)
    ensures Inv(Step(s, IntentAction(use)))
  {
    if Harmless(use) {
      var intents := I.After(s.intents, s.claimTtl, use);
      forall k | k in intents
        ensures intents[k].key == k && (k in s.intents ==> intents[k].executionId == s.intents[k].executionId)
        ensures I.Terminal(intents[k].state) ==> k in s.intents && intents[k].state == s.intents[k].state
      {
        HarmlessUse(s.intents, s.claimTtl, use, k);
      }
      assert forall k :: k in s.intents ==> k in intents;
      LedgerMoves(s, intents);
    }
  }

  predicate Early(a: Action) {
    a.TakeLease? || a.ReadJournal? || a.Replay? || a.ClaimIntent? || a.BeginRecord?
  }

  predicate OfTheWorld(a: Action) {
    a.Tick? || a.LeaseAction? || a.IntentAction?
  }

  lemma EarlyStepKeepsInv(s: System, a: Action)
    requires Inv(s) && Early(a) && Known(s, a.p)
    ensures Inv(StepOf(s, a))
  {
    match a
    case TakeLease(p, i) => AcquireKeepsInv(s, p, i);
    case ReadJournal(p) => ReadJournalKeepsInv(s, p);
    case Replay(p) => ReplayKeepsInv(s, p);
    case ClaimIntent(p, when, c) => ClaimKeepsInv(s, p, when, c);
    case BeginRecord(p) => BeginKeepsInv(s, p);
  }

  lemma LateStepKeepsInv(s: System, a: Action)
    requires Inv(s) && !Early(a) && !OfTheWorld(a) && Known(s, a.p)
    ensures Inv(StepOf(s, a))
  {
    match a
    case Resolve(p, verdict, value) => ResolveKeepsInv(s, p, verdict, value);
    case BeginAgain(p) => BeginAgainKeepsInv(s, p);
    case ReleaseClaim(p) => ReleaseClaimKeepsInv(s, p);
    case WriteJournal(p) => WriteJournalKeepsInv(s, p);
    case MarkIntent(p) => MarkKeepsInv(s, p);
    case ReleaseLease(p) => ReleaseLeaseKeepsInv(s, p);
    case Crash(p) => CrashKeepsInv(s, p);
  }

  lemma WorldStepKeepsInv(s: System, a: Action)
    requires Inv(s) && OfTheWorld(a)
    ensures Inv(Step(s, a))
  {
    match a
    case Tick(_) => WorldMoves(s, Step(s, a));
    case LeaseAction(op) => LeaseActionKeepsInv(s, op);
    case IntentAction(use) => IntentActionKeepsInv(s, use);
  }

  lemma StepKeepsInv(s: System, a: Action)
    requires Inv(s)
    ensures Inv(Step(s, a))
  {
    if OfTheWorld(a) {
      WorldStepKeepsInv(s, a);
    } else if Known(s, a.p) {
      if Early(a) { EarlyStepKeepsInv(s, a); } else { LateStepKeepsInv(s, a); }
    }
  }

  lemma {:induction false} InvHolds(s: System, actions: seq<Action>)
    requires Inv(s)
    ensures Inv(Run(s, actions))
    decreases |actions|
  {
    if actions != [] {
      StepKeepsInv(s, actions[0]);
      InvHolds(Step(s, actions[0]), actions[1..]);
    }
  }

  // ---------------------------------------------------------------- the theorems

  lemma InitialInv(s: System)
    requires Initial(s)
    ensures Inv(s)
  {
  }

  /** In every run of any recovery workers with stalls, expiries and crashes, between any two writes: no key
      gets a second terminal journal write, and every terminal intent shows the journal's verdict. */
  lemma JournalIsTheCommitPoint(s: System, actions: seq<Action>)
    requires Initial(s)
    ensures var v := Run(s, actions);
      && (forall m, n :: 0 <= m < n < |v.writes| ==> v.writes[m] != v.writes[n])
      && (forall k :: TerminalRecord(v.journal, k) <==> k in v.written)
      && (forall k :: k in v.intents && I.Terminal(v.intents[k].state) ==>
            TerminalRecord(v.journal, k) && v.intents[k].state == TerminalFor(v.journal[k].status.ok))
  {
    InitialInv(s);
    InvHolds(s, actions);
  }

  /** The key's terminal record is there, and as it was. */
  predicate VerdictStays(s: System, s': System, k: string) {
    && k in s.journal && k in s'.journal && s'.journal[k] == s.journal[k] && s'.journal[k].status.Terminal?
    && k in s.written && k in s'.written && s'.written[k] == s.written[k]
  }

  lemma WriteKeepsVerdict(s: System, p: nat, k: string)
    requires Inv(s) && Known(s, p) && TerminalRecord(s.journal, k)
    ensures VerdictStays(s, DoWriteJournal(s, p), k)
  {
    if s.pcs[p].Resolved? && s.lock.None? && Owns(s, p, s.pcs[p].i, s.pcs[p].t) { CommitIsFirst(s, p); }
  }

  lemma BeginKeepsVerdict(s: System, p: nat, k: string)
    requires Known(s, p) && TerminalRecord(s.journal, k) && k in s.written
    ensures VerdictStays(s, DoBegin(s, p), k) && VerdictStays(s, DoBeginAgain(s, p), k)
  {
  }

  predicate MayWriteJournal(a: Action) {
    a.WriteJournal? || a.BeginRecord? || a.BeginAgain?
  }

  /** Journal and history as they were. */
  predicate JournalStays(s: System, s': System) {
    s'.journal == s.journal && s'.written == s.written
  }

  lemma AcquireLeavesTheJournal(s: System, p: nat, i: I.Intent)
    requires Known(s, p)
    ensures JournalStays(s, DoAcquire(s, p, i))
  {
  }

  lemma ReplayLeavesTheJournal(s: System, p: nat)
    requires Known(s, p)
    ensures JournalStays(s, DoReplay(s, p)) && JournalStays(s, DoReadJournal(s, p))
  {
  }

  lemma ClaimLeavesTheJournal(s: System, p: nat, when: int, c: string)
    requires Known(s, p)
    ensures JournalStays(s, DoClaim(s, p, when, c))
  {
  }

  lemma LateStepsLeaveTheJournal(s: System, p: nat, verdict: Option<bool>, value: Value)
    requires Known(s, p)
    ensures JournalStays(s, DoResolve(s, p, verdict, value)) && JournalStays(s, DoReleaseClaim(s, p))
    ensures JournalStays(s, DoMark(s, p)) && JournalStays(s, DoReleaseLease(s, p))
  {
  }

  lemma OthersLeaveTheJournal(s: System, a: Action)
    requires !MayWriteJournal(a) && !OfTheWorld(a) && Known(s, a.p)
    ensures JournalStays(s, StepOf(s, a))
  {
    match a
    case TakeLease(p, i) => AcquireLeavesTheJournal(s, p, i);
    case ReadJournal(p) => ReplayLeavesTheJournal(s, p);
    case Replay(p) => ReplayLeavesTheJournal(s, p);
    case ClaimIntent(p, when, c) => ClaimLeavesTheJournal(s, p, when, c);
    case Resolve(p, verdict, value) => LateStepsLeaveTheJournal(s, p, verdict, value);
    case ReleaseClaim(p) => LateStepsLeaveTheJournal(s, p, None, Null);
    case MarkIntent(p) => LateStepsLeaveTheJournal(s, p, None, Null);
    case ReleaseLease(p) => LateStepsLeaveTheJournal(s, p, None, Null);
    case Crash(p) =>
  }

  lemma WorkerKeepsVerdict(s: System, a: Action, k: string)
    requires Inv(s) && TerminalRecord(s.journal, k) && !OfTheWorld(a) && Known(s, a.p)
    ensures VerdictStays(s, StepOf(s, a), k)
  {
    if !MayWriteJournal(a) {
      OthersLeaveTheJournal(s, a);
    } else if a.WriteJournal? {
      WriteKeepsVerdict(s, a.p, k);
    } else {
      BeginKeepsVerdict(s, a.p, k);
    }
  }

  lemma WorldLeavesTheJournal(s: System, a: Action)
    requires OfTheWorld(a) || !Known(s, a.p)
    ensures JournalStays(s, Step(s, a))
  {
  }

  lemma VerdictStep(s: System, a: Action, k: string)
    requires Inv(s) && TerminalRecord(s.journal, k)
    ensures VerdictStays(s, Step(s, a), k)
  {
    if !OfTheWorld(a) && Known(s, a.p) {
      WorkerKeepsVerdict(s, a, k);
    } else {
      WorldLeavesTheJournal(s, a);
    }
  }

  lemma {:induction false} VerdictIsFinal(s: System, actions: seq<Action>, k: string)
    requires Inv(s) && TerminalRecord(s.journal, k)
    ensures TerminalRecord(Run(s, actions).journal, k) && Run(s, actions).journal[k] == s.journal[k]
    ensures k in Run(s, actions).written && Run(s, actions).written[k] == s.written[k]
    decreases |actions|
  {
    if actions != [] {
      VerdictStep(s, actions[0], k);
      StepKeepsInv(s, actions[0]);
      VerdictIsFinal(Step(s, actions[0]), actions[1..], k);
    }
  }

  /** Once a key's terminal record is written, no worker granted the lease from then on ever calls the resolver
      for it under that grant, and the verdict never changes. */
  lemma LateWorkersNeverResolve(s: System, before: seq<Action>, p: nat, i: I.Intent, after: seq<Action>)
    requires Initial(s) && TerminalRecord(Run(s, before).journal, i.key)
    requires Known(Run(s, before), p) && Step(Run(s, before), TakeLease(p, i)) != Run(s, before)
    ensures var v := Run(s, before);
      var granted := Step(v, TakeLease(p, i));
      var w := Run(granted, after);
      && granted.pcs[p] == Leased(i, Token(granted.leases, LeaseKey(i)))
      && (p in w.pcs && w.pcs[p].Resolving? && w.pcs[p].i.key == i.key ==> w.pcs[p].t != granted.pcs[p].t)
      && TerminalRecord(w.journal, i.key) && w.journal[i.key] == v.journal[i.key]
  {
    InitialInv(s);
    InvHolds(s, before);
    var v := Run(s, before);
    var granted := Step(v, TakeLease(p, i));
    StepKeepsInv(v, TakeLease(p, i));
    VerdictStep(v, TakeLease(p, i), i.key);
    assert LeaseKey(v.intents[i.key]) == LeaseKey(i);
    assert granted.written[i.key] < granted.pcs[p].t;
    InvHolds(granted, after);
    VerdictIsFinal(granted, after, i.key);
    var w := Run(granted, after);
    if p in w.pcs && w.pcs[p].Resolving? { assert PcInv(w, p, w.pcs[p]); }
  }
}
