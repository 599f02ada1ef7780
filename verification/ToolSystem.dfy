/** Any number of executors and boundary callers over one intent ledger and one result store, interleaved at
    every store operation, with expiring claims and crashes (runtime/tool_executor.py:45-99). */
module ToolSystem {
  import opened Base
  import opened ToolBoundary
  import I = ToolIntents

  datatype Call = Call(key: string, callId: string, tool: string, arguments: Value, executionId: Option<string>)

  /** How a tool run ends: a definite result, one that gives the claim back (timeout, retryable failure,
      cancellation), or a refusal that leaves the claim to expire. */
  datatype ToolOutcome =
    | Definite(ok: bool, value: Value, error: Option<string>)
    | GivesBack
    | Refused

  datatype Pc =
    | Idle
    | Looked(call: Call)
    | Ready(call: Call)
    | Claimed(call: Call, owner: string, token: string, expires: int)
    | Running(call: Call, owner: string, token: string)
    | Releasing(call: Call, owner: string, token: string)
    | Finishing(b: BoundaryCall)
    | Durable(b: BoundaryCall, kept: StoredResult)

  /** What a boundary call answered. */
  datatype Answer = Answer(key: string, reply: BoundaryCommit)

  /** `used` holds every owner name handed out; the multisets count, per key, successful claims, takeovers of
      expired claims, successful releases and tool runs. */
  datatype System = System(
    disk: ToolDisk, now: int, ttl: nat, pcs: map<nat, Pc>, used: set<string>, answers: seq<Answer>,
    claims: multiset<string>, takeovers: multiset<string>, releases: multiset<string>,
    runs: multiset<string>)

  datatype Action =
    | Lookup(p: nat, call: Call)
    | PrepareIntent(p: nat)
    | ClaimIntent(p: nat, when: int, owner: string, token: string)
    | Start(p: nat)
    | ToolReturns(p: nat, outcome: ToolOutcome)
    | ReleaseIntent(p: nat)
    | CallBoundary(p: nat, b: BoundaryCall)
    | PutResult(p: nat)
    | MarkIntent(p: nat)
    | Leave(p: nat)
    | Tick(to: int)

  function Goto(s: System, p: nat, pc: Pc): System {
    s.(pcs := s.pcs[p := pc])
  }

  function NewIntent(c: Call): I.Intent {
    I.Intent(c.key, c.callId, c.tool, c.arguments, c.executionId, I.Prepared, None, None, None)
  }

  function CallOf(c: Call, owner: string, token: string, ok: bool, value: Value, error: Option<string>): BoundaryCall {
    BoundaryCall(c.key, c.callId, c.tool, Some(c.arguments), owner, token, ok, value, error)
  }

  function DoLookup(s: System, p: nat, call: Call): System
    requires p in s.pcs
  {
    if !s.pcs[p].Idle? || call.key == "" || call.key in s.disk.results then s else Goto(s, p, Looked(call))
  }

  function DoPrepare(s: System, p: nat): System
    requires p in s.pcs
  {
    if !s.pcs[p].Looked? then s
    else
      var call := s.pcs[p].call;
      var d := s.disk.intents;
      Goto(s, p, Ready(call)).(
        disk := s.disk.(intents := if call.key in d then d else d[call.key := NewIntent(call)]))
  }

  /** The clock reading `when` was made before the lock was taken; the owner name is a new one. */
  function DoClaim(s: System, p: nat, when: int, owner: string, token: string): System
    requires p in s.pcs
  {
    if !s.pcs[p].Ready? || owner in s.used || owner == "" || token == "" then s
    else
      var call, d := s.pcs[p].call, s.disk.intents;
      var c := I.Claimed(d, when, s.ttl, call.key, owner, token);
      if c.None? then Goto(s, p, Idle)
      else
        Goto(s, p, Claimed(call, owner, token, when + s.ttl)).(
          disk := s.disk.(intents := d[call.key := c.value]),
          used := s.used + {owner},
          claims := s.claims + multiset{call.key},
          takeovers := if d[call.key].owner.Some? then s.takeovers + multiset{call.key} else s.takeovers)
  }

  function DoStart(s: System, p: nat): System
    requires p in s.pcs
  {
    if !s.pcs[p].Claimed? then s
    else Goto(s, p, Running(s.pcs[p].call, s.pcs[p].owner, s.pcs[p].token)).(runs := s.runs + multiset{s.pcs[p].call.key})
  }

  function DoReturn(s: System, p: nat, outcome: ToolOutcome): System
    requires p in s.pcs
  {
    if !s.pcs[p].Running? then s
    else
      var Running(call, owner, token) := s.pcs[p];
      match outcome
      case Definite(ok, value, error) => Goto(s, p, Finishing(CallOf(call, owner, token, ok, value, error)))
      case GivesBack => Goto(s, p, Releasing(call, owner, token))
      case Refused => Goto(s, p, Idle)
  }

  function DoRelease(s: System, p: nat): System
    requires p in s.pcs
  {
    if !s.pcs[p].Releasing? then s
    else
      var Releasing(call, owner, token) := s.pcs[p];
      var r := I.Released(s.disk.intents, call.key, owner, token, I.Ambiguous);
      if r.None? then Goto(s, p, Idle)
      else
        Goto(s, p, Idle).(
          disk := s.disk.(intents := s.disk.intents[call.key := r.value]),
          releases := s.releases + multiset{call.key})
  }

  /** A direct caller of the boundary; owner and token are whatever it likes, also those of a claim that
      somebody else holds or has used. */
  function DoCallBoundary(s: System, p: nat, b: BoundaryCall): System
    requires p in s.pcs
  {
    if !s.pcs[p].Idle? then s
    else Goto(s, p, Finishing(b)).(used := s.used + {b.owner})
  }

  function DoPut(s: System, p: nat): System
    requires p in s.pcs
  {
    if !s.pcs[p].Finishing? then s
    else
      var b := s.pcs[p].b;
      var kept := Kept(s.disk.results, Offered(b));
      if kept.Failure? then Goto(s, p, Idle)
      else Goto(s, p, Durable(b, kept.value)).(disk := s.disk.(results := PutIfAbsent(s.disk.results, Offered(b))))
  }

  function DoMark(s: System, p: nat): System
    requires p in s.pcs
  {
    if !s.pcs[p].Durable? then s
    else
      var Durable(b, r) := s.pcs[p];
      var m := I.MarkedClaimed(s.disk.intents, s.now, b.key, b.owner, b.token, TerminalFor(r.ok));
      var told := Goto(s, p, Idle).(
        answers := s.answers + [Answer(b.key, BoundaryCommit(r.ok, r.value, r.error, m.Some?))]);
      if m.None? then told
      else
        told.(disk := s.disk.(intents := s.disk.intents[b.key := m.value]))
  }

  /** One step; an action that is not enabled changes nothing.  `Leave` is a crash or an early return.  The
      clock may move either way. */
  function Step(s: System, a: Action): System {
    if a.Tick? then s.(now := a.to)
    else if a.p !in s.pcs then s
    else
      match a
      case Lookup(p, call) => DoLookup(s, p, call)
      case PrepareIntent(p) => DoPrepare(s, p)
      case ClaimIntent(p, when, owner, token) => DoClaim(s, p, when, owner, token)
      case Start(p) => DoStart(s, p)
      case ToolReturns(p, outcome) => DoReturn(s, p, outcome)
      case ReleaseIntent(p) => DoRelease(s, p)
      case CallBoundary(p, b) => DoCallBoundary(s, p, b)
      case PutResult(p) => DoPut(s, p)
      case MarkIntent(p) => DoMark(s, p)
      case Leave(p) => Goto(s, p, Idle)
  }

  function Run(s: System, actions: seq<Action>): System
    decreases |actions|
  {
    if actions == [] then s else Run(Step(s, actions[0]), actions[1..])
  }

  /** Nothing counted yet, nobody underway, and whatever is on disk already agrees. */
  ghost predicate Initial(s: System) {
    && I.Sound(s.disk.intents) && Agreed(s.disk) && s.answers == []
    && s.claims == s.takeovers == s.releases == s.runs == multiset{}
    && (forall p :: p in s.pcs ==> s.pcs[p].Idle?)
    && (forall k :: k in s.disk.intents && s.disk.intents[k].owner.Some? ==> s.disk.intents[k].owner.value in s.used)
  }

  /** A terminal intent has its result stored, with the outcome the intent shows. */
  ghost predicate Agreed(d: ToolDisk) {
    forall k :: k in d.intents && I.Terminal(d.intents[k].state) ==>
      k in d.results && d.intents[k].state == TerminalFor(d.results[k].ok)
  }

  // ---------------------------------------------------------------- outcome agreement

  ghost predicate OutcomeInv(s: System) {
    && I.Sound(s.disk.intents) && Agreed(s.disk)
    && (forall p :: p in s.pcs && s.pcs[p].Durable? ==>
          s.pcs[p].b.key in s.disk.results && s.disk.results[s.pcs[p].b.key] == s.pcs[p].kept)
    && (forall i :: 0 <= i < |s.answers| ==> Answers(s.disk.results, s.answers[i]))
    && (forall i :: 0 <= i < |s.answers| && s.answers[i].reply.committed ==>
          s.answers[i].key in s.disk.intents && I.Terminal(s.disk.intents[s.answers[i].key].state))
    && OneCommit(s.answers)
  }

  ghost predicate OneCommit(answers: seq<Answer>) {
    forall i, j :: 0 <= i < j < |answers| && answers[i].key == answers[j].key ==>
      !(answers[i].reply.committed && answers[j].reply.committed)
  }

  predicate Answers(d: Results, a: Answer) {
    a.key in d && a.reply.ok == d[a.key].ok && a.reply.value == d[a.key].value && a.reply.error == d[a.key].error
  }

  /** A step that leaves disk, answers and counts alone, and makes nobody hold a durable result. */
  ghost predicate Quiet(s: System, s': System) {
    && s'.disk == s.disk && s'.answers == s.answers
    && forall p :: p in s'.pcs && s'.pcs[p].Durable? ==> p in s.pcs && s.pcs[p] == s'.pcs[p]
  }

  lemma QuietKeepsOutcome(s: System, s': System)
    requires OutcomeInv(s) && Quiet(s, s')
    ensures OutcomeInv(s')
  {
  }

  /** A step that replaces one intent by a coherent one that is not terminal. */
  lemma OpenWriteKeepsOutcome(s: System, s': System, k: string, i: I.Intent)
    requires OutcomeInv(s) && Quiet(s.(disk := s'.disk), s')
    requires s'.disk == s.disk.(intents := s.disk.intents[k := i])
    requires i.key == k && I.Coherent(i) && I.Open(i.state)
    requires k in s.disk.intents ==> !I.Terminal(s.disk.intents[k].state)
    ensures OutcomeInv(s')
  {
  }

  lemma PutKeepsOutcome(s: System, p: nat)
    requires OutcomeInv(s) && p in s.pcs
    ensures OutcomeInv(DoPut(s, p))
  {
    var s' := DoPut(s, p);
    if s'.disk == s.disk && s'.pcs[p].Idle? { QuietKeepsOutcome(s, s'); }
  }

  lemma AnswerKeepsOutcome(s: System, p: nat, answer: Answer)
    requires OutcomeInv(s) && Answers(s.disk.results, answer)
    requires answer.reply.committed ==> answer.key in s.disk.intents && I.Terminal(s.disk.intents[answer.key].state)
    requires answer.reply.committed ==>
      forall i :: 0 <= i < |s.answers| && s.answers[i].key == answer.key ==> !s.answers[i].reply.committed
    ensures OutcomeInv(Goto(s, p, Idle).(answers := s.answers + [answer]))
  {
  }

  lemma FinalWriteKeepsOutcome(s: System, k: string, i: I.Intent)
    requires OutcomeInv(s) && i.key == k && I.Coherent(i)
    requires k in s.disk.results && i.state == TerminalFor(s.disk.results[k].ok)
    ensures OutcomeInv(s.(disk := s.disk.(intents := s.disk.intents[k := i])))
  {
  }

  lemma MarkKeepsOutcome(s: System, p: nat)
    requires OutcomeInv(s) && p in s.pcs && s.pcs[p].Durable?
    ensures OutcomeInv(DoMark(s, p))
  {
    var Durable(b, r) := s.pcs[p];
    var m := I.MarkedClaimed(s.disk.intents, s.now, b.key, b.owner, b.token, TerminalFor(r.ok));
    var answer := Answer(b.key, BoundaryCommit(r.ok, r.value, r.error, m.Some?));
    if m.Some? {
      assert !I.Terminal(s.disk.intents[b.key].state);
      FinalWriteKeepsOutcome(s, b.key, m.value);
      AnswerKeepsOutcome(s.(disk := s.disk.(intents := s.disk.intents[b.key := m.value])), p, answer);
    } else {
      AnswerKeepsOutcome(s, p, answer);
    }
  }

  lemma PrepareKeepsOutcome(s: System, p: nat)
    requires OutcomeInv(s) && p in s.pcs
    ensures OutcomeInv(DoPrepare(s, p))
  {
    if s.pcs[p].Looked? && s.pcs[p].call.key !in s.disk.intents {
      OpenWriteKeepsOutcome(s, DoPrepare(s, p), s.pcs[p].call.key, NewIntent(s.pcs[p].call));
    } else {
      QuietKeepsOutcome(s, DoPrepare(s, p));
    }
  }

  lemma ClaimKeepsOutcome(s: System, p: nat, when: int, owner: string, token: string)
    requires OutcomeInv(s) && p in s.pcs
    ensures OutcomeInv(DoClaim(s, p, when, owner, token))
  {
    var s' := DoClaim(s, p, when, owner, token);
    if s'.disk != s.disk {
      OpenWriteKeepsOutcome(s, s', s.pcs[p].call.key, s'.disk.intents[s.pcs[p].call.key]);
    } else {
      QuietKeepsOutcome(s, s');
    }
  }

  lemma ReleaseKeepsOutcome(s: System, p: nat)
    requires OutcomeInv(s) && p in s.pcs
    ensures OutcomeInv(DoRelease(s, p))
  {
    var s' := DoRelease(s, p);
    if s'.disk != s.disk {
      OpenWriteKeepsOutcome(s, s', s.pcs[p].call.key, s'.disk.intents[s.pcs[p].call.key]);
    } else {
      QuietKeepsOutcome(s, s');
    }
  }

  lemma StartKeepsOutcome(s: System, p: nat)
    requires OutcomeInv(s) && p in s.pcs
    ensures OutcomeInv(DoStart(s, p))
  {
    QuietKeepsOutcome(s, DoStart(s, p));
  }

  lemma OutcomeStep(s: System, a: Action)
    requires OutcomeInv(s)
    ensures OutcomeInv(Step(s, a))
  {
    if !a.Tick? && a.p in s.pcs {
      match a
      case PrepareIntent(p) => PrepareKeepsOutcome(s, p);
      case ClaimIntent(p, when, owner, token) => ClaimKeepsOutcome(s, p, when, owner, token);
      case ReleaseIntent(p) => ReleaseKeepsOutcome(s, p);
      case PutResult(p) => PutKeepsOutcome(s, p);
      case MarkIntent(p) => if s.pcs[p].Durable? { MarkKeepsOutcome(s, p); }
      case Lookup(p, call) => QuietKeepsOutcome(s, DoLookup(s, p, call));
      case Start(p) => StartKeepsOutcome(s, p);
      case ToolReturns(p, outcome) => QuietKeepsOutcome(s, DoReturn(s, p, outcome));
      case CallBoundary(p, b) => QuietKeepsOutcome(s, DoCallBoundary(s, p, b));
      case Leave(p) => QuietKeepsOutcome(s, Goto(s, p, Idle));
    } else {
      QuietKeepsOutcome(s, Step(s, a));
    }
  }

  lemma ResultsAreFinal(s: System, a: Action)
    ensures forall k :: k in s.disk.results ==>
      k in Step(s, a).disk.results && Step(s, a).disk.results[k] == s.disk.results[k]
  {
  }

  lemma {:induction false} OutcomeHolds(s: System, actions: seq<Action>)
    requires OutcomeInv(s)
    ensures OutcomeInv(Run(s, actions))
    ensures forall k :: k in s.disk.results ==>
      k in Run(s, actions).disk.results && Run(s, actions).disk.results[k] == s.disk.results[k]
    decreases |actions|
  {
    if actions != [] {
      OutcomeStep(s, actions[0]);
      ResultsAreFinal(s, actions[0]);
      OutcomeHolds(Step(s, actions[0]), actions[1..]);
    }
  }

  /** Outcome agreement, over every run of any executors and boundary callers with crashes and expiring
      claims: a stored result never changes afterwards, a terminal intent shows the stored outcome, at most
      one boundary call per key is told that it committed, and all of them are told the same outcome. */
  lemma OutcomeAgreement(s: System, actions: seq<Action>, more: seq<Action>)
    requires Initial(s)
    ensures var v := Run(s, actions);
      && Agreed(v.disk)
      && (forall k :: k in v.disk.results ==>
            k in Run(v, more).disk.results && Run(v, more).disk.results[k] == v.disk.results[k])
      && OneCommit(v.answers)
      && (forall i, j :: 0 <= i < j < |v.answers| && v.answers[i].key == v.answers[j].key ==>
            v.answers[i].reply.(committed := false) == v.answers[j].reply.(committed := false))
  {
    OutcomeHolds(s, actions);
    OutcomeHolds(Run(s, actions), more);
    var v := Run(s, actions);
    forall i, j | 0 <= i < j < |v.answers| && v.answers[i].key == v.answers[j].key
      ensures v.answers[i].reply.(committed := false) == v.answers[j].reply.(committed := false)
    {
      assert Answers(v.disk.results, v.answers[i]) && Answers(v.disk.results, v.answers[j]);
    }
  }

  /** Undisturbed, the two steps of a boundary call leave the disks the method writes and give its reply. */
  lemma StepsOfBoundary(s: System, p: nat)
    requires p in s.pcs && s.pcs[p].Finishing?
    ensures var b := s.pcs[p].b;
      var path, reply := BoundaryPath(s.disk, s.now, b), BoundaryReply(s.disk, s.now, b);
      var s1 := DoPut(s, p);
      var s2 := DoMark(s1, p);
      if reply.Failure? then path == [s1.disk] && s1.pcs[p] == Idle
      else path == [s.disk, s1.disk, s2.disk] && s2.answers == s.answers + [Answer(b.key, reply.value)]
  {
  }

  // ---------------------------------------------------------------- the number of tool runs

  /** Executors that hold a claim they have not used yet. */
  function Waiting(pcs: map<nat, Pc>, k: string): set<nat> {
    set p | p in pcs && pcs[p].Claimed? && pcs[p].call.key == k
  }

  /** One when the next claim of the key would not be a takeover. */
  function Slot(d: I.Ledger, k: string): nat {
    if k !in d || (d[k].owner.None? && I.Open(d[k].state)) then 1 else 0
  }

  ghost predicate Counted(s: System, k: string) {
    && s.runs[k] + |Waiting(s.pcs, k)| <= s.claims[k]
    && s.claims[k] + Slot(s.disk.intents, k) <= 1 + s.releases[k] + s.takeovers[k]
  }

  lemma WaitingAfter(pcs: map<nat, Pc>, p: nat, pc: Pc, k: string)
    requires p in pcs
    ensures var before, after := Waiting(pcs, k), Waiting(pcs[p := pc], k);
      |after| == |before| - (if p in before then 1 else 0) + (if pc.Claimed? && pc.call.key == k then 1 else 0)
  {
    var before, after := Waiting(pcs, k), Waiting(pcs[p := pc], k);
    if pc.Claimed? && pc.call.key == k {
      assert after == before - {p} + {p};
    } else {
      assert after == before - {p};
    }
  }

  lemma ClaimIsCounted(s: System, p: nat, when: int, owner: string, token: string, k: string)
    requires p in s.pcs && Counted(s, k)
    ensures Counted(DoClaim(s, p, when, owner, token), k)
  {
    var s' := DoClaim(s, p, when, owner, token);
    if s' != s { WaitingAfter(s.pcs, p, s'.pcs[p], k); }
  }

  lemma StartIsCounted(s: System, p: nat, k: string)
    requires p in s.pcs && Counted(s, k)
    ensures Counted(DoStart(s, p), k)
  {
    if s.pcs[p].Claimed? { WaitingAfter(s.pcs, p, DoStart(s, p).pcs[p], k); }
  }

  lemma ReleaseIsCounted(s: System, p: nat, k: string)
    requires p in s.pcs && Counted(s, k)
    ensures Counted(DoRelease(s, p), k)
  {
    if s.pcs[p].Releasing? { WaitingAfter(s.pcs, p, Idle, k); }
  }

  /** Moving one executor elsewhere, with the counts unchanged and no slot opened. */
  lemma MoveIsCounted(s: System, s': System, p: nat, k: string)
    requires p in s.pcs && p in s'.pcs && Counted(s, k)
    requires s'.pcs == s.pcs[p := s'.pcs[p]] && (s'.pcs[p].Claimed? ==> s'.pcs[p] == s.pcs[p])
    requires s'.runs == s.runs && s'.claims == s.claims && s'.releases == s.releases && s'.takeovers == s.takeovers
    requires Slot(s'.disk.intents, k) <= Slot(s.disk.intents, k)
    ensures Counted(s', k)
  {
    WaitingAfter(s.pcs, p, s'.pcs[p], k);
  }

  lemma PrepareIsCounted(s: System, p: nat, k: string)
    requires p in s.pcs && Counted(s, k)
    ensures Counted(DoPrepare(s, p), k)
  {
    MoveIsCounted(s, DoPrepare(s, p), p, k);
  }

  lemma MarkIsCounted(s: System, p: nat, k: string)
    requires p in s.pcs && Counted(s, k)
    ensures Counted(DoMark(s, p), k)
  {
    MoveIsCounted(s, DoMark(s, p), p, k);
  }

  lemma LookupIsCounted(s: System, p: nat, call: Call, k: string)
    requires p in s.pcs && Counted(s, k)
    ensures Counted(DoLookup(s, p, call), k)
  {
    MoveIsCounted(s, DoLookup(s, p, call), p, k);
  }

  lemma ReturnIsCounted(s: System, p: nat, outcome: ToolOutcome, k: string)
    requires p in s.pcs && Counted(s, k)
    ensures Counted(DoReturn(s, p, outcome), k)
  {
    MoveIsCounted(s, DoReturn(s, p, outcome), p, k);
  }

  lemma BoundaryIsCounted(s: System, p: nat, b: BoundaryCall, k: string)
    requires p in s.pcs && Counted(s, k)
    ensures Counted(DoCallBoundary(s, p, b), k)
  {
    MoveIsCounted(s, DoCallBoundary(s, p, b), p, k);
  }

  lemma PutIsCounted(s: System, p: nat, k: string)
    requires p in s.pcs && Counted(s, k)
    ensures Counted(DoPut(s, p), k)
  {
    MoveIsCounted(s, DoPut(s, p), p, k);
  }

  lemma LeaveIsCounted(s: System, p: nat, k: string)
    requires p in s.pcs && Counted(s, k)
    ensures Counted(Goto(s, p, Idle), k)
  {
    MoveIsCounted(s, Goto(s, p, Idle), p, k);
  }

  lemma CountedStep(s: System, a: Action, k: string)
    requires Counted(s, k)
    ensures Counted(Step(s, a), k)
  {
    if !a.Tick? && a.p in s.pcs {
      match a
      case Lookup(p, call) => LookupIsCounted(s, p, call, k);
      case PrepareIntent(p) => PrepareIsCounted(s, p, k);
      case ClaimIntent(p, when, owner, token) => ClaimIsCounted(s, p, when, owner, token, k);
      case Start(p) => StartIsCounted(s, p, k);
      case ToolReturns(p, outcome) => ReturnIsCounted(s, p, outcome, k);
      case ReleaseIntent(p) => ReleaseIsCounted(s, p, k);
      case CallBoundary(p, b) => BoundaryIsCounted(s, p, b, k);
      case PutResult(p) => PutIsCounted(s, p, k);
      case MarkIntent(p) => MarkIsCounted(s, p, k);
      case Leave(p) => LeaveIsCounted(s, p, k);
    }
  }

  lemma {:induction false} CountedHolds(s: System, actions: seq<Action>, k: string)
    requires Counted(s, k)
    ensures Counted(Run(s, actions), k)
    decreases |actions|
  {
    if actions != [] {
      CountedStep(s, actions[0], k);
      CountedHolds(Step(s, actions[0]), actions[1..], k);
    }
  }

  /** The effect bound: across all executors, a key's tool runs are at most one, plus one per claim given
      back, plus one per claim taken over. */
  lemma EffectBound(s: System, actions: seq<Action>, k: string)
    requires Initial(s)
    ensures var v := Run(s, actions); v.runs[k] <= 1 + v.releases[k] + v.takeovers[k]
  {
    assert Waiting(s.pcs, k) == {};
    CountedHolds(s, actions, k);
  }

  // ---------------------------------------------------------------- when a run may start

  predicate Named(pc: Pc) {
    pc.Claimed? || pc.Running? || pc.Releasing? || pc.Finishing? || pc.Durable?
  }

  function OwnerOf(pc: Pc): string
    requires Named(pc)
  {
    match pc
    case Claimed(_, o, _, _) => o
    case Running(_, o, _) => o
    case Releasing(_, o, _) => o
    case Finishing(b) => b.owner
    case Durable(b, _) => b.owner
  }

  /** An executor about to run holds its claim as long as the claim has not expired. */
  ghost predicate Licensed(s: System, p: nat)
    requires p in s.pcs && s.pcs[p].Claimed?
  {
    var pc := s.pcs[p];
    pc.call.key in s.disk.intents &&
    (s.now < pc.expires ==>
      I.HeldBy(s.disk.intents[pc.call.key], pc.owner, pc.token)
      && s.disk.intents[pc.call.key].expires == Some(pc.expires))
  }

  /** What the licence of a waiting executor rests on: a clock that does not run back, claims that read it
      before they lock, and no direct boundary call under the name of an executor that is about to run. */
  ghost predicate Orderly(s: System, a: Action) {
    match a
    case Tick(to) => to >= s.now
    case ClaimIntent(_, when, _, _) => when <= s.now
    case CallBoundary(_, b) => forall q :: q in s.pcs && s.pcs[q].Claimed? ==> s.pcs[q].owner != b.owner
    case _ => true
  }

  ghost predicate OrderlyRun(s: System, actions: seq<Action>)
    decreases |actions|
  {
    actions != [] ==> Orderly(s, actions[0]) && OrderlyRun(Step(s, actions[0]), actions[1..])
  }

  predicate Underway(pc: Pc) {
    pc.Looked? || pc.Ready? || pc.Claimed?
  }

  ghost predicate LicenceInv(s: System) {
    && I.Sound(s.disk.intents)
    && (forall k :: k in s.disk.intents && s.disk.intents[k].owner.Some? ==> s.disk.intents[k].owner.value in s.used)
    && (forall p :: p in s.pcs && Named(s.pcs[p]) ==> OwnerOf(s.pcs[p]) in s.used)
    && (forall p, q :: p in s.pcs && q in s.pcs && p != q && s.pcs[p].Claimed? && Named(s.pcs[q]) ==>
          s.pcs[p].owner != OwnerOf(s.pcs[q]))
    && (forall p :: p in s.pcs && s.pcs[p].Claimed? ==> Licensed(s, p))
    && (forall p :: p in s.pcs && Underway(s.pcs[p]) ==> s.pcs[p].call.key != "")
  }

  /** One executor moves on under the name it has, or without one; no unused claim is touched. */
  ghost predicate Moves(s: System, s': System, p: nat) {
    && p in s.pcs && p in s'.pcs && s'.pcs == s.pcs[p := s'.pcs[p]] && s'.now == s.now && s'.used == s.used
    && (Named(s'.pcs[p]) ==> Named(s.pcs[p]) && OwnerOf(s.pcs[p]) == OwnerOf(s'.pcs[p]))
    && !s'.pcs[p].Claimed? && (Underway(s'.pcs[p]) ==> s'.pcs[p].call.key != "")
  }

  lemma MoveKeepsLicence(s: System, s': System, p: nat)
    requires LicenceInv(s) && Moves(s, s', p) && s'.disk.intents == s.disk.intents
    ensures LicenceInv(s')
  {
    forall q | q in s'.pcs && s'.pcs[q].Claimed? ensures Licensed(s', q) { assert Licensed(s, q); }
  }

  /** The same, when an intent that the executor holds (or nobody claimed yet) is given up. */
  lemma GiveUpKeepsLicence(s: System, s': System, p: nat, k: string, i: I.Intent)
    requires LicenceInv(s) && Moves(s, s', p) && s'.disk.intents == s.disk.intents[k := i]
    requires i.key == k && I.Coherent(i) && i.owner.None?
    requires k in s.disk.intents ==> Named(s.pcs[p]) && s.disk.intents[k].owner == Some(OwnerOf(s.pcs[p]))
    ensures LicenceInv(s')
  {
    forall q | q in s'.pcs && s'.pcs[q].Claimed? ensures Licensed(s', q) {
      assert Licensed(s, q);
    }
  }

  lemma ClaimKeepsLicence(s: System, p: nat, when: int, owner: string, token: string)
    requires LicenceInv(s) && p in s.pcs && when <= s.now
    ensures LicenceInv(DoClaim(s, p, when, owner, token))
  {
    var s' := DoClaim(s, p, when, owner, token);
    if s'.used == s.used {
      MoveKeepsLicence(s, Goto(s, p, Idle), p);
    } else {
      assert I.Coherent(s'.disk.intents[s.pcs[p].call.key]);
      forall q | q in s'.pcs && s'.pcs[q].Claimed? ensures Licensed(s', q) {
        if q != p { assert Licensed(s, q); }
      }
    }
  }

  lemma PrepareKeepsLicence(s: System, p: nat)
    requires LicenceInv(s) && p in s.pcs
    ensures LicenceInv(DoPrepare(s, p))
  {
    if s.pcs[p].Looked? {
      if s.pcs[p].call.key in s.disk.intents {
        MoveKeepsLicence(s, DoPrepare(s, p), p);
      } else {
        GiveUpKeepsLicence(s, DoPrepare(s, p), p, s.pcs[p].call.key, NewIntent(s.pcs[p].call));
      }
    }
  }

  lemma ReleaseKeepsLicence(s: System, p: nat)
    requires LicenceInv(s) && p in s.pcs
    ensures LicenceInv(DoRelease(s, p))
  {
    if s.pcs[p].Releasing? {
      var Releasing(call, owner, token) := s.pcs[p];
      var r := I.Released(s.disk.intents, call.key, owner, token, I.Ambiguous);
      if r.None? {
        MoveKeepsLicence(s, DoRelease(s, p), p);
      } else {
        GiveUpKeepsLicence(s, DoRelease(s, p), p, call.key, r.value);
      }
    }
  }

  lemma MarkKeepsLicence(s: System, p: nat)
    requires LicenceInv(s) && p in s.pcs
    ensures LicenceInv(DoMark(s, p))
  {
    if s.pcs[p].Durable? {
      var Durable(b, r) := s.pcs[p];
      var m := I.MarkedClaimed(s.disk.intents, s.now, b.key, b.owner, b.token, TerminalFor(r.ok));
      if m.None? {
        MoveKeepsLicence(s, DoMark(s, p), p);
      } else {
        GiveUpKeepsLicence(s, DoMark(s, p), p, b.key, m.value);
      }
    }
  }

  lemma NamingKeepsLicence(s: System, p: nat, b: BoundaryCall)
    requires LicenceInv(s) && p in s.pcs && Orderly(s, CallBoundary(p, b))
    ensures LicenceInv(DoCallBoundary(s, p, b))
  {
    var s' := DoCallBoundary(s, p, b);
    forall q | q in s'.pcs && s'.pcs[q].Claimed? ensures Licensed(s', q) { assert Licensed(s, q); }
  }

  lemma LookupKeepsLicence(s: System, p: nat, call: Call)
    requires LicenceInv(s) && p in s.pcs
    ensures LicenceInv(DoLookup(s, p, call))
  {
    if DoLookup(s, p, call) != s { MoveKeepsLicence(s, DoLookup(s, p, call), p); }
  }

  lemma StartKeepsLicence(s: System, p: nat)
    requires LicenceInv(s) && p in s.pcs
    ensures LicenceInv(DoStart(s, p))
  {
    if s.pcs[p].Claimed? { MoveKeepsLicence(s, DoStart(s, p), p); }
  }

  lemma ReturnKeepsLicence(s: System, p: nat, outcome: ToolOutcome)
    requires LicenceInv(s) && p in s.pcs
    ensures LicenceInv(DoReturn(s, p, outcome))
  {
    if s.pcs[p].Running? { MoveKeepsLicence(s, DoReturn(s, p, outcome), p); }
  }

  lemma PutKeepsLicence(s: System, p: nat)
    requires LicenceInv(s) && p in s.pcs
    ensures LicenceInv(DoPut(s, p))
  {
    if s.pcs[p].Finishing? { MoveKeepsLicence(s, DoPut(s, p), p); }
  }

  lemma TickKeepsLicence(s: System, to: int)
    requires LicenceInv(s) && to >= s.now
    ensures LicenceInv(s.(now := to))
  {
    forall q | q in s.pcs && s.pcs[q].Claimed? ensures Licensed(s.(now := to), q) { assert Licensed(s, q); }
  }

  lemma LicenceStep(s: System, a: Action)
    requires LicenceInv(s) && Orderly(s, a)
    ensures LicenceInv(Step(s, a))
  {
    if a.Tick? {
      TickKeepsLicence(s, a.to);
    } else if a.p in s.pcs {
      match a
      case Lookup(p, call) => LookupKeepsLicence(s, p, call);
      case PrepareIntent(p) => PrepareKeepsLicence(s, p);
      case ClaimIntent(p, when, owner, token) => ClaimKeepsLicence(s, p, when, owner, token);
      case Start(p) => StartKeepsLicence(s, p);
      case ToolReturns(p, outcome) => ReturnKeepsLicence(s, p, outcome);
      case ReleaseIntent(p) => ReleaseKeepsLicence(s, p);
      case CallBoundary(p, b) => NamingKeepsLicence(s, p, b);
      case PutResult(p) => PutKeepsLicence(s, p);
      case MarkIntent(p) => MarkKeepsLicence(s, p);
      case Leave(p) => MoveKeepsLicence(s, Goto(s, p, Idle), p);
    }
  }

  lemma {:induction false} LicenceHolds(s: System, actions: seq<Action>)
    requires LicenceInv(s) && OrderlyRun(s, actions)
    ensures LicenceInv(Run(s, actions))
    decreases |actions|
  {
    if actions != [] {
      LicenceStep(s, actions[0]);
      LicenceHolds(Step(s, actions[0]), actions[1..]);
    }
  }

  /** A claim counted as a takeover replaced one that had expired by the claimant's reading of the clock. */
  lemma TakeoversAreOfExpiredClaims(s: System, a: Action)
    requires I.Sound(s.disk.intents) && Step(s, a).takeovers != s.takeovers
    requires forall k :: k in s.disk.intents && s.disk.intents[k].owner.Some? ==> s.disk.intents[k].owner.value in s.used
    ensures a.ClaimIntent? && a.p in s.pcs && s.pcs[a.p].Ready?
    ensures var i := s.disk.intents; var k := s.pcs[a.p].call.key;
      k in i && i[k].owner.Some? && i[k].expires.Some? && i[k].expires.value <= a.when
  {
  }

  /** Actions of everybody else, and the passing of time. */
  predicate Others(actions: seq<Action>, p: nat) {
    forall i :: 0 <= i < |actions| ==> actions[i].Tick? || actions[i].p != p
  }

  lemma {:induction false} OthersLeaveMeAlone(s: System, actions: seq<Action>, p: nat)
    requires Others(actions, p) && p in s.pcs
    ensures p in Run(s, actions).pcs && Run(s, actions).pcs[p] == s.pcs[p]
    decreases |actions|
  {
    if actions != [] {
      assert actions[0].Tick? || actions[0].p != p;
      OthersLeaveMeAlone(Step(s, actions[0]), actions[1..], p);
    }
  }

  lemma {:induction false} RunConcat(s: System, a: seq<Action>, b: seq<Action>)
    ensures Run(s, a + b) == Run(Run(s, a), b)
    ensures OrderlyRun(s, a + b) <==> OrderlyRun(s, a) && OrderlyRun(Run(s, a), b)
    decreases |a|
  {
    if a == [] {
      assert a + b == b;
    } else {
      assert (a + b)[1..] == a[1..] + b;
      RunConcat(Step(s, a[0]), a[1..], b);
    }
  }

  lemma RunOne(s: System, a: Action)
    ensures Run(s, [a]) == Step(s, a) && (OrderlyRun(s, [a]) <==> Orderly(s, a))
  {
    assert [a][1..] == [];
    assert Run(Step(s, a), []) == Step(s, a) && OrderlyRun(Step(s, a), []);
  }

  lemma RunTwo(s: System, a: Action, b: Action)
    ensures Run(s, [a, b]) == Step(Step(s, a), b)
    ensures OrderlyRun(s, [a, b]) <==> Orderly(s, a) && Orderly(Step(s, a), b)
  {
    assert [a, b][1..] == [b];
    RunOne(Step(s, a), b);
  }

  /** Actions that are orderly in every state. */
  predicate Untimed(a: Action) {
    !a.Tick? && !a.ClaimIntent? && !a.CallBoundary?
  }

  lemma RunFour(s: System, a: Action, b: Action, c: Action, d: Action, s2: System, v: System)
    requires Untimed(a) && Untimed(b) && Untimed(c) && Untimed(d)
    requires s2 == Step(Step(s, a), b) && v == Step(Step(s2, c), d)
    ensures Run(s, [a, b] + [c, d]) == v && OrderlyRun(s, [a, b] + [c, d])
  {
    RunConcat(s, [a, b], [c, d]);
    RunTwo(s, a, b);
    RunTwo(s2, c, d);
  }

  // ---------------------------------------------------------------- how a stalled executor is overtaken

  /** Another executor that can take the key: not yet looking, while no result is stored; or past its lookup,
      with the tool that any stored result came from. */
  predicate Comes(s: System, q: nat, key: string) {
    && q in s.pcs
    && ((s.pcs[q].Idle? && key !in s.disk.results)
        || ((s.pcs[q].Looked? || s.pcs[q].Ready?) && s.pcs[q].call.key == key
            && (key in s.disk.results ==> s.disk.results[key].tool == s.pcs[q].call.tool)))
  }

  function Arrive(pc: Pc, q: nat, call: Call): seq<Action> {
    match pc
    case Idle => [Lookup(q, call), PrepareIntent(q)]
    case Looked(_) => [PrepareIntent(q)]
    case _ => []
  }

  lemma Arrives(s: System, q: nat, call: Call)
    requires Comes(s, q, call.key) && call.key in s.disk.intents && call.key != ""
    ensures OrderlyRun(s, Arrive(s.pcs[q], q, call))
    ensures var v := Run(s, Arrive(s.pcs[q], q, call));
      && q in v.pcs && v.pcs[q].Ready? && v == Goto(s, q, v.pcs[q]) && v.pcs[q].call.key == call.key
      && (call.key in s.disk.results ==> s.disk.results[call.key].tool == v.pcs[q].call.tool)
  {
    match s.pcs[q]
    case Idle =>
      RunTwo(s, Lookup(q, call), PrepareIntent(q));
      assert DoPrepare(Goto(s, q, Looked(call)), q) == Goto(s, q, Ready(call));
    case Looked(c) =>
      RunOne(s, PrepareIntent(q));
      assert DoPrepare(s, q) == Goto(s, q, Ready(c));
    case Ready(_) =>
      assert Goto(s, q, s.pcs[q]) == s by { assert s.pcs[q := s.pcs[q]] == s.pcs; }
  }

  lemma TakesOver(s: System, q: nat, newName: string)
    requires q in s.pcs && s.pcs[q].Ready? && newName !in s.used && newName != ""
    requires s.pcs[q].call.key in s.disk.intents
    requires var i := s.disk.intents[s.pcs[q].call.key];
      I.Open(i.state) && (i.owner.Some? ==> i.owner.value in s.used && i.expires.Some? && i.expires.value <= s.now)
    ensures var v := DoClaim(s, q, s.now, newName, "t"); var k := s.pcs[q].call.key;
      && v.now == s.now && q in v.pcs && v.pcs[q] == Claimed(s.pcs[q].call, newName, "t", s.now + s.ttl)
      && v.disk.results == s.disk.results && k in v.disk.intents
      && I.HeldBy(v.disk.intents[k], newName, "t") && v.disk.intents[k].expires == Some(s.now + s.ttl)
  {
  }

  function Finish(q: nat): seq<Action> {
    [Start(q), ToolReturns(q, Definite(true, Null, None))] + [PutResult(q), MarkIntent(q)]
  }

  /** The last two steps; a result stored before stays. */
  lemma BoundaryFinishes(s: System, q: nat, b: BoundaryCall)
    requires q in s.pcs && s.pcs[q] == Finishing(b) && (b.key in s.disk.results ==> s.disk.results[b.key].tool == b.tool)
    requires b.key in s.disk.intents && I.HeldBy(s.disk.intents[b.key], b.owner, b.token)
    requires s.disk.intents[b.key].expires.Some? && s.now < s.disk.intents[b.key].expires.value
    ensures var v := DoMark(DoPut(s, q), q);
      && b.key in v.disk.intents && I.Terminal(v.disk.intents[b.key].state)
      && v == Step(Step(s, PutResult(q)), MarkIntent(q))
  {
    var s' := DoPut(s, q);
    assert s'.pcs[q].Durable? && s'.pcs[q].b == b && s'.disk.intents == s.disk.intents && s'.now == s.now;
  }

  lemma RunsTheTool(s: System, q: nat, outcome: ToolOutcome)
    requires q in s.pcs && s.pcs[q].Claimed? && outcome == Definite(true, Null, None)
    ensures var s2 := DoReturn(DoStart(s, q), q, outcome); var pc := s.pcs[q];
      && q in s2.pcs && s2.pcs[q] == Finishing(CallOf(pc.call, pc.owner, pc.token, true, Null, None))
      && s2.disk == s.disk && s2.now == s.now
      && Step(Step(s, Start(q)), ToolReturns(q, outcome)) == s2
  {
  }

  lemma ClaimantFinishes(s: System, q: nat)
    requires q in s.pcs && s.pcs[q].Claimed? && s.now < s.pcs[q].expires && s.pcs[q].call.key in s.disk.intents
    requires var i := s.disk.intents[s.pcs[q].call.key];
      I.HeldBy(i, s.pcs[q].owner, s.pcs[q].token) && i.expires == Some(s.pcs[q].expires)
    requires s.pcs[q].call.key in s.disk.results ==> s.disk.results[s.pcs[q].call.key].tool == s.pcs[q].call.tool
    ensures OrderlyRun(s, Finish(q))
    ensures var v := Run(s, Finish(q)); var k := s.pcs[q].call.key;
      k in v.disk.intents && I.Terminal(v.disk.intents[k].state)
  {
    var outcome, pc := Definite(true, Null, None), s.pcs[q];
    var s2 := DoReturn(DoStart(s, q), q, outcome);
    RunsTheTool(s, q, outcome);
    BoundaryFinishes(s2, q, CallOf(pc.call, pc.owner, pc.token, true, Null, None));
    RunFour(s, Start(q), ToolReturns(q, outcome), PutResult(q), MarkIntent(q), s2, DoMark(DoPut(s2, q), q));
  }

  /** When the claim on an open intent lapses, if there is one. */
  function Lapse(s: System, k: string): int
    requires k in s.disk.intents
  {
    var i := s.disk.intents[k];
    if i.owner.Some? && i.expires.Some? then Max(s.now, i.expires.value) else s.now
  }

  function Overtake(s: System, q: nat, call: Call, newName: string): seq<Action>
    requires call.key in s.disk.intents && q in s.pcs
  {
    var t := Lapse(s, call.key);
    [Tick(t)] + (Arrive(s.pcs[q], q, call) + ([ClaimIntent(q, t, newName, "t")] + Finish(q)))
  }

  lemma ReadyFinishes(s: System, q: nat, newName: string)
    requires q in s.pcs && s.pcs[q].Ready? && newName !in s.used && newName != "" && s.ttl >= 1
    requires s.pcs[q].call.key in s.disk.intents
    requires var i := s.disk.intents[s.pcs[q].call.key];
      I.Open(i.state) && (i.owner.Some? ==> i.owner.value in s.used && i.expires.Some? && i.expires.value <= s.now)
    requires s.pcs[q].call.key in s.disk.results ==> s.disk.results[s.pcs[q].call.key].tool == s.pcs[q].call.tool
    ensures var rest := [ClaimIntent(q, s.now, newName, "t")] + Finish(q); var k := s.pcs[q].call.key;
      && OrderlyRun(s, rest)
      && var v := Run(s, rest); k in v.disk.intents && I.Terminal(v.disk.intents[k].state)
  {
    var claim := ClaimIntent(q, s.now, newName, "t");
    TakesOver(s, q, newName);
    ClaimantFinishes(DoClaim(s, q, s.now, newName, "t"), q);
    RunOne(s, claim);
    RunConcat(s, [claim], Finish(q));
  }

  /** From the lapse on: arrive, claim, run, finish. */
  lemma ClaimsAndFinishes(s: System, q: nat, call: Call, newName: string)
    requires Comes(s, q, call.key) && call.key in s.disk.intents && call.key != "" && s.ttl >= 1
    requires newName !in s.used && newName != ""
    requires var i := s.disk.intents[call.key];
      I.Open(i.state) && (i.owner.Some? ==> i.owner.value in s.used && i.expires.Some? && i.expires.value <= s.now)
    ensures var rest := Arrive(s.pcs[q], q, call) + ([ClaimIntent(q, s.now, newName, "t")] + Finish(q));
      && OrderlyRun(s, rest)
      && var v := Run(s, rest); call.key in v.disk.intents && I.Terminal(v.disk.intents[call.key].state)
  {
    var claim := ClaimIntent(q, s.now, newName, "t");
    Arrives(s, q, call);
    var v := Run(s, Arrive(s.pcs[q], q, call));
    ReadyFinishes(v, q, newName);
    RunConcat(s, Arrive(s.pcs[q], q, call), [claim] + Finish(q));
  }

  lemma OpenIsOvertaken(s: System, q: nat, call: Call, newName: string)
    requires LicenceInv(s) && s.ttl >= 1 && call.key in s.disk.intents && call.key != ""
    requires Comes(s, q, call.key) && newName !in s.used && newName != "" && I.Open(s.disk.intents[call.key].state)
    ensures OrderlyRun(s, Overtake(s, q, call, newName))
    ensures var v := Run(s, Overtake(s, q, call, newName));
      call.key in v.disk.intents && I.Terminal(v.disk.intents[call.key].state)
  {
    assert I.Coherent(s.disk.intents[call.key]);
    var t := Lapse(s, call.key);
    ClaimsAndFinishes(s.(now := t), q, call, newName);
    RunOne(s, Tick(t));
    RunConcat(s, [Tick(t)], Arrive(s.pcs[q], q, call) + ([ClaimIntent(q, t, newName, "t")] + Finish(q)));
  }

  /** Actions of the others that keep order and do not carry the clock across the deadline. */
  ghost predicate Before(s: System, others: seq<Action>, p: nat, deadline: int) {
    Others(others, p) && OrderlyRun(s, others) && (s.now < deadline ==> Run(s, others).now < deadline)
  }

  ghost predicate StaysOpen(s: System, others: seq<Action>, k: string) {
    var v := Run(s, others);
    k in v.disk.intents && !I.Terminal(v.disk.intents[k].state)
  }

  lemma SafeBeforeExpiry(s: System, p: nat, others: seq<Action>)
    requires LicenceInv(s) && p in s.pcs && s.pcs[p].Claimed? && s.now < s.pcs[p].expires
    requires Before(s, others, p, s.pcs[p].expires)
    ensures StaysOpen(s, others, s.pcs[p].call.key)
  {
    LicenceHolds(s, others);
    OthersLeaveMeAlone(s, others, p);
    var v := Run(s, others);
    assert Licensed(v, p);
    assert I.Coherent(v.disk.intents[s.pcs[p].call.key]);
  }

  lemma UnsafeAfterExpiry(s: System, p: nat, q: nat, newName: string) returns (others: seq<Action>)
    requires LicenceInv(s) && s.ttl >= 1 && p in s.pcs && s.pcs[p].Claimed? && s.now >= s.pcs[p].expires
    requires q != p && Comes(s, q, s.pcs[p].call.key) && newName !in s.used && newName != ""
    ensures Before(s, others, p, s.pcs[p].expires) && !StaysOpen(s, others, s.pcs[p].call.key)
  {
    var call := s.pcs[p].call;
    assert Licensed(s, p) && I.Coherent(s.disk.intents[call.key]);
    if I.Terminal(s.disk.intents[call.key].state) {
      others := [];
      assert Run(s, others) == s;
    } else {
      OpenIsOvertaken(s, q, call, newName);
      others := Overtake(s, q, call, newName);
    }
  }

  /** A tool run can start on an intent that is already terminal: claim and start are two steps, and a claimant
      may stall between them.  Exactly when: in any orderly run, an executor about to run is safe from
      everything the others can do without carrying the clock across its claim's expiry, as long as that
      expiry has not been reached, and not after, whoever holds the claim by then. */
  lemma StartIsSafeIff(init: System, actions: seq<Action>, p: nat, q: nat, newName: string)
    requires Initial(init) && init.ttl >= 1 && OrderlyRun(init, actions)
    requires var s := Run(init, actions);
      && p in s.pcs && s.pcs[p].Claimed? && q != p && Comes(s, q, s.pcs[p].call.key)
      && newName !in s.used && newName != ""
    ensures var s := Run(init, actions); var pc := s.pcs[p];
      s.now < pc.expires <==> forall others :: Before(s, others, p, pc.expires) ==> StaysOpen(s, others, pc.call.key)
  {
    LicenceHolds(init, actions);
    TtlIsConstant(init, actions);
    var s := Run(init, actions);
    if s.now < s.pcs[p].expires {
      forall others | Before(s, others, p, s.pcs[p].expires) ensures StaysOpen(s, others, s.pcs[p].call.key) {
        SafeBeforeExpiry(s, p, others);
      }
    } else {
      var others := UnsafeAfterExpiry(s, p, q, newName);
    }
  }

  lemma {:induction false} TtlIsConstant(s: System, actions: seq<Action>)
    ensures Run(s, actions).ttl == s.ttl
    decreases |actions|
  {
    if actions != [] { TtlIsConstant(Step(s, actions[0]), actions[1..]); }
  }
}
