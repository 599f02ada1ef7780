/** One executor among others: a call of `execute`, with the others acting in its gaps, is a run of the step
    system, and it runs the tool exactly when that run does (runtime/tool_executor.py:45-99). */
module ExecutorSteps {
  import opened Base
  import opened ToolBoundary
  import opened ToolSystem
  import E = ToolExecutor
  import I = ToolIntents

  function CallIn(u: E.Use): Call {
    Call(u.call.key, u.call.callId, u.call.tool, u.call.arguments, u.executionId)
  }

  function OutcomeOf(end: E.RunEnd): ToolOutcome {
    match end
    case Returned(r) => if E.IsOpen(r) then GivesBack else Definite(r.ok, r.value, r.error)
    case Cancelled => GivesBack
    case Raised => Refused
  }

  function Both(s: System): E.Stores {
    E.Stores(true, true, s.ttl)
  }

  /** In a gap anything may happen but a move of this executor; `g` is what happens to the stores. */
  predicate Gap(s: System, s': System, p: nat, g: E.Others) {
    && p in s.pcs && p in s'.pcs && s'.pcs[p] == s.pcs[p] && s'.ttl == s.ttl && g(s.disk) == s'.disk
  }

  /** What the others do in a run of the step system is such a gap. */
  lemma OthersMakeAGap(s: System, others: seq<Action>, p: nat, g: E.Others)
    requires p in s.pcs && Others(others, p) && g(s.disk) == Run(s, others).disk
    ensures Gap(s, Run(s, others), p, g)
  {
    OthersLeaveMeAlone(s, others, p);
    TtlIsConstant(s, others);
  }

  /** The steps after the tool has ended. */
  function Ending(s: System, p: nat, end: E.RunEnd): System
    requires p in s.pcs
  {
    var s1 := DoReturn(s, p, OutcomeOf(end));
    if s1.pcs[p].Releasing? then DoRelease(s1, p)
    else if s1.pcs[p].Finishing? then DoMark(DoPut(s1, p), p)
    else s1
  }

  lemma StepsOfConclude(s: System, p: nat, u: E.Use)
    requires p in s.pcs && s.pcs[p] == Running(CallIn(u), u.owner, u.token)
    ensures var v := Ending(s, p, u.end);
      && v.disk == E.Concluded(Both(s), s.disk, s.now, u.call, u.owner, u.token, u.end)
      && v.pcs[p].Idle? && v.runs == s.runs
  {
    match u.end
    case Returned(r) =>
      if !E.IsOpen(r) {
        var b := E.CallFor(u.call, u.owner, u.token, r);
        StepsOfBoundary(DoReturn(s, p, OutcomeOf(u.end)), p);
        assert DoReturn(s, p, OutcomeOf(u.end)).pcs[p] == Finishing(b);
      }
    case _ =>
  }

  /** The states of a call: before, and after each gap. */
  datatype Trip = Trip(a0: System, b0: System, b1: System, b2: System, b3: System, b6: System)

  function Looking(t: Trip, p: nat, u: E.Use): System
    requires p in t.b0.pcs
  {
    DoLookup(t.b0, p, CallIn(u))
  }

  function Preparing(t: Trip, p: nat): System
    requires p in t.b1.pcs
  {
    DoPrepare(t.b1, p)
  }

  function Claiming(t: Trip, p: nat, u: E.Use): System
    requires p in t.b3.pcs
  {
    DoClaim(t.b3, p, u.clock(3), u.owner, u.token)
  }

  function Starting(t: Trip, p: nat, u: E.Use): System
    requires p in t.b3.pcs
  {
    DoStart(Claiming(t, p, u), p)
  }

  /** The others' gaps fit together with the executor's steps; a terminal intent stays terminal in them, and the
      owner name is a new one. */
  ghost predicate Travels(t: Trip, p: nat, u: E.Use) {
    && Gap(t.a0, t.b0, p, u.gaps(0)) && t.a0.pcs[p].Idle?
    && Gap(Looking(t, p, u), t.b1, p, u.gaps(1))
    && Gap(Preparing(t, p), t.b2, p, u.gaps(2))
    && Gap(t.b2, t.b3, p, u.gaps(3))
    && u.owner !in t.b3.used && u.owner != "" && u.token != ""
    && (u.call.key in Preparing(t, p).disk.intents && I.Terminal(Preparing(t, p).disk.intents[u.call.key].state) ==>
          u.call.key in t.b3.disk.intents && I.Terminal(t.b3.disk.intents[u.call.key].state))
    && Gap(Starting(t, p, u), t.b6, p, u.gaps(6)) && t.b6.now == u.clock(6)
  }

  /** Up to the claim. */
  lemma StepsOfAcquire(t: Trip, p: nat, cache: E.Cache, u: E.Use)
    requires Travels(t, p, u) && u.call.key != "" && u.call.key !in t.b0.disk.results
    ensures var a := E.AcquireAt(Both(t.a0), cache, t.b0.disk, u.call, u.executionId, u.owner, u.token, u.gaps, u.clock);
      && (a.Held? <==> Claiming(t, p, u).pcs[p].Claimed?)
      && (a.Held? ==> a.disk == Claiming(t, p, u).disk)
      && (a.Early? ==> !a.end.ran)
  {
    assert t.b1.pcs[p] == Looked(CallIn(u));
    assert Preparing(t, p).disk == t.b1.disk.(intents := E.Prepared(t.b1.disk.intents, u.call, u.executionId));
    assert t.b3.pcs[p] == Ready(CallIn(u));
    StepsOfClaim(t, p, cache, u);
  }

  lemma StepsOfClaim(t: Trip, p: nat, cache: E.Cache, u: E.Use)
    requires p in t.b3.pcs && t.b3.pcs[p] == Ready(CallIn(u)) && Gap(t.b2, t.b3, p, u.gaps(3))
    requires u.owner !in t.b3.used && u.owner != "" && u.token != ""
    ensures var a := E.ClaimAt(Both(t.b3), cache, t.b2.disk, u.call, u.owner, u.token, u.gaps, u.clock);
      && (a.Held? <==> Claiming(t, p, u).pcs[p].Claimed?)
      && (a.Held? ==> a.disk == Claiming(t, p, u).disk)
      && (a.Early? ==> !a.end.ran)
      && (u.call.key in t.b3.disk.intents && I.Terminal(t.b3.disk.intents[u.call.key].state) ==> a.Early?)
  {
  }

  /** Whatever the others do in its gaps, a call runs the tool exactly when the executor's steps get a claim;
      the step system then counts one more run of the key, and both leave the same stores behind. */
  lemma StepsOfExecute(t: Trip, p: nat, cache: E.Cache, u: E.Use)
    requires Travels(t, p, u) && u.call.key != "" && !E.Settled(cache, u.call.key)
    ensures var x, c := E.Used(Both(t.a0), cache, t.a0.disk, u), Claiming(t, p, u);
      && (x.ran <==> c.pcs[p].Claimed?)
      && (x.ran ==>
            && Starting(t, p, u).runs == c.runs + multiset{u.call.key}
            && x.disk == Ending(t.b6, p, u.end).disk)
  {
    var x := E.Used(Both(t.a0), cache, t.a0.disk, u);
    if u.call.key in t.b0.disk.results {
      assert t.b3.pcs[p].Idle?;
    } else {
      StepsOfAcquire(t, p, cache, u);
      if Claiming(t, p, u).pcs[p].Claimed? {
        assert t.b6.pcs[p] == Running(CallIn(u), u.owner, u.token);
        StepsOfConclude(t.b6, p, u);
      }
    }
  }
}
