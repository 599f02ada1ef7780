/** The execution lifecycle graph (runtime/execution_state_machine.py). */
module StateMachine {
  import opened Base

  /** A state name that is not one of the canonical ones. */
  type OtherName = s: string | s !in {"pending", "running", "retrying", "completed", "failed"}

  datatype Status = Pending | Running | Retrying | Completed | Failed | Named(name: OtherName)

  function Text(s: Status): string {
    match s
    case Pending => "pending" case Running => "running" case Retrying => "retrying"
    case Completed => "completed" case Failed => "failed" case Named(n) => n
  }

  /** A status is its text. */
  lemma TextIsInjective(a: Status, b: Status)
    requires Text(a) == Text(b)
    ensures a == b
  {
  }

  type Graph = map<Status, set<Status>>

  const DEFAULT: Graph := map[
    Pending := {Running},
    Running := {Retrying, Completed, Failed},
    Retrying := {Running, Failed},
    Completed := {},
    Failed := {Retrying}
  ]

  predicate CanTransition(g: Graph, current: Status, target: Status) {
    && current in g
    && target in g
    && (current == target || target in g[current])
  }

  /** The canonical moves, one by one. */
  lemma CanonicalMoves(a: Status, b: Status)
    ensures CanTransition(DEFAULT, a, b) <==>
      || (a == b && a in {Pending, Running, Retrying, Completed, Failed})
      || (a == Pending && b == Running)
      || (a == Running && b in {Retrying, Completed, Failed})
      || (a == Retrying && b in {Running, Failed})
      || (a == Failed && b == Retrying)
  {
  }

  // ---------------------------------------------------------------- configured graphs

  /** Some configured edge leads to `s`. */
  ghost predicate Mentioned(g: Graph, s: Status) {
    exists state :: state in g && s in g[state]
  }

  /** Every target is configured or canonical. */
  ghost predicate WellKnown(g: Graph) {
    forall state, target :: state in g && target in g[state] ==> target in g || target in DEFAULT
  }

  /** What a configured graph becomes: mentioned states join with their canonical edges. */
  ghost predicate Completes(g: Graph, n: Graph) {
    forall s ::
      && (s in n <==> s in g || Mentioned(g, s))
      && (s in g ==> s in n && n[s] == g[s])
      && (s !in g && s in n ==> n[s] == if s in DEFAULT then DEFAULT[s] else {})
  }

  /** All targets of these states. */
  method Targets(g: Graph) returns (targets: set<Status>)
    ensures forall s :: s in targets <==> Mentioned(g, s)
  {
    targets := {};
    var rest := g.Keys;
    while rest != {}
      invariant rest <= g.Keys
      invariant forall s :: s in targets <==> exists state :: state in g && state !in rest && s in g[state]
      decreases |rest|
    {
      var state :| state in rest;
      targets, rest := targets + g[state], rest - {state};
    }
  }

  /** `__post_init__`: None stands for the ValueError. */
  method Normalize(g: Graph) returns (r: Option<Graph>)
    ensures r.Some? <==> WellKnown(g)
    ensures r.Some? ==> Completes(g, r.value)
  {
    var targets := Targets(g);
    var unknown := set t | t in targets && t !in g && t !in DEFAULT;
    if unknown != {} {
      var t :| t in unknown;
      assert Mentioned(g, t);
      return None;
    }
    assert WellKnown(g) by {
      forall state, target | state in g && target in g[state] ensures target in g || target in DEFAULT {
        assert Mentioned(g, target);
        assert target !in unknown;
      }
    }
    var n, rest := g, targets;
    while rest != {}
      invariant rest <= targets
      invariant forall s :: s in n <==> s in g || (s in targets && s !in rest)
      invariant forall s :: s in g ==> s in n && n[s] == g[s]
      invariant forall s :: s in n && s !in g ==> n[s] == if s in DEFAULT then DEFAULT[s] else {}
      decreases |rest|
    {
      var t :| t in rest;
      rest := rest - {t};
      if t !in n { n := n[t := if t in DEFAULT then DEFAULT[t] else {}]; }
    }
    return Some(n);
  }

  /** Normalising leaves no choice. */
  lemma CompletionIsUnique(g: Graph, a: Graph, b: Graph)
    requires Completes(g, a) && Completes(g, b)
    ensures a == b
  {
    assert a.Keys == b.Keys;
  }

  /** Which moves between different states a normalised graph allows: every configured edge; and of the
      canonical edges of a state that is only mentioned, those to states configured or mentioned. */
  lemma UsableEdges(g: Graph, n: Graph, a: Status, b: Status)
    requires WellKnown(g) && Completes(g, n) && a != b
    ensures CanTransition(n, a, b) <==>
      if a in g then b in g[a]
      else Mentioned(g, a) && b in DEFAULT[a] && (b in g || Mentioned(g, b))
  {
    if a in g && b in g[a] { assert Mentioned(g, b); }
  }

  /** The canonical graph is complete already. */
  lemma DefaultIsComplete()
    ensures WellKnown(DEFAULT) && Completes(DEFAULT, DEFAULT)
  {
    forall s ensures Mentioned(DEFAULT, s) ==> s in DEFAULT {
      if Mentioned(DEFAULT, s) {
        var state :| state in DEFAULT && s in DEFAULT[state];
      }
    }
  }

  /** One round is not a closure: a graph that only says that pending leads to running gives running its
      canonical edges, and no way to take one. */
  lemma OneRoundIsNotEnough() returns (g: Graph, n: Graph)
    ensures WellKnown(g) && Completes(g, n) && CanTransition(n, Pending, Running)
    ensures Running in n && Completed in n[Running] && !CanTransition(n, Running, Completed)
  {
    g := map[Pending := {Running}];
    n := map[Pending := {Running}, Running := DEFAULT[Running]];
    assert Running in g[Pending];
  }
}
