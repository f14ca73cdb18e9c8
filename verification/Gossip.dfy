/** Propagation over fixed links: it stops, it is confluent, and its outcome has a closed form. */
module Gossip {
  import opened Core
  import opened NetworkSpec
  import opened NetworkRuns

  // ---- Termination -----------------------------------------------------------------------------------

  /** Pairs of a node and a bearer it has not spent. */
  ghost function Unspent(s: State, bearers: set<string>): set<(string, string)> {
    set n, b | n in s.nodes && b in bearers && b !in s.nodes[n].spent :: (n, b)
  }

  /** Pairs of a node and a bearer it does not hold. */
  ghost function Missing(s: State, bearers: set<string>): set<(string, string)> {
    set n, b | n in s.nodes && b in bearers && b !in s.nodes[n].ledger :: (n, b)
  }

  lemma PairsBounded(s: State, bearers: set<string>)
    ensures |Unspent(s, bearers)| <= |s.nodes.Keys| * |bearers|
    ensures |Missing(s, bearers)| <= |s.nodes.Keys| * |bearers|
  {
    PairCount(s.nodes.Keys, bearers, Unspent(s, bearers));
    PairCount(s.nodes.Keys, bearers, Missing(s, bearers));
  }

  /** Each successful propagation leaves spends alone and fills in at least one missing holding. */
  lemma PropagateProgress(s: State, src: string, dst: string, bearers: set<string>)
    requires s.Valid() && Enabled(s, Propagate(src, dst)) && s.Bearers() <= bearers
    ensures Unspent(Exec(s, Propagate(src, dst)), bearers) == Unspent(s, bearers)
    ensures Missing(Exec(s, Propagate(src, dst)), bearers) < Missing(s, bearers)
  {
    var a := Propagate(src, dst);
    var t := Exec(s, a);
    var b :| b in Deliverable(s.nodes[src], s.nodes[dst]);
    BearersSeen(s, b);
    assert s.Holds(src, b);
    forall n, c ensures (t.HasSpent(n, c) <==> s.HasSpent(n, c)) && (s.Holds(n, c) ==> t.Holds(n, c)) {
      ExecSpent(s, a, n, c);
      ExecHolds(s, a, n, c);
    }
    ExecHolds(s, a, dst, b);
    SamePairs(s, t, bearers);
    assert (dst, b) in Missing(s, bearers) && (dst, b) !in Missing(t, bearers);
  }

  lemma SamePairs(s: State, t: State, bearers: set<string>)
    requires s.nodes.Keys == t.nodes.Keys
    requires forall n, c :: (t.HasSpent(n, c) <==> s.HasSpent(n, c)) && (s.Holds(n, c) ==> t.Holds(n, c))
    ensures Unspent(t, bearers) == Unspent(s, bearers)
    ensures Missing(t, bearers) <= Missing(s, bearers)
  {
    forall p ensures p in Unspent(t, bearers) <==> p in Unspent(s, bearers) {
      assert t.HasSpent(p.0, p.1) <==> s.HasSpent(p.0, p.1);
    }
    forall p | p in Missing(t, bearers) ensures p in Missing(s, bearers) {
      assert s.Holds(p.0, p.1) ==> t.Holds(p.0, p.1);
    }
  }

  /** Each first-time spend uses up one of the remaining node-bearer pairs. */
  lemma SpendProgress(s: State, n: string, b: string, bearers: set<string>)
    requires s.Valid() && s.Disjoint() && Enabled(s, SpendAt(n, b)) && s.Bearers() <= bearers
    ensures Unspent(Exec(s, SpendAt(n, b)), bearers) < Unspent(s, bearers)
  {
    var t := Exec(s, SpendAt(n, b));
    BearersSeen(s, b);
    forall p | p in Unspent(t, bearers) ensures p in Unspent(s, bearers) && p != (n, b) {
      ExecSpent(s, SpendAt(n, b), p.0, p.1);
      assert !t.HasSpent(p.0, p.1);
    }
    assert s.Holds(n, b) && !s.HasSpent(n, b);
    assert (n, b) in Unspent(s, bearers);
  }

  ghost predicate GossipRun(s: State, acts: seq<Action>)
    requires s.Valid()
    decreases |acts|
  {
    acts != [] ==>
      && (acts[0].Propagate? || acts[0].SpendAt?)
      && Enabled(s, acts[0])
      && (ExecValid(s, acts[0]); GossipRun(Exec(s, acts[0]), acts[1..]))
  }

  /** The lexicographic measure (unspent pairs, missing pairs), flattened with a cap on the second component. */
  ghost function Weight(s: State, bearers: set<string>, cap: nat): nat {
    |Unspent(s, bearers)| * (cap + 1) + |Missing(s, bearers)|
  }

  lemma MulLe(a: nat, b: nat, c: nat)
    requires a <= b
    ensures a * c <= b * c
  {
  }

  lemma LexDrop(fewer: nat, more: nat, low: nat, cap: nat)
    requires fewer < more && low <= cap
    ensures fewer * (cap + 1) + low < more * (cap + 1)
  {
    MulLe(fewer + 1, more, cap + 1);
    assert (fewer + 1) * (cap + 1) == fewer * (cap + 1) + (cap + 1);
  }

  lemma LexBound(high: nat, low: nat, cap: nat)
    requires high <= cap && low <= cap
    ensures high * (cap + 1) + low <= cap * (cap + 2)
  {
    MulLe(high, cap, cap + 1);
    assert cap * (cap + 1) + cap == cap * (cap + 2);
  }

  lemma SpendWeight(s: State, n: string, b: string, bearers: set<string>, cap: nat)
    requires s.Valid() && s.Disjoint() && Enabled(s, SpendAt(n, b)) && s.Bearers() <= bearers
    requires cap == |s.nodes.Keys| * |bearers|
    ensures Weight(Exec(s, SpendAt(n, b)), bearers, cap) < Weight(s, bearers, cap)
  {
    SpendProgress(s, n, b, bearers);
    SubsetCount(Unspent(Exec(s, SpendAt(n, b)), bearers), Unspent(s, bearers));
    ExecValid(s, SpendAt(n, b));
    PairsBounded(Exec(s, SpendAt(n, b)), bearers);
    WeightDrops(s, Exec(s, SpendAt(n, b)), bearers, cap);
  }

  lemma WeightDrops(s: State, t: State, bearers: set<string>, cap: nat)
    requires |Unspent(t, bearers)| < |Unspent(s, bearers)| && |Missing(t, bearers)| <= cap
    ensures Weight(t, bearers, cap) < Weight(s, bearers, cap)
  {
    LexDrop(|Unspent(t, bearers)|, |Unspent(s, bearers)|, |Missing(t, bearers)|, cap);
  }

  lemma PropagateWeight(s: State, src: string, dst: string, bearers: set<string>, cap: nat)
    requires s.Valid() && Enabled(s, Propagate(src, dst)) && s.Bearers() <= bearers
    ensures Weight(Exec(s, Propagate(src, dst)), bearers, cap) < Weight(s, bearers, cap)
  {
    var t := Exec(s, Propagate(src, dst));
    ExecValid(s, Propagate(src, dst));
    PropagateProgress(s, src, dst, bearers);
    SubsetCount(Missing(t, bearers), Missing(s, bearers));
  }

  lemma {:induction false} GossipWeight(s: State, acts: seq<Action>, bearers: set<string>, cap: nat)
    requires s.Valid() && s.Disjoint() && GossipRun(s, acts) && s.Bearers() <= bearers
    requires cap == |s.nodes.Keys| * |bearers|
    ensures |acts| <= Weight(s, bearers, cap)
    decreases |acts|
  {
    if acts != [] {
      var t := Exec(s, acts[0]);
      ExecValid(s, acts[0]);
      ExecKeepsDisjoint(s, acts[0]);
      if acts[0].Propagate? {
        PropagateWeight(s, acts[0].src, acts[0].dst, bearers, cap);
      } else {
        SpendWeight(s, acts[0].n, acts[0].bearer, bearers, cap);
      }
      forall b | b in t.Bearers() ensures b in bearers {
        ExecConserves(s, acts[0], b);
      }
      GossipWeight(t, acts[1..], bearers, cap);
    }
  }

  /** No run of successful propagations and spends is longer than pairs times (pairs plus two). */
  lemma GossipTerminates(s: State, acts: seq<Action>)
    requires s.Valid() && s.Disjoint() && GossipRun(s, acts)
    ensures var pairs := |s.nodes.Keys| * |s.Bearers()|; |acts| <= pairs * (pairs + 2)
  {
    var bearers := s.Bearers();
    var pairs := |s.nodes.Keys| * |bearers|;
    GossipWeight(s, acts, bearers, pairs);
    PairsBounded(s, bearers);
    LexBound(|Unspent(s, bearers)|, |Missing(s, bearers)|, pairs);
  }

  // ---- Quiescence and confluence -----------------------------------------------------------------------

  ghost predicate Quiescent(s: State) {
    forall src, dst :: !Enabled(s, Propagate(src, dst))
  }

  ghost predicate PropagatesOnly(acts: seq<Action>) {
    forall i | 0 <= i < |acts| :: acts[i].Propagate?
  }

  /** A chain of live links along which a bearer can travel from a holder, past nodes that have not spent it. */
  ghost predicate Carries(s: State, b: string, path: seq<string>) {
    && path != []
    && s.Holds(path[0], b)
    && forall i | 1 <= i < |path| :: s.Up(path[i - 1], path[i]) && path[i] in s.nodes && !s.HasSpent(path[i], b)
  }

  ghost predicate Reaches(s: State, b: string, n: string) {
    exists path :: Carries(s, b, path) && path[|path| - 1] == n
  }

  lemma PropagateFrame(s: State, a: Action)
    requires s.Valid() && a.Propagate?
    ensures Exec(s, a).links == s.links && Exec(s, a).nodes.Keys == s.nodes.Keys
    ensures forall n, b :: Exec(s, a).HasSpent(n, b) <==> s.HasSpent(n, b)
    ensures forall n, b :: s.Holds(n, b) ==> Exec(s, a).Holds(n, b)
  {
    forall n, b ensures Exec(s, a).HasSpent(n, b) <==> s.HasSpent(n, b) {
      ExecSpent(s, a, n, b);
    }
    forall n, b | s.Holds(n, b) ensures Exec(s, a).Holds(n, b) {
      ExecHolds(s, a, n, b);
    }
  }

  lemma {:induction false} RunFrame(s: State, acts: seq<Action>)
    requires s.Valid() && PropagatesOnly(acts)
    ensures Run(s, acts).links == s.links && Run(s, acts).nodes.Keys == s.nodes.Keys
    ensures forall n, b :: Run(s, acts).HasSpent(n, b) <==> s.HasSpent(n, b)
    ensures forall n, b :: s.Holds(n, b) ==> Run(s, acts).Holds(n, b)
    decreases |acts|
  {
    if acts != [] {
      ExecValid(s, acts[0]);
      PropagateFrame(s, acts[0]);
      RunFrame(Exec(s, acts[0]), acts[1..]);
    }
  }

  /** One propagation creates no holding that its start state could not already carry there. */
  lemma StepReaches(s: State, a: Action, n: string, b: string)
    requires s.Valid() && a.Propagate? && Exec(s, a).Holds(n, b)
    ensures Reaches(s, b, n)
  {
    ExecHolds(s, a, n, b);
    if s.Holds(n, b) {
      assert Carries(s, b, [n]) && [n][|[n]| - 1] == n;
    } else {
      var path := [a.src, n];
      assert Carries(s, b, path) && path[|path| - 1] == n;
    }
  }

  /** A chain to a node prolongs any chain of links and non-spenders that starts at that node. */
  lemma Prolong(s: State, b: string, lead: seq<string>, path: seq<string>)
    requires Carries(s, b, lead) && path != [] && lead[|lead| - 1] == path[0]
    requires forall i | 1 <= i < |path| :: s.Up(path[i - 1], path[i]) && path[i] in s.nodes && !s.HasSpent(path[i], b)
    ensures Reaches(s, b, path[|path| - 1])
  {
    var whole := lead + path[1..];
    forall i | |lead| <= i < |whole|
      ensures s.Up(whole[i - 1], whole[i]) && whole[i] in s.nodes && !s.HasSpent(whole[i], b)
    {
      var j := i - |lead| + 1;
      assert whole[i] == path[j] && whole[i - 1] == path[j - 1];
    }
    assert Carries(s, b, whole);
    assert whole[|whole| - 1] == path[|path| - 1];
  }

  lemma ReachesBack(s: State, a: Action, n: string, b: string)
    requires s.Valid() && a.Propagate? && Reaches(Exec(s, a), b, n)
    ensures Reaches(s, b, n)
  {
    var t := Exec(s, a);
    var path :| Carries(t, b, path) && path[|path| - 1] == n;
    StepReaches(s, a, path[0], b);
    PropagateFrame(s, a);
    var lead :| Carries(s, b, lead) && lead[|lead| - 1] == path[0];
    forall i | 1 <= i < |path|
      ensures s.Up(path[i - 1], path[i]) && path[i] in s.nodes && !s.HasSpent(path[i], b)
    {
      assert t.Up(path[i - 1], path[i]) && !t.HasSpent(path[i], b);
    }
    Prolong(s, b, lead, path);
  }

  lemma {:induction false} HeldOnlyIfReached(s: State, acts: seq<Action>, n: string, b: string)
    requires s.Valid() && PropagatesOnly(acts) && Run(s, acts).Holds(n, b)
    ensures Reaches(s, b, n)
    decreases |acts|
  {
    if acts == [] {
      assert Carries(s, b, [n]) && [n][|[n]| - 1] == n;
    } else {
      ExecValid(s, acts[0]);
      HeldOnlyIfReached(Exec(s, acts[0]), acts[1..], n, b);
      ReachesBack(s, acts[0], n, b);
    }
  }

  lemma QuiescentEdge(s: State, n: string, m: string, b: string)
    requires s.Valid() && Quiescent(s) && s.Up(n, m) && n in s.nodes && m in s.nodes
    requires s.Holds(n, b) && !s.HasSpent(m, b)
    ensures s.Holds(m, b)
  {
    assert !Enabled(s, Propagate(n, m));
    assert b in s.nodes[n].ledger && b !in Deliverable(s.nodes[n], s.nodes[m]);
  }

  lemma {:induction false} QuiescentCarries(s: State, b: string, path: seq<string>)
    requires s.Valid() && Quiescent(s) && Carries(s, b, path)
    ensures s.Holds(path[|path| - 1], b)
    decreases |path|
  {
    var k := |path| - 1;
    if k > 0 {
      QuiescentCarries(s, b, path[..k]);
      assert s.Up(path[k - 1], path[k]);
      QuiescentEdge(s, path[k - 1], path[k], b);
    }
  }

  /** Closed form: once propagation is exhausted a node holds exactly what could be carried to it at the start. */
  lemma QuiescentExactly(s: State, acts: seq<Action>, n: string, b: string)
    requires s.Valid() && PropagatesOnly(acts) && Quiescent(Run(s, acts))
    ensures Run(s, acts).Holds(n, b) <==> Reaches(s, b, n)
  {
    var t := Run(s, acts);
    if t.Holds(n, b) {
      HeldOnlyIfReached(s, acts, n, b);
    }
    if Reaches(s, b, n) {
      var path :| Carries(s, b, path) && path[|path| - 1] == n;
      RunFrame(s, acts);
      assert Carries(t, b, path) by {
        forall i | 1 <= i < |path|
          ensures t.Up(path[i - 1], path[i]) && path[i] in t.nodes && !t.HasSpent(path[i], b)
        {
          assert s.Up(path[i - 1], path[i]) && !s.HasSpent(path[i], b);
        }
      }
      QuiescentCarries(t, b, path);
    }
  }

  /** Confluence: all exhausted propagation runs from one state end with the same nodes. */
  lemma GossipConfluent(s: State, left: seq<Action>, right: seq<Action>)
    requires s.Valid() && PropagatesOnly(left) && PropagatesOnly(right)
    requires Quiescent(Run(s, left)) && Quiescent(Run(s, right))
    ensures Run(s, left).nodes == Run(s, right).nodes
  {
    var t, u := Run(s, left), Run(s, right);
    RunFrame(s, left);
    RunFrame(s, right);
    forall n | n in s.nodes ensures t.nodes[n] == u.nodes[n] {
      forall b ensures b in t.nodes[n].ledger <==> b in u.nodes[n].ledger {
        QuiescentExactly(s, left, n, b);
        QuiescentExactly(s, right, n, b);
        assert t.Holds(n, b) <==> u.Holds(n, b);
      }
      forall b ensures b in t.nodes[n].spent <==> b in u.nodes[n].spent {
        assert t.HasSpent(n, b) <==> u.HasSpent(n, b);
      }
      assert t.nodes[n].nodeId == n == u.nodes[n].nodeId;
    }
  }

  lemma RunFirst(s: State, a: Action, rest: seq<Action>)
    requires s.Valid()
    ensures Exec(s, a).Valid() && Run(s, [a] + rest) == Run(Exec(s, a), rest)
  {
    ExecValid(s, a);
    assert ([a] + rest)[1..] == rest;
  }

  lemma PropagateShrinks(s: State, src: string, dst: string, bearers: set<string>)
    requires s.Valid() && Enabled(s, Propagate(src, dst)) && s.Bearers() <= bearers
    ensures |Missing(Exec(s, Propagate(src, dst)), bearers)| < |Missing(s, bearers)|
    ensures Exec(s, Propagate(src, dst)).Bearers() <= bearers
  {
    PropagateProgress(s, src, dst, bearers);
    SubsetCount(Missing(Exec(s, Propagate(src, dst)), bearers), Missing(s, bearers));
    forall b | b in Exec(s, Propagate(src, dst)).Bearers() ensures b in bearers {
      ExecConserves(s, Propagate(src, dst), b);
    }
  }

  /** Propagation can always be carried on until it is exhausted. */
  lemma {:induction false} QuiescenceReachable(s: State, bearers: set<string>) returns (acts: seq<Action>)
    requires s.Valid() && s.Bearers() <= bearers
    ensures PropagatesOnly(acts) && Quiescent(Run(s, acts))
    decreases |Missing(s, bearers)|
  {
    acts := [];
    if src, dst :| Enabled(s, Propagate(src, dst)) {
      PropagateShrinks(s, src, dst, bearers);
      ExecValid(s, Propagate(src, dst));
      var rest := QuiescenceReachable(Exec(s, Propagate(src, dst)), bearers);
      acts := FirstPropagate(s, src, dst, rest);
    }
  }

  lemma FirstPropagate(s: State, src: string, dst: string, rest: seq<Action>) returns (acts: seq<Action>)
    requires s.Valid() && PropagatesOnly(rest) && Exec(s, Propagate(src, dst)).Valid()
    ensures PropagatesOnly(acts) && Run(s, acts) == Run(Exec(s, Propagate(src, dst)), rest)
  {
    RunFirst(s, Propagate(src, dst), rest);
    acts := [Propagate(src, dst)] + rest;
  }

  /** When nothing can propagate, linked nodes that have not spent a bearer all hold it or none does. */
  lemma {:induction false} QuiescentComponent(s: State, b: string, path: seq<string>)
    requires s.Valid() && Quiescent(s) && path != []
    requires forall i | 0 <= i < |path| :: path[i] in s.nodes && !s.HasSpent(path[i], b)
    requires forall i | 1 <= i < |path| :: s.Up(path[i - 1], path[i])
    ensures s.Holds(path[0], b) <==> s.Holds(path[|path| - 1], b)
    decreases |path|
  {
    var k := |path| - 1;
    if k > 0 {
      QuiescentComponent(s, b, path[..k]);
      assert s.Up(path[k - 1], path[k]) && s.Up(path[k], path[k - 1]);
      if s.Holds(path[k - 1], b) { QuiescentEdge(s, path[k - 1], path[k], b); }
      if s.Holds(path[k], b) { QuiescentEdge(s, path[k], path[k - 1], b); }
    }
  }
}
