/** Exactly when some run leaves a live link between a node that has spent a bearer and one that holds it. */
module Desync {
  import opened NetworkSpec
  import opened NetworkRuns
  import opened Settlement

  ghost predicate SyncedOn(s: State, b: string) {
    forall n, m :: LinkSynced(s, n, m, b)
  }

  ghost predicate CanDesync(s: State, b: string)
    requires s.Valid()
  {
    exists acts :: !SyncedOn(Run(s, acts), b)
  }

  /** A holder, another node that has not spent the bearer, and a third node. */
  ghost predicate Triple(s: State, b: string, n: string, u: string, q: string) {
    s.Holds(n, b) && u in s.nodes && q in s.nodes && n != u && q != n && q != u && !s.HasSpent(u, b)
  }

  ghost predicate AtRisk(s: State, b: string) {
    exists n, u, q :: Triple(s, b, n, u, q)
  }

  // ---- At risk, a violation can be reached --------------------------------------------------------------

  function Rejoining(n: string, m: string): seq<Action> {
    [LinkDown(n, m), LinkUp(n, m)]
  }

  /** Cut and restore one link: its two ends merge, and no other link changes. */
  lemma Rejoin(s: State, n: string, m: string) returns (t: State, acts: seq<Action>)
    requires s.Valid() && n != m && n in s.nodes && m in s.nodes
    ensures acts == Rejoining(n, m) && t.Valid() && t == Run(s, acts) && t.nodes.Keys == s.nodes.Keys
    ensures forall x, b :: t.HasSpent(x, b) <==> s.HasSpent(x, b)
    ensures forall x, b :: t.Holds(x, b) <==>
              if x == n || x == m
              then (s.Holds(n, b) || s.Holds(m, b)) && !s.HasSpent(n, b) && !s.HasSpent(m, b)
              else s.Holds(x, b)
    ensures forall x, y :: t.Up(x, y) <==> s.Up(x, y) || (x == n && y == m) || (x == m && y == n)
  {
    CutFrame(s, n, m);
    var cut := Exec(s, LinkDown(n, m));
    RunTwo(s, LinkDown(n, m), LinkUp(n, m));
    ExecValid(cut, LinkUp(n, m));
    t, acts := Exec(cut, LinkUp(n, m)), [LinkDown(n, m), LinkUp(n, m)];
    forall x, b ensures (t.HasSpent(x, b) <==> s.HasSpent(x, b)) &&
                        (t.Holds(x, b) <==>
                           if x == n || x == m
                           then (s.Holds(n, b) || s.Holds(m, b)) && !s.HasSpent(n, b) && !s.HasSpent(m, b)
                           else s.Holds(x, b))
    {
      JoinSpreads(cut, n, m, x, b);
    }
    forall x, y ensures t.Up(x, y) <==> s.Up(x, y) || (x == n && y == m) || (x == m && y == n) {
      ExecLinks(cut, LinkUp(n, m), x, y);
    }
  }

  /** The third node has already spent: link it to the second, then let the holder pass the bearer on. */
  lemma StaleNeighbour(s: State, b: string, n: string, u: string, q: string)
    requires s.Valid() && s.Disjoint() && Triple(s, b, n, u, q) && s.HasSpent(q, b)
    ensures !SyncedOn(Run(s, Rejoining(q, u) + Rejoining(n, u)), b)
  {
    var s1, first := Rejoin(s, q, u);
    var s2, second := Rejoin(s1, n, u);
    RunSplit(s, first, second);
    assert s1.Holds(n, b) && s2.Holds(u, b) && s2.HasSpent(q, b) && s2.Up(q, u);
    assert !LinkSynced(s2, q, u, b);
  }

  lemma SpendAlone(s: State, b: string, n: string, u: string) returns (t: State, acts: seq<Action>)
    requires s.Valid() && s.Holds(n, b) && u != n
    ensures acts == [SpendAt(n, b)] && t.Valid() && t == Run(s, acts)
    ensures t.nodes.Keys == s.nodes.Keys && t.HasSpent(n, b)
    ensures forall x :: x != n ==> (t.HasSpent(x, b) <==> s.HasSpent(x, b))
    ensures t.Holds(u, b) <==> s.Holds(u, b) && !s.Up(n, u)
    ensures forall x, y :: t.Up(x, y) <==> s.Up(x, y)
  {
    var a := SpendAt(n, b);
    ExecOne(s, a);
    ExecValid(s, a);
    t, acts := Exec(s, a), [a];
    ExecSpent(s, a, n, b);
    ExecHolds(s, a, u, b);
    forall x ensures x != n ==> (t.HasSpent(x, b) <==> s.HasSpent(x, b)) {
      ExecSpent(s, a, x, b);
    }
    forall x, y ensures t.Up(x, y) <==> s.Up(x, y) {
      ExecLinks(s, a, x, y);
    }
  }

  /** Share with the second node, part, link to the third. */
  lemma ShareAndTurn(s: State, b: string, n: string, u: string, q: string) returns (t: State, acts: seq<Action>)
    requires s.Valid() && s.Disjoint() && Triple(s, b, n, u, q) && !s.HasSpent(q, b)
    ensures acts == Rejoining(n, u) + [LinkDown(n, u)] + Rejoining(n, q)
    ensures t.Valid() && t == Run(s, acts) && t.nodes.Keys == s.nodes.Keys
    ensures t.Holds(n, b) && t.Holds(u, b) && !t.Up(n, u) && t.Up(n, q)
    ensures !t.HasSpent(u, b) && !t.HasSpent(q, b)
  {
    var s1, share := Rejoin(s, n, u);
    CutFrame(s1, n, u);
    ExecOne(s1, LinkDown(n, u));
    RunSplit(s, share, [LinkDown(n, u)]);
    var s2 := Exec(s1, LinkDown(n, u));
    var turn;
    t, turn := Rejoin(s2, n, q);
    acts := (share + [LinkDown(n, u)]) + turn;
    RunSplit(s, share + [LinkDown(n, u)], turn);
    assert !s.HasSpent(n, b);
    assert s1.Holds(n, b) && s1.Holds(u, b);
  }

  /** Share with `u`, part from it, link to `q`, spend, and let `u` link to `q`. */
  function LateTrace(n: string, u: string, q: string, b: string): seq<Action> {
    Rejoining(n, u) + [LinkDown(n, u)] + Rejoining(n, q) + [SpendAt(n, b)] + Rejoining(u, q)
  }

  /** Nobody on the way has spent: spend out of sight of the second node, which then passes the bearer to the third. */
  lemma LateCopy(s: State, b: string, n: string, u: string, q: string)
    requires s.Valid() && s.Disjoint() && Triple(s, b, n, u, q) && !s.HasSpent(q, b)
    ensures !SyncedOn(Run(s, LateTrace(n, u, q, b)), b)
  {
    var s1, share := ShareAndTurn(s, b, n, u, q);
    var s2, spend := SpendAlone(s1, b, n, u);
    var s3, pass := Rejoin(s2, u, q);
    RunSplit(s, share, spend);
    RunSplit(s, share + spend, pass);
    assert s3.Holds(q, b) && s3.HasSpent(n, b) && s3.Up(n, q);
    assert !LinkSynced(s3, n, q, b);
    assert share + spend + pass == LateTrace(n, u, q, b);
  }

  // ---- Otherwise no run reaches one -----------------------------------------------------------------------

  /** A node that gains a bearer had not spent it and gained it from a holder. */
  lemma Gains(s: State, a: Action, n: string, b: string) returns (from: string)
    requires s.Valid() && s.Disjoint() && Exec(s, a).Holds(n, b) && !s.Holds(n, b)
    ensures s.Holds(from, b) && from != n && n in s.nodes && !s.HasSpent(n, b)
    ensures a.LinkUp? ==> (a.n == n && a.m == from) || (a.n == from && a.m == n)
    ensures a.LinkUp? || a.Propagate?
  {
    ExecHolds(s, a, n, b);
    match a
    case LinkUp(p, q) => from := if n == p then q else p;
    case Propagate(src, _) => from := src;
    case _ => from := n;
  }

  lemma RiskIsOld(s: State, a: Action, b: string)
    requires s.Valid() && s.Disjoint() && AtRisk(Exec(s, a), b)
    ensures AtRisk(s, b)
  {
    var t := Exec(s, a);
    var n, u, q :| Triple(t, b, n, u, q);
    ExecValid(s, a);
    ExecSpent(s, a, u, b);
    if s.Holds(n, b) {
      assert Triple(s, b, n, u, q);
    } else {
      var from := Gains(s, a, n, b);
      assert Triple(s, b, from, n, if from == u then q else u);
    }
  }

  lemma NoTriple(s: State, b: string, n: string, u: string, q: string)
    requires !AtRisk(s, b)
    ensures !Triple(s, b, n, u, q)
  {
  }

  /** With no risk, no call joins a spender to a holder. */
  lemma StaysSynced(s: State, a: Action, b: string, h: string, z: string)
    requires s.Valid() && s.Disjoint() && SyncedOn(s, b) && !AtRisk(s, b)
    requires Exec(s, a).Up(h, z) && Exec(s, a).HasSpent(z, b)
    ensures !Exec(s, a).Holds(h, b)
  {
    assert LinkSynced(s, h, z, b) && LinkSynced(s, z, h, b);
    ExecValid(s, a);
    ExecLinks(s, a, h, z);
    ExecSpent(s, a, z, b);
    ExecHolds(s, a, h, b);
    if Exec(s, a).Holds(h, b) && !s.Holds(h, b) {
      var from := Gains(s, a, h, b);
      NoTriple(s, b, from, h, z);
    }
  }

  lemma RisklessStep(s: State, a: Action, b: string)
    requires s.Valid() && s.Disjoint() && SyncedOn(s, b) && !AtRisk(s, b)
    ensures Exec(s, a).Valid() && Exec(s, a).Disjoint() && SyncedOn(Exec(s, a), b) && !AtRisk(Exec(s, a), b)
  {
    var t := Exec(s, a);
    ExecValid(s, a);
    ExecKeepsDisjoint(s, a);
    if AtRisk(t, b) {
      RiskIsOld(s, a, b);
    }
    forall n, m ensures LinkSynced(t, n, m, b) {
      if t.Up(n, m) {
        assert t.Up(m, n);
        if t.HasSpent(m, b) {
          StaysSynced(s, a, b, n, m);
        }
        if t.HasSpent(n, b) {
          StaysSynced(s, a, b, m, n);
        }
      }
    }
  }

  lemma {:induction false} RisklessRun(s: State, acts: seq<Action>, b: string)
    requires s.Valid() && s.Disjoint() && SyncedOn(s, b) && !AtRisk(s, b)
    ensures SyncedOn(Run(s, acts), b)
    decreases |acts|
  {
    if acts != [] {
      RisklessStep(s, acts[0], b);
      RisklessRun(Exec(s, acts[0]), acts[1..], b);
    }
  }

  /** The pairwise checker can be made to fail on a bearer exactly when it fails already or the bearer is at risk. */
  lemma DesyncExactly(s: State, b: string)
    requires s.Valid() && s.Disjoint()
    ensures CanDesync(s, b) <==> !SyncedOn(s, b) || AtRisk(s, b)
  {
    if !SyncedOn(s, b) {
      assert !SyncedOn(Run(s, []), b);
    } else if AtRisk(s, b) {
      var n, u, q :| Triple(s, b, n, u, q);
      if s.HasSpent(q, b) {
        StaleNeighbour(s, b, n, u, q);
      } else {
        LateCopy(s, b, n, u, q);
      }
    } else {
      forall acts ensures SyncedOn(Run(s, acts), b) {
        RisklessRun(s, acts, b);
      }
    }
  }

  lemma SyncedOnEach(s: State)
    ensures PairwiseSynced(s) <==> forall b :: SyncedOn(s, b)
  {
    if forall b :: SyncedOn(s, b) {
      forall n, m, b ensures LinkSynced(s, n, m, b) {
        assert SyncedOn(s, b);
      }
    }
  }

  ghost predicate AlwaysSynced(s: State)
    requires s.Valid()
  {
    forall acts :: PairwiseSynced(Run(s, acts))
  }

  /** Pairwise synchronisation is an invariant of all runs exactly when it holds and no bearer is at risk. */
  lemma AlwaysSyncedExactly(s: State)
    requires s.Valid() && s.Disjoint()
    ensures AlwaysSynced(s) <==> PairwiseSynced(s) && forall b :: !AtRisk(s, b)
  {
    if AlwaysSynced(s) {
      assert PairwiseSynced(Run(s, []));
      forall b ensures !AtRisk(s, b) {
        DesyncExactly(s, b);
        forall acts ensures SyncedOn(Run(s, acts), b) {
          SyncedOnEach(Run(s, acts));
        }
      }
    }
    if PairwiseSynced(s) && forall b :: !AtRisk(s, b) {
      forall acts ensures PairwiseSynced(Run(s, acts)) {
        SyncedOnEach(s);
        forall b ensures SyncedOn(Run(s, acts), b) {
          RisklessRun(s, acts, b);
        }
        SyncedOnEach(Run(s, acts));
      }
    }
  }
}
