/** What every run of calls on the central network keeps: conservation, the spend audit, exposure and finality. */
module NetworkRuns {
  import opened Core
  import opened NetworkSpec

  /** A network before its first call: bearers are placed, nothing is spent, the audit trail is empty. */
  ghost predicate Initial(s: State) {
    && s.Valid()
    && (forall n | n in s.nodes :: s.nodes[n].spent == {})
    && s.log == []
  }

  // ---- Conservation --------------------------------------------------------------------------

  lemma BearersSeen(s: State, b: string)
    ensures b in s.Bearers() <==> exists n :: s.Holds(n, b) || s.HasSpent(n, b)
  {
    if n :| s.Holds(n, b) || s.HasSpent(n, b) {
      assert n in s.nodes && b in s.nodes[n].ledger + s.nodes[n].spent;
    }
    if b in s.Bearers() {
      var n :| n in s.nodes && b in s.nodes[n].ledger + s.nodes[n].spent;
      assert s.Holds(n, b) || s.HasSpent(n, b);
    }
  }

  lemma ExecConserves(s: State, a: Action, b: string)
    requires s.Valid()
    ensures b in Exec(s, a).Bearers() <==> b in s.Bearers()
  {
    BearersSeen(s, b);
    BearersSeen(Exec(s, a), b);
    if n :| s.Holds(n, b) || s.HasSpent(n, b) {
      ExecSpent(s, a, n, b);
      if !s.HasSpent(n, b) && !Exec(s, a).Holds(n, b) {
        SpentWhenLost(s, a, n, b);
      }
    }
    if n :| Exec(s, a).Holds(n, b) || Exec(s, a).HasSpent(n, b) {
      SeenBefore(s, a, n, b);
    }
  }

  lemma SeenBefore(s: State, a: Action, n: string, b: string)
    requires s.Valid() && (Exec(s, a).Holds(n, b) || Exec(s, a).HasSpent(n, b))
    ensures exists m :: s.Holds(m, b) || s.HasSpent(m, b)
  {
    ExecSpent(s, a, n, b);
    ExecHolds(s, a, n, b);
    if Exec(s, a).Holds(n, b) && !s.Holds(n, b) {
      match a
      case LinkUp(p, q) => assert s.Holds(p, b) || s.Holds(q, b);
      case Propagate(src, _) => assert s.Holds(src, b);
      case _ => assert false;
    } else {
      assert s.Holds(n, b) || s.HasSpent(n, b);
    }
  }

  /** A bearer leaves a ledger only when some node has spent it. */
  lemma SpentWhenLost(s: State, a: Action, n: string, b: string)
    requires s.Valid() && s.Holds(n, b) && !Exec(s, a).Holds(n, b)
    ensures exists m :: Exec(s, a).HasSpent(m, b)
  {
    var t := Exec(s, a);
    ExecHolds(s, a, n, b);
    match a
    case LinkDown(_, _) =>
    case LinkUp(p, q) =>
      var m := if s.HasSpent(p, b) then p else q;
      ExecSpent(s, a, m, b);
      assert t.HasSpent(m, b);
    case Propagate(_, _) =>
    case SpendAt(p, _) =>
      ExecSpent(s, a, p, b);
      assert t.HasSpent(p, b);
    case ConversionDay(p) =>
      var m :| m in s.Members(p) && m in s.nodes && b in s.nodes[m].spent;
      ExecSpent(s, a, m, b);
      assert t.HasSpent(m, b);
  }

  lemma {:induction false} RunConserves(s: State, acts: seq<Action>)
    requires s.Valid()
    ensures Run(s, acts).Bearers() == s.Bearers()
    decreases |acts|
  {
    if acts != [] {
      ExecValid(s, acts[0]);
      forall b ensures b in Exec(s, acts[0]).Bearers() <==> b in s.Bearers() {
        ExecConserves(s, acts[0], b);
      }
      RunConserves(Exec(s, acts[0]), acts[1..]);
    }
  }

  // ---- Spends are final, a spender never holds what it spent ------------------------------------

  lemma ExecKeepsDisjoint(s: State, a: Action)
    requires s.Valid() && s.Disjoint()
    ensures Exec(s, a).Disjoint()
  {
    var t := Exec(s, a);
    ExecValid(s, a);
    forall n, b ensures !(t.Holds(n, b) && t.HasSpent(n, b)) {
      ExecHolds(s, a, n, b);
      ExecSpent(s, a, n, b);
    }
    forall n | n in t.nodes ensures t.nodes[n].ledger !! t.nodes[n].spent {
      assert forall b :: b in t.nodes[n].ledger && b in t.nodes[n].spent ==> t.Holds(n, b) && t.HasSpent(n, b);
    }
  }

  lemma {:induction false} RunKeepsDisjoint(s: State, acts: seq<Action>)
    requires s.Valid() && s.Disjoint()
    ensures Run(s, acts).Disjoint()
    decreases |acts|
  {
    if acts != [] {
      ExecValid(s, acts[0]);
      ExecKeepsDisjoint(s, acts[0]);
      RunKeepsDisjoint(Exec(s, acts[0]), acts[1..]);
    }
  }

  lemma {:induction false} RunKeepsSpent(s: State, acts: seq<Action>, n: string, b: string)
    requires s.Valid() && s.HasSpent(n, b)
    ensures Run(s, acts).HasSpent(n, b)
    decreases |acts|
  {
    if acts != [] {
      ExecValid(s, acts[0]);
      ExecSpent(s, acts[0], n, b);
      RunKeepsSpent(Exec(s, acts[0]), acts[1..], n, b);
    }
  }

  // ---- The audit trail counts spends exactly ---------------------------------------------------

  /** Number of logged spends of a bearer. */
  function SpendsOf(log: seq<LogEntry>, b: string): nat {
    if log == [] then 0
    else SpendsOf(log[..|log| - 1], b) + (if log[|log| - 1].SpendLogged? && log[|log| - 1].bearer == b then 1 else 0)
  }

  function TotalSpends(log: seq<LogEntry>): nat {
    if log == [] then 0
    else TotalSpends(log[..|log| - 1]) + (if log[|log| - 1].SpendLogged? then 1 else 0)
  }

  function SpentPairs(s: State): set<(string, string)> {
    set n, b | n in s.nodes && b in s.nodes[n].spent :: (n, b)
  }

  ghost predicate Audited(s: State) {
    && (forall b :: SpendsOf(s.log, b) == |s.Spenders(b)|)
    && TotalSpends(s.log) == |SpentPairs(s)|
  }

  lemma StepLog(s: State, a: Action)
    requires s.Valid() && Enabled(s, a)
    ensures |Step(s, a).log| == |s.log| + 1 && Step(s, a).log[..|s.log|] == s.log
    ensures var e := Step(s, a).log[|s.log|];
            if a.SpendAt? then e == SpendLogged(a.n, a.bearer) else !e.SpendLogged?
  {
  }

  lemma ExecKeepsAudit(s: State, a: Action)
    requires s.Valid() && s.Disjoint() && Audited(s)
    ensures Audited(Exec(s, a))
  {
    var t := Exec(s, a);
    ExecValid(s, a);
    if Enabled(s, a) {
      StepLog(s, a);
      forall n, b ensures t.HasSpent(n, b) <==> s.HasSpent(n, b) || (a == SpendAt(n, b) && s.Holds(n, b)) {
        ExecSpent(s, a, n, b);
      }
      AuditGrows(s, t, a);
    }
  }

  lemma AuditGrows(s: State, t: State, a: Action)
    requires s.Disjoint() && Audited(s) && Enabled(s, a)
    requires forall n, b :: t.HasSpent(n, b) <==> s.HasSpent(n, b) || (a == SpendAt(n, b) && s.Holds(n, b))
    requires |t.log| == |s.log| + 1 && t.log[..|s.log|] == s.log
    requires var e := t.log[|s.log|];
             if a.SpendAt? then e == SpendLogged(a.n, a.bearer) else !e.SpendLogged?
    ensures Audited(t)
  {
    forall b ensures SpendsOf(t.log, b) == |t.Spenders(b)| {
      SpendersGrow(s, t, a, b);
    }
    PairsGrow(s, t, a);
  }

  lemma SpendersGrow(s: State, t: State, a: Action, b: string)
    requires s.Disjoint() && Enabled(s, a)
    requires forall n, c :: t.HasSpent(n, c) <==> s.HasSpent(n, c) || (a == SpendAt(n, c) && s.Holds(n, c))
    ensures |t.Spenders(b)| == |s.Spenders(b)| + (if a.SpendAt? && a.bearer == b then 1 else 0)
  {
    assert forall n :: n in t.Spenders(b) <==> t.HasSpent(n, b);
    assert forall n :: n in s.Spenders(b) <==> s.HasSpent(n, b);
    if a.SpendAt? && a.bearer == b {
      assert !s.HasSpent(a.n, b);
      assert t.Spenders(b) == s.Spenders(b) + {a.n};
    } else {
      assert t.Spenders(b) == s.Spenders(b);
    }
  }

  lemma PairsGrow(s: State, t: State, a: Action)
    requires s.Disjoint() && Enabled(s, a)
    requires forall n, c :: t.HasSpent(n, c) <==> s.HasSpent(n, c) || (a == SpendAt(n, c) && s.Holds(n, c))
    ensures |SpentPairs(t)| == |SpentPairs(s)| + (if a.SpendAt? then 1 else 0)
  {
    assert forall n, b :: (n, b) in SpentPairs(t) <==> t.HasSpent(n, b);
    assert forall n, b :: (n, b) in SpentPairs(s) <==> s.HasSpent(n, b);
    if a.SpendAt? {
      assert !s.HasSpent(a.n, a.bearer);
      assert SpentPairs(t) == SpentPairs(s) + {(a.n, a.bearer)};
    } else {
      assert SpentPairs(t) == SpentPairs(s);
    }
  }

  lemma {:induction false} RunKeepsAudit(s: State, acts: seq<Action>)
    requires s.Valid() && s.Disjoint() && Audited(s)
    ensures Audited(Run(s, acts))
    decreases |acts|
  {
    if acts != [] {
      ExecValid(s, acts[0]);
      ExecKeepsDisjoint(s, acts[0]);
      ExecKeepsAudit(s, acts[0]);
      RunKeepsAudit(Exec(s, acts[0]), acts[1..]);
    }
  }

  lemma InitialAudit(s: State)
    requires Initial(s)
    ensures s.Disjoint() && Audited(s)
  {
    forall b ensures s.Spenders(b) == {} {
      assert forall n :: n !in s.Spenders(b);
    }
    assert SpentPairs(s) == {};
  }

  /** The invariants of every run from an initial network, over any nodes and bearers. */
  lemma RunInvariants(s: State, acts: seq<Action>)
    requires Initial(s)
    ensures var t := Run(s, acts);
            && t.Valid() && t.Disjoint()
            && t.Bearers() == s.Bearers()
            && (forall b :: SpendsOf(t.log, b) == |t.Spenders(b)|)
            && TotalSpends(t.log) <= |s.nodes.Keys| * |s.Bearers()|
  {
    var t := Run(s, acts);
    InitialAudit(s);
    RunKeepsDisjoint(s, acts);
    RunConserves(s, acts);
    RunKeepsAudit(s, acts);
    SpendBound(t);
  }

  lemma SpendBound(t: State)
    requires TotalSpends(t.log) == |SpentPairs(t)|
    ensures TotalSpends(t.log) <= |t.nodes.Keys| * |t.Bearers()|
  {
    forall p | p in SpentPairs(t) ensures p.0 in t.nodes.Keys && p.1 in t.Bearers() {
      assert t.HasSpent(p.0, p.1);
      BearersSeen(t, p.1);
    }
    PairCount(t.nodes.Keys, t.Bearers(), SpentPairs(t));
  }

  // ---- Exposure: when a bearer can still be spent (again) ----------------------------------------

  ghost predicate Absent(s: State, b: string) {
    forall n :: !s.Holds(n, b)
  }

  /** A bearer no ledger holds never comes back, and its spenders are settled. */
  lemma {:induction false} AbsentForever(s: State, acts: seq<Action>, b: string)
    requires s.Valid() && Absent(s, b)
    ensures Absent(Run(s, acts), b)
    ensures Run(s, acts).Spenders(b) == s.Spenders(b)
    decreases |acts|
  {
    if acts != [] {
      var t := Exec(s, acts[0]);
      ExecValid(s, acts[0]);
      forall n ensures !t.Holds(n, b) && (t.HasSpent(n, b) <==> s.HasSpent(n, b)) {
        ExecHolds(s, acts[0], n, b);
        ExecSpent(s, acts[0], n, b);
        assert !s.Holds(n, b);
        if acts[0].LinkUp? {
          assert !s.Holds(acts[0].n, b) && !s.Holds(acts[0].m, b);
        }
        if acts[0].Propagate? {
          assert !s.Holds(acts[0].src, b);
        }
      }
      assert forall n :: (n in t.Spenders(b) <==> t.HasSpent(n, b)) && (n in s.Spenders(b) <==> s.HasSpent(n, b));
      AbsentForever(t, acts[1..], b);
    }
  }

  /** Some continuation gives the bearer a spender it does not have now. */
  ghost predicate CanGainSpender(s: State, b: string)
    requires s.Valid()
  {
    exists acts, n :: !s.HasSpent(n, b) && Run(s, acts).HasSpent(n, b)
  }

  lemma ExecOne(s: State, a: Action)
    requires s.Valid()
    ensures Run(s, [a]) == Exec(s, a)
  {
    ExecValid(s, a);
    assert Run(Exec(s, a), [a][1..]) == Exec(s, a);
  }

  /** Exact exposure: a further spend is possible exactly while some ledger still holds the bearer. */
  lemma ExposureExact(s: State, b: string)
    requires s.Valid() && s.Disjoint()
    ensures CanGainSpender(s, b) <==> exists n :: s.Holds(n, b)
  {
    if n :| s.Holds(n, b) {
      ExecOne(s, SpendAt(n, b));
      ExecSpent(s, SpendAt(n, b), n, b);
      assert !s.HasSpent(n, b) && Run(s, [SpendAt(n, b)]).HasSpent(n, b);
    } else {
      forall acts, n | Run(s, acts).HasSpent(n, b) ensures s.HasSpent(n, b) {
        AbsentForever(s, acts, b);
        assert n in Run(s, acts).Spenders(b);
      }
    }
  }

  ghost predicate DoubleSpent(s: State, b: string) {
    exists n, m :: n != m && s.HasSpent(n, b) && s.HasSpent(m, b)
  }

  ghost predicate CanDoubleSpend(s: State, b: string)
    requires s.Valid()
  {
    exists acts :: DoubleSpent(Run(s, acts), b)
  }

  /** The disconnection trace: reconnect to share the bearer, disconnect, spend on both sides. */
  function SplitSpend(n: string, m: string, b: string): seq<Action> {
    [LinkDown(n, m), LinkUp(n, m), LinkDown(n, m)] + [SpendAt(n, b), SpendAt(m, b)]
  }

  lemma RunThree(s: State, a: Action, b: Action, c: Action)
    requires s.Valid()
    ensures Exec(s, a).Valid() && Exec(Exec(s, a), b).Valid()
    ensures Run(s, [a, b, c]) == Exec(Exec(Exec(s, a), b), c)
  {
    ExecValid(s, a);
    ExecValid(Exec(s, a), b);
    assert [a, b, c] == [a] + [b, c] && [b, c] == [b] + [c];
    RunSplit(s, [a], [b, c]);
    RunSplit(Exec(s, a), [b], [c]);
    ExecOne(s, a);
    ExecOne(Exec(s, a), b);
    ExecOne(Exec(Exec(s, a), b), c);
  }

  lemma RunTwo(s: State, a: Action, b: Action)
    requires s.Valid()
    ensures Exec(s, a).Valid()
    ensures Run(s, [a, b]) == Exec(Exec(s, a), b)
  {
    ExecValid(s, a);
    assert [a, b] == [a] + [b];
    RunSplit(s, [a], [b]);
    ExecOne(s, a);
    ExecOne(Exec(s, a), b);
  }

  /** Cutting and restoring a link, then cutting it again, leaves both ends holding an unspent bearer. */
  lemma Share(s: State, n: string, m: string, b: string) returns (t: State)
    requires s.Valid() && n != m && m in s.nodes && s.Holds(n, b)
    requires forall p :: !s.HasSpent(p, b)
    ensures t.Valid() && t == Run(s, [LinkDown(n, m), LinkUp(n, m), LinkDown(n, m)])
    ensures t.Holds(n, b) && t.Holds(m, b) && !t.Up(n, m)
  {
    RunThree(s, LinkDown(n, m), LinkUp(n, m), LinkDown(n, m));
    var s1 := Exec(s, LinkDown(n, m));
    ExecLinks(s, LinkDown(n, m), n, m);
    SpendFree(s, LinkDown(n, m), n, b);
    SpendFree(s, LinkDown(n, m), m, b);
    ExecHolds(s, LinkDown(n, m), n, b);
    ExecValid(s, LinkDown(n, m));
    var s2 := Exec(s1, LinkUp(n, m));
    ExecLinks(s1, LinkUp(n, m), n, m);
    ExecHolds(s1, LinkUp(n, m), n, b);
    ExecHolds(s1, LinkUp(n, m), m, b);
    t := Exec(s2, LinkDown(n, m));
    ExecLinks(s2, LinkDown(n, m), n, m);
    ExecHolds(s2, LinkDown(n, m), n, b);
    ExecHolds(s2, LinkDown(n, m), m, b);
    ExecValid(s2, LinkDown(n, m));
  }

  lemma SpendBoth(s: State, n: string, m: string, b: string)
    requires s.Valid() && n != m && s.Holds(n, b) && s.Holds(m, b) && !s.Up(n, m)
    ensures Run(s, [SpendAt(n, b), SpendAt(m, b)]).HasSpent(n, b)
    ensures Run(s, [SpendAt(n, b), SpendAt(m, b)]).HasSpent(m, b)
  {
    RunTwo(s, SpendAt(n, b), SpendAt(m, b));
    ExecHolds(s, SpendAt(n, b), m, b);
    ExecSpent(s, SpendAt(n, b), n, b);
    ExecSpent(Exec(s, SpendAt(n, b)), SpendAt(m, b), n, b);
    ExecSpent(Exec(s, SpendAt(n, b)), SpendAt(m, b), m, b);
  }

  /** Run that trace where `n` holds a bearer nobody has spent: both ends end up having spent it. */
  lemma SplitSpendWorks(s: State, n: string, m: string, b: string)
    requires s.Valid() && n != m && m in s.nodes && s.Holds(n, b)
    requires forall p :: !s.HasSpent(p, b)
    ensures Run(s, SplitSpend(n, m, b)).HasSpent(n, b)
    ensures Run(s, SplitSpend(n, m, b)).HasSpent(m, b)
  {
    var t := Share(s, n, m, b);
    SpendBoth(t, n, m, b);
    RunSplit(s, [LinkDown(n, m), LinkUp(n, m), LinkDown(n, m)], [SpendAt(n, b), SpendAt(m, b)]);
  }

  lemma SpendFree(s: State, a: Action, n: string, b: string)
    requires s.Valid() && !a.SpendAt?
    ensures Exec(s, a).HasSpent(n, b) <==> s.HasSpent(n, b)
  {
    ExecSpent(s, a, n, b);
  }

  /** Exact reach of a double spend: it happened already, or a bearer is still held and there are two nodes. */
  lemma DoubleSpendExact(s: State, b: string)
    requires s.Valid() && s.Disjoint()
    ensures CanDoubleSpend(s, b) <==>
            DoubleSpent(s, b) || ((exists n :: s.Holds(n, b)) && exists n, m :: n in s.nodes && m in s.nodes && n != m)
  {
    if DoubleSpent(s, b) {
      assert DoubleSpent(Run(s, []), b);
    } else if n :| s.Holds(n, b) {
      if exists p, q :: p in s.nodes && q in s.nodes && p != q {
        HeldReachesDoubleSpend(s, n, b);
      } else {
        forall acts ensures !DoubleSpent(Run(s, acts), b) {
        }
      }
    } else {
      forall acts ensures !DoubleSpent(Run(s, acts), b) {
        AbsentForever(s, acts, b);
        assert forall n :: Run(s, acts).HasSpent(n, b) ==> n in Run(s, acts).Spenders(b);
        assert forall n :: n in s.Spenders(b) ==> s.HasSpent(n, b);
      }
    }
  }

  lemma HeldReachesDoubleSpend(s: State, n: string, b: string)
    requires s.Valid() && s.Disjoint() && s.Holds(n, b)
    requires exists p, q :: p in s.nodes && q in s.nodes && p != q
    ensures CanDoubleSpend(s, b)
  {
    if p :| s.HasSpent(p, b) {
      ExecOne(s, SpendAt(n, b));
      ExecSpent(s, SpendAt(n, b), n, b);
      ExecSpent(s, SpendAt(n, b), p, b);
      assert !s.HasSpent(n, b);
      assert DoubleSpent(Run(s, [SpendAt(n, b)]), b);
    } else {
      var p, q :| p in s.nodes && q in s.nodes && p != q;
      var m := if p == n then q else p;
      SplitSpendWorks(s, n, m, b);
      assert DoubleSpent(Run(s, SplitSpend(n, m, b)), b);
    }
  }

  // ---- Links going down and up ----------------------------------------------------------------------

  lemma CutFrame(s: State, n: string, m: string)
    requires s.Valid() && n != m && n in s.nodes && m in s.nodes
    ensures var t := Exec(s, LinkDown(n, m));
            && t.Valid() && t.nodes.Keys == s.nodes.Keys && Enabled(t, LinkUp(n, m))
            && (forall x, b :: (t.Holds(x, b) <==> s.Holds(x, b)) && (t.HasSpent(x, b) <==> s.HasSpent(x, b)))
            && forall x, y :: t.Up(x, y) <==> s.Up(x, y) && !((x == n && y == m) || (x == m && y == n))
  {
    var cut := LinkDown(n, m);
    ExecValid(s, cut);
    forall x, b
      ensures (Exec(s, cut).Holds(x, b) <==> s.Holds(x, b)) && (Exec(s, cut).HasSpent(x, b) <==> s.HasSpent(x, b))
    {
      ExecHolds(s, cut, x, b);
      ExecSpent(s, cut, x, b);
    }
    forall x, y
      ensures Exec(s, cut).Up(x, y) <==> s.Up(x, y) && !((x == n && y == m) || (x == m && y == n))
    {
      ExecLinks(s, cut, x, y);
    }
  }

  lemma JoinSpreads(s: State, n: string, m: string, x: string, b: string)
    requires s.Valid() && Enabled(s, LinkUp(n, m))
    ensures var t := Exec(s, LinkUp(n, m));
            && (t.HasSpent(x, b) <==> s.HasSpent(x, b))
            && (t.Holds(x, b) <==>
                  if x == n || x == m
                  then (s.Holds(n, b) || s.Holds(m, b)) && !s.HasSpent(n, b) && !s.HasSpent(m, b)
                  else s.Holds(x, b))
  {
    ExecHolds(s, LinkUp(n, m), x, b);
    ExecSpent(s, LinkUp(n, m), x, b);
  }
}
