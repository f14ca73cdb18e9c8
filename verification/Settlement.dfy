/** Conversion Day on the central network: what a settlement guarantees, for how long, and what a report contains. */
module Settlement {
  import opened Core
  import opened NetworkSpec
  import opened NetworkRuns

  // ---- The two invariants the checkers look for ---------------------------------------------------

  ghost predicate NoDoubleSpend(s: State) {
    forall b :: !DoubleSpent(s, b)
  }

  /** On every live link, a bearer spent at either end is held at neither. */
  ghost predicate LinkSynced(s: State, n: string, m: string, b: string) {
    s.Up(n, m) && (s.HasSpent(n, b) || s.HasSpent(m, b)) ==> !s.Holds(n, b) && !s.Holds(m, b)
  }

  ghost predicate PairwiseSynced(s: State) {
    forall n, m, b :: LinkSynced(s, n, m, b)
  }

  /** Nothing spent is held anywhere, and nothing was spent twice. */
  ghost predicate Settled(s: State) {
    NoDoubleSpend(s) && forall n, b :: s.HasSpent(n, b) ==> Absent(s, b)
  }

  // ---- Runs whose spends reach every holder ---------------------------------------------------------

  /** A spend reaches its holders when each of them is the spender or one of its live neighbours. */
  ghost predicate ReachesHolders(s: State, a: Action) {
    a.SpendAt? && s.Holds(a.n, a.bearer) ==>
      forall p :: s.Holds(p, a.bearer) ==> p == a.n || s.Up(a.n, p)
  }

  ghost predicate SpendsReachHolders(s: State, acts: seq<Action>)
    requires s.Valid()
    decreases |acts|
  {
    acts != [] ==>
      ReachesHolders(s, acts[0]) && (ExecValid(s, acts[0]); SpendsReachHolders(Exec(s, acts[0]), acts[1..]))
  }

  ghost predicate SettledThroughout(s: State, acts: seq<Action>)
    requires s.Valid()
    decreases |acts|
  {
    Settled(s) && (acts != [] ==> (ExecValid(s, acts[0]); SettledThroughout(Exec(s, acts[0]), acts[1..])))
  }

  lemma SettledStep(s: State, a: Action)
    requires s.Valid() && s.Disjoint() && Settled(s) && ReachesHolders(s, a)
    ensures Settled(Exec(s, a))
  {
    var t := Exec(s, a);
    forall n, m, b | t.HasSpent(n, b) ensures !t.Holds(m, b) {
      ExecSpent(s, a, n, b);
      ExecHolds(s, a, m, b);
      if s.HasSpent(n, b) {
        assert Absent(s, b);
        assert !s.Holds(m, b);
        if a.LinkUp? { assert !s.Holds(a.n, b) && !s.Holds(a.m, b); }
        if a.Propagate? { assert !s.Holds(a.src, b); }
      }
    }
    forall n, m, b | t.HasSpent(n, b) && t.HasSpent(m, b) ensures n == m {
      ExecSpent(s, a, n, b);
      ExecSpent(s, a, m, b);
      assert !DoubleSpent(s, b);
      assert s.HasSpent(n, b) || s.HasSpent(m, b) ==> Absent(s, b);
    }
  }

  lemma MissedHolderUnsettles(s: State, a: Action)
    requires s.Valid() && !ReachesHolders(s, a)
    ensures !Settled(Exec(s, a))
  {
    var p :| s.Holds(p, a.bearer) && p != a.n && !s.Up(a.n, p);
    ExecHolds(s, a, p, a.bearer);
    ExecSpent(s, a, a.n, a.bearer);
    assert !Absent(Exec(s, a), a.bearer);
  }

  /** From a settled network the run stays settled exactly when each spend reaches all current holders. */
  lemma {:induction false} SettledExactly(s: State, acts: seq<Action>)
    requires s.Valid() && s.Disjoint() && Settled(s)
    ensures SettledThroughout(s, acts) <==> SpendsReachHolders(s, acts)
    decreases |acts|
  {
    if acts != [] {
      ExecValid(s, acts[0]);
      ExecKeepsDisjoint(s, acts[0]);
      if ReachesHolders(s, acts[0]) {
        SettledStep(s, acts[0]);
        SettledExactly(Exec(s, acts[0]), acts[1..]);
      } else {
        MissedHolderUnsettles(s, acts[0]);
      }
    }
  }

  lemma {:induction false} SettledAtEnd(s: State, acts: seq<Action>)
    requires s.Valid() && SettledThroughout(s, acts)
    ensures Settled(Run(s, acts))
    decreases |acts|
  {
    if acts != [] {
      ExecValid(s, acts[0]);
      SettledAtEnd(Exec(s, acts[0]), acts[1..]);
    }
  }

  /** Such a run breaks neither invariant, however its links flap. */
  lemma ReachingRunsAreSafe(s: State, acts: seq<Action>)
    requires Initial(s) && SpendsReachHolders(s, acts)
    ensures NoDoubleSpend(Run(s, acts)) && PairwiseSynced(Run(s, acts))
  {
    InitialAudit(s);
    assert forall n, b :: !s.HasSpent(n, b);
    SettledExactly(s, acts);
    SettledAtEnd(s, acts);
    var t := Run(s, acts);
    forall n, m, b ensures LinkSynced(t, n, m, b) {
      if t.HasSpent(n, b) || t.HasSpent(m, b) {
        assert Absent(t, b);
      }
    }
  }

  // ---- Full settlement --------------------------------------------------------------------------------

  lemma ConflictFreeExact(s: State)
    ensures ConflictFree(s, s.nodes.Keys) <==> NoDoubleSpend(s)
  {
    if NoDoubleSpend(s) {
      forall n, m, b | s.HasSpent(n, b) && s.HasSpent(m, b) ensures n == m {
        assert !DoubleSpent(s, b);
      }
    }
    if ConflictFree(s, s.nodes.Keys) {
      forall b ensures !DoubleSpent(s, b) {
        assert forall n, m :: s.HasSpent(n, b) && s.HasSpent(m, b) ==> n in s.nodes.Keys && m in s.nodes.Keys;
      }
    }
  }

  /** A successful full settlement leaves the network settled; it succeeds exactly when nothing was spent twice. */
  lemma SettlementSettles(s: State)
    requires s.Valid()
    ensures Enabled(s, ConversionDay(None)) <==> NoDoubleSpend(s)
    ensures Enabled(s, ConversionDay(None)) ==> Settled(Exec(s, ConversionDay(None)))
    ensures !Enabled(s, ConversionDay(None)) ==> Exec(s, ConversionDay(None)) == s
  {
    ConflictFreeExact(s);
    if NoDoubleSpend(s) {
      var t := Exec(s, ConversionDay(None));
      forall n, b ensures t.HasSpent(n, b) <==> s.HasSpent(n, b) {
        ExecSpent(s, ConversionDay(None), n, b);
      }
      forall n, m, b | t.HasSpent(n, b) ensures !t.Holds(m, b) {
        ExecHolds(s, ConversionDay(None), m, b);
      }
      forall b ensures !DoubleSpent(t, b) {
        assert !DoubleSpent(s, b);
      }
    }
  }

  /** Finality: what was spent before a successful full settlement is never held or spent again in any later run. */
  lemma SettlementFinal(s: State, acts: seq<Action>, n: string, b: string)
    requires s.Valid() && Enabled(s, ConversionDay(None)) && s.HasSpent(n, b)
    ensures Exec(s, ConversionDay(None)).Valid()
    ensures var u := Run(Exec(s, ConversionDay(None)), acts);
            && Absent(u, b)
            && u.Spenders(b) == {n}
            && forall p :: !Enabled(u, SpendAt(p, b))
  {
    var t := Exec(s, ConversionDay(None));
    ExecValid(s, ConversionDay(None));
    SettlementSettles(s);
    ExecSpent(s, ConversionDay(None), n, b);
    assert t.HasSpent(n, b) && Absent(t, b);
    forall p | p in t.Spenders(b) ensures p == n {
      assert t.HasSpent(p, b) && !DoubleSpent(t, b);
    }
    assert t.Spenders(b) == {n};
    AbsentForever(t, acts, b);
  }

  /** A conflict once present stays: no later full settlement succeeds, and no spender is dropped from it. */
  lemma ConflictForever(s: State, acts: seq<Action>, b: string)
    requires s.Valid() && DoubleSpent(s, b)
    ensures !Enabled(Run(s, acts), ConversionDay(None))
    ensures DoubleSpent(Run(s, acts), b) && s.Spenders(b) <= Run(s, acts).Spenders(b)
  {
    SpendersStay(s, acts, b);
    var n, m :| n != m && s.HasSpent(n, b) && s.HasSpent(m, b);
    RunKeepsSpent(s, acts, n, b);
    RunKeepsSpent(s, acts, m, b);
    ConflictFails(Run(s, acts), n, m, b);
  }

  lemma SpendersStay(s: State, acts: seq<Action>, b: string)
    requires s.Valid()
    ensures s.Spenders(b) <= Run(s, acts).Spenders(b)
  {
    forall n | n in s.Spenders(b) ensures n in Run(s, acts).Spenders(b) {
      assert s.HasSpent(n, b);
      RunKeepsSpent(s, acts, n, b);
    }
  }

  lemma ConflictFails(t: State, n: string, m: string, b: string)
    requires n != m && t.HasSpent(n, b) && t.HasSpent(m, b)
    ensures DoubleSpent(t, b) && !Enabled(t, ConversionDay(None))
  {
    ConflictFreeExact(t);
  }

  // ---- Partial settlement -------------------------------------------------------------------------------

  /** No member holds any of these bearers. */
  ghost predicate Cleared(s: State, members: set<string>, bearers: set<string>) {
    forall n, b | n in members && b in bearers :: !s.Holds(n, b)
  }

  /** A member takes in one of these bearers from a node outside. */
  ghost predicate BringsBack(s: State, members: set<string>, bearers: set<string>, a: Action) {
    match a
    case LinkUp(n, m) =>
      exists b | b in bearers ::
        && (n in members <==> m !in members)
        && s.Holds(if n in members then m else n, b) && !s.HasSpent(n, b) && !s.HasSpent(m, b)
    case Propagate(src, dst) =>
      exists b | b in bearers :: src !in members && dst in members && s.Holds(src, b) && !s.HasSpent(dst, b)
    case _ => false
  }

  /** A successful settlement among some nodes clears what they spent from them, and syncs every link between them. */
  lemma PartialSettlement(s: State, p: Option<set<string>>)
    requires s.Valid() && Enabled(s, ConversionDay(p))
    ensures var t := Exec(s, ConversionDay(p)); var members := s.Members(p);
            && t.SpentBy(members) == s.SpentBy(members)
            && Cleared(t, members, t.SpentBy(members))
            && forall n, m, b | n in members && m in members && t.Up(n, m) && (t.HasSpent(n, b) || t.HasSpent(m, b)) ::
                 !t.Holds(n, b) && !t.Holds(m, b)
  {
    var a := ConversionDay(p);
    var t := Exec(s, a);
    var members := s.Members(p);
    ExecValid(s, a);
    forall n, b ensures t.HasSpent(n, b) <==> s.HasSpent(n, b) {
      ExecSpent(s, a, n, b);
    }
    SameSpentBy(s, t, members);
    forall n, b | n in members && b in t.SpentBy(members) ensures !t.Holds(n, b) {
      ExecHolds(s, a, n, b);
    }
    forall n, b | n in members && t.HasSpent(n, b) ensures b in t.SpentBy(members) {
    }
  }

  lemma SameSpentBy(s: State, t: State, members: set<string>)
    requires forall n, b :: t.HasSpent(n, b) <==> s.HasSpent(n, b)
    ensures t.SpentBy(members) == s.SpentBy(members)
  {
    forall b ensures b in t.SpentBy(members) <==> b in s.SpentBy(members) {
      if b in t.SpentBy(members) {
        var n :| n in members && n in t.nodes && b in t.nodes[n].spent;
        assert t.HasSpent(n, b) && s.HasSpent(n, b);
      }
      if b in s.SpentBy(members) {
        var n :| n in members && n in s.nodes && b in s.nodes[n].spent;
        assert s.HasSpent(n, b) && t.HasSpent(n, b);
      }
    }
  }

  /** Exactly the enabled calls that bring a cleared bearer in from outside undo the clearing. */
  lemma ClearedExactly(s: State, members: set<string>, bearers: set<string>, a: Action)
    requires s.Valid() && Cleared(s, members, bearers)
    ensures Cleared(Exec(s, a), members, bearers) <==> !(Enabled(s, a) && BringsBack(s, members, bearers, a))
  {
    var t := Exec(s, a);
    if Enabled(s, a) && BringsBack(s, members, bearers, a) {
      match a
      case LinkUp(n, m) =>
        var b :| b in bearers && s.Holds(if n in members then m else n, b) && !s.HasSpent(n, b) && !s.HasSpent(m, b);
        ExecHolds(s, a, if n in members then n else m, b);
      case Propagate(src, dst) =>
        var b :| b in bearers && s.Holds(src, b) && !s.HasSpent(dst, b);
        ExecHolds(s, a, dst, b);
    } else {
      forall n, b | n in members && b in bearers ensures !t.Holds(n, b) {
        ExecHolds(s, a, n, b);
      }
    }
  }

  ghost predicate NeverBringsBack(s: State, members: set<string>, bearers: set<string>, acts: seq<Action>)
    requires s.Valid()
    decreases |acts|
  {
    acts != [] ==>
      && !(Enabled(s, acts[0]) && BringsBack(s, members, bearers, acts[0]))
      && (ExecValid(s, acts[0]); NeverBringsBack(Exec(s, acts[0]), members, bearers, acts[1..]))
  }

  /** What settled participants had spent stays out of their ledgers until a call brings it in from outside. */
  lemma {:induction false} ClearedUntilBroughtBack(
      s: State, members: set<string>, bearers: set<string>, acts: seq<Action>)
    requires s.Valid() && Cleared(s, members, bearers) && NeverBringsBack(s, members, bearers, acts)
    ensures Cleared(Run(s, acts), members, bearers)
    decreases |acts|
  {
    if acts != [] {
      ExecValid(s, acts[0]);
      ClearedExactly(s, members, bearers, acts[0]);
      ClearedUntilBroughtBack(Exec(s, acts[0]), members, bearers, acts[1..]);
    }
  }

  // ---- Conflict reports -----------------------------------------------------------------------------------

  type Report = seq<(string, seq<string>)>

  function Subjects(report: Report): seq<string> {
    seq(|report|, i requires 0 <= i < |report| => report[i].0)
  }

  /** The sorted list of the bearers with more than one spender, each with the sorted list of those spenders. */
  ghost predicate IsReport(report: Report, spenders: map<string, set<string>>) {
    && IsListing(Subjects(report), set b | b in spenders && |spenders[b]| > 1)
    && forall i | 0 <= i < |report| :: report[i].0 in spenders && IsListing(report[i].1, spenders[report[i].0])
  }

  /** Who has spent what among the members, for every bearer any of them has spent. */
  function SpenderIndex(s: State, members: set<string>): map<string, set<string>> {
    map b | b in s.SpentBy(members) :: s.SpendersAmong(members, b)
  }

  lemma ReportUnique(left: Report, right: Report, spenders: map<string, set<string>>)
    requires IsReport(left, spenders) && IsReport(right, spenders)
    ensures left == right
  {
    ListingUnique(Subjects(left), Subjects(right));
    assert |left| == |Subjects(left)| == |Subjects(right)| == |right|;
    forall i | 0 <= i < |left| ensures left[i] == right[i] {
      assert Subjects(left)[i] == left[i].0 && Subjects(right)[i] == right[i].0;
      ListingUnique(left[i].1, right[i].1);
    }
  }

  /** The bearer and the nodes an entry of a conflict report names. */
  ghost predicate Blames(report: Report, b: string, n: string) {
    exists i :: 0 <= i < |report| && report[i].0 == b && n in report[i].1
  }

  /** A report names a bearer with a node exactly when the index lists them and another node with that bearer. */
  lemma ReportBlames(report: Report, index: map<string, set<string>>, b: string, n: string)
    requires IsReport(report, index)
    ensures Blames(report, b, n) <==> b in index && n in index[b] && exists m :: m != n && m in index[b]
  {
    var subjects := Subjects(report);
    if Blames(report, b, n) {
      var i :| 0 <= i < |report| && report[i].0 == b && n in report[i].1;
      assert subjects[i] in Elements(subjects) && n in Elements(report[i].1);
      var m := OtherOf(index[b], n);
    }
    if b in index && n in index[b] {
      if m :| m != n && m in index[b] {
        SubsetCount({n, m}, index[b]);
        assert b in Elements(subjects);
        var i :| 0 <= i < |subjects| && subjects[i] == b;
        assert n in Elements(report[i].1);
      }
    }
  }

  lemma OtherOf(names: set<string>, n: string) returns (m: string)
    requires |names| > 1 && n in names
    ensures m in names && m != n
  {
    assert names == {n} + (names - {n}) && |{n}| == 1;
    m :| m in names - {n};
  }

  /** The report over the members blames exactly the members that have spent a bearer another member has spent. */
  lemma SpendersBlamed(s: State, members: set<string>, report: Report, b: string, n: string)
    requires IsReport(report, SpenderIndex(s, members))
    ensures Blames(report, b, n) <==>
            n in members && s.HasSpent(n, b) && exists m :: m in members && m != n && s.HasSpent(m, b)
  {
    var index := SpenderIndex(s, members);
    ReportBlames(report, index, b, n);
    forall m ensures b in index && m in index[b] <==> m in members && s.HasSpent(m, b) {
      if m in members && s.HasSpent(m, b) {
        assert b in s.SpentBy(members);
      }
    }
  }

  /** The report over the members is empty exactly when no bearer has two spenders among them. */
  lemma ReportEmptyExactly(s: State, members: set<string>, report: Report)
    requires IsReport(report, SpenderIndex(s, members))
    ensures report == [] <==> ConflictFree(s, members)
  {
    var index := SpenderIndex(s, members);
    var subjects := Subjects(report);
    if report != [] {
      assert subjects[0] in Elements(subjects);
      var b := subjects[0];
      assert |index[b]| > 1;
      var n :| n in index[b];
      assert index[b] == {n} + (index[b] - {n}) && |{n}| == 1;
      var m :| m in index[b] - {n};
      assert s.HasSpent(n, b) && s.HasSpent(m, b) && n != m;
    } else {
      forall n, m, b | n in members && m in members && s.HasSpent(n, b) && s.HasSpent(m, b) ensures n == m {
        assert b in s.SpentBy(members);
        assert b !in Elements(subjects);
        assert |index[b]| <= 1;
        assert n in index[b] && m in index[b];
        if n != m {
          SubsetCount({n, m}, index[b]);
        }
      }
    }
  }
}
