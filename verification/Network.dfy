/** The `Network` object: its fields, and each call proved against the state machine. */
module Networks {
  import opened Core
  import opened NetworkSpec
  import opened NetworkRuns
  import opened Settlement

  datatype NetworkError =
    | SelfLink
    | UnknownPair
    | AlreadyDown
    | AlreadyUp
    | NoLink
    | NothingDeliverable
    | NotHeld

  /** The outcome of `is_linked`: an error unless the link table has an entry for the pair. */
  function LinkEntry(links: LinkTable, n: string, m: string): Result<bool, NetworkError> {
    if n in links && m in links[n] then Ok(links[n][m]) else Err(UnknownPair)
  }

  class Network {
    var nodes: map<string, Node>
    var links: LinkTable
    var log: seq<LogEntry>

    ghost function Abs(): State
      reads this
    {
      State(nodes, links, log)
    }

    ghost predicate Valid()
      reads this
    {
      Abs().Valid()
    }

    /** All listed nodes exist, empty, with every link between different nodes up. */
    constructor (nodeIds: seq<string>)
      ensures Valid() && Initial(Abs())
      ensures nodes.Keys == Elements(nodeIds)
      ensures forall n | n in nodes :: nodes[n] == Node(n, {}, {})
      ensures forall n, m | n in nodes && m in nodes :: Abs().Up(n, m) <==> n != m
    {
      var table: map<string, Node> := map[];
      for i := 0 to |nodeIds|
        invariant table.Keys == Elements(nodeIds[..i])
        invariant forall n | n in table :: table[n] == Node(n, {}, {})
      {
        table := table[nodeIds[i] := Node(nodeIds[i], {}, {})];
        assert nodeIds[..i + 1] == nodeIds[..i] + [nodeIds[i]];
      }
      assert nodeIds[..|nodeIds|] == nodeIds;
      var rows: LinkTable := map[];
      for i := 0 to |nodeIds|
        invariant rows.Keys == Elements(nodeIds[..i])
        invariant forall n, m | n in rows && m in nodeIds :: m in rows[n] && rows[n][m] == (n != m)
        invariant forall n, m | n in rows && m in rows[n] :: m in nodeIds && rows[n][m] == (n != m)
      {
        var row: map<string, bool> := map[];
        for j := 0 to |nodeIds|
          invariant row.Keys == Elements(nodeIds[..j])
          invariant forall m | m in row :: row[m] == (nodeIds[i] != m)
        {
          row := row[nodeIds[j] := nodeIds[i] != nodeIds[j]];
          assert nodeIds[..j + 1] == nodeIds[..j] + [nodeIds[j]];
        }
        rows := rows[nodeIds[i] := row];
        assert nodeIds[..i + 1] == nodeIds[..i] + [nodeIds[i]];
      }
      nodes := table;
      links := rows;
      log := [];
      new;
      assert Elements(nodeIds) == rows.Keys == table.Keys;
    }

    /** The nodes a node currently has a live link to. */
    method ConnectedTo(n: string) returns (peers: set<string>)
      ensures peers == Abs().ConnectedTo(n)
    {
      peers := {};
      if n in links {
        peers := set m | m in links[n] && m != n && links[n][m];
      }
    }

    method LinkDown(n: string, m: string) returns (r: Result<(), NetworkError>)
      requires Valid()
      modifies this
      ensures Valid() && Abs() == Exec(old(Abs()), Action.LinkDown(n, m))
      ensures r == if n == m then Err(SelfLink)
                   else if !(n in old(links) && m in old(links)[n]) then Err(UnknownPair)
                   else if old(links)[n][m] then Ok(())
                   else Err(AlreadyDown)
      ensures r.Ok? <==> Enabled(old(Abs()), Action.LinkDown(n, m))
    {
      if n == m {
        return Err(SelfLink);
      }
      var entry := LinkEntry(links, n, m);
      if entry.Err? {
        return Err(entry.error);
      }
      if !entry.value {
        return Err(AlreadyDown);
      }
      ghost var s := Abs();
      assert s.Up(n, m) && s.Up(m, n);
      links := links[n := links[n][m := false]];
      links := links[m := links[m][n := false]];
      log := log + [LinkDownLogged(n, m)];
      ExecValid(s, Action.LinkDown(n, m));
      return Ok(());
    }

    method LinkUp(n: string, m: string) returns (r: Result<(), NetworkError>)
      requires Valid()
      modifies this
      ensures Valid() && Abs() == Exec(old(Abs()), Action.LinkUp(n, m))
      ensures r == if n == m then Err(SelfLink)
                   else if !(n in old(links) && m in old(links)[n]) then Err(UnknownPair)
                   else if old(links)[n][m] then Err(AlreadyUp)
                   else if n !in old(nodes) || m !in old(nodes) then Err(UnknownPair)
                   else Ok(())
      ensures r.Ok? <==> Enabled(old(Abs()), Action.LinkUp(n, m))
    {
      if n == m {
        return Err(SelfLink);
      }
      var entry := LinkEntry(links, n, m);
      if entry.Err? {
        return Err(entry.error);
      }
      if entry.value {
        return Err(AlreadyUp);
      }
      if n !in nodes || m !in nodes {
        return Err(UnknownPair);
      }
      ghost var s := Abs();
      var knownSpent := nodes[n].spent + nodes[m].spent;
      var merged := (nodes[n].ledger + nodes[m].ledger) - knownSpent;
      nodes := nodes[n := nodes[n].(ledger := merged)];
      nodes := nodes[m := nodes[m].(ledger := merged)];
      links := links[n := links[n][m := true]];
      links := links[m := links[m][n := true]];
      log := log + [LinkUpLogged(n, m)];
      ExecValid(s, Action.LinkUp(n, m));
      return Ok(());
    }

    method Propagate(src: string, dst: string) returns (r: Result<(), NetworkError>)
      requires Valid()
      modifies this
      ensures Valid() && Abs() == Exec(old(Abs()), Action.Propagate(src, dst))
      ensures r == if !(src in old(links) && dst in old(links)[src]) then Err(UnknownPair)
                   else if !old(links)[src][dst] then Err(NoLink)
                   else if exists b :: old(Abs()).Holds(src, b) && !old(Abs()).Holds(dst, b)
                                       && !old(Abs()).HasSpent(dst, b) then Ok(())
                   else Err(NothingDeliverable)
      ensures r.Ok? <==> Enabled(old(Abs()), Action.Propagate(src, dst))
    {
      var entry := LinkEntry(links, src, dst);
      if entry.Err? {
        return Err(entry.error);
      }
      if !entry.value {
        return Err(NoLink);
      }
      ghost var s := Abs();
      assert s.Up(src, dst) && s.Up(dst, src);
      var delivered := set b | b in nodes[src].ledger && b !in nodes[dst].spent && b !in nodes[dst].ledger;
      assert delivered == Deliverable(nodes[src], nodes[dst]);
      if delivered == {} {
        forall b ensures !(s.Holds(src, b) && !s.Holds(dst, b) && !s.HasSpent(dst, b)) {
          assert b !in delivered;
        }
        return Err(NothingDeliverable);
      }
      ghost var some :| some in delivered;
      assert s.Holds(src, some) && !s.Holds(dst, some) && !s.HasSpent(dst, some);
      nodes := nodes[dst := nodes[dst].(ledger := nodes[dst].ledger + delivered)];
      log := log + [PropagateLogged(src, dst, delivered)];
      ExecValid(s, Action.Propagate(src, dst));
      return Ok(());
    }

    /** Takes one bearer from the ledger of every target. */
    method DropBearer(targets: set<string>, bearer: string)
      modifies this`nodes
      ensures nodes == DropFrom(old(nodes), targets, {bearer})
    {
      var rest := targets;
      while rest != {}
        invariant rest <= targets
        invariant nodes == DropFrom(old(nodes), targets - rest, {bearer})
        decreases rest
      {
        var m :| m in rest;
        if m in nodes {
          nodes := nodes[m := nodes[m].(ledger := nodes[m].ledger - {bearer})];
        }
        rest := rest - {m};
      }
      assert targets - rest == targets;
    }

    /** Marks the bearer spent at the spender and takes it from the spender and its live neighbours only. */
    method SpendAt(n: string, bearer: string) returns (r: Result<(), NetworkError>)
      requires Valid()
      modifies this
      ensures Valid() && Abs() == Exec(old(Abs()), Action.SpendAt(n, bearer))
      ensures r == if old(Abs()).Holds(n, bearer) then Ok(()) else Err(NotHeld)
      ensures r.Ok? <==> Enabled(old(Abs()), Action.SpendAt(n, bearer))
    {
      if !(n in nodes && bearer in nodes[n].ledger) {
        return Err(NotHeld);
      }
      ghost var s := Abs();
      nodes := nodes[n := nodes[n].(spent := nodes[n].spent + {bearer})];
      var targets := ConnectedTo(n);
      targets := targets + {n};
      DropBearer(targets, bearer);
      log := log + [SpendLogged(n, bearer)];
      ExecValid(s, Action.SpendAt(n, bearer));
      return Ok(());
    }

    /** Collects every bearer anyone holds or has spent. */
    method AllBearers() returns (bearers: set<string>)
      ensures bearers == Abs().Bearers()
    {
      bearers := {};
      var rest := nodes.Keys;
      while rest != {}
        invariant rest <= nodes.Keys
        invariant forall b :: b in bearers <==>
                    exists n :: n in nodes.Keys - rest && b in nodes[n].ledger + nodes[n].spent
        decreases rest
      {
        var n :| n in rest;
        bearers := bearers + nodes[n].ledger + nodes[n].spent;
        rest := rest - {n};
      }
    }

    /** Scans every bearer anyone holds or has spent for a second spender. */
    method NoDoubleSpendAcrossNodes() returns (violations: Report)
      requires Valid()
      ensures IsReport(violations, SpenderIndex(Abs(), nodes.Keys))
      ensures Ascending(Subjects(violations)) && forall i | 0 <= i < |violations| :: Ascending(violations[i].1)
      ensures forall b, n :: Blames(violations, b, n) <==>
                Abs().HasSpent(n, b) && exists m :: m != n && Abs().HasSpent(m, b)
      ensures violations == [] <==> NoDoubleSpend(Abs())
    {
      var bearers := AllBearers();
      var found: map<string, set<string>> := map[];
      var todo := bearers;
      while todo != {}
        invariant todo <= bearers
        invariant forall b :: b in found <==> b in bearers - todo && |Abs().Spenders(b)| > 1
        invariant forall b | b in found :: found[b] == Abs().Spenders(b)
        decreases todo
      {
        var b :| b in todo;
        var spenders := set n | n in nodes && b in nodes[n].spent;
        assert spenders == Abs().Spenders(b);
        if |spenders| > 1 {
          found := found[b := spenders];
        }
        todo := todo - {b};
      }
      violations := SortedReport(found);
      FoundIsIndex(Abs(), found, violations);
      ReportEmptyExactly(Abs(), nodes.Keys, violations);
      ConflictFreeExact(Abs());
      forall b, n
        ensures Blames(violations, b, n) <==> Abs().HasSpent(n, b) && exists m :: m != n && Abs().HasSpent(m, b)
      {
        SpendersBlamed(Abs(), nodes.Keys, violations, b, n);
      }
    }

    /** The violations on one link, in bearer order. */
    method EdgeViolations(n1: string, n2: string) returns (found: seq<(string, string, string)>)
      requires Valid() && n1 in nodes && n2 in nodes
      ensures InOrder(found)
      ensures forall v :: v in found <==> v.0 == n1 && v.1 == n2 && IsPairViolation(Abs(), n1, n2, v.2)
    {
      found := [];
      if n1 == n2 || LinkEntry(links, n1, n2) != Ok(true) {
        return;
      }
      var bearers := SortedVec(nodes[n1].spent + nodes[n2].spent);
      for k := 0 to |bearers|
        invariant InOrder(found)
        invariant forall v :: v in found <==>
                    v.0 == n1 && v.1 == n2 && v.2 in bearers[..k] && IsPairViolation(Abs(), n1, n2, v.2)
      {
        var b := bearers[k];
        assert b in Elements(bearers);
        if b in nodes[n1].ledger || b in nodes[n2].ledger {
          InOrderAppend(found, [(n1, n2, b)]);
          found := found + [(n1, n2, b)];
        }
      }
      forall b | IsPairViolation(Abs(), n1, n2, b) ensures b in bearers[..|bearers|] {
        assert b in Elements(bearers);
      }
    }

    /** The violations on the links of one node, in the order of the other end. */
    method RowViolations(n1: string, ids: seq<string>) returns (found: seq<(string, string, string)>)
      requires Valid() && n1 in nodes && IsListing(ids, nodes.Keys)
      ensures InOrder(found)
      ensures forall v :: v in found <==> v.0 == n1 && IsPairViolation(Abs(), n1, v.1, v.2)
    {
      found := [];
      for j := 0 to |ids|
        invariant InOrder(found)
        invariant forall v :: v in found <==> v.0 == n1 && v.1 in ids[..j] && IsPairViolation(Abs(), n1, v.1, v.2)
      {
        assert ids[j] in Elements(ids);
        var more := EdgeViolations(n1, ids[j]);
        InOrderAppend(found, more);
        found := found + more;
      }
      forall m, b | IsPairViolation(Abs(), n1, m, b) ensures m in ids[..|ids|] {
        assert m in nodes && m in Elements(ids);
      }
    }

    /** Lists, in order, every live link with a bearer spent at one end and held at one end. */
    method PairwiseSyncedNoDoubleSpend() returns (violations: seq<(string, string, string)>)
      requires Valid()
      ensures forall i, j | 0 <= i < j < |violations| ::
                var v, w := violations[i], violations[j];
                || Precedes(v.0, w.0)
                || (v.0 == w.0 && Precedes(v.1, w.1))
                || (v.0 == w.0 && v.1 == w.1 && Precedes(v.2, w.2))
      ensures forall n, m, b :: (n, m, b) in violations <==>
                n != m && Abs().Up(n, m) && (Abs().HasSpent(n, b) || Abs().HasSpent(m, b))
                && (Abs().Holds(n, b) || Abs().Holds(m, b))
      ensures violations == [] <==> PairwiseSynced(Abs())
    {
      violations := [];
      var ids := SortedVec(nodes.Keys);
      for i := 0 to |ids|
        invariant InOrder(violations)
        invariant forall v :: v in violations <==> v.0 in ids[..i] && IsPairViolation(Abs(), v.0, v.1, v.2)
      {
        assert ids[i] in Elements(ids);
        var found := RowViolations(ids[i], ids);
        InOrderAppend(violations, found);
        violations := violations + found;
      }
      forall v: (string, string, string) ensures v in violations <==> IsPairViolation(Abs(), v.0, v.1, v.2) {
        assert IsPairViolation(Abs(), v.0, v.1, v.2) ==> v.0 in Elements(ids) && v.0 in ids[..|ids|];
      }
      forall n, m, b ensures (n, m, b) in violations <==> IsPairViolation(Abs(), n, m, b) {
        var v := (n, m, b);
        assert v in violations <==> IsPairViolation(Abs(), v.0, v.1, v.2);
      }
      PairViolationsExact(Abs(), violations);
      assert forall i, j | 0 <= i < j < |violations| :: TripleBelow(violations[i], violations[j]);
    }
  }

  ghost predicate InOrder(vs: seq<(string, string, string)>) {
    forall i, j | 0 <= i < j < |vs| :: TripleBelow(vs[i], vs[j])
  }

  lemma InOrderAppend(vs: seq<(string, string, string)>, ws: seq<(string, string, string)>)
    requires InOrder(vs) && InOrder(ws)
    requires forall v, w | v in vs && w in ws :: TripleBelow(v, w)
    ensures InOrder(vs + ws)
  {
  }

  ghost predicate TripleBelow(x: (string, string, string), y: (string, string, string)) {
    || Precedes(x.0, y.0)
    || (x.0 == y.0 && Precedes(x.1, y.1))
    || (x.0 == y.0 && x.1 == y.1 && Precedes(x.2, y.2))
  }

  ghost predicate IsPairViolation(s: State, n: string, m: string, b: string) {
    n != m && s.Up(n, m) && (s.HasSpent(n, b) || s.HasSpent(m, b)) && (s.Holds(n, b) || s.Holds(m, b))
  }

  lemma SyncedPair(s: State, n: string, m: string, b: string)
    requires PairwiseSynced(s)
    ensures !IsPairViolation(s, n, m, b)
  {
    assert LinkSynced(s, n, m, b);
  }

  lemma PairViolationsExact(s: State, violations: seq<(string, string, string)>)
    requires s.Valid()
    requires forall v :: v in violations <==> IsPairViolation(s, v.0, v.1, v.2)
    ensures violations == [] <==> PairwiseSynced(s)
  {
    if violations != [] {
      var v := violations[0];
      assert v in violations;
      if PairwiseSynced(s) {
        SyncedPair(s, v.0, v.1, v.2);
      }
    } else {
      forall n, m, b ensures LinkSynced(s, n, m, b) {
        var v := (n, m, b);
        assert v !in violations && !IsPairViolation(s, v.0, v.1, v.2);
        assert !Linked(s.links, n, n);
      }
    }
  }

  /** A scan that keeps the bearers with several spenders reports what the spender index reports. */
  lemma FoundIsIndex(s: State, found: map<string, set<string>>, report: Report)
    requires forall b :: b in found <==> b in s.Bearers() && |s.Spenders(b)| > 1
    requires forall b | b in found :: found[b] == s.Spenders(b)
    requires IsReport(report, found)
    ensures IsReport(report, SpenderIndex(s, s.nodes.Keys))
  {
    var index := SpenderIndex(s, s.nodes.Keys);
    forall b ensures b in found <==> b in index && |index[b]| > 1 {
      assert s.SpendersAmong(s.nodes.Keys, b) == s.Spenders(b);
      if |s.Spenders(b)| > 1 {
        var n :| n in s.Spenders(b);
        assert b in s.SpentBy(s.nodes.Keys);
        assert s.HasSpent(n, b);
        BearersSeen(s, b);
      }
    }
    forall b | b in found ensures b in index && index[b] == found[b] {
      assert s.SpendersAmong(s.nodes.Keys, b) == s.Spenders(b);
    }
    assert (set b | b in found && |found[b]| > 1) == (set b | b in index && |index[b]| > 1);
  }

  /** Turns a spender index into the sorted list of its bearers with several spenders. */
  method SortedReport(spentBy: map<string, set<string>>) returns (report: Report)
    ensures IsReport(report, spentBy)
  {
    var subjects := SortedVec(set b | b in spentBy && |spentBy[b]| > 1);
    report := [];
    for i := 0 to |subjects|
      invariant |report| == i && Subjects(report) == subjects[..i]
      invariant forall j | 0 <= j < i :: report[j].0 in spentBy && IsListing(report[j].1, spentBy[report[j].0])
    {
      assert subjects[i] in Elements(subjects);
      var names := SortedVec(spentBy[subjects[i]]);
      report := report + [(subjects[i], names)];
    }
    assert subjects[..|subjects|] == subjects;
  }
}
