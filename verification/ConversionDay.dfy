/** The settlement barrier run against a `Network` object, and its safety check. */
module ConversionDay {
  import opened Core
  import opened NetworkSpec
  import opened Settlement
  import opened Networks

  predicate Lists(index: map<string, set<string>>, b: string, n: string) {
    b in index && n in index[b]
  }

  /** An index that lists, for each bearer, exactly the given nodes that have spent it. */
  ghost predicate Indexes(index: map<string, set<string>>, s: State, gathered: set<string>) {
    && (forall b, n :: Lists(index, b, n) <==> n in gathered && s.HasSpent(n, b))
    && forall b | b in index :: index[b] != {}
  }

  lemma IndexesExactly(index: map<string, set<string>>, s: State, gathered: set<string>)
    requires Indexes(index, s, gathered)
    ensures index == SpenderIndex(s, gathered) && index.Keys == s.SpentBy(gathered)
  {
    forall b | b in index ensures b in s.SpentBy(gathered) && index[b] == s.SpendersAmong(gathered, b) {
      var n :| n in index[b];
      assert Lists(index, b, n);
      forall m ensures m in index[b] <==> m in s.SpendersAmong(gathered, b) {
        assert Lists(index, b, m) <==> m in gathered && s.HasSpent(m, b);
      }
    }
    forall b | b in s.SpentBy(gathered) ensures b in index {
      var n :| n in gathered && n in s.nodes && b in s.nodes[n].spent;
      assert s.HasSpent(n, b) && Lists(index, b, n);
    }
  }

  /** Adds one node's spends to the index. */
  method AddSpends(index: map<string, set<string>>, nid: string, spent: set<string>)
    returns (grown: map<string, set<string>>)
    requires forall b | b in index :: index[b] != {}
    ensures forall b, n :: Lists(grown, b, n) <==> Lists(index, b, n) || (n == nid && b in spent)
    ensures forall b | b in grown :: grown[b] != {}
  {
    grown := index;
    var todo := spent;
    while todo != {}
      invariant todo <= spent
      invariant forall b, n :: Lists(grown, b, n) <==> Lists(index, b, n) || (n == nid && b in spent - todo)
      invariant forall b | b in grown :: grown[b] != {}
      decreases todo
    {
      var b :| b in todo;
      grown := grown[b := (if b in grown then grown[b] else {}) + {nid}];
      todo := todo - {b};
    }
  }

  /** Indexes by bearer who among the participants has spent what. */
  method GatherSpent(net: Network, participants: set<string>) returns (spentBy: map<string, set<string>>)
    requires net.Valid()
    ensures spentBy == SpenderIndex(net.Abs(), participants * net.nodes.Keys)
    ensures spentBy.Keys == net.Abs().SpentBy(participants * net.nodes.Keys)
  {
    ghost var s := net.Abs();
    spentBy := map[];
    var rest := participants;
    while rest != {}
      invariant rest <= participants
      invariant Indexes(spentBy, s, participants - rest)
      decreases rest
    {
      var nid :| nid in rest;
      if nid in net.nodes {
        spentBy := AddSpends(spentBy, nid, net.nodes[nid].spent);
      }
      assert forall b :: s.HasSpent(nid, b) <==> nid in net.nodes && b in net.nodes[nid].spent;
      rest := rest - {nid};
    }
    assert forall b, n :: s.HasSpent(n, b) ==> n in net.nodes.Keys;
    assert Indexes(spentBy, s, participants * net.nodes.Keys);
    IndexesExactly(spentBy, s, participants * net.nodes.Keys);
  }

  /** Takes the given bearers out of the ledger of every participant that exists. */
  method Burn(net: Network, participants: set<string>, bearers: set<string>)
    modifies net`nodes
    ensures net.nodes == DropFrom(old(net.nodes), participants, bearers)
  {
    var rest := participants;
    while rest != {}
      invariant rest <= participants
      invariant net.nodes == DropFrom(old(net.nodes), participants - rest, bearers)
      decreases rest
    {
      var nid :| nid in rest;
      if nid in net.nodes {
        net.nodes := net.nodes[nid := net.nodes[nid].(ledger := net.nodes[nid].ledger - bearers)];
      }
      rest := rest - {nid};
    }
    assert participants - rest == participants;
  }

  /**
   * One settlement: a conflict is reported and changes nothing, otherwise every participant drops what any of them
   * spent.
   */
  method RunConversionDay(net: Network, participants: Option<set<string>>) returns (r: Result<(), Report>)
    requires net.Valid()
    modifies net
    ensures net.Valid() && net.Abs() == Exec(old(net.Abs()), Action.ConversionDay(participants))
    ensures r.Ok? <==> Enabled(old(net.Abs()), Action.ConversionDay(participants))
    ensures r.Err? ==>
              r.error != [] && IsReport(r.error, SpenderIndex(old(net.Abs()), old(net.Abs()).Members(participants)))
  {
    ghost var s := net.Abs();
    var chosen := if participants.None? then net.nodes.Keys else participants.value;
    assert chosen * net.nodes.Keys == s.Members(participants);
    var spentBy := GatherSpent(net, chosen);
    var violations := SortedReport(spentBy);
    ReportEmptyExactly(s, s.Members(participants), violations);
    if violations != [] {
      return Err(violations);
    }
    var globallySpent := spentBy.Keys;
    Burn(net, chosen, globallySpent);
    assert net.nodes == DropFrom(s.nodes, s.Members(participants), globallySpent);
    net.log := net.log + [SettlementLogged(chosen, globallySpent)];
    ExecValid(s, Action.ConversionDay(participants));
    return Ok(());
  }

  /** What the check looks for, in terms of the participants it was given. */
  lemma ClearedAt(s: State, p: Option<set<string>>)
    ensures Cleared(s, s.Members(p), s.SpentBy(s.Members(p))) <==>
            forall n, m, b :: (p.None? || (n in p.value && m in p.value)) && s.HasSpent(n, b) ==> !s.Holds(m, b)
  {
    var members := s.Members(p);
    if Cleared(s, members, s.SpentBy(members)) {
      forall n, m, b | (p.None? || (n in p.value && m in p.value)) && s.HasSpent(n, b) ensures !s.Holds(m, b) {
        assert n in members && b in s.SpentBy(members);
        assert s.Holds(m, b) ==> m in members;
      }
    } else {
      var m, b :| m in members && b in s.SpentBy(members) && s.Holds(m, b);
      var n :| n in members && n in s.nodes && b in s.nodes[n].spent;
      assert s.HasSpent(n, b) && s.Holds(m, b);
    }
  }

  /** Whether no participant holds anything a participant has spent. */
  method CheckPostBarrierSafety(net: Network, participants: Option<set<string>>) returns (safe: bool)
    requires net.Valid()
    ensures safe <==> var s := net.Abs(); var members := s.Members(participants);
                      Cleared(s, members, s.SpentBy(members))
  {
    ghost var s := net.Abs();
    var chosen := if participants.None? then net.nodes.Keys else participants.value;
    ghost var members := s.Members(participants);
    assert chosen * net.nodes.Keys == members;
    var spentBy := GatherSpent(net, chosen);
    var globalSpent := spentBy.Keys;
    var rest := chosen;
    while rest != {}
      invariant rest <= chosen
      invariant forall n, b | n in chosen - rest && b in globalSpent :: !s.Holds(n, b)
      decreases rest
    {
      var n :| n in rest;
      if n in net.nodes && net.nodes[n].ledger * globalSpent != {} {
        var b :| b in net.nodes[n].ledger * globalSpent;
        assert s.Holds(n, b) && n in members;
        return false;
      }
      assert forall b :: s.Holds(n, b) && b in globalSpent ==> b in net.nodes[n].ledger * globalSpent;
      rest := rest - {n};
    }
    return true;
  }

  /** The safety check passes right after every successful settlement among the same participants. */
  method SettleAndCheck(net: Network, participants: Option<set<string>>) returns (settled: bool)
    requires net.Valid()
    modifies net
    ensures settled <==> Enabled(old(net.Abs()), Action.ConversionDay(participants))
    ensures !settled ==> net.Abs() == old(net.Abs())
  {
    ghost var s := net.Abs();
    var r := RunConversionDay(net, participants);
    if r.Err? {
      return false;
    }
    PartialSettlement(s, participants);
    ExecValid(s, Action.ConversionDay(participants));
    settled := CheckPostBarrierSafety(net, participants);
  }
}
