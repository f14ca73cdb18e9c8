/** Refinement of settlement rounds: exactly when a round run alone does what the central settlement does. */
module RefinementRounds {
  import opened Core
  import opened Coordinator
  import opened ProtocolPolling
  import opened ProtocolSafety
  import opened ProtocolSettlement
  import opened NetworkRuns
  import opened Refinement
  import opened RefinementRuns
  import N = NetworkSpec
  import P = Protocol

  // ---- The course of a round --------------------------------------------------------------------------------------

  /** One round under way and nothing else: no node has changed, and every snapshot shows what there is to hear. */
  ghost predicate Gathering(cur: P.Sys, s: P.Sys, c: string, id: nat) {
    && cur.nodes == s.nodes && cur.cuts == multiset{}
    && cur.rounds.Keys == {id} && cur.rounds[id].coord == c && c in s.nodes
    && AllShow(s, cur.rounds[id])
    && (forall e | e in cur.bag :: e.src in s.nodes && e.dst in s.nodes && e.src != e.dst && StatusOnly(e.msg))
    && (forall e | e in cur.bag && e.msg.StatusReply? :: IsListing(e.msg.spent, s.nodes[e.src].node.spent))
  }

  lemma GatheringAsk(cur: P.Sys, s: P.Sys, c: string, id: nat, move: P.Move)
    requires Gathering(cur, s, c, id) && move.Ask? && P.Enabled(cur, move)
    ensures Gathering(P.Next(cur, move), s, c, id)
  {
    AskStep(cur, move.round, move.peer);
  }

  lemma GatheringDeliver(cur: P.Sys, s: P.Sys, c: string, id: nat, e: P.Envelope)
    requires Gathering(cur, s, c, id) && P.Enabled(cur, P.Deliver(e)) && P.Legible(cur, e)
    ensures Gathering(P.Next(cur, P.Deliver(e)), s, c, id)
  {
    if e.msg.StatusReply? {
      ReplyStep(cur, e);
      GatheringRecord(cur, s, c, id, e);
    } else {
      RequestStep(cur, e);
      GatheringAnswer(cur, s, c, id, e);
    }
  }

  lemma GatheringAnswer(cur: P.Sys, s: P.Sys, c: string, id: nat, e: P.Envelope)
    requires Gathering(cur, s, c, id) && e in cur.bag
    ensures Gathering(cur.(bag := cur.bag - multiset{e} +
                                  multiset{P.Envelope(e.dst, e.src, e.conn, StatusOf(s.nodes[e.dst].node))}), s, c, id)
  {
  }

  lemma GatheringRecord(cur: P.Sys, s: P.Sys, c: string, id: nat, e: P.Envelope)
    requires Gathering(cur, s, c, id) && e in cur.bag && e.msg.StatusReply?
    ensures Gathering(cur.(bag := cur.bag - multiset{e}, rounds := P.Record(cur.rounds, P.AsRead(e))), s, c, id)
  {
    RecordShows(cur.rounds, s, c, id, e);
  }

  lemma RecordShows(rounds: map<nat, P.Round>, s: P.Sys, c: string, id: nat, e: P.Envelope)
    requires rounds.Keys == {id} && rounds[id].coord == c && AllShow(s, rounds[id]) && e.msg.StatusReply?
    requires e.src in s.nodes && e.src != e.dst && IsListing(e.msg.spent, s.nodes[e.src].node.spent)
    ensures var after := P.Record(rounds, P.AsRead(e));
            after.Keys == {id} && after[id].coord == c && AllShow(s, after[id])
  {
    var before, after := rounds[id].snapshots, P.Record(rounds, P.AsRead(e))[id].snapshots;
    forall i | 0 <= i < |after| ensures Shows(s, c, after[i]) {
      if i < |before| {
        assert after[i] == before[i] && Shows(s, c, before[i]);
      } else {
        assert after[i] == SnapshotOf(e);
        ConveyedItems(e.msg.spent);
      }
    }
  }

  lemma RefusedSettles(cur: P.Sys, s: P.Sys, net: N.State, c: string, id: nat)
    requires Gathering(cur, s, c, id) && Sim(s, net)
    ensures Settling(cur.(rounds := map[]), net)
  {
    var t := cur.(rounds := map[]);
    forall n, b ensures !Told(t.bag, n, b) {
    }
    forall n, b ensures (t.Holds(n, b) <==> s.Holds(n, b)) && (t.HasSpent(n, b) <==> s.HasSpent(n, b)) {
    }
    forall n, m ensures LinkedIn(t, n, m) <==> LinkedIn(s, n, m) {
    }
  }

  /** All the spends a round at `c` hears of. */
  ghost function AllHeardOf(s: P.Sys, c: string): set<string> {
    set n, b | n in s.nodes && b in HeardOf(c, n, s.nodes[n].node.spent) :: b
  }

  /** What a round at `c` burns, if nobody spends meanwhile: nothing if it hears of a conflict. */
  ghost function HeardBurn(s: P.Sys, c: string): set<string> {
    if exists b :: HeardTwice(s, c, b) then {} else AllHeardOf(s, c)
  }

  /** The network after every node has dropped these bearers. */
  ghost function Burnt(net: N.State, burn: set<string>): N.State {
    net.(nodes := N.DropFrom(net.nodes, net.nodes.Keys, burn))
  }

  lemma BurntNothing(net: N.State)
    ensures Burnt(net, {}) == net
  {
    forall n | n in net.nodes ensures net.nodes[n].(ledger := net.nodes[n].ledger - {}) == net.nodes[n] {
      assert net.nodes[n].ledger - {} == net.nodes[n].ledger;
    }
    assert N.DropFrom(net.nodes, net.nodes.Keys, {}) == net.nodes;
  }

  lemma BurntAt(net: N.State, burn: set<string>, n: string, b: string)
    requires net.Valid()
    ensures Burnt(net, burn).Valid() && Burnt(net, burn).nodes.Keys == net.nodes.Keys
    ensures Burnt(net, burn).Holds(n, b) <==> net.Holds(n, b) && b !in burn
    ensures Burnt(net, burn).HasSpent(n, b) <==> net.HasSpent(n, b)
  {
  }

  lemma RecordedIsHeard(s: P.Sys, r: P.Round)
    requires AllShow(s, r) && P.Quorum(s, r)
    ensures Recorded(r.snapshots) == AllHeardOf(s, r.coord)
    ensures SnapshotConflictFree(r.snapshots) <==> forall b :: !HeardTwice(s, r.coord, b)
  {
    ShownIsRecorded(s, r);
    RecordedConflicts(s, r);
    forall b ensures b in Recorded(r.snapshots) <==> b in AllHeardOf(s, r.coord) {
      if b in Recorded(r.snapshots) {
        var i :| 0 <= i < |r.snapshots| && b in r.snapshots[i].spent;
        assert Shows(s, r.coord, r.snapshots[i]);
      }
      if b in AllHeardOf(s, r.coord) {
        var n :| n in s.nodes && b in HeardOf(r.coord, n, s.nodes[n].node.spent);
        assert HeardSpender(s, r.coord, n, b);
        assert Records(r.snapshots, n, b);
      }
    }
  }

  lemma GatheringQuorum(cur: P.Sys, s: P.Sys, c: string, id: nat)
    requires Gathering(cur, s, c, id) && P.Enabled(cur, P.Close(id))
    ensures P.Quorum(s, cur.rounds[id])
  {
  }

  /** A closed round burns what it has heard of, up to notices still on their way. */
  lemma GatheringClose(cur: P.Sys, s: P.Sys, net: N.State, c: string, id: nat)
    requires Gathering(cur, s, c, id) && Sim(s, net) && P.Enabled(cur, P.Close(id))
    ensures Settling(P.Next(cur, P.Close(id)), Burnt(net, HeardBurn(s, c)))
  {
    GatheringVerdict(cur, s, c, id);
    CloseStep(cur, c, id);
    if SnapshotConflictFree(cur.rounds[id].snapshots) {
      BurnSettles(cur, s, net, c, id, HeardBurn(s, c));
    } else {
      RefusedSettles(cur, s, net, c, id);
      BurntNothing(net);
    }
  }

  lemma GatheringVerdict(cur: P.Sys, s: P.Sys, c: string, id: nat)
    requires Gathering(cur, s, c, id) && P.Enabled(cur, P.Close(id))
    ensures HeardBurn(s, c) == if SnapshotConflictFree(cur.rounds[id].snapshots)
                               then Recorded(cur.rounds[id].snapshots) else {}
  {
    GatheringQuorum(cur, s, c, id);
    RecordedIsHeard(s, cur.rounds[id]);
  }

  lemma CloseStep(cur: P.Sys, c: string, id: nat)
    requires P.Enabled(cur, P.Close(id)) && cur.rounds.Keys == {id} && cur.rounds[id].coord == c
    ensures P.Next(cur, P.Close(id)) ==
            if SnapshotConflictFree(cur.rounds[id].snapshots)
            then Burned(cur, c, id, Recorded(cur.rounds[id].snapshots))
            else cur.(rounds := map[])
  {
    assert cur.rounds - {id} == map[];
  }

  ghost function Burned(cur: P.Sys, c: string, id: nat, burn: set<string>): P.Sys
    requires c in cur.nodes
  {
    cur.(nodes := cur.nodes[c := cur.nodes[c].Without(burn)],
         bag := cur.bag + P.Tells(c, cur.nodes.Keys - {c}, id, burn),
         rounds := map[])
  }

  lemma BurnHolds(cur: P.Sys, c: string, id: nat, burn: set<string>, n: string, b: string)
    requires c in cur.nodes && forall e | e in cur.bag :: StatusOnly(e.msg)
    ensures var t := Burned(cur, c, id, burn);
            t.Holds(n, b) && !Told(t.bag, n, b) <==> cur.Holds(n, b) && b !in burn
  {
    ToldPlus(cur.bag, P.Tells(c, cur.nodes.Keys - {c}, id, burn), n, b);
    ToldTells(c, cur.nodes.Keys - {c}, id, burn, n, b);
  }

  lemma BurnKeeps(cur: P.Sys, c: string, id: nat, burn: set<string>)
    requires c in cur.nodes
    ensures var t := Burned(cur, c, id, burn);
            && t.nodes.Keys == cur.nodes.Keys
            && (forall n, b :: t.HasSpent(n, b) <==> cur.HasSpent(n, b))
            && (forall n, m :: LinkedIn(t, n, m) <==> LinkedIn(cur, n, m))
  {
  }

  lemma BurnSettles(cur: P.Sys, s: P.Sys, net: N.State, c: string, id: nat, burn: set<string>)
    requires Gathering(cur, s, c, id) && Sim(s, net)
    ensures Settling(Burned(cur, c, id, burn), Burnt(net, burn))
  {
    var t, net1 := Burned(cur, c, id, burn), Burnt(net, burn);
    BurntAt(net, burn, c, "");
    BurnKeeps(cur, c, id, burn);
    BurnedBag(cur, s, c, id, burn);
    forall n, b ensures net1.Holds(n, b) <==> t.Holds(n, b) && !Told(t.bag, n, b) {
      BurntAt(net, burn, n, b);
      BurnHolds(cur, c, id, burn, n, b);
      assert cur.Holds(n, b) <==> s.Holds(n, b);
    }
    forall n, b ensures net1.HasSpent(n, b) <==> t.HasSpent(n, b) {
      BurntAt(net, burn, n, b);
      assert cur.HasSpent(n, b) <==> s.HasSpent(n, b);
    }
    forall n, m ensures net1.Up(n, m) <==> LinkedIn(t, n, m) {
      assert LinkedIn(cur, n, m) <==> LinkedIn(s, n, m);
    }
  }

  lemma BurnedBag(cur: P.Sys, s: P.Sys, c: string, id: nat, burn: set<string>)
    requires Gathering(cur, s, c, id)
    ensures forall e | e in Burned(cur, c, id, burn).bag ::
              e.src in s.nodes && e.dst in s.nodes && (e.msg.SpentNotify? || StatusOnly(e.msg))
  {
    forall e | e in Burned(cur, c, id, burn).bag
      ensures e.src in s.nodes && e.dst in s.nodes && (e.msg.SpentNotify? || StatusOnly(e.msg))
    {
      P.TellsExactly(c, cur.nodes.Keys - {c}, id, burn, e);
    }
  }

  lemma GatheringHears(cur: P.Sys, s: P.Sys, c: string, id: nat, move: P.Move)
    requires Sane(cur) && Gathering(cur, s, c, id) && move.Deliver? && P.Enabled(cur, move)
    ensures Gathering(P.Next(cur, move), s, c, id)
  {
    ReadsExactly(cur, move.e);
    GatheringDeliver(cur, s, c, id, move.e);
  }

  lemma GatheringEnded(cur: P.Sys, s: P.Sys, net: N.State, c: string, id: nat, rest: seq<P.Move>)
    requires Sane(cur) && Gathering(cur, s, c, id) && Sim(s, net)
    requires P.Enabled(cur, P.Close(id)) && Completes(P.Next(cur, P.Close(id)), rest)
    ensures Sim(P.Play(P.Next(cur, P.Close(id)), rest), Burnt(net, HeardBurn(s, c)))
  {
    DoKeepsSane(cur, P.Close(id));
    GatheringClose(cur, s, net, c, id);
    SettlingEnds(P.Next(cur, P.Close(id)), Burnt(net, HeardBurn(s, c)), rest);
  }

  lemma GatheringGoesOn(cur: P.Sys, s: P.Sys, c: string, id: nat, moves: seq<P.Move>)
    requires Gathering(cur, s, c, id) && Completes(cur, moves)
    ensures moves != [] && Responds(moves[0]) && P.Enabled(cur, moves[0])
    ensures Completes(P.Next(cur, moves[0]), moves[1..])
    ensures moves[0].Close? || moves[0].Ask? || moves[0].Deliver?
    ensures moves[0].Close? ==> moves[0].round == id
    ensures P.Play(cur, moves) == P.Play(P.Next(cur, moves[0]), moves[1..])
  {
    assert id in cur.rounds;
  }

  lemma {:induction false} GatheringEnds(cur: P.Sys, s: P.Sys, net: N.State, c: string, id: nat, moves: seq<P.Move>)
    requires Sane(cur) && Gathering(cur, s, c, id) && Sim(s, net) && Completes(cur, moves)
    ensures Sim(P.Play(cur, moves), Burnt(net, HeardBurn(s, c)))
    decreases |moves|
  {
    GatheringGoesOn(cur, s, c, id, moves);
    if moves[0].Close? {
      GatheringEnded(cur, s, net, c, id, moves[1..]);
    } else {
      if moves[0].Ask? {
        GatheringAsk(cur, s, c, id, moves[0]);
      } else {
        GatheringHears(cur, s, c, id, moves[0]);
      }
      DoKeepsSane(cur, moves[0]);
      GatheringEnds(P.Next(cur, moves[0]), s, net, c, id, moves[1..]);
    }
  }

  lemma OpenGathers(s: P.Sys, c: string)
    requires Quiet(s) && c in s.nodes
    ensures Gathering(P.Do(s, P.Open(c)), s, c, s.nextRound)
  {
    OpenStep(s, c);
  }

  /** Run alone to its end, a round burns at every node what it hears of, unless it hears of a conflict. */
  lemma RoundOutcome(s: P.Sys, net: N.State, c: string, moves: seq<P.Move>)
    requires Sane(s) && Quiet(s) && Sim(s, net) && c in s.nodes && Completes(P.Do(s, P.Open(c)), moves)
    ensures Sim(P.Play(P.Do(s, P.Open(c)), moves), Burnt(net, HeardBurn(s, c)))
  {
    OpenGathers(s, c);
    DoKeepsSane(s, P.Open(c));
    GatheringEnds(P.Do(s, P.Open(c)), s, net, c, s.nextRound, moves);
  }

  // ---- Against the central settlement ------------------------------------------------------------------------------

  /** A node other than the coordinator has spent the blank bearer alone, so the round does not hear of it. */
  ghost predicate Unheard(s: P.Sys, c: string) {
    exists n :: n != c && n in s.nodes && s.nodes[n].node.spent == {""}
  }

  /**
   * When a round at `c` does what the central settlement does. It does if no spend goes unheard, or if it hears of a
   * conflict. Else, if the blank bearer is double spent, it must have nothing to burn that anyone holds, and otherwise
   * nobody must hold the blank bearer.
   */
  ghost predicate RoundConveys(s: P.Sys, c: string) {
    Unheard(s, c) && (forall b :: !HeardTwice(s, c, b)) ==>
      if s.DoubleSpent("")
      then forall n, b | s.Holds(n, b) :: b !in AllHeardOf(s, c)
      else forall n :: !s.Holds(n, "")
  }

  ghost function AllSpends(s: P.Sys): set<string> {
    set n, b | n in s.nodes && b in s.nodes[n].node.spent :: b
  }

  /** What the central settlement burns. */
  ghost function CentralBurn(s: P.Sys): set<string> {
    if exists b :: s.DoubleSpent(b) then {} else AllSpends(s)
  }

  lemma SpendsExactly(s: P.Sys, b: string)
    ensures b in AllSpends(s) <==> exists n :: s.HasSpent(n, b)
  {
    if n :| s.HasSpent(n, b) {
      assert b in s.nodes[n].node.spent;
    }
    if b in AllSpends(s) {
      var n :| n in s.nodes && b in s.nodes[n].node.spent;
      assert s.HasSpent(n, b);
    }
  }

  lemma HeardOfExactly(s: P.Sys, c: string, b: string)
    ensures b in AllHeardOf(s, c) <==> exists n :: HeardSpender(s, c, n, b)
  {
    if n :| HeardSpender(s, c, n, b) {
      assert b in HeardOf(c, n, s.nodes[n].node.spent);
    }
    if b in AllHeardOf(s, c) {
      var n :| n in s.nodes && b in HeardOf(c, n, s.nodes[n].node.spent);
      assert HeardSpender(s, c, n, b);
    }
  }

  /** Without an unheard spender, a round hears of every spend. */
  lemma AllHeard(s: P.Sys, c: string)
    requires !Unheard(s, c)
    ensures HeardBurn(s, c) == CentralBurn(s)
  {
    forall b ensures HeardTwice(s, c, b) <==> s.DoubleSpent(b) {
      if n, m :| n != m && s.HasSpent(n, b) && s.HasSpent(m, b) {
        assert HeardSpender(s, c, n, b) && HeardSpender(s, c, m, b);
      }
    }
    forall b ensures b in AllHeardOf(s, c) <==> b in AllSpends(s) {
      HeardOfExactly(s, c, b);
      SpendsExactly(s, b);
      if n :| s.HasSpent(n, b) {
        assert HeardSpender(s, c, n, b);
      }
    }
    assert AllHeardOf(s, c) == AllSpends(s);
  }

  /** With a lone spend of the blank bearer unheard, exactly that bearer is missing from what is heard. */
  lemma BlankUnheard(s: P.Sys, c: string)
    requires Unheard(s, c) && !s.DoubleSpent("")
    ensures AllSpends(s) == AllHeardOf(s, c) + {""} && "" !in AllHeardOf(s, c)
  {
    var u :| u != c && u in s.nodes && s.nodes[u].node.spent == {""};
    assert s.HasSpent(u, "") && !HeardSpender(s, c, u, "");
    forall b ensures b in AllSpends(s) <==> b in AllHeardOf(s, c) || b == "" {
      HeardOfExactly(s, c, b);
      SpendsExactly(s, b);
      if n :| s.HasSpent(n, b) && b != "" {
        assert HeardSpender(s, c, n, b);
      }
    }
    HeardOfExactly(s, c, "");
    assert forall n :: s.HasSpent(n, "") ==> n == u;
  }

  /** The two burns agree on everything anyone holds exactly under that condition. */
  lemma RoundConveysExactly(s: P.Sys, c: string)
    ensures RoundConveys(s, c) <==> forall n, b | s.Holds(n, b) :: b in HeardBurn(s, c) <==> b in CentralBurn(s)
  {
    if !Unheard(s, c) {
      AllHeard(s, c);
    } else if b :| HeardTwice(s, c, b) {
      OnlyBlankIsMissed(s, c, b);
    } else if s.DoubleSpent("") {
      assert CentralBurn(s) == {} && HeardBurn(s, c) == AllHeardOf(s, c);
    } else {
      forall b ensures !s.DoubleSpent(b) {
        OnlyBlankIsMissed(s, c, b);
      }
      BlankUnheard(s, c);
    }
  }

  lemma SpendsAgree(s: P.Sys, net: N.State)
    requires Sim(s, net)
    ensures net.SpentBy(net.nodes.Keys) == AllSpends(s)
  {
    forall b ensures b in net.SpentBy(net.nodes.Keys) <==> b in AllSpends(s) {
      SpendsExactly(s, b);
      if n :| s.HasSpent(n, b) {
        assert net.HasSpent(n, b);
      }
      if b in net.SpentBy(net.nodes.Keys) {
        var n :| n in net.nodes && b in net.nodes[n].spent;
        assert net.HasSpent(n, b);
      }
    }
  }

  lemma ConflictShows(s: P.Sys, net: N.State, b: string)
    requires Sim(s, net) && s.DoubleSpent(b)
    ensures !N.ConflictFree(net, net.nodes.Keys)
  {
    var n, m :| n != m && s.HasSpent(n, b) && s.HasSpent(m, b);
    assert net.HasSpent(n, b) && net.HasSpent(m, b);
  }

  lemma ConflictFound(s: P.Sys, net: N.State)
    requires Sim(s, net) && !N.ConflictFree(net, net.nodes.Keys)
    ensures exists b :: s.DoubleSpent(b)
  {
    var n, m, b :| net.HasSpent(n, b) && net.HasSpent(m, b) && n != m;
    assert s.HasSpent(n, b) && s.HasSpent(m, b);
    assert s.DoubleSpent(b);
  }

  /** The central settlement burns what has been spent, unless something is double spent. */
  lemma CentralBurnt(s: P.Sys, net: N.State)
    requires Sim(s, net)
    ensures CentralBurn(s) == if N.Enabled(net, N.ConversionDay(None)) then net.SpentBy(net.nodes.Keys) else {}
  {
    SpendsAgree(s, net);
    if b :| s.DoubleSpent(b) {
      ConflictShows(s, net, b);
    } else if !N.ConflictFree(net, net.nodes.Keys) {
      ConflictFound(s, net);
    }
  }

  lemma CentralBurntAt(s: P.Sys, net: N.State, n: string, b: string)
    requires Sim(s, net)
    ensures var net1 := N.Exec(net, N.ConversionDay(None));
            && (net1.Holds(n, b) <==> s.Holds(n, b) && b !in CentralBurn(s))
            && (net1.HasSpent(n, b) <==> s.HasSpent(n, b))
  {
    var a := N.ConversionDay(None);
    N.ExecHolds(net, a, n, b);
    N.ExecSpent(net, a, n, b);
    assert (s.Holds(n, b) <==> net.Holds(n, b)) && (s.HasSpent(n, b) <==> net.HasSpent(n, b));
    CentralBurnt(s, net);
  }

  /** Two central networks with the same links and spends stand for the same state exactly if they hold the same. */
  lemma SimFrom(t: P.Sys, net: N.State, other: N.State)
    requires Sim(t, net) && other.Valid() && other.nodes.Keys == net.nodes.Keys
    requires forall n, b :: other.HasSpent(n, b) <==> net.HasSpent(n, b)
    requires forall n, m :: other.Up(n, m) <==> net.Up(n, m)
    ensures Sim(t, other) <==> forall n, b :: other.Holds(n, b) <==> net.Holds(n, b)
  {
    forall n, b ensures t.Holds(n, b) <==> net.Holds(n, b) {
    }
  }

  /** A round run alone does what the central settlement does exactly under the condition `RoundConveys`. */
  lemma RoundRefines(s: P.Sys, net: N.State, c: string, moves: seq<P.Move>)
    requires Sane(s) && Quiet(s) && Sim(s, net) && c in s.nodes && Completes(P.Do(s, P.Open(c)), moves)
    ensures Sim(P.Play(P.Do(s, P.Open(c)), moves), N.Run(net, [N.ConversionDay(None)])) <==> RoundConveys(s, c)
  {
    var a, t := N.ConversionDay(None), P.Play(P.Do(s, P.Open(c)), moves);
    var burnt, settled := Burnt(net, HeardBurn(s, c)), N.Exec(net, a);
    ExecOne(net, a);
    N.ExecValid(net, a);
    RoundOutcome(s, net, c, moves);
    BurnsCompare(s, net, c);
    forall n, m ensures settled.Up(n, m) <==> burnt.Up(n, m) {
      N.ExecLinks(net, a, n, m);
    }
    SimFrom(t, burnt, settled);
    RoundConveysExactly(s, c);
  }

  lemma BurnsCompare(s: P.Sys, net: N.State, c: string)
    requires Sim(s, net)
    ensures var burnt, settled := Burnt(net, HeardBurn(s, c)), N.Exec(net, N.ConversionDay(None));
            && settled.nodes.Keys == burnt.nodes.Keys
            && (forall n, b :: settled.HasSpent(n, b) <==> burnt.HasSpent(n, b))
            && ((forall n, b :: settled.Holds(n, b) <==> burnt.Holds(n, b)) <==>
                forall n, b | s.Holds(n, b) :: b in HeardBurn(s, c) <==> b in CentralBurn(s))
  {
    var burnt, settled := Burnt(net, HeardBurn(s, c)), N.Exec(net, N.ConversionDay(None));
    N.ExecValid(net, N.ConversionDay(None));
    forall n, b
      ensures settled.HasSpent(n, b) <==> burnt.HasSpent(n, b)
      ensures settled.Holds(n, b) <==> s.Holds(n, b) && b !in CentralBurn(s)
      ensures burnt.Holds(n, b) <==> s.Holds(n, b) && b !in HeardBurn(s, c)
    {
      CentralBurntAt(s, net, n, b);
      BurntAt(net, HeardBurn(s, c), n, b);
      assert (s.Holds(n, b) <==> net.Holds(n, b)) && (s.HasSpent(n, b) <==> net.HasSpent(n, b));
    }
    BurntAt(net, HeardBurn(s, c), "", "");
  }
}
