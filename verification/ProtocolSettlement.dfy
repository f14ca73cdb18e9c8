/** What a distributed settlement round guarantees although its snapshots are taken one node at a time. */
module ProtocolSettlement {
  import opened Coordinator
  import opened ProtocolPolling
  import opened ProtocolSafety
  import P = Protocol
  import Settlement
  import opened ConversionDay

  /** The round can close and its snapshots show no conflict. */
  ghost predicate Passes(s: P.Sys, id: nat) {
    P.Enabled(s, P.Close(id)) && SnapshotConflictFree(s.rounds[id].snapshots)
  }

  lemma RecordsIsSpent(s: P.Sys, r: P.Round, n: string, b: string)
    requires RoundFresh(s, r) && Records(r.snapshots, n, b)
    ensures s.HasSpent(n, b)
  {
    var i :| 0 <= i < |r.snapshots| && r.snapshots[i].nodeId == n && b in r.snapshots[i].spent;
    assert Fresh(s, r, n, r.snapshots[i].spent);
  }

  /** Node `n` had spent the bearer when the round opened, and there was a way to hear of it. */
  predicate HeardAtOpening(r: P.Round, n: string, b: string) {
    n in r.opening && b in r.opening[n] && (n == r.coord || r.opening[n] != {""})
  }

  lemma OpeningIsRecorded(s: P.Sys, r: P.Round, n: string, b: string)
    requires RoundFresh(s, r) && P.Quorum(s, r) && HeardAtOpening(r, n, b)
    ensures Records(r.snapshots, n, b)
  {
    var i :| 0 <= i < |r.snapshots| && r.snapshots[i].nodeId == n;
    assert Fresh(s, r, n, r.snapshots[i].spent);
  }

  lemma ConflictExists(s: P.Sys, r: P.Round)
    requires RoundFresh(s, r) && !SnapshotConflictFree(r.snapshots)
    ensures exists b :: s.DoubleSpent(b)
  {
    var n, m, b :| Records(r.snapshots, n, b) && Records(r.snapshots, m, b) && n != m;
    RecordsIsSpent(s, r, n, b);
    RecordsIsSpent(s, r, m, b);
    assert s.DoubleSpent(b);
  }

  /**
   * A reported conflict is a real double spend in the current state, and reporting it changes no node and sends
   * nothing.
   */
  lemma ConflictIsGenuine(s: P.Sys, id: nat)
    requires Sane(s) && P.Enabled(s, P.Close(id)) && !Passes(s, id)
    ensures exists b :: s.DoubleSpent(b)
    ensures forall n, b | Records(s.rounds[id].snapshots, n, b) :: s.HasSpent(n, b)
    ensures P.Do(s, P.Close(id)).nodes == s.nodes && P.Do(s, P.Close(id)).bag == s.bag
  {
    RefusalChangesNothing(s, id);
    RoundIsFresh(s, id);
    ConflictExists(s, s.rounds[id]);
    forall n, b | Records(s.rounds[id].snapshots, n, b) ensures s.HasSpent(n, b) {
      RecordsIsSpent(s, s.rounds[id], n, b);
    }
  }

  lemma BlamesExactly(snapshots: seq<PeerSnapshot>, report: Settlement.Report, b: string, n: string)
    requires Settlement.IsReport(report, SnapshotIndex(snapshots))
    ensures Settlement.Blames(report, b, n) <==>
            Records(snapshots, n, b) && exists m :: m != n && Records(snapshots, m, b)
  {
    var index := SnapshotIndex(snapshots);
    IndexRecords(snapshots);
    Settlement.ReportBlames(report, index, b, n);
    forall m ensures b in index && m in index[b] <==> Records(snapshots, m, b) {
      assert Lists(index, b, m) <==> Records(snapshots, m, b);
    }
  }

  /** Every name in a conflict report is deserved, and every double spend to be heard of before the round is in it. */
  lemma ReportIsGenuine(s: P.Sys, id: nat, report: Settlement.Report, b: string, n: string)
    requires Sane(s) && P.Enabled(s, P.Close(id))
    requires Settlement.IsReport(report, SnapshotIndex(s.rounds[id].snapshots))
    ensures Settlement.Blames(report, b, n) ==> s.HasSpent(n, b) && s.DoubleSpent(b)
    ensures forall m | m != n && HeardAtOpening(s.rounds[id], n, b) && HeardAtOpening(s.rounds[id], m, b) ::
              Settlement.Blames(report, b, n)
  {
    var r := s.rounds[id];
    RoundIsFresh(s, id);
    BlamesExactly(r.snapshots, report, b, n);
    if m :| Settlement.Blames(report, b, n) && m != n && Records(r.snapshots, m, b) {
      RecordsIsSpent(s, r, n, b);
      RecordsIsSpent(s, r, m, b);
    }
    forall m | m != n && HeardAtOpening(r, n, b) && HeardAtOpening(r, m, b)
      ensures Settlement.Blames(report, b, n)
    {
      OpeningIsRecorded(s, r, n, b);
      OpeningIsRecorded(s, r, m, b);
    }
  }

  lemma RefusalChangesNothing(s: P.Sys, id: nat)
    requires P.Enabled(s, P.Close(id)) && !Passes(s, id)
    ensures P.Do(s, P.Close(id)).nodes == s.nodes && P.Do(s, P.Close(id)).bag == s.bag
  {
  }

  /** A round given up for want of quorum changes no node and sends nothing. */
  lemma MissingQuorumIsHarmless(s: P.Sys, id: nat)
    ensures P.Do(s, P.Abandon(id)).nodes == s.nodes && P.Do(s, P.Abandon(id)).bag == s.bag
    ensures id !in P.Do(s, P.Abandon(id)).rounds
    ensures !P.Enabled(s, P.Close(id)) ==> P.Do(s, P.Close(id)) == s
  {
  }

  /**
   * When a round succeeds, of any two spenders of one bearer at least one had no spend of it to be heard of when the
   * round opened: it spent the bearer later, or it is a peer that had then spent the blank bearer alone.
   */
  lemma SuccessBlamesLateSpends(s: P.Sys, id: nat, n: string, m: string, b: string)
    requires Sane(s) && Passes(s, id) && n != m && s.HasSpent(n, b) && s.HasSpent(m, b)
    ensures !HeardAtOpening(s.rounds[id], n, b) || !HeardAtOpening(s.rounds[id], m, b)
  {
    RoundIsFresh(s, id);
    PassedRound(s, id);
    Blame(s, s.rounds[id], n, m, b);
  }

  lemma PassedRound(s: P.Sys, id: nat)
    requires Passes(s, id)
    ensures id in s.rounds && P.Quorum(s, s.rounds[id]) && SnapshotConflictFree(s.rounds[id].snapshots)
  {
  }

  lemma RoundIsFresh(s: P.Sys, id: nat)
    requires Sane(s) && id in s.rounds
    ensures RoundFresh(s, s.rounds[id])
  {
  }

  lemma Blame(s: P.Sys, r: P.Round, n: string, m: string, b: string)
    requires RoundFresh(s, r) && P.Quorum(s, r) && SnapshotConflictFree(r.snapshots) && n != m
    ensures !HeardAtOpening(r, n, b) || !HeardAtOpening(r, m, b)
  {
    if HeardAtOpening(r, n, b) && HeardAtOpening(r, m, b) {
      OpeningIsRecorded(s, r, n, b);
      OpeningIsRecorded(s, r, m, b);
    }
  }

  // ---- Rounds during which nobody spends -----------------------------------------------------------

  ghost predicate NoSpends(moves: seq<P.Move>) {
    forall i | 0 <= i < |moves| :: !moves[i].Spend?
  }

  lemma {:induction false} QuietSpends(s: P.Sys, moves: seq<P.Move>)
    requires NoSpends(moves)
    ensures P.Play(s, moves).nodes.Keys == s.nodes.Keys
    ensures forall n, b :: P.Play(s, moves).HasSpent(n, b) <==> s.HasSpent(n, b)
    decreases |moves|
  {
    if moves != [] {
      P.DoKeys(s, moves[0]);
      forall n, b ensures P.Do(s, moves[0]).HasSpent(n, b) <==> s.HasSpent(n, b) {
        P.DoSpent(s, moves[0], n, b);
      }
      QuietSpends(P.Do(s, moves[0]), moves[1..]);
    }
  }

  /** The round with this number is the one it was: same coordinator, same record of the opening state. */
  ghost predicate SameRound(s: P.Sys, t: P.Sys, id: nat) {
    && id in s.rounds && id in t.rounds
    && t.rounds[id].opening == s.rounds[id].opening && t.rounds[id].coord == s.rounds[id].coord
  }

  /**
   * A round keeps its coordinator and its record of the opening state for as long as it lasts, and its number is never
   * used again.
   */
  lemma {:induction false} OpeningKept(s: P.Sys, moves: seq<P.Move>, id: nat)
    requires id < s.nextRound && id in P.Play(s, moves).rounds
    ensures SameRound(s, P.Play(s, moves), id)
    decreases |moves|
  {
    if moves != [] {
      if P.Enabled(s, moves[0]) {
        NextNumber(s, moves[0]);
      }
      OpeningKept(P.Do(s, moves[0]), moves[1..], id);
      OpeningStays(s, moves[0], id);
    }
  }

  lemma OpeningStays(s: P.Sys, move: P.Move, id: nat)
    requires id < s.nextRound && id in P.Do(s, move).rounds
    ensures SameRound(s, P.Do(s, move), id)
  {
    if P.Enabled(s, move) {
      match move
      case Deliver(e) => DeliveryKeepsOpening(s, e, id);
      case Close(closed) => CloseRounds(s, closed);
      case Open(c) => OpenStep(s, c);
      case Ask(r, p) => AskStep(s, r, p);
      case _ => RoundsKept(s, move);
    }
  }

  lemma RoundsKept(s: P.Sys, move: P.Move)
    requires P.Enabled(s, move)
    requires !move.Deliver? && !move.Close? && !move.Open? && !move.Ask?
    ensures forall id | id in P.Next(s, move).rounds :: id in s.rounds && P.Next(s, move).rounds[id] == s.rounds[id]
  {
  }

  lemma DeliveryKeepsOpening(s: P.Sys, e: P.Envelope, id: nat)
    requires P.Enabled(s, P.Deliver(e)) && id in P.Next(s, P.Deliver(e)).rounds
    ensures SameRound(s, P.Next(s, P.Deliver(e)), id)
  {
  }

  /**
   * A spender whose spend a round at `c` hears of: its coordinator, or one with more to report than the blank bearer.
   */
  ghost predicate HeardSpender(s: P.Sys, c: string, n: string, b: string) {
    s.HasSpent(n, b) && (n == c || s.nodes[n].node.spent != {""})
  }

  ghost predicate HeardTwice(s: P.Sys, c: string, b: string) {
    exists n, m :: n != m && HeardSpender(s, c, n, b) && HeardSpender(s, c, m, b)
  }

  /**
   * What is heard twice is double spent. A double spend goes unheard only of the blank bearer, when at most one of its
   * spenders is the coordinator or has spent anything else.
   */
  lemma OnlyBlankIsMissed(s: P.Sys, c: string, b: string)
    ensures HeardTwice(s, c, b) ==> s.DoubleSpent(b)
    ensures b != "" ==> (HeardTwice(s, c, b) <==> s.DoubleSpent(b))
  {
    if n, m :| n != m && s.HasSpent(n, b) && s.HasSpent(m, b) && b != "" {
      assert HeardSpender(s, c, n, b) && HeardSpender(s, c, m, b);
    }
  }

  /** The snapshots record exactly the spends to be heard of now. */
  ghost predicate RecordsHeard(s: P.Sys, r: P.Round) {
    forall n, b :: Records(r.snapshots, n, b) <==> HeardSpender(s, r.coord, n, b)
  }

  lemma RecordedConflicts(s: P.Sys, r: P.Round)
    requires RecordsHeard(s, r)
    ensures SnapshotConflictFree(r.snapshots) <==> forall b :: !HeardTwice(s, r.coord, b)
  {
    if b :| HeardTwice(s, r.coord, b) {
      var n, m :| n != m && HeardSpender(s, r.coord, n, b) && HeardSpender(s, r.coord, m, b);
      assert Records(r.snapshots, n, b) && Records(r.snapshots, m, b);
    }
    if n, m, b :| Records(r.snapshots, n, b) && Records(r.snapshots, m, b) && n != m {
      assert HeardSpender(s, r.coord, n, b) && HeardSpender(s, r.coord, m, b);
      assert HeardTwice(s, r.coord, b);
    }
  }

  /** Snapshots of all nodes that show what there is to hear record just that. */
  lemma ShownIsRecorded(s: P.Sys, r: P.Round)
    requires AllShow(s, r) && P.Quorum(s, r)
    ensures RecordsHeard(s, r)
  {
    forall n, b ensures Records(r.snapshots, n, b) <==> HeardSpender(s, r.coord, n, b) {
      if HeardSpender(s, r.coord, n, b) {
        var i :| 0 <= i < |r.snapshots| && r.snapshots[i].nodeId == n;
        assert Shows(s, r.coord, r.snapshots[i]);
      }
      if Records(r.snapshots, n, b) {
        var i :| 0 <= i < |r.snapshots| && r.snapshots[i].nodeId == n && b in r.snapshots[i].spent;
        assert Shows(s, r.coord, r.snapshots[i]);
      }
    }
  }

  /** Where nobody has spent since the opening, fresh snapshots show what there is to hear. */
  lemma FreshShows(s: P.Sys, r: P.Round)
    requires RoundFresh(s, r) && forall n | n in s.nodes :: s.nodes[n].node.spent <= r.opening[n]
    ensures AllShow(s, r)
  {
    forall i | 0 <= i < |r.snapshots| ensures Shows(s, r.coord, r.snapshots[i]) {
      assert Fresh(s, r, r.snapshots[i].nodeId, r.snapshots[i].spent);
    }
  }

  lemma VerdictExact(t: P.Sys, id: nat)
    requires Sane(t) && P.Enabled(t, P.Close(id))
    requires forall n, b | t.HasSpent(n, b) :: n in t.rounds[id].opening && b in t.rounds[id].opening[n]
    ensures Passes(t, id) <==> forall b :: !HeardTwice(t, t.rounds[id].coord, b)
  {
    var r := t.rounds[id];
    RoundIsFresh(t, id);
    forall n, b | n in t.nodes && b in t.nodes[n].node.spent ensures b in r.opening[n] {
      assert t.HasSpent(n, b);
    }
    FreshShows(t, r);
    ShownIsRecorded(t, r);
    RecordedConflicts(t, r);
  }

  /**
   * With no spend between opening and closing, the verdict is exact, whatever else happens and is in flight: success
   * if and only if no bearer has two spenders the round hears of.
   */
  lemma QuietRoundIsExact(s: P.Sys, c: string, moves: seq<P.Move>)
    requires Sane(s) && c in s.nodes && NoSpends(moves)
    requires P.Enabled(P.Play(P.Do(s, P.Open(c)), moves), P.Close(s.nextRound))
    ensures Passes(P.Play(P.Do(s, P.Open(c)), moves), s.nextRound) <==> forall b :: !HeardTwice(s, c, b)
  {
    var o := P.Do(s, P.Open(c));
    Opened(s, o, c);
    QuietVerdict(o, s.nextRound, moves);
    SameHeard(s, o, c);
  }

  lemma Opened(s: P.Sys, o: P.Sys, c: string)
    requires Sane(s) && c in s.nodes && o == P.Do(s, P.Open(c))
    ensures Sane(o) && o.nodes == s.nodes && s.nextRound < o.nextRound
    ensures s.nextRound in o.rounds && o.rounds[s.nextRound].coord == c && o.rounds[s.nextRound].opening == o.SpentOf()
  {
    OpenStep(s, c);
    DoKeepsSane(s, P.Open(c));
  }

  lemma QuietVerdict(s: P.Sys, id: nat, moves: seq<P.Move>)
    requires Sane(s) && NoSpends(moves) && id < s.nextRound && id in s.rounds && s.rounds[id].opening == s.SpentOf()
    requires P.Enabled(P.Play(s, moves), P.Close(id))
    ensures Passes(P.Play(s, moves), id) <==> forall b :: !HeardTwice(s, s.rounds[id].coord, b)
  {
    var t := P.Play(s, moves);
    QuietSpends(s, moves);
    PlayKeepsSane(s, moves);
    OpeningKept(s, moves, id);
    forall n, b | t.HasSpent(n, b) ensures n in t.rounds[id].opening && b in t.rounds[id].opening[n] {
      assert s.HasSpent(n, b);
    }
    VerdictExact(t, id);
    SameHeard(s, t, t.rounds[id].coord);
  }

  /** So, unless the blank bearer is double spent and not heard so, success means that nothing is double spent. */
  lemma QuietRoundSeesAll(s: P.Sys, c: string, moves: seq<P.Move>)
    requires Sane(s) && c in s.nodes && NoSpends(moves)
    requires P.Enabled(P.Play(P.Do(s, P.Open(c)), moves), P.Close(s.nextRound))
    ensures (Passes(P.Play(P.Do(s, P.Open(c)), moves), s.nextRound) <==> forall b :: !s.DoubleSpent(b)) <==>
            (s.DoubleSpent("") ==> exists b :: HeardTwice(s, c, b))
  {
    QuietRoundIsExact(s, c, moves);
    forall b ensures HeardTwice(s, c, b) ==> s.DoubleSpent(b) {
      OnlyBlankIsMissed(s, c, b);
    }
    forall b ensures b != "" && s.DoubleSpent(b) ==> HeardTwice(s, c, b) {
      OnlyBlankIsMissed(s, c, b);
    }
  }

  lemma SameHeard(s: P.Sys, t: P.Sys, c: string)
    requires forall n, b :: t.HasSpent(n, b) <==> s.HasSpent(n, b)
    ensures forall b :: HeardTwice(t, c, b) <==> HeardTwice(s, c, b)
  {
    forall n, b ensures HeardSpender(t, c, n, b) <==> HeardSpender(s, c, n, b) {
      SameSpender(s, t, c, n, b);
    }
    forall b ensures HeardTwice(t, c, b) <==> HeardTwice(s, c, b) {
      HeardTwiceFrom(s, t, c, b);
      HeardTwiceFrom(t, s, c, b);
    }
  }

  lemma HeardTwiceFrom(s: P.Sys, t: P.Sys, c: string, b: string)
    requires forall n :: HeardSpender(s, c, n, b) ==> HeardSpender(t, c, n, b)
    ensures HeardTwice(s, c, b) ==> HeardTwice(t, c, b)
  {
  }

  lemma SameSpender(s: P.Sys, t: P.Sys, c: string, n: string, b: string)
    requires forall x :: t.HasSpent(n, x) <==> s.HasSpent(n, x)
    ensures HeardSpender(t, c, n, b) <==> HeardSpender(s, c, n, b)
  {
    if s.HasSpent(n, b) {
      assert t.HasSpent(n, b);
      assert forall x :: x in t.nodes[n].node.spent <==> t.HasSpent(n, x);
      assert forall x :: x in s.nodes[n].node.spent <==> s.HasSpent(n, x);
      assert t.nodes[n].node.spent == s.nodes[n].node.spent;
    }
  }
}
