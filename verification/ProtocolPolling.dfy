/** One settlement round hearing from everyone, whatever else is in flight. */
module ProtocolPolling {
  import opened Core
  import opened NetworkSpec
  import opened Wire
  import opened Coordinator
  import opened ProtocolSafety
  import P = Protocol

  // ---- The steps of a poll ------------------------------------------------------------------------------

  lemma OpenStep(s: P.Sys, c: string)
    requires c in s.nodes
    ensures var own := PeerSnapshot(c, s.nodes[c].node.ledger, s.nodes[c].node.spent);
            P.Do(s, P.Open(c)) ==
            s.(rounds := s.rounds[s.nextRound := P.Round(c, [own], {}, s.SpentOf())], nextRound := s.nextRound + 1)
  {
  }

  lemma AskStep(s: P.Sys, id: nat, p: string)
    requires P.Enabled(s, P.Ask(id, p))
    ensures var r := s.rounds[id];
            P.Do(s, P.Ask(id, p)) ==
            s.(rounds := s.rounds[id := r.(asked := r.asked + {p})],
               bag := s.bag + multiset{P.Envelope(r.coord, p, id, StatusRequest(r.coord))})
  {
  }

  ghost function StatusOf(node: Node): PeerMessage {
    StatusReply(node.nodeId, Listing(node.ledger), Listing(node.spent))
  }

  lemma RequestStep(s: P.Sys, e: P.Envelope)
    requires e in s.bag && e.dst in s.nodes && e.msg.StatusRequest? && P.Legible(s, e)
    ensures P.Do(s, P.Deliver(e)) ==
            s.(bag := s.bag - multiset{e} + multiset{P.Envelope(e.dst, e.src, e.conn, StatusOf(s.nodes[e.dst].node))})
  {
    assert P.Enabled(s, P.Deliver(e)) && P.AsRead(e) == e;
    P.LegibleStep(s, e);
    RequestHeard(s, e);
  }

  /** A status request is answered, and changes nothing. */
  lemma RequestHeard(s: P.Sys, e: P.Envelope)
    requires e.dst in s.nodes && e.msg.StatusRequest?
    ensures P.Arriving(s, e, e) ==
            s.(bag := s.bag - multiset{e} + multiset{P.Envelope(e.dst, e.src, e.conn, StatusOf(s.nodes[e.dst].node))})
  {
    assert s.nodes[e.dst := s.nodes[e.dst]] == s.nodes;
    assert P.Record(s.rounds, e) == s.rounds;
  }

  /** A status reply is recorded as it is read. */
  lemma ReplyStep(s: P.Sys, e: P.Envelope)
    requires e in s.bag && e.dst in s.nodes && e.msg.StatusReply? && P.Legible(s, e)
    ensures P.Do(s, P.Deliver(e)) == s.(bag := s.bag - multiset{e}, rounds := P.Record(s.rounds, P.AsRead(e)))
  {
    assert s.nodes[e.dst := s.nodes[e.dst]] == s.nodes;
    assert s.bag - multiset{e} + multiset{} == s.bag - multiset{e};
  }

  /** Some snapshot of the round is this node's. */
  ghost predicate Answered(r: P.Round, n: string) {
    exists i :: 0 <= i < |r.snapshots| && r.snapshots[i].nodeId == n
  }

  lemma AnsweredSnoc(r: P.Round, asked: set<string>, snap: PeerSnapshot, n: string)
    ensures Answered(r.(asked := asked, snapshots := r.snapshots + [snap]), n) <==> Answered(r, n) || n == snap.nodeId
  {
    var longer := r.(asked := asked, snapshots := r.snapshots + [snap]);
    if Answered(r, n) {
      var i :| 0 <= i < |r.snapshots| && r.snapshots[i].nodeId == n;
      assert longer.snapshots[i].nodeId == n;
    }
    if n == snap.nodeId {
      assert longer.snapshots[|r.snapshots|] == snap;
    }
  }

  /** What is read of a node's status. */
  function HeardStatus(node: Node): PeerSnapshot {
    PeerSnapshot(node.nodeId, Conveyed(node.ledger), Conveyed(node.spent))
  }

  lemma HeardStatusExactly(node: Node, src: string, dst: string, conn: nat)
    requires src == node.nodeId
    ensures SnapshotOf(P.Envelope(src, dst, conn, StatusOf(node))) == HeardStatus(node)
  {
    ConveyedItems(Listing(node.ledger));
    ConveyedItems(Listing(node.spent));
  }

  /** The state once a peer has been asked and its answer, as it was read, recorded. */
  ghost function Polled(s: P.Sys, id: nat, p: string): P.Sys
    requires id in s.rounds && p in s.nodes
  {
    var r := s.rounds[id];
    s.(rounds := s.rounds[id := r.(asked := r.asked + {p}, snapshots := r.snapshots + [HeardStatus(s.nodes[p].node)])])
  }

  /** Nodes know their names, and names and holdings have no newline. */
  ghost predicate Speaks(s: P.Sys) {
    && Readable(s)
    && (forall n | n in s.nodes :: s.nodes[n].node.nodeId == n)
    && forall n | n in s.nodes :: s.nodes[n].node.ledger + s.nodes[n].node.spent <= s.seeded
  }

  lemma SaneSpeaks(s: P.Sys)
    requires Sane(s)
    ensures Speaks(s)
  {
    forall n, b | n in s.nodes && b in s.nodes[n].node.ledger + s.nodes[n].node.spent ensures b in s.seeded {
      assert s.Holds(n, b) || s.HasSpent(n, b);
      assert Seen(s, b);
    }
  }

  /** What is read of what a node says of its holdings and spends. */
  lemma SaysClearly(s: P.Sys, n: string, msg: PeerMessage)
    requires Speaks(s) && n in s.nodes && msg.from == n
    requires Mentioned(msg) <= s.nodes[n].node.ledger + s.nodes[n].node.spent
    ensures s.wire(msg) == Ok(AsHeard(msg))
  {
    assert OneLine(msg);
  }

  /** The round can still ask this peer. */
  ghost predicate CanPoll(s: P.Sys, id: nat, p: string) {
    P.Enabled(s, P.Ask(id, p)) && s.rounds[id].coord in s.nodes && !Answered(s.rounds[id], p)
  }

  ghost predicate Possible(s: P.Sys, moves: seq<P.Move>, k: nat)
    requires k < |moves|
  {
    (moves[k].Ask? || moves[k].Deliver?) && P.Enabled(P.Play(s, moves[..k]), moves[k])
  }

  /** Each of these steps is an ask or a delivery, and possible when it is taken. */
  ghost predicate Takes(s: P.Sys, moves: seq<P.Move>) {
    forall k | 0 <= k < |moves| :: Possible(s, moves, k)
  }

  lemma PlayFirst(s: P.Sys, t: P.Sys, move: P.Move, rest: seq<P.Move>)
    requires t == P.Do(s, move)
    ensures P.Play(s, [move] + rest) == P.Play(t, rest)
  {
    assert ([move] + rest)[1..] == rest;
  }

  lemma TakesFirst(s: P.Sys, t: P.Sys, move: P.Move, rest: seq<P.Move>)
    requires (move.Ask? || move.Deliver?) && P.Enabled(s, move) && t == P.Do(s, move) && Takes(t, rest)
    ensures Takes(s, [move] + rest) && P.Play(s, [move] + rest) == P.Play(t, rest)
  {
    PlayFirst(s, t, move, rest);
    forall k | 0 <= k < |[move] + rest| ensures Possible(s, [move] + rest, k) {
      if k > 0 {
        assert ([move] + rest)[..k] == [move] + rest[..k - 1];
        PlayFirst(s, t, move, rest[..k - 1]);
        assert Possible(t, rest, k - 1);
      }
    }
  }

  lemma TakesSplit(s: P.Sys, before: seq<P.Move>, after: seq<P.Move>)
    requires Takes(s, before) && Takes(P.Play(s, before), after)
    ensures Takes(s, before + after) && P.Play(s, before + after) == P.Play(P.Play(s, before), after)
  {
    P.PlaySplit(s, before, after);
    forall k | 0 <= k < |before + after| ensures Possible(s, before + after, k) {
      if k < |before| {
        assert (before + after)[..k] == before[..k];
        assert Possible(s, before, k);
      } else {
        assert (before + after)[..k] == before + after[..k - |before|];
        P.PlaySplit(s, before, after[..k - |before|]);
        assert Possible(P.Play(s, before), after, k - |before|);
      }
    }
  }

  lemma JoinTakes(s: P.Sys, t: P.Sys, before: seq<P.Move>, after: seq<P.Move>) returns (moves: seq<P.Move>)
    requires Takes(s, before) && t == P.Play(s, before) && Takes(t, after)
    ensures Takes(s, moves) && P.Play(s, moves) == P.Play(t, after)
  {
    TakesSplit(s, before, after);
    moves := before + after;
  }

  lemma AskTaken(s: P.Sys, t: P.Sys, id: nat, p: string, rest: seq<P.Move>) returns (moves: seq<P.Move>)
    requires P.Enabled(s, P.Ask(id, p)) && Takes(t, rest)
    requires var r := s.rounds[id];
             t == s.(rounds := s.rounds[id := r.(asked := r.asked + {p})],
                     bag := s.bag + multiset{P.Envelope(r.coord, p, id, StatusRequest(r.coord))})
    ensures Takes(s, moves) && P.Play(s, moves) == P.Play(t, rest)
  {
    AskStep(s, id, p);
    TakesFirst(s, t, P.Ask(id, p), rest);
    moves := [P.Ask(id, p)] + rest;
  }

  lemma RequestTaken(s: P.Sys, t: P.Sys, e: P.Envelope, rest: seq<P.Move>) returns (moves: seq<P.Move>)
    requires e in s.bag && e.dst in s.nodes && e.msg.StatusRequest? && P.Legible(s, e) && Takes(t, rest)
    requires t == s.(bag := s.bag - multiset{e} +
                            multiset{P.Envelope(e.dst, e.src, e.conn, StatusOf(s.nodes[e.dst].node))})
    ensures Takes(s, moves) && P.Play(s, moves) == P.Play(t, rest)
  {
    RequestStep(s, e);
    TakesFirst(s, t, P.Deliver(e), rest);
    moves := [P.Deliver(e)] + rest;
  }

  lemma ReplyTaken(s: P.Sys, t: P.Sys, e: P.Envelope) returns (moves: seq<P.Move>)
    requires e in s.bag && e.dst in s.nodes && e.msg.StatusReply? && P.Legible(s, e)
    requires t == s.(bag := s.bag - multiset{e}, rounds := P.Record(s.rounds, P.AsRead(e)))
    ensures Takes(s, moves) && P.Play(s, moves) == t
  {
    ReplyStep(s, e);
    TakesFirst(s, t, P.Deliver(e), []);
    moves := [P.Deliver(e)] + [];
  }

  /** With the question on the wire, two steps bring back the answer as it is read. */
  lemma AnswerTaken(s: P.Sys, t: P.Sys, ask: P.Envelope) returns (moves: seq<P.Move>)
    requires Speaks(s) && ask in s.bag && ask.src in s.nodes && ask.dst in s.nodes
    requires ask.msg == StatusRequest(ask.src)
    requires t == s.(bag := s.bag - multiset{ask},
                     rounds := P.Record(s.rounds, P.AsRead(P.Envelope(ask.dst, ask.src, ask.conn,
                                                                      StatusOf(s.nodes[ask.dst].node)))))
    ensures Takes(s, moves) && P.Play(s, moves) == t
  {
    var reply := P.Envelope(ask.dst, ask.src, ask.conn, StatusOf(s.nodes[ask.dst].node));
    var s2 := s.(bag := s.bag - multiset{ask} + multiset{reply});
    assert s2.bag - multiset{reply} == t.bag;
    SaysClearly(s, ask.src, ask.msg);
    SaysClearly(s, ask.dst, reply.msg);
    var last := ReplyTaken(s2, t, reply);
    moves := RequestTaken(s, s2, ask, last);
  }

  /** Three steps ask one peer, and leave nothing behind but its answer. */
  lemma PollOne(s: P.Sys, id: nat, p: string) returns (moves: seq<P.Move>)
    requires Speaks(s) && CanPoll(s, id, p)
    ensures Takes(s, moves) && P.Play(s, moves) == Polled(s, id, p)
  {
    var r := s.rounds[id];
    var ask := P.Envelope(r.coord, p, id, StatusRequest(r.coord));
    var s1 := s.(rounds := s.rounds[id := r.(asked := r.asked + {p})], bag := s.bag + multiset{ask});
    assert s1.bag - multiset{ask} == s.bag;
    RecordNew(s1.rounds, id, P.Envelope(p, r.coord, id, StatusOf(s.nodes[p].node)));
    HeardStatusExactly(s.nodes[p].node, p, r.coord, id);
    var rest := AnswerTaken(s1, Polled(s, id, p), ask);
    moves := AskTaken(s, s1, id, p, rest);
  }

  lemma RecordNew(rounds: map<nat, P.Round>, id: nat, e: P.Envelope)
    requires id in rounds && e.msg.StatusReply? && e.conn == id && rounds[id].coord == e.dst
    requires !Answered(rounds[id], e.src)
    ensures P.Record(rounds, P.AsRead(e)) ==
            rounds[id := rounds[id].(snapshots := rounds[id].snapshots + [SnapshotOf(e)])]
  {
  }

  // ---- Polling everyone -----------------------------------------------------------------------------------

  /** The snapshot shows what a round at `c` hears of its node's spends as they are. */
  ghost predicate Shows(s: P.Sys, c: string, snap: PeerSnapshot) {
    snap.nodeId in s.nodes && snap.spent == HeardOf(c, snap.nodeId, s.nodes[snap.nodeId].node.spent)
  }

  ghost predicate AllShow(s: P.Sys, r: P.Round) {
    forall i | 0 <= i < |r.snapshots| :: Shows(s, r.coord, r.snapshots[i])
  }

  /** Still to ask exactly these nodes. */
  ghost predicate StillToAsk(s: P.Sys, id: nat, todo: set<string>) {
    && id in s.rounds && s.rounds[id].coord in s.nodes
    && todo <= s.nodes.Keys - {s.rounds[id].coord} && s.rounds[id].asked !! todo
    && forall n | n in s.nodes :: n in todo <==> !Answered(s.rounds[id], n)
  }

  lemma PolledNext(s: P.Sys, id: nat, p: string, todo: set<string>)
    requires Speaks(s) && StillToAsk(s, id, todo) && p in todo && AllShow(s, s.rounds[id])
    ensures var t := Polled(s, id, p);
            Speaks(t) && StillToAsk(t, id, todo - {p}) && AllShow(t, t.rounds[id])
  {
    var r, t := s.rounds[id], Polled(s, id, p);
    forall n ensures Answered(t.rounds[id], n) <==> Answered(r, n) || n == p {
      AnsweredSnoc(r, r.asked + {p}, HeardStatus(s.nodes[p].node), n);
    }
    forall i | 0 <= i < |t.rounds[id].snapshots| ensures Shows(t, r.coord, t.rounds[id].snapshots[i]) {
      assert i < |r.snapshots| ==> t.rounds[id].snapshots[i] == r.snapshots[i] && Shows(s, r.coord, r.snapshots[i]);
    }
  }

  lemma PollNext(s: P.Sys, id: nat, p: string, todo: set<string>) returns (t: P.Sys, moves: seq<P.Move>)
    requires Speaks(s) && StillToAsk(s, id, todo) && p in todo && AllShow(s, s.rounds[id])
    ensures t == P.Play(s, moves) && Takes(s, moves)
    ensures id in t.rounds && t == s.(rounds := s.rounds[id := t.rounds[id]])
    ensures t.rounds[id].coord == s.rounds[id].coord && AllShow(t, t.rounds[id])
    ensures Speaks(t) && StillToAsk(t, id, todo - {p})
  {
    moves := PollOne(s, id, p);
    PolledNext(s, id, p, todo);
    t := Polled(s, id, p);
  }

  /** A run that only adds answers to one round, until everyone has answered it. */
  lemma {:induction false} PollAll(s: P.Sys, id: nat, todo: set<string>) returns (t: P.Sys, moves: seq<P.Move>)
    requires Speaks(s) && StillToAsk(s, id, todo) && AllShow(s, s.rounds[id])
    ensures t == P.Play(s, moves) && Takes(s, moves)
    ensures id in t.rounds && t == s.(rounds := s.rounds[id := t.rounds[id]])
    ensures t.rounds[id].coord == s.rounds[id].coord && AllShow(t, t.rounds[id])
    ensures forall n | n in s.nodes :: Answered(t.rounds[id], n)
    decreases todo
  {
    if todo == {} {
      t, moves := s, [];
    } else {
      var p :| p in todo;
      var next, first := PollNext(s, id, p, todo);
      var rest;
      t, rest := PollAll(next, id, todo - {p});
      moves := JoinTakes(s, next, first, rest);
    }
  }

  /** A round just opened has heard its coordinator alone. */
  lemma OpenedAsksAll(s: P.Sys, o: P.Sys, c: string)
    requires Speaks(s) && c in s.nodes && o == P.Do(s, P.Open(c))
    ensures Speaks(o) && StillToAsk(o, s.nextRound, s.nodes.Keys - {c}) && AllShow(o, o.rounds[s.nextRound])
    ensures o.nodes == s.nodes && o.bag == s.bag && o.cuts == s.cuts && o.rounds[s.nextRound].coord == c
    ensures o.rounds == s.rounds[s.nextRound := o.rounds[s.nextRound]]
  {
    OpenStep(s, c);
    var own := PeerSnapshot(c, s.nodes[c].node.ledger, s.nodes[c].node.spent);
    forall n ensures Answered(o.rounds[s.nextRound], n) <==> n == c {
      assert o.rounds[s.nextRound].snapshots[0] == own;
    }
  }

  lemma AllAnsweredCloses(t: P.Sys, id: nat)
    requires id in t.rounds && t.rounds[id].coord in t.nodes && forall n | n in t.nodes :: Answered(t.rounds[id], n)
    ensures P.Enabled(t, P.Close(id))
  {
    forall n | n in t.nodes
      ensures exists i :: 0 <= i < |t.rounds[id].snapshots| && t.rounds[id].snapshots[i].nodeId == n
    {
      assert Answered(t.rounds[id], n);
    }
  }

  /**
   * A round opened at any node can hear from everyone with nothing else happening, and then shows what there was to
   * hear of every node's spends when it opened.
   */
  lemma OpenAndPoll(s: P.Sys, c: string) returns (o: P.Sys, t: P.Sys, moves: seq<P.Move>)
    requires Sane(s) && c in s.nodes
    ensures o == P.Do(s, P.Open(c)) && t == P.Play(o, moves) && Takes(o, moves)
    ensures s.nextRound in t.rounds && t.nodes == s.nodes && t.bag == s.bag && t.cuts == s.cuts
    ensures t.rounds == s.rounds[s.nextRound := t.rounds[s.nextRound]]
    ensures P.Enabled(t, P.Close(s.nextRound)) && t.rounds[s.nextRound].coord == c && AllShow(t, t.rounds[s.nextRound])
  {
    SaneSpeaks(s);
    o := P.Do(s, P.Open(c));
    OpenedAsksAll(s, o, c);
    t, moves := PollAll(o, s.nextRound, s.nodes.Keys - {c});
    PolledSinceOpen(s, o, t, s.nextRound);
  }

  lemma PolledSinceOpen(s: P.Sys, o: P.Sys, t: P.Sys, id: nat)
    requires o.nodes == s.nodes && o.bag == s.bag && o.cuts == s.cuts
    requires id in o.rounds && o.rounds == s.rounds[id := o.rounds[id]] && o.rounds[id].coord in o.nodes
    requires id in t.rounds && t == o.(rounds := o.rounds[id := t.rounds[id]])
    requires t.rounds[id].coord == o.rounds[id].coord && forall n | n in o.nodes :: Answered(t.rounds[id], n)
    ensures t.nodes == s.nodes && t.bag == s.bag && t.cuts == s.cuts && t.rounds == s.rounds[id := t.rounds[id]]
    ensures P.Enabled(t, P.Close(id))
  {
    AllAnsweredCloses(t, id);
  }
}
