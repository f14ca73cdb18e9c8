/** The distributed protocol as a state machine: lock-atomic node steps and a bag of messages in flight. */
module Protocol {
  import opened Core
  import opened NetworkSpec
  import opened SharedState
  import opened PeerProtocol
  import opened Wire
  import opened Coordinator

  /** A message in flight. Replies travel on the connection of their request; a settlement round is one connection. */
  datatype Envelope = Envelope(src: string, dst: string, conn: nat, msg: PeerMessage)

  /** A settlement round in progress: what was gathered so far, and every node's spends when the round opened. */
  datatype Round = Round(
    coord: string,
    snapshots: seq<PeerSnapshot>,
    asked: set<string>,
    opening: map<string, set<string>>)

  /**
   * `cuts` holds link-downs whose message went out but whose local half is still to come. `wire` is what a receiver
   * reads of a message: the encoding, the frame and the decoding of `src/wire.rs`, as `Started` states.
   */
  datatype Sys = Sys(
    nodes: map<string, Local>,
    bag: multiset<Envelope>,
    cuts: multiset<(string, string)>,
    rounds: map<nat, Round>,
    nextRound: nat,
    seeded: set<string>,
    wire: PeerMessage -> Result<PeerMessage, WireError>)
  {
    predicate Holds(n: string, b: string) {
      n in nodes && b in nodes[n].node.ledger
    }

    predicate HasSpent(n: string, b: string) {
      n in nodes && b in nodes[n].node.spent
    }

    function SpentOf(): map<string, set<string>> {
      map n | n in nodes :: nodes[n].node.spent
    }

    ghost predicate DoubleSpent(b: string) {
      exists n, m :: n != m && HasSpent(n, b) && HasSpent(m, b)
    }
  }

  datatype Move =
    | Seed(n: string, bearer: string)
    | Greet(n: string, m: string)
    | Cut(n: string, m: string)
    | CutLocal(n: string, m: string)
    | Pull(n: string, m: string)
    | Spend(n: string, bearer: string)
    | Open(coord: string)
    | Ask(round: nat, peer: string)
    | Close(round: nat)
    | Abandon(round: nat)
    | Deliver(e: Envelope)
    | Lose(e: Envelope)

  function Tells(src: string, targets: set<string>, conn: nat, bearers: set<string>): multiset<Envelope> {
    multiset(set p, b | p in targets && b in bearers :: Envelope(src, p, conn, SpentNotify(src, b)))
  }

  lemma TellsExactly(src: string, targets: set<string>, conn: nat, bearers: set<string>, e: Envelope)
    ensures e in Tells(src, targets, conn, bearers) <==>
            e.dst in targets && e.msg.SpentNotify? && e.msg.bearer in bearers &&
            e == Envelope(src, e.dst, conn, SpentNotify(src, e.msg.bearer))
  {
  }

  /** Every node has answered the round. */
  ghost predicate Quorum(s: Sys, r: Round) {
    forall n | n in s.nodes :: exists i :: 0 <= i < |r.snapshots| && r.snapshots[i].nodeId == n
  }

  ghost predicate Enabled(s: Sys, move: Move) {
    match move
    case Seed(n, b) => n in s.nodes && b !in s.seeded && '\n' !in b
    case Greet(n, m) => n in s.nodes && m in s.nodes && n != m
    case Cut(n, m) => n in s.nodes && m in s.nodes && n != m
    case CutLocal(n, m) => (n, m) in s.cuts && n in s.nodes
    case Pull(n, m) => n in s.nodes && m in s.nodes && n != m && s.nodes[n].IsLinked(m)
    case Spend(n, b) => s.Holds(n, b)
    case Open(c) => c in s.nodes
    case Ask(r, p) => r in s.rounds && p in s.nodes && p != s.rounds[r].coord && p !in s.rounds[r].asked
    case Close(r) => r in s.rounds && s.rounds[r].coord in s.nodes && Quorum(s, s.rounds[r])
    case Abandon(r) => r in s.rounds
    case Deliver(e) => e in s.bag && e.dst in s.nodes
    case Lose(e) => e in s.bag
  }

  /** Adds a status reply to the round that is waiting for it, once per node. */
  function Record(rounds: map<nat, Round>, e: Envelope): map<nat, Round> {
    if e.msg.StatusReply? && e.conn in rounds && rounds[e.conn].coord == e.dst &&
       forall i | 0 <= i < |rounds[e.conn].snapshots| :: rounds[e.conn].snapshots[i].nodeId != e.src
    then
      var r := rounds[e.conn];
      var snap := PeerSnapshot(e.src, Elements(e.msg.ledger), Elements(e.msg.spent));
      rounds[e.conn := r.(snapshots := r.snapshots + [snap])]
    else rounds
  }

  /** What a message leaves at its receiver: replies go to the waiting command, the rest to the message handler. */
  ghost function Received(l: Local, msg: PeerMessage): Local {
    if msg.LinkUpAck? || msg.PropagateReply? then Absorb(l, msg).value
    else match React(l, msg)
         case Err(_) => l
         case Ok(reaction) => reaction.local
  }

  /** What a delivered message puts on the wire: at most one reply, back to its sender. */
  ghost function Answer(l: Local, e: Envelope): multiset<Envelope> {
    match React(l, e.msg)
    case Err(_) => multiset{}
    case Ok(reaction) =>
      match reaction.reply
      case None => multiset{}
      case Some(reply) => multiset{Envelope(e.dst, e.src, e.conn, reply)}
  }

  /**
   * The end of a round with full quorum: a conflict changes nothing, otherwise the coordinator burns and tells
   * everyone.
   */
  ghost function Closed(s: Sys, id: nat): Sys
    requires id in s.rounds && s.rounds[id].coord in s.nodes
  {
    var r := s.rounds[id];
    var closed := s.(rounds := s.rounds - {id});
    if SnapshotConflictFree(r.snapshots) then
      var burn := Recorded(r.snapshots);
      closed.(nodes := s.nodes[r.coord := s.nodes[r.coord].Without(burn)],
              bag := s.bag + Tells(r.coord, s.nodes.Keys - {r.coord}, id, burn))
    else closed
  }

  /** The step in which `e` is taken from the wire and read as `read`. */
  ghost function Arriving(s: Sys, e: Envelope, read: Envelope): Sys
    requires read.dst in s.nodes
  {
    s.(nodes := s.nodes[read.dst := Received(s.nodes[read.dst], read.msg)],
       bag := s.bag - multiset{e} + Answer(s.nodes[read.dst], read),
       rounds := Record(s.rounds, read))
  }

  /** An envelope with what its receiver reads of its message. */
  function AsRead(e: Envelope): Envelope {
    e.(msg := AsHeard(e.msg))
  }

  /** The wire loses nothing of this message but the blank bearer where it is alone in a list. */
  ghost predicate Legible(s: Sys, e: Envelope) {
    s.wire(e.msg) == Ok(AsHeard(e.msg))
  }

  ghost function Next(s: Sys, move: Move): Sys
    requires Enabled(s, move)
  {
    match move
    case Seed(n, b) =>
      s.(nodes := s.nodes[n := s.nodes[n].WithDelivered({b})], seeded := s.seeded + {b})
    case Greet(n, m) => s.(bag := s.bag + multiset{Envelope(n, m, 0, Hello(s.nodes[n]))})
    case Cut(n, m) =>
      s.(bag := s.bag + multiset{Envelope(n, m, 0, PeerMessage.LinkDown(n))}, cuts := s.cuts + multiset{(n, m)})
    case CutLocal(n, m) =>
      s.(nodes := s.nodes[n := s.nodes[n].WithLinkDown(m)], cuts := s.cuts - multiset{(n, m)})
    case Pull(n, m) => s.(bag := s.bag + multiset{Envelope(n, m, 0, PropagateRequest(n))})
    case Spend(n, b) =>
      s.(nodes := s.nodes[n := s.nodes[n].WithSpend(b)],
         bag := s.bag + Tells(n, s.nodes[n].Connected() * s.nodes.Keys, 0, {b}))
    case Open(c) =>
      var own := PeerSnapshot(c, s.nodes[c].node.ledger, s.nodes[c].node.spent);
      s.(rounds := s.rounds[s.nextRound := Round(c, [own], {}, s.SpentOf())], nextRound := s.nextRound + 1)
    case Ask(r, p) =>
      var round := s.rounds[r];
      s.(rounds := s.rounds[r := round.(asked := round.asked + {p})],
         bag := s.bag + multiset{Envelope(round.coord, p, r, StatusRequest(round.coord))})
    case Close(r) => Closed(s, r)
    case Abandon(r) => s.(rounds := s.rounds - {r})
    case Deliver(e) =>
      (match s.wire(e.msg)
       case Err(_) => s.(bag := s.bag - multiset{e})
       case Ok(heard) => Arriving(s, e, e.(msg := heard)))
    case Lose(e) => s.(bag := s.bag - multiset{e})
  }

  /** A step that cannot be taken is refused and changes nothing. */
  ghost function Do(s: Sys, move: Move): Sys {
    if Enabled(s, move) then Next(s, move) else s
  }

  ghost function Play(s: Sys, moves: seq<Move>): Sys
    decreases |moves|
  {
    if moves == [] then s else Play(Do(s, moves[0]), moves[1..])
  }

  lemma PlayOne(s: Sys, move: Move)
    ensures Play(s, [move]) == Do(s, move)
  {
    assert Play(Do(s, move), [move][1..]) == Do(s, move);
  }

  lemma PlayTwo(s: Sys, first: Move, second: Move)
    ensures Play(s, [first, second]) == Do(Do(s, first), second)
  {
    assert [first, second][1..] == [second];
    PlayOne(Do(s, first), second);
  }

  lemma {:induction false} PlaySplit(s: Sys, before: seq<Move>, after: seq<Move>)
    ensures Play(s, before + after) == Play(Play(s, before), after)
    decreases |before|
  {
    if before == [] {
      assert before + after == after;
    } else {
      assert (before + after)[1..] == before[1..] + after;
      PlaySplit(Do(s, before[0]), before[1..], after);
    }
  }

  /**
   * Freshly started nodes: nothing held, nothing spent, every link down, nothing in flight, names as a peers file has
   * them.
   */
  ghost predicate Started(s: Sys) {
    && (forall n | n in s.nodes :: s.nodes[n] == Local(Node(n, {}, {}), map[]) && '\n' !in n)
    && (forall m :: s.wire(m) == Transmit(m))
    && s.bag == multiset{} && s.cuts == multiset{} && s.rounds == map[] && s.seeded == {}
  }

  // ---- Effects of one step, read off pointwise -------------------------------------------------------

  /** The bearers a message hands to the node it reaches. */
  ghost function Cargo(msg: PeerMessage): set<string> {
    match msg
    case LinkUpHello(_, ledger, _) => Elements(ledger)
    case LinkUpAck(_, ledger, _) => Elements(ledger)
    case PropagateReply(_, bearers) => Elements(bearers)
    case _ => {}
  }

  /** The spends a message reports to the node it reaches. */
  ghost function Reported(msg: PeerMessage): set<string> {
    match msg
    case LinkUpHello(_, _, spent) => Elements(spent)
    case LinkUpAck(_, _, spent) => Elements(spent)
    case SpentNotify(_, bearer) => {bearer}
    case _ => {}
  }

  /** A delivery never touches spends; the ledger gains cargo not spent here and loses what is reported spent. */
  lemma ReceivedNode(l: Local, msg: PeerMessage, b: string)
    ensures Received(l, msg).node.nodeId == l.node.nodeId && Received(l, msg).node.spent == l.node.spent
    ensures b in Received(l, msg).node.ledger <==>
            if msg.LinkUpHello? || msg.LinkUpAck?
            then (b in l.node.ledger || b in Cargo(msg)) && b !in l.node.spent && b !in Reported(msg)
            else (b in l.node.ledger || (b in Cargo(msg) && b !in l.node.spent)) && b !in Reported(msg)
  {
  }

  /** What delivering a message leaves at its receiver: an unreadable one leaves it alone. */
  ghost function Heard(l: Local, read: Result<PeerMessage, WireError>): Local {
    match read
    case Err(_) => l
    case Ok(msg) => Received(l, msg)
  }

  lemma LegibleStep(s: Sys, e: Envelope)
    requires Enabled(s, Deliver(e)) && Legible(s, e)
    ensures Next(s, Deliver(e)) == Arriving(s, e, AsRead(e))
  {
  }

  /** A delivery takes its one message and no other, and puts nothing in flight but an answer on its connection. */
  lemma DeliveryTakes(s: Sys, e: Envelope, f: Envelope)
    requires Enabled(s, Deliver(e))
    ensures f.src != e.dst || f.dst != e.src || f.conn != e.conn ==>
              Next(s, Deliver(e)).bag[f] == s.bag[f] - (if f == e then 1 else 0)
    ensures Next(s, Lose(e)).bag[f] == s.bag[f] - (if f == e then 1 else 0) && Next(s, Lose(e)).nodes == s.nodes
  {
  }

  lemma DoKeys(s: Sys, move: Move)
    ensures Do(s, move).nodes.Keys == s.nodes.Keys
  {
  }

  lemma DeliverAt(s: Sys, e: Envelope, n: string, b: string)
    requires Enabled(s, Deliver(e))
    ensures Next(s, Deliver(e)).HasSpent(n, b) <==> s.HasSpent(n, b)
    ensures Next(s, Deliver(e)).Holds(n, b) <==>
            if n == e.dst then b in Heard(s.nodes[n], s.wire(e.msg)).node.ledger else s.Holds(n, b)
  {
    match s.wire(e.msg)
    case Ok(msg) => ReceivedNode(s.nodes[e.dst], msg, b);
    case Err(_) =>
  }

  lemma NodesUntouched(s: Sys, move: Move)
    requires Enabled(s, move)
    requires move.Greet? || move.Cut? || move.Pull? || move.Open? || move.Ask? || move.Abandon? || move.Lose?
    ensures Next(s, move).nodes == s.nodes
  {
  }

  lemma OwnStep(s: Sys, move: Move, n: string, b: string)
    requires Enabled(s, move) && (move.Seed? || move.CutLocal? || move.Spend?)
    ensures Next(s, move).HasSpent(n, b) <==> s.HasSpent(n, b) || move == Spend(n, b)
    ensures Next(s, move).Holds(n, b) <==> (s.Holds(n, b) || move == Seed(n, b)) && move != Spend(n, b)
  {
  }

  lemma CloseAt(s: Sys, id: nat, n: string, b: string)
    requires Enabled(s, Close(id))
    ensures Next(s, Close(id)).HasSpent(n, b) <==> s.HasSpent(n, b)
    ensures var r := s.rounds[id];
            Next(s, Close(id)).Holds(n, b) <==>
            s.Holds(n, b) && !(n == r.coord && SnapshotConflictFree(r.snapshots) && b in Recorded(r.snapshots))
  {
  }

  lemma DoSpent(s: Sys, move: Move, n: string, b: string)
    ensures Do(s, move).HasSpent(n, b) <==> s.HasSpent(n, b) || (move == Spend(n, b) && s.Holds(n, b))
  {
    if Enabled(s, move) {
      if move.Deliver? {
        DeliverAt(s, move.e, n, b);
      } else if move.Close? {
        CloseAt(s, move.round, n, b);
      } else if move.Seed? || move.CutLocal? || move.Spend? {
        OwnStep(s, move, n, b);
      } else {
        NodesUntouched(s, move);
      }
    }
  }

  lemma DoHolds(s: Sys, move: Move, n: string, b: string)
    ensures Do(s, move).Holds(n, b) <==>
            if !Enabled(s, move) then s.Holds(n, b)
            else match move
                 case Seed(_, _) => s.Holds(n, b) || move == Seed(n, b)
                 case Spend(_, _) => s.Holds(n, b) && move != Spend(n, b)
                 case Close(r) =>
                   s.Holds(n, b) && !(n == s.rounds[r].coord && SnapshotConflictFree(s.rounds[r].snapshots)
                                      && b in Recorded(s.rounds[r].snapshots))
                 case Deliver(e) =>
                   if n == e.dst then b in Heard(s.nodes[n], s.wire(e.msg)).node.ledger else s.Holds(n, b)
                 case _ => s.Holds(n, b)
  {
    if Enabled(s, move) {
      if move.Deliver? {
        DeliverAt(s, move.e, n, b);
      } else if move.Close? {
        CloseAt(s, move.round, n, b);
      } else if move.Seed? || move.CutLocal? || move.Spend? {
        OwnStep(s, move, n, b);
      } else {
        NodesUntouched(s, move);
      }
    }
  }
}
