/** How a node reacts to peer messages: the reaction as a function of its value, and the handlers that carry it out. */
module PeerProtocol {
  import opened Core
  import opened NetworkSpec
  import opened SharedState
  import opened Wire

  datatype Reaction = Reaction(local: Local, reply: Option<PeerMessage>)

  /** The reaction to an unsolicited message; replies are rejected, and so is a propagate request over a dead link. */
  ghost function React(l: Local, msg: PeerMessage): Result<Reaction, StateError> {
    match msg
    case LinkUpHello(from, ledger, spent) =>
      Ok(Reaction(l.WithLinkUp(from, l.LinkUpMerge(Elements(ledger), Elements(spent))),
                  Some(LinkUpAck(l.node.nodeId, Listing(l.node.ledger), Listing(l.node.spent)))))
    case LinkDown(from) => Ok(Reaction(l.WithLinkDown(from), None))
    case PropagateRequest(from) =>
      if l.IsLinked(from) then Ok(Reaction(l, Some(PropagateReply(l.node.nodeId, Listing(l.node.ledger)))))
      else Err(NotLinked)
    case SpentNotify(_, bearer) => Ok(Reaction(l.Without({bearer}), None))
    case StatusRequest(_) =>
      Ok(Reaction(l, Some(StatusReply(l.node.nodeId, Listing(l.node.ledger), Listing(l.node.spent)))))
    case LinkUpAck(_, _, _) => Err(Unsolicited)
    case PropagateReply(_, _) => Err(Unsolicited)
    case StatusReply(_, _, _) => Err(Unsolicited)
  }

  /** The effect of the reply to a link-up or propagate request this node made. */
  function Absorb(l: Local, reply: PeerMessage): Result<Local, StateError> {
    match reply
    case LinkUpAck(from, ledger, spent) =>
      Ok(l.WithLinkUp(from, l.LinkUpMerge(Elements(ledger), Elements(spent))))
    case PropagateReply(_, bearers) => Ok(l.WithDelivered(l.PropagateDeliverable(Elements(bearers))))
    case _ => Err(WrongReply)
  }

  /** Refused are exactly the replies nobody here asked for, and a propagate request over a link that is not up. */
  lemma RefusedExactly(l: Local, msg: PeerMessage)
    ensures React(l, msg).Err? <==>
            || msg.LinkUpAck? || msg.PropagateReply? || msg.StatusReply?
            || (msg.PropagateRequest? && !l.IsLinked(msg.from))
    ensures React(l, msg).Err? ==> React(l, msg).error == if msg.PropagateRequest? then NotLinked else Unsolicited
  {
  }

  /** What an accepted message makes of the node, bearer by bearer and link by link. */
  lemma ReactionLeaves(l: Local, msg: PeerMessage)
    requires React(l, msg).Ok?
    ensures var now := React(l, msg).value.local;
            && now.node.nodeId == l.node.nodeId && now.node.spent == l.node.spent
            && (forall p :: now.IsLinked(p) <==>
                  if p == msg.from && msg.LinkUpHello? then true
                  else if p == msg.from && msg.LinkDown? then false
                  else l.IsLinked(p))
            && forall b :: b in now.node.ledger <==>
                 if msg.LinkUpHello?
                 then (b in l.node.ledger || b in msg.ledger) && b !in l.node.spent && b !in msg.spent
                 else b in l.node.ledger && !(msg.SpentNotify? && b == msg.bearer)
  {
    if msg.LinkUpHello? {
      assert forall b :: b in Elements(msg.ledger) <==> b in msg.ledger;
      assert forall b :: b in Elements(msg.spent) <==> b in msg.spent;
    }
  }

  /** What an accepted message is answered with: the node as it was before, and only where an answer is expected. */
  lemma ReactionReplies(l: Local, msg: PeerMessage)
    requires React(l, msg).Ok?
    ensures var reply := React(l, msg).value.reply;
            && (reply.Some? <==> msg.LinkUpHello? || msg.PropagateRequest? || msg.StatusRequest?)
            && (reply.Some? ==> reply.value.from == l.node.nodeId)
            && (msg.LinkUpHello? ==> reply.value.LinkUpAck?) && (msg.StatusRequest? ==> reply.value.StatusReply?)
            && (msg.LinkUpHello? || msg.StatusRequest? ==>
                  IsListing(reply.value.ledger, l.node.ledger) && IsListing(reply.value.spent, l.node.spent))
            && (msg.PropagateRequest? ==>
                  reply.value.PropagateReply? && IsListing(reply.value.bearers, l.node.ledger))
  {
  }

  /** What a waiting command makes of the reply it gets. */
  lemma AbsorbedExactly(l: Local, reply: PeerMessage)
    ensures Absorb(l, reply).Ok? <==> reply.LinkUpAck? || reply.PropagateReply?
    ensures Absorb(l, reply).Err? ==> Absorb(l, reply).error == WrongReply
    ensures Absorb(l, reply).Ok? ==>
              var now := Absorb(l, reply).value;
              && now.node.nodeId == l.node.nodeId && now.node.spent == l.node.spent
              && (forall p :: now.IsLinked(p) <==> l.IsLinked(p) || (p == reply.from && reply.LinkUpAck?))
              && forall b :: b in now.node.ledger <==>
                   if reply.LinkUpAck?
                   then (b in l.node.ledger || b in reply.ledger) && b !in l.node.spent && b !in reply.spent
                   else b in l.node.ledger || (b in reply.bearers && b !in l.node.spent)
  {
    if reply.LinkUpAck? {
      assert forall b :: b in Elements(reply.ledger) <==> b in reply.ledger;
      assert forall b :: b in Elements(reply.spent) <==> b in reply.spent;
    } else if reply.PropagateReply? {
      assert forall b :: b in Elements(reply.bearers) <==> b in reply.bearers;
    }
  }

  method HandleIncomingPeerMessage(shared: NodeShared, msg: PeerMessage)
    returns (r: Result<Option<PeerMessage>, StateError>)
    modifies shared
    ensures match React(old(shared.Value()), msg)
            case Ok(reaction) => r == Ok(reaction.reply) && shared.Value() == reaction.local
            case Err(e) => r == Err(e) && shared.Value() == old(shared.Value())
  {
    match msg
    case LinkUpHello(from, ledger, spent) =>
      var ownLedger := shared.LedgerSorted();
      var ownSpent := shared.SpentSorted();
      var merged := shared.ComputeLinkUpMerge(Elements(ledger), Elements(spent));
      shared.ApplyLinkUp(from, merged);
      r := Ok(Some(LinkUpAck(shared.node.nodeId, ownLedger, ownSpent)));
    case LinkDown(from) =>
      shared.ApplyLinkDown(from);
      r := Ok(None);
    case PropagateRequest(from) =>
      var linked := shared.IsLinked(from);
      if !linked {
        return Err(NotLinked);
      }
      var bearers := shared.LedgerSorted();
      r := Ok(Some(PropagateReply(shared.node.nodeId, bearers)));
    case SpentNotify(_, bearer) =>
      shared.ApplySpentNotify(bearer);
      r := Ok(None);
    case StatusRequest(_) =>
      var ledger := shared.LedgerSorted();
      var spent := shared.SpentSorted();
      r := Ok(Some(StatusReply(shared.node.nodeId, ledger, spent)));
    case LinkUpAck(_, _, _) =>
      r := Err(Unsolicited);
    case PropagateReply(_, _) =>
      r := Err(Unsolicited);
    case StatusReply(_, _, _) =>
      r := Err(Unsolicited);
  }

  method ApplyLinkUpReply(shared: NodeShared, reply: PeerMessage) returns (r: Result<(), StateError>)
    modifies shared
    ensures r == if reply.LinkUpAck? then Ok(()) else Err(WrongReply)
    ensures if r.Ok? then Absorb(old(shared.Value()), reply) == Ok(shared.Value())
            else shared.Value() == old(shared.Value())
  {
    match reply
    case LinkUpAck(from, ledger, spent) =>
      var merged := shared.ComputeLinkUpMerge(Elements(ledger), Elements(spent));
      shared.ApplyLinkUp(from, merged);
      r := Ok(());
    case _ =>
      r := Err(WrongReply);
  }

  method ApplyPropagateReply(shared: NodeShared, reply: PeerMessage) returns (r: Result<(), StateError>)
    modifies shared
    ensures r == if reply.PropagateReply? then Ok(()) else Err(WrongReply)
    ensures if r.Ok? then Absorb(old(shared.Value()), reply) == Ok(shared.Value())
            else shared.Value() == old(shared.Value())
  {
    match reply
    case PropagateReply(_, bearers) =>
      var deliverable := shared.ComputePropagateDeliverable(Elements(bearers));
      shared.ApplyPropagateDeliverable(deliverable);
      r := Ok(());
    case _ =>
      r := Err(WrongReply);
  }

  /** The greeting a node sends when told to bring a link up. */
  ghost function Hello(l: Local): PeerMessage {
    LinkUpHello(l.node.nodeId, Listing(l.node.ledger), Listing(l.node.spent))
  }

  /** Undisturbed, both ends of a handshake compute the same ledger from the same two pairs of sets. */
  lemma HandshakeConverges(a: Local, b: Local)
    ensures React(b, Hello(a)).Ok? && React(b, Hello(a)).value.reply.Some?
    ensures var reaction := React(b, Hello(a)).value;
            var merged := Merged(a.node, b.node);
            && reaction.local == b.WithLinkUp(a.node.nodeId, merged)
            && Absorb(a, reaction.reply.value) == Ok(a.WithLinkUp(b.node.nodeId, merged))
  {
    assert b.LinkUpMerge(a.node.ledger, a.node.spent) == Merged(a.node, b.node);
    assert a.LinkUpMerge(b.node.ledger, b.node.spent) == Merged(a.node, b.node);
  }
}
