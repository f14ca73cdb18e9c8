/** What every step of the distributed protocol keeps, however messages are delayed, reordered or lost. */
module ProtocolSafety {
  import opened Core
  import opened SharedState
  import opened PeerProtocol
  import opened Wire
  import opened Coordinator
  import P = Protocol

  // ---- The invariant -----------------------------------------------------------------------------

  ghost predicate Seen(s: P.Sys, b: string) {
    exists n :: s.Holds(n, b) || s.HasSpent(n, b)
  }

  /** Nodes know their own name and keep links only to other nodes. */
  ghost predicate Wired(s: P.Sys) {
    && (forall n | n in s.nodes :: s.nodes[n].node.nodeId == n)
    && (forall n, m | n in s.nodes && m in s.nodes[n].links :: m in s.nodes && m != n)
    && forall c | c in s.cuts :: c.0 in s.nodes && c.1 in s.nodes && c.0 != c.1
  }

  ghost predicate Disjoint(s: P.Sys) {
    forall n, b :: !(s.Holds(n, b) && s.HasSpent(n, b))
  }

  /** A message in flight, however stale: what it names was seeded, and what it reports spent is spent. */
  ghost predicate Truthful(s: P.Sys, e: P.Envelope) {
    && e.src in s.nodes && e.dst in s.nodes && e.src != e.dst && e.msg.from == e.src
    && Mentioned(e.msg) <= s.seeded
    && P.Cargo(e.msg) !! P.Reported(e.msg)
    && (e.msg.LinkUpHello? || e.msg.LinkUpAck? || e.msg.StatusReply? ==>
          Elements(e.msg.spent) <= s.nodes[e.src].node.spent)
    && (e.msg.SpentNotify? ==> exists n :: s.HasSpent(n, e.msg.bearer))
  }

  ghost predicate AllTruthful(s: P.Sys) {
    forall e | e in s.bag :: Truthful(s, e)
  }

  /** Every held or spent bearer was seeded, and every seeded bearer is still held or spent somewhere. */
  ghost predicate Conserved(s: P.Sys) {
    forall b :: b in s.seeded <==> Seen(s, b)
  }

  /** What a list of these names conveys: all of them, unless it is the blank bearer alone. */
  function Conveyed(names: set<string>): set<string> {
    if names == {""} then {} else names
  }

  lemma ConveyedItems(items: seq<string>)
    requires Ascending(items)
    ensures Elements(Unblanked(items)) == Conveyed(Elements(items))
  {
    if Elements(items) == {""} {
      assert Ascending([""]) && Elements([""]) == {""};
      ListingUnique(items, [""]);
    } else {
      assert Elements([""]) == {""};
    }
  }

  /** What a round at `c` hears of spends at `n`: the coordinator knows its own. */
  function HeardOf(c: string, n: string, spent: set<string>): set<string> {
    if n == c then spent else Conveyed(spent)
  }

  /** A snapshot records no fewer spends than there were to hear of when its round opened, and no more than now. */
  ghost predicate Fresh(s: P.Sys, r: P.Round, node: string, spent: set<string>) {
    && node in s.nodes && node in r.opening
    && HeardOf(r.coord, node, r.opening[node]) <= spent <= s.nodes[node].node.spent
    && (node != r.coord ==> spent != {""})
  }

  ghost predicate RoundFresh(s: P.Sys, r: P.Round) {
    && r.coord in s.nodes
    && r.opening.Keys == s.nodes.Keys
    && (forall n | n in s.nodes :: r.opening[n] <= s.nodes[n].node.spent)
    && (forall i | 0 <= i < |r.snapshots| :: Fresh(s, r, r.snapshots[i].nodeId, r.snapshots[i].spent))
    && (forall i, j | 0 <= i < j < |r.snapshots| :: r.snapshots[i].nodeId != r.snapshots[j].nodeId)
  }

  /** Rounds are numbered once, so a late status reply never reaches a younger round. */
  ghost predicate RoundsFresh(s: P.Sys) {
    && (forall id | id in s.rounds :: id < s.nextRound && RoundFresh(s, s.rounds[id]))
    && (forall e | e in s.bag && (e.msg.StatusReply? || e.msg.StatusRequest?) :: e.conn < s.nextRound)
    && forall e | e in s.bag && e.msg.StatusReply? :: ReplyFresh(s, e)
  }

  /** A status reply on its way, however late, reports at least what its sender had spent when the round opened. */
  ghost predicate ReplyFresh(s: P.Sys, e: P.Envelope)
    requires e.msg.StatusReply?
  {
    && Ascending(e.msg.spent)
    && (e.conn in s.rounds ==>
          e.src in s.rounds[e.conn].opening && s.rounds[e.conn].opening[e.src] <= Elements(e.msg.spent))
  }

  /** No name has a newline, and of messages made of such names the wire loses only the blank bearer where alone. */
  ghost predicate Readable(s: P.Sys) {
    && (forall n | n in s.nodes :: '\n' !in n)
    && (forall b | b in s.seeded :: '\n' !in b)
    && forall m :: OneLine(m) ==> s.wire(m) == Ok(AsHeard(m))
  }

  ghost predicate Sane(s: P.Sys) {
    Wired(s) && Disjoint(s) && AllTruthful(s) && Conserved(s) && RoundsFresh(s) && Readable(s)
  }

  /** What is read of any message in flight. */
  lemma ReadsExactly(s: P.Sys, e: P.Envelope)
    requires AllTruthful(s) && Readable(s) && e in s.bag
    ensures P.Legible(s, e)
  {
    assert Truthful(s, e);
    assert OneLine(e.msg);
  }

  /** Reading adds nothing, and leaves every bearer that is not blank. */
  lemma HeardCargo(m: PeerMessage, b: string)
    ensures b in P.Cargo(AsHeard(m)) ==> b in P.Cargo(m)
    ensures b != "" ==> (b in P.Cargo(m) <==> b in P.Cargo(AsHeard(m)))
    ensures b in P.Reported(AsHeard(m)) ==> b in P.Reported(m)
    ensures b != "" ==> (b in P.Reported(m) <==> b in P.Reported(AsHeard(m)))
  {
  }

  /** If the move is a delivery, the message is read for what it is. */
  ghost predicate Undistorted(s: P.Sys, move: P.Move) {
    move.Deliver? ==> P.Legible(s, move.e)
  }

  lemma SaneReads(s: P.Sys, move: P.Move)
    requires AllTruthful(s) && Readable(s) && P.Enabled(s, move)
    ensures Undistorted(s, move)
  {
    if move.Deliver? {
      ReadsExactly(s, move.e);
    }
  }

  lemma StartedIsSane(s: P.Sys)
    requires P.Started(s)
    ensures Sane(s)
  {
    assert forall n, b :: !s.Holds(n, b) && !s.HasSpent(n, b);
    forall m | OneLine(m) ensures s.wire(m) == Ok(AsHeard(m)) {
      HeardExactly(m);
    }
  }

  // ---- What a step can put in flight ----------------------------------------------------------------

  ghost predicate Emits(s: P.Sys, move: P.Move, e: P.Envelope)
    requires P.Enabled(s, move)
  {
    match move
    case Greet(n, m) => e == P.Envelope(n, m, 0, Hello(s.nodes[n]))
    case Cut(n, m) => e == P.Envelope(n, m, 0, PeerMessage.LinkDown(n))
    case Pull(n, m) => e == P.Envelope(n, m, 0, PropagateRequest(n))
    case Spend(n, b) =>
      exists p | p in s.nodes[n].Connected() && p in s.nodes :: e == P.Envelope(n, p, 0, SpentNotify(n, b))
    case Ask(r, p) => e == P.Envelope(s.rounds[r].coord, p, r, StatusRequest(s.rounds[r].coord))
    case Close(r) =>
      exists p, b | p in s.nodes && p != s.rounds[r].coord && b in Recorded(s.rounds[r].snapshots) ::
        e == P.Envelope(s.rounds[r].coord, p, r, SpentNotify(s.rounds[r].coord, b))
    case Deliver(f) => e in P.Answer(s.nodes[f.dst], f)
    case _ => false
  }

  lemma EmitsOnly(s: P.Sys, move: P.Move, e: P.Envelope)
    requires P.Enabled(s, move) && Undistorted(s, move) && e in P.Next(s, move).bag
    ensures e in s.bag || Emits(s, move, e)
  {
    match move
    case Deliver(f) => DeliveryEmits(s, f, e);
    case Spend(n, b) => SpendEmits(s, n, b, e);
    case Close(id) => CloseEmits(s, id, e);
    case _ =>
  }

  lemma DeliveryEmits(s: P.Sys, f: P.Envelope, e: P.Envelope)
    requires P.Enabled(s, P.Deliver(f)) && P.Legible(s, f) && e in P.Next(s, P.Deliver(f)).bag
    ensures e in s.bag || e in P.Answer(s.nodes[f.dst], f)
  {
    P.LegibleStep(s, f);
    AnswerAsRead(s.nodes[f.dst], f);
  }

  /** An answer does not depend on the lists of the message it answers. */
  lemma AnswerAsRead(l: Local, e: P.Envelope)
    ensures P.Answer(l, P.AsRead(e)) == P.Answer(l, e)
  {
  }

  lemma SpendEmits(s: P.Sys, n: string, b: string, e: P.Envelope)
    requires s.Holds(n, b) && e in P.Next(s, P.Spend(n, b)).bag
    ensures e in s.bag || Emits(s, P.Spend(n, b), e)
  {
    P.TellsExactly(n, s.nodes[n].Connected() * s.nodes.Keys, 0, {b}, e);
  }

  lemma CloseEmits(s: P.Sys, id: nat, e: P.Envelope)
    requires P.Enabled(s, P.Close(id)) && e in P.Next(s, P.Close(id)).bag
    ensures e in s.bag || Emits(s, P.Close(id), e)
  {
    var r := s.rounds[id];
    P.TellsExactly(r.coord, s.nodes.Keys - {r.coord}, id, Recorded(r.snapshots), e);
  }

  // ---- Holdings are handed over live links only ---------------------------------------------------------

  /** Only a propagate request is answered with holdings, and only where the answering node's own link flag is up. */
  lemma HoldingsAnswer(l: Local, f: P.Envelope, e: P.Envelope)
    requires e in P.Answer(l, f) && e.msg.PropagateReply?
    ensures f.msg.PropagateRequest? && e.dst == f.src && e.src == f.dst && l.IsLinked(f.msg.from)
  {
    RefusedExactly(l, f.msg);
  }

  lemma TellsNoHoldings(src: string, targets: set<string>, conn: nat, bearers: set<string>, e: P.Envelope)
    requires e.msg.PropagateReply?
    ensures P.Tells(src, targets, conn, bearers)[e] == 0
  {
    P.TellsExactly(src, targets, conn, bearers, e);
  }

  lemma HoldingsDelivered(s: P.Sys, f: P.Envelope, e: P.Envelope)
    requires P.Enabled(s, P.Deliver(f)) && P.Legible(s, f) && P.Next(s, P.Deliver(f)).bag[e] > s.bag[e]
    ensures e in P.Answer(s.nodes[f.dst], f)
  {
    P.LegibleStep(s, f);
    AnswerAsRead(s.nodes[f.dst], f);
  }

  lemma SpendSendsNoHoldings(s: P.Sys, n: string, b: string, e: P.Envelope)
    requires s.Holds(n, b) && e.msg.PropagateReply?
    ensures P.Next(s, P.Spend(n, b)).bag[e] == s.bag[e]
  {
    TellsNoHoldings(n, s.nodes[n].Connected() * s.nodes.Keys, 0, {b}, e);
  }

  lemma CloseSendsNoHoldings(s: P.Sys, id: nat, e: P.Envelope)
    requires P.Enabled(s, P.Close(id)) && e.msg.PropagateReply?
    ensures P.Next(s, P.Close(id)).bag[e] == s.bag[e]
  {
    var r := s.rounds[id];
    TellsNoHoldings(r.coord, s.nodes.Keys - {r.coord}, id, Recorded(r.snapshots), e);
  }

  lemma OthersSendNoHoldings(s: P.Sys, move: P.Move, e: P.Envelope)
    requires P.Enabled(s, move) && e.msg.PropagateReply?
    requires !move.Deliver? && !move.Spend? && !move.Close?
    ensures P.Next(s, move).bag[e] <= s.bag[e]
  {
  }

  /** In any step, holdings are put in flight from `m` to `n` only while the link flag for `n` at `m` is up. */
  lemma HoldingsNeedLiveLink(s: P.Sys, move: P.Move, e: P.Envelope)
    requires Sane(s) && P.Enabled(s, move) && e.msg.PropagateReply? && P.Next(s, move).bag[e] > s.bag[e]
    ensures move.Deliver? && e.src in s.nodes && s.nodes[e.src].IsLinked(e.dst)
  {
    if move.Deliver? {
      SaneReads(s, move);
      HoldingsDelivered(s, move.e, e);
      HoldingsAnswer(s.nodes[move.e.dst], move.e, e);
      assert Truthful(s, move.e);
    } else if move.Spend? {
      SpendSendsNoHoldings(s, move.n, move.bearer, e);
    } else if move.Close? {
      CloseSendsNoHoldings(s, move.round, e);
    } else {
      OthersSendNoHoldings(s, move, e);
    }
  }

  /** A propagate request that arrives over a link that is down or unknown changes no node and is not answered. */
  lemma DeadLinkRefuses(s: P.Sys, e: P.Envelope)
    requires Sane(s) && e in s.bag && e.msg.PropagateRequest? && e.dst in s.nodes && !s.nodes[e.dst].IsLinked(e.src)
    ensures P.Do(s, P.Deliver(e)) == s.(bag := s.bag - multiset{e})
  {
    assert Truthful(s, e);
    ReadsExactly(s, e);
    assert P.AsRead(e) == e;
    P.LegibleStep(s, e);
    RefusedExactly(s.nodes[e.dst], e.msg);
    assert s.nodes[e.dst := s.nodes[e.dst]] == s.nodes;
    assert s.bag - multiset{e} + multiset{} == s.bag - multiset{e};
    assert P.Record(s.rounds, e) == s.rounds;
  }

  // ---- Each part of the invariant is kept -----------------------------------------------------------

  lemma SpentGrows(s: P.Sys, move: P.Move, n: string)
    requires n in s.nodes
    ensures n in P.Do(s, move).nodes && s.nodes[n].node.spent <= P.Do(s, move).nodes[n].node.spent
  {
    P.DoKeys(s, move);
    forall b | b in s.nodes[n].node.spent ensures b in P.Do(s, move).nodes[n].node.spent {
      assert s.HasSpent(n, b);
      P.DoSpent(s, move, n, b);
    }
  }

  lemma SeededGrows(s: P.Sys, move: P.Move)
    ensures P.Do(s, move).seeded ==
            if P.Enabled(s, move) && move.Seed? then s.seeded + {move.bearer} else s.seeded
  {
  }

  lemma KeepsDisjoint(s: P.Sys, move: P.Move)
    requires Disjoint(s)
    ensures Disjoint(P.Do(s, move)) || (P.Enabled(s, move) && move.Seed? && s.HasSpent(move.n, move.bearer))
  {
    var t := P.Do(s, move);
    if !(P.Enabled(s, move) && move.Seed? && s.HasSpent(move.n, move.bearer)) {
      forall n, b ensures !(t.Holds(n, b) && t.HasSpent(n, b)) {
        P.DoHolds(s, move, n, b);
        P.DoSpent(s, move, n, b);
        if P.Enabled(s, move) && move.Deliver? && n in s.nodes && s.wire(move.e.msg).Ok? {
          P.ReceivedNode(s.nodes[n], s.wire(move.e.msg).value, b);
        }
      }
    }
  }

  lemma LinksAfter(s: P.Sys, move: P.Move, n: string, m: string)
    requires P.Enabled(s, move) && Undistorted(s, move)
    requires n in s.nodes && n in P.Next(s, move).nodes && m in P.Next(s, move).nodes[n].links
    ensures m in s.nodes[n].links || (move.CutLocal? && n == move.n && m == move.m)
            || (move.Deliver? && n == move.e.dst && m == move.e.msg.from)
  {
    if move.Deliver? {
      DeliverLinks(s, move.e, n, m);
    } else if move.Close? {
      CloseLinks(s, move.round, n);
    }
  }

  lemma DeliverLinks(s: P.Sys, e: P.Envelope, n: string, m: string)
    requires P.Enabled(s, P.Deliver(e)) && P.Legible(s, e)
    requires n in s.nodes && n in P.Next(s, P.Deliver(e)).nodes && m in P.Next(s, P.Deliver(e)).nodes[n].links
    ensures m in s.nodes[n].links || (n == e.dst && m == e.msg.from)
  {
    P.LegibleStep(s, e);
    if n == e.dst {
      ReceivedLinks(s.nodes[n], AsHeard(e.msg), m);
    }
  }

  lemma CloseLinks(s: P.Sys, id: nat, n: string)
    requires P.Enabled(s, P.Close(id)) && n in s.nodes
    ensures n in P.Next(s, P.Close(id)).nodes && P.Next(s, P.Close(id)).nodes[n].links == s.nodes[n].links
  {
  }

  lemma ReceivedLinks(l: Local, msg: PeerMessage, m: string)
    requires m in P.Received(l, msg).links
    ensures m in l.links || m == msg.from
  {
  }

  lemma CutsAfter(s: P.Sys, move: P.Move, c: (string, string))
    requires P.Enabled(s, move) && c in P.Next(s, move).cuts
    ensures c in s.cuts || move == P.Cut(c.0, c.1)
  {
  }

  lemma DeliveryKeepsName(s: P.Sys, e: P.Envelope, n: string)
    requires P.Enabled(s, P.Deliver(e)) && n in s.nodes
    ensures var t := P.Next(s, P.Deliver(e));
            n in t.nodes && t.nodes[n].node.nodeId == s.nodes[n].node.nodeId
  {
    if s.wire(e.msg).Ok? {
      P.ReceivedNode(s.nodes[e.dst], s.wire(e.msg).value, "");
    }
  }

  lemma CloseKeepsName(s: P.Sys, id: nat, n: string)
    requires P.Enabled(s, P.Close(id)) && n in s.nodes
    ensures var t := P.Next(s, P.Close(id));
            n in t.nodes && t.nodes[n].node.nodeId == s.nodes[n].node.nodeId
  {
  }

  lemma NameKept(s: P.Sys, move: P.Move, n: string)
    requires P.Enabled(s, move) && n in s.nodes
    ensures n in P.Next(s, move).nodes && P.Next(s, move).nodes[n].node.nodeId == s.nodes[n].node.nodeId
  {
    match move
    case Deliver(e) => DeliveryKeepsName(s, e, n);
    case Close(id) => CloseKeepsName(s, id, n);
    case _ =>
  }

  lemma KeepsWired(s: P.Sys, move: P.Move)
    requires Wired(s) && AllTruthful(s) && P.Enabled(s, move) && Undistorted(s, move)
    ensures Wired(P.Do(s, move))
  {
    var t := P.Do(s, move);
    P.DoKeys(s, move);
    forall n | n in t.nodes ensures t.nodes[n].node.nodeId == n {
      NameKept(s, move, n);
    }
    forall n, m | n in t.nodes && m in t.nodes[n].links ensures m in t.nodes && m != n {
      LinkKept(s, move, n, m);
    }
    forall c | c in t.cuts ensures c.0 in t.nodes && c.1 in t.nodes && c.0 != c.1 {
      CutsAfter(s, move, c);
    }
  }

  lemma LinkKept(s: P.Sys, move: P.Move, n: string, m: string)
    requires Wired(s) && AllTruthful(s) && P.Enabled(s, move) && Undistorted(s, move)
    requires n in s.nodes && n in P.Next(s, move).nodes && m in P.Next(s, move).nodes[n].links
    ensures m in s.nodes && m != n
  {
    LinksAfter(s, move, n, m);
    if move.Deliver? {
      assert Truthful(s, move.e);
    }
  }

  lemma TruthfulStays(s: P.Sys, move: P.Move, e: P.Envelope)
    requires Truthful(s, e)
    ensures Truthful(P.Do(s, move), e)
  {
    P.DoKeys(s, move);
    SpentGrows(s, move, e.src);
    SeededGrows(s, move);
    if e.msg.SpentNotify? {
      var n :| s.HasSpent(n, e.msg.bearer);
      P.DoSpent(s, move, n, e.msg.bearer);
    }
  }

  /** What a node says about itself is true when it says it. */
  lemma OwnWordsTruthful(s: P.Sys, n: string, m: string, conn: nat, msg: PeerMessage)
    requires Wired(s) && Disjoint(s) && Conserved(s)
    requires n in s.nodes && m in s.nodes && n != m && msg.from == n
    requires msg.LinkUpHello? || msg.LinkUpAck? || msg.StatusReply? ==>
               msg.ledger == Listing(s.nodes[n].node.ledger) && msg.spent == Listing(s.nodes[n].node.spent)
    requires msg.PropagateReply? ==> msg.bearers == Listing(s.nodes[n].node.ledger)
    requires !msg.SpentNotify?
    ensures Truthful(s, P.Envelope(n, m, conn, msg))
  {
    forall b | b in Mentioned(msg) ensures b in s.seeded {
      assert s.Holds(n, b) || s.HasSpent(n, b);
      assert Seen(s, b);
    }
    forall b | b in P.Cargo(msg) ensures b !in P.Reported(msg) {
      assert s.Holds(n, b);
      assert !s.HasSpent(n, b);
    }
  }

  lemma AnswersTruthful(s: P.Sys, f: P.Envelope, e: P.Envelope)
    requires Wired(s) && Disjoint(s) && Conserved(s) && Truthful(s, f)
    requires e in P.Answer(s.nodes[f.dst], f)
    ensures Truthful(s, e)
  {
    OwnWordsTruthful(s, f.dst, f.src, f.conn, e.msg);
  }

  lemma NoticesTruthful(s: P.Sys, n: string, b: string, p: string)
    requires Wired(s) && Conserved(s) && s.Holds(n, b) && p in s.nodes[n].Connected() && p in s.nodes
    ensures Truthful(P.Do(s, P.Spend(n, b)), P.Envelope(n, p, 0, SpentNotify(n, b)))
  {
    P.DoKeys(s, P.Spend(n, b));
    P.DoSpent(s, P.Spend(n, b), n, b);
    SeededGrows(s, P.Spend(n, b));
    assert p in s.nodes[n].links && Seen(s, b);
    NoticeTruthful(P.Do(s, P.Spend(n, b)), n, p, 0, b, n);
  }

  lemma BurnTruthful(s: P.Sys, id: nat, p: string, b: string)
    requires P.Enabled(s, P.Close(id)) && RoundFresh(s, s.rounds[id]) && Conserved(s)
    requires p in s.nodes && p != s.rounds[id].coord && b in Recorded(s.rounds[id].snapshots)
    ensures var c := s.rounds[id].coord;
            Truthful(P.Do(s, P.Close(id)), P.Envelope(c, p, id, SpentNotify(c, b)))
  {
    P.DoKeys(s, P.Close(id));
    RecordedIsSpent(s, s.rounds[id], b);
    var m :| s.HasSpent(m, b);
    P.DoSpent(s, P.Close(id), m, b);
    SeededGrows(s, P.Close(id));
    assert Seen(s, b);
    NoticeTruthful(P.Do(s, P.Close(id)), s.rounds[id].coord, p, id, b, m);
  }

  lemma NoticeTruthful(t: P.Sys, src: string, dst: string, conn: nat, b: string, spender: string)
    requires src in t.nodes && dst in t.nodes && src != dst && b in t.seeded && t.HasSpent(spender, b)
    ensures Truthful(t, P.Envelope(src, dst, conn, SpentNotify(src, b)))
  {
  }

  lemma RequestTruthful(s: P.Sys, move: P.Move, e: P.Envelope)
    requires Sane(s) && P.Enabled(s, move) && Emits(s, move, e)
    requires move.Greet? || move.Cut? || move.Pull? || move.Ask?
    ensures Truthful(s, e)
  {
    if move.Ask? {
      assert RoundFresh(s, s.rounds[move.round]);
    }
    OwnWordsTruthful(s, e.src, e.dst, e.conn, e.msg);
  }

  lemma EmittedTruthful(s: P.Sys, move: P.Move, e: P.Envelope)
    requires Sane(s) && P.Enabled(s, move) && Emits(s, move, e)
    ensures Truthful(P.Do(s, move), e)
  {
    if move.Spend? {
      var n, b := move.n, move.bearer;
      var p :| p in s.nodes[n].Connected() && p in s.nodes && e == P.Envelope(n, p, 0, SpentNotify(n, b));
      NoticesTruthful(s, n, b, p);
    } else if move.Close? {
      var id := move.round;
      var p, b :| p in s.nodes && p != s.rounds[id].coord && b in Recorded(s.rounds[id].snapshots) &&
                  e == P.Envelope(s.rounds[id].coord, p, id, SpentNotify(s.rounds[id].coord, b));
      assert RoundFresh(s, s.rounds[id]);
      BurnTruthful(s, id, p, b);
    } else {
      if move.Deliver? {
        AnswersTruthful(s, move.e, e);
      } else {
        RequestTruthful(s, move, e);
      }
      TruthfulStays(s, move, e);
    }
  }

  lemma RecordedIsSpent(s: P.Sys, r: P.Round, b: string)
    requires RoundFresh(s, r) && b in Recorded(r.snapshots)
    ensures exists n :: s.HasSpent(n, b)
  {
    var i :| 0 <= i < |r.snapshots| && b in r.snapshots[i].spent;
    assert Fresh(s, r, r.snapshots[i].nodeId, r.snapshots[i].spent);
    assert s.HasSpent(r.snapshots[i].nodeId, b);
  }

  lemma KeepsTruthful(s: P.Sys, move: P.Move)
    requires Sane(s)
    ensures AllTruthful(P.Do(s, move))
  {
    if P.Enabled(s, move) {
      var t := P.Next(s, move);
      SaneReads(s, move);
      forall e | e in t.bag ensures Truthful(t, e) {
        EmitsOnly(s, move, e);
        if e in s.bag {
          TruthfulStays(s, move, e);
        } else {
          EmittedTruthful(s, move, e);
        }
      }
    }
  }

  /** What a message makes its receiver drop has really been spent. */
  lemma HeardSpends(s: P.Sys, e: P.Envelope, b: string)
    requires Sane(s) && e in s.bag && b in P.Reported(AsHeard(e.msg))
    ensures exists m :: s.HasSpent(m, b)
  {
    HeardCargo(e.msg, b);
    assert Truthful(s, e);
    if !e.msg.SpentNotify? {
      assert s.HasSpent(e.src, b);
    }
  }

  lemma DroppedIsSpent(s: P.Sys, e: P.Envelope, n: string, b: string)
    requires Sane(s) && P.Enabled(s, P.Deliver(e)) && s.Holds(n, b) && !P.Do(s, P.Deliver(e)).Holds(n, b)
    ensures exists m :: s.HasSpent(m, b)
  {
    P.DoHolds(s, P.Deliver(e), n, b);
    ReadsExactly(s, e);
    P.ReceivedNode(s.nodes[n], AsHeard(e.msg), b);
    if !s.HasSpent(n, b) {
      HeardSpends(s, e, b);
    }
  }

  /** A bearer leaves a ledger only once some node has really spent it. */
  lemma LostIsSpent(s: P.Sys, move: P.Move, n: string, b: string)
    requires Sane(s) && s.Holds(n, b) && !P.Do(s, move).Holds(n, b)
    ensures exists m :: P.Do(s, move).HasSpent(m, b)
  {
    P.DoHolds(s, move, n, b);
    if move.Spend? {
      P.DoSpent(s, move, move.n, b);
    } else {
      if move.Close? {
        RecordedIsSpent(s, s.rounds[move.round], b);
      } else {
        DroppedIsSpent(s, move.e, n, b);
      }
      var m :| s.HasSpent(m, b);
      P.DoSpent(s, move, m, b);
    }
  }

  lemma SeenStays(s: P.Sys, move: P.Move, n: string, b: string)
    requires Sane(s) && (s.Holds(n, b) || s.HasSpent(n, b))
    ensures Seen(P.Do(s, move), b)
  {
    P.DoSpent(s, move, n, b);
    if !s.HasSpent(n, b) && !P.Do(s, move).Holds(n, b) {
      LostIsSpent(s, move, n, b);
    }
  }

  lemma SeedSeen(s: P.Sys, move: P.Move)
    requires P.Enabled(s, move) && move.Seed?
    ensures Seen(P.Do(s, move), move.bearer)
  {
    P.DoHolds(s, move, move.n, move.bearer);
    assert P.Do(s, move).Holds(move.n, move.bearer);
  }

  lemma SeenBefore(s: P.Sys, move: P.Move, b: string)
    requires Sane(s) && b in s.seeded
    ensures Seen(P.Do(s, move), b)
  {
    var n :| s.Holds(n, b) || s.HasSpent(n, b);
    SeenStays(s, move, n, b);
  }

  lemma KeepsConserved(s: P.Sys, move: P.Move, b: string)
    requires Sane(s)
    ensures b in P.Do(s, move).seeded <==> Seen(P.Do(s, move), b)
  {
    SeededGrows(s, move);
    if P.Enabled(s, move) && move.Seed? && move.bearer == b {
      SeedSeen(s, move);
    } else if b in s.seeded {
      SeenBefore(s, move, b);
    } else {
      NeverSeen(s, move, b);
    }
  }

  lemma NeverSeen(s: P.Sys, move: P.Move, b: string)
    requires Sane(s) && b !in s.seeded && !(P.Enabled(s, move) && move.Seed? && move.bearer == b)
    ensures !Seen(P.Do(s, move), b)
  {
    forall n ensures !P.Do(s, move).Holds(n, b) && !P.Do(s, move).HasSpent(n, b) {
      UnseenStays(s, move, n, b);
    }
  }

  lemma UnseenStays(s: P.Sys, move: P.Move, n: string, b: string)
    requires Sane(s) && b !in s.seeded && !(P.Enabled(s, move) && move.Seed? && move.bearer == b)
    ensures !P.Do(s, move).Holds(n, b) && !P.Do(s, move).HasSpent(n, b)
  {
    assert !Seen(s, b);
    assert !s.Holds(n, b) && !s.HasSpent(n, b);
    P.DoHolds(s, move, n, b);
    P.DoSpent(s, move, n, b);
    if P.Enabled(s, move) && move.Deliver? {
      assert Truthful(s, move.e);
      ReadsExactly(s, move.e);
      P.ReceivedNode(s.nodes[move.e.dst], AsHeard(move.e.msg), b);
      HeardCargo(move.e.msg, b);
    }
  }

  lemma RoundStays(s: P.Sys, move: P.Move, r: P.Round)
    requires RoundFresh(s, r)
    ensures RoundFresh(P.Do(s, move), r)
  {
    P.DoKeys(s, move);
    forall n | n in s.nodes ensures s.nodes[n].node.spent <= P.Do(s, move).nodes[n].node.spent {
      SpentGrows(s, move, n);
    }
    FreshGrows(s, P.Do(s, move), r);
  }

  lemma FreshGrows(s: P.Sys, t: P.Sys, r: P.Round)
    requires RoundFresh(s, r) && t.nodes.Keys == s.nodes.Keys
    requires forall n | n in s.nodes :: s.nodes[n].node.spent <= t.nodes[n].node.spent
    ensures RoundFresh(t, r)
  {
    forall i | 0 <= i < |r.snapshots| ensures Fresh(t, r, r.snapshots[i].nodeId, r.snapshots[i].spent) {
      assert Fresh(s, r, r.snapshots[i].nodeId, r.snapshots[i].spent);
    }
  }

  /** The snapshot a status reply leaves with the round that is waiting for it. */
  function SnapshotOf(e: P.Envelope): PeerSnapshot
    requires e.msg.StatusReply?
  {
    PeerSnapshot(e.src, Elements(Unblanked(e.msg.ledger)), Elements(Unblanked(e.msg.spent)))
  }

  /** A status reply that this round has yet to record. */
  ghost predicate Replies(s: P.Sys, e: P.Envelope, id: nat) {
    && e.msg.StatusReply? && e.conn == id && id in s.rounds && s.rounds[id].coord == e.dst
    && forall i | 0 <= i < |s.rounds[id].snapshots| :: s.rounds[id].snapshots[i].nodeId != e.src
  }

  /** How a round can come out of a step: untouched, newly opened, with one more peer asked, or one more snapshot. */
  ghost predicate Outcome(s: P.Sys, move: P.Move, id: nat, r: P.Round) {
    || (id in s.rounds && r == s.rounds[id])
    || (move.Open? && id == s.nextRound && move.coord in s.nodes && r.coord == move.coord && r.opening == s.SpentOf()
        && var own := s.nodes[move.coord].node;
           r.snapshots == [PeerSnapshot(move.coord, own.ledger, own.spent)])
    || (move.Ask? && id in s.rounds && r == s.rounds[id].(asked := r.asked))
    || (move.Deliver? && Replies(s, move.e, id)
        && r == s.rounds[id].(snapshots := s.rounds[id].snapshots + [SnapshotOf(move.e)]))
  }

  lemma RoundAfter(s: P.Sys, move: P.Move, id: nat)
    requires P.Enabled(s, move) && Undistorted(s, move) && id in P.Next(s, move).rounds
    ensures Outcome(s, move, id, P.Next(s, move).rounds[id])
  {
    match move
    case Deliver(e) => DeliveryRounds(s, e, id);
    case Close(closed) => CloseRounds(s, closed);
    case _ =>
  }

  lemma DeliveryRounds(s: P.Sys, e: P.Envelope, id: nat)
    requires P.Enabled(s, P.Deliver(e)) && P.Legible(s, e) && id in P.Next(s, P.Deliver(e)).rounds
    ensures Outcome(s, P.Deliver(e), id, P.Next(s, P.Deliver(e)).rounds[id])
  {
    P.LegibleStep(s, e);
    RecordedRounds(s, e, id);
  }

  lemma RecordedRounds(s: P.Sys, e: P.Envelope, id: nat)
    requires id in P.Record(s.rounds, P.AsRead(e))
    ensures Outcome(s, P.Deliver(e), id, P.Record(s.rounds, P.AsRead(e))[id])
  {
  }

  lemma CloseRounds(s: P.Sys, id: nat)
    requires P.Enabled(s, P.Close(id))
    ensures P.Next(s, P.Close(id)).rounds == s.rounds - {id}
  {
  }

  lemma SnapshotAdded(s: P.Sys, r: P.Round, snap: PeerSnapshot)
    requires RoundFresh(s, r) && Fresh(s, r, snap.nodeId, snap.spent)
    requires forall i | 0 <= i < |r.snapshots| :: r.snapshots[i].nodeId != snap.nodeId
    ensures RoundFresh(s, r.(snapshots := r.snapshots + [snap]))
  {
    var grown := r.(snapshots := r.snapshots + [snap]);
    forall i | 0 <= i < |grown.snapshots|
      ensures Fresh(s, grown, grown.snapshots[i].nodeId, grown.snapshots[i].spent)
    {
      if i < |r.snapshots| {
        assert Fresh(s, r, r.snapshots[i].nodeId, r.snapshots[i].spent);
      }
    }
  }

  lemma OpenedFresh(s: P.Sys, c: string)
    requires c in s.nodes
    ensures RoundFresh(s, P.Round(c, [PeerSnapshot(c, s.nodes[c].node.ledger, s.nodes[c].node.spent)], {}, s.SpentOf()))
  {
  }

  lemma AskedFresh(s: P.Sys, r: P.Round, asked: set<string>)
    requires RoundFresh(s, r)
    ensures RoundFresh(s, r.(asked := asked))
  {
    var wider := r.(asked := asked);
    forall i | 0 <= i < |wider.snapshots|
      ensures Fresh(s, wider, wider.snapshots[i].nodeId, wider.snapshots[i].spent)
    {
      assert Fresh(s, r, r.snapshots[i].nodeId, r.snapshots[i].spent);
    }
  }

  lemma KeepsRoundFresh(s: P.Sys, move: P.Move, id: nat)
    requires Sane(s) && P.Enabled(s, move) && id in P.Do(s, move).rounds
    ensures RoundFresh(P.Do(s, move), P.Do(s, move).rounds[id])
  {
    SaneReads(s, move);
    RoundAfter(s, move, id);
    FreshAfter(s, move, id, P.Do(s, move).rounds[id]);
    RoundStays(s, move, P.Do(s, move).rounds[id]);
  }

  /** However a round comes out of a step, its snapshots are as fresh as before it. */
  lemma FreshAfter(s: P.Sys, move: P.Move, id: nat, r: P.Round)
    requires Sane(s) && P.Enabled(s, move) && Outcome(s, move, id, r)
    ensures RoundFresh(s, r)
  {
    if id in s.rounds && r == s.rounds[id] {
    } else if move.Open? {
      OpenedFresh(s, move.coord);
      AskedFresh(s, P.Round(r.coord, r.snapshots, {}, r.opening), r.asked);
    } else if move.Ask? {
      AskedFresh(s, s.rounds[id], r.asked);
    } else {
      ReplyIsFresh(s, move.e);
      SnapshotAdded(s, s.rounds[id], SnapshotOf(move.e));
    }
  }

  lemma ReplyIsFresh(s: P.Sys, e: P.Envelope)
    requires Sane(s) && e in s.bag && e.msg.StatusReply? && Replies(s, e, e.conn)
    ensures Fresh(s, s.rounds[e.conn], e.src, SnapshotOf(e).spent)
  {
    assert Truthful(s, e) && ReplyFresh(s, e);
    ConveyedItems(e.msg.spent);
  }

  lemma NextNumber(s: P.Sys, move: P.Move)
    requires P.Enabled(s, move)
    ensures P.Next(s, move).nextRound == if move.Open? then s.nextRound + 1 else s.nextRound
  {
  }

  /** A status message carries the number of a round already opened, and a reply is fresh. */
  ghost predicate StatusFresh(s: P.Sys, e: P.Envelope) {
    e.conn < s.nextRound && (e.msg.StatusReply? ==> ReplyFresh(s, e))
  }

  lemma ReplyStaysFresh(s: P.Sys, move: P.Move, e: P.Envelope)
    requires P.Enabled(s, move) && Undistorted(s, move) && StatusFresh(s, e)
    ensures StatusFresh(P.Do(s, move), e)
  {
    NextNumber(s, move);
    if e.conn in P.Do(s, move).rounds {
      RoundAfter(s, move, e.conn);
    }
  }

  lemma StatusAnswer(l: Local, f: P.Envelope, e: P.Envelope)
    requires e in P.Answer(l, f) && (e.msg.StatusReply? || e.msg.StatusRequest?)
    ensures f.msg.StatusRequest? && e == P.Envelope(f.dst, f.src, f.conn, e.msg)
    ensures e.msg.StatusReply? && IsListing(e.msg.spent, l.node.spent)
  {
  }

  lemma StatusEmitted(s: P.Sys, move: P.Move, e: P.Envelope)
    requires Sane(s) && P.Enabled(s, move) && Emits(s, move, e) && (e.msg.StatusReply? || e.msg.StatusRequest?)
    ensures StatusFresh(s, e)
  {
    if move.Deliver? {
      StatusAnswer(s.nodes[move.e.dst], move.e, e);
      if e.conn in s.rounds {
        assert RoundFresh(s, s.rounds[e.conn]);
      }
    } else {
      assert move.Ask? && e.conn == move.round;
    }
  }

  lemma KeepsReplyFresh(s: P.Sys, move: P.Move, e: P.Envelope)
    requires Sane(s) && P.Enabled(s, move)
    requires e in P.Do(s, move).bag && (e.msg.StatusReply? || e.msg.StatusRequest?)
    ensures StatusFresh(P.Do(s, move), e)
  {
    SaneReads(s, move);
    EmitsOnly(s, move, e);
    if e !in s.bag {
      StatusEmitted(s, move, e);
    }
    assert StatusFresh(s, e);
    ReplyStaysFresh(s, move, e);
  }

  lemma KeepsNumbers(s: P.Sys, move: P.Move, id: nat)
    requires Sane(s) && P.Enabled(s, move) && id in P.Do(s, move).rounds
    ensures id < P.Do(s, move).nextRound
  {
    SaneReads(s, move);
    NextNumber(s, move);
    RoundAfter(s, move, id);
  }

  lemma KeepsRounds(s: P.Sys, move: P.Move)
    requires Sane(s) && P.Enabled(s, move)
    ensures RoundsFresh(P.Do(s, move))
  {
    var t := P.Do(s, move);
    forall id | id in t.rounds ensures id < t.nextRound && RoundFresh(t, t.rounds[id]) {
      KeepsNumbers(s, move, id);
      KeepsRoundFresh(s, move, id);
    }
    forall e | e in t.bag && (e.msg.StatusReply? || e.msg.StatusRequest?) ensures StatusFresh(t, e) {
      KeepsReplyFresh(s, move, e);
    }
  }

  lemma KeepsReadable(s: P.Sys, move: P.Move)
    requires Readable(s)
    ensures Readable(P.Do(s, move))
  {
    P.DoKeys(s, move);
    SeededGrows(s, move);
    WireStays(s, move);
  }

  lemma WireStays(s: P.Sys, move: P.Move)
    ensures P.Do(s, move).wire == s.wire
  {
  }

  /** The whole invariant is kept by every step. */
  lemma DoKeepsSane(s: P.Sys, move: P.Move)
    requires Sane(s)
    ensures Sane(P.Do(s, move))
  {
    if !P.Enabled(s, move) {
      return;
    }
    SaneReads(s, move);
    KeepsReadable(s, move);
    KeepsWired(s, move);
    KeepsDisjoint(s, move);
    if move.Seed? {
      assert !Seen(s, move.bearer);
    }
    KeepsTruthful(s, move);
    forall b ensures b in P.Do(s, move).seeded <==> Seen(P.Do(s, move), b) {
      KeepsConserved(s, move, b);
    }
    KeepsRounds(s, move);
  }

  lemma {:induction false} PlayKeepsSane(s: P.Sys, moves: seq<P.Move>)
    requires Sane(s)
    ensures Sane(P.Play(s, moves))
    decreases |moves|
  {
    if moves != [] {
      DoKeepsSane(s, moves[0]);
      PlayKeepsSane(P.Do(s, moves[0]), moves[1..]);
    }
  }

  function HeldOrSpent(s: P.Sys): set<string> {
    set n, b | n in s.nodes && b in s.nodes[n].node.ledger + s.nodes[n].node.spent :: b
  }

  /** Asynchronous conservation: in every run, what is held or spent is exactly what was seeded. */
  lemma AsynchronousConservation(s: P.Sys, moves: seq<P.Move>)
    requires P.Started(s)
    ensures HeldOrSpent(P.Play(s, moves)) == P.Play(s, moves).seeded
    ensures Disjoint(P.Play(s, moves))
  {
    StartedIsSane(s);
    PlayKeepsSane(s, moves);
    var t := P.Play(s, moves);
    forall b ensures b in HeldOrSpent(t) <==> b in t.seeded {
      if n :| t.Holds(n, b) || t.HasSpent(n, b) {
        assert n in t.nodes && b in t.nodes[n].node.ledger + t.nodes[n].node.spent;
      }
      if b in HeldOrSpent(t) {
        var n :| n in t.nodes && b in t.nodes[n].node.ledger + t.nodes[n].node.spent;
        assert t.Holds(n, b) || t.HasSpent(n, b);
      }
    }
  }
}
