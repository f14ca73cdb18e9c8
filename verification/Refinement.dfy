/** Commands that run one at a time with every peer responding: the distributed protocol refines the central network. */
module Refinement {
  import opened Core
  import opened SharedState
  import opened PeerProtocol
  import opened Wire
  import opened ProtocolPolling
  import opened ProtocolSafety
  import opened NetworkRuns
  import N = NetworkSpec
  import P = Protocol

  /** The central network a distributed state looks like: same holdings, same spends, same live links. */
  ghost predicate Sim(s: P.Sys, net: N.State) {
    && net.Valid()
    && net.nodes.Keys == s.nodes.Keys
    && (forall n, b :: s.Holds(n, b) <==> net.Holds(n, b))
    && (forall n, b :: s.HasSpent(n, b) <==> net.HasSpent(n, b))
    && (forall n, m :: LinkedIn(s, n, m) <==> net.Up(n, m))
  }

  predicate LinkedIn(s: P.Sys, n: string, m: string) {
    n in s.nodes && s.nodes[n].IsLinked(m)
  }

  /** Nothing in flight and no command under way. */
  ghost predicate Quiet(s: P.Sys) {
    s.bag == multiset{} && s.cuts == multiset{} && s.rounds == map[]
  }

  /** The first step of an administrator's command. */
  predicate Starts(move: P.Move) {
    move.Greet? || move.Cut? || move.Pull? || move.Spend? || move.Open?
  }

  /** The steps that carry a started command on when every peer responds. */
  predicate Responds(move: P.Move) {
    move.Deliver? || move.CutLocal? || move.Ask? || move.Close?
  }

  /** The central calls a command stands for: reconnecting a live link is a cut and a reconnect. */
  function Calls(start: P.Move): seq<N.Action>
    requires Starts(start)
  {
    match start
    case Greet(n, m) => [N.LinkDown(n, m), N.LinkUp(n, m)]
    case Cut(n, m) => [N.LinkDown(n, m)]
    case Pull(n, m) => [N.Propagate(m, n)]
    case Spend(n, b) => [N.SpendAt(n, b)]
    case Open(_) => [N.ConversionDay(None)]
  }

  /** A run of responding steps, each one possible when it is taken, that ends quiet. */
  ghost predicate Completes(s: P.Sys, moves: seq<P.Move>)
    decreases |moves|
  {
    if moves == [] then Quiet(s)
    else Responds(moves[0]) && P.Enabled(s, moves[0]) && Completes(P.Next(s, moves[0]), moves[1..])
  }

  lemma QuietIsDone(s: P.Sys, moves: seq<P.Move>)
    requires Quiet(s) && Completes(s, moves)
    ensures moves == []
  {
  }

  /** One message in flight and nothing else under way. */
  ghost predicate Alone(s: P.Sys, e: P.Envelope) {
    s.bag == multiset{e} && s.cuts == multiset{} && s.rounds == map[] && e.dst in s.nodes && P.Legible(s, e)
  }

  /** With one message in flight and nothing else under way, the next step is its delivery. */
  lemma OnlyDelivery(s: P.Sys, e: P.Envelope, moves: seq<P.Move>)
    requires s.bag == multiset{e} && s.cuts == multiset{} && s.rounds == map[] && Completes(s, moves)
    ensures moves != [] && moves[0] == P.Deliver(e) && e.dst in s.nodes
    ensures Completes(P.Next(s, P.Deliver(e)), moves[1..])
  {
    assert s.bag[e] == 1;
    assert moves != [];
    assert moves[0].Deliver? ==> moves[0].e in s.bag;
  }

  // ---- Link-up --------------------------------------------------------------------------------------

  /** The state the central link-up leaves: both ledgers merged and both flags up. */
  ghost function AfterLinkUp(s: P.Sys, n: string, m: string): P.Sys
    requires n in s.nodes && m in s.nodes
  {
    var merged := N.Merged(s.nodes[n].node, s.nodes[m].node);
    s.(nodes := s.nodes[m := s.nodes[m].WithLinkUp(n, merged)][n := s.nodes[n].WithLinkUp(m, merged)])
  }

  /** The ledger one end of a new link works out from what it hears of the other. */
  function HeardMerge(here: N.Node, peer: N.Node): set<string> {
    (here.ledger + Conveyed(peer.ledger)) - (here.spent + Conveyed(peer.spent))
  }

  /** The state a lone link-up command leaves: each end merges what it hears. */
  ghost function HeardLinkUp(s: P.Sys, n: string, m: string): P.Sys
    requires n in s.nodes && m in s.nodes
  {
    var a, b := s.nodes[n], s.nodes[m];
    s.(nodes := s.nodes[m := b.WithLinkUp(n, HeardMerge(b.node, a.node))]
                       [n := a.WithLinkUp(m, HeardMerge(a.node, b.node))])
  }

  ghost function AckOf(node: N.Node): PeerMessage {
    LinkUpAck(node.nodeId, Listing(node.ledger), Listing(node.spent))
  }

  lemma HelloStep(s: P.Sys, n: string, m: string)
    requires Quiet(s) && n in s.nodes && m in s.nodes && n != m
    ensures P.Next(s, P.Greet(n, m)) == s.(bag := multiset{P.Envelope(n, m, 0, Hello(s.nodes[n]))})
  {
  }

  lemma DeliverHello(s: P.Sys, e: P.Envelope)
    requires s.bag == multiset{e} && e.dst in s.nodes && e.msg.LinkUpHello? && P.Legible(s, e)
    ensures var l := s.nodes[e.dst];
            P.Next(s, P.Deliver(e)) ==
            s.(nodes := s.nodes[e.dst := P.Received(l, AsHeard(e.msg))],
               bag := multiset{P.Envelope(e.dst, e.src, e.conn, AckOf(l.node))})
  {
    P.LegibleStep(s, e);
    assert s.bag - multiset{e} == multiset{};
  }

  lemma DeliverAck(s: P.Sys, e: P.Envelope)
    requires s.bag == multiset{e} && e.dst in s.nodes && e.msg.LinkUpAck? && P.Legible(s, e)
    ensures var l := s.nodes[e.dst];
            P.Next(s, P.Deliver(e)) == s.(nodes := s.nodes[e.dst := P.Received(l, AsHeard(e.msg))], bag := multiset{})
  {
    P.LegibleStep(s, e);
    assert s.bag - multiset{e} == multiset{};
  }

  lemma HelloTaken(s: P.Sys, t: P.Sys, e: P.Envelope, moves: seq<P.Move>)
    requires Alone(s, e) && e.msg.LinkUpHello? && Completes(s, moves)
    requires var l := s.nodes[e.dst];
             t == s.(nodes := s.nodes[e.dst := P.Received(l, AsHeard(e.msg))],
                     bag := multiset{P.Envelope(e.dst, e.src, e.conn, AckOf(l.node))})
    ensures moves != [] && Completes(t, moves[1..]) && P.Play(s, moves) == P.Play(t, moves[1..])
  {
    OnlyDelivery(s, e, moves);
    DeliverHello(s, e);
  }

  lemma AckTaken(s: P.Sys, t: P.Sys, e: P.Envelope, moves: seq<P.Move>)
    requires Alone(s, e) && e.msg.LinkUpAck? && Completes(s, moves)
    requires var l := s.nodes[e.dst];
             t == s.(nodes := s.nodes[e.dst := P.Received(l, AsHeard(e.msg))], bag := multiset{})
    ensures P.Play(s, moves) == t
  {
    OnlyDelivery(s, e, moves);
    DeliverAck(s, e);
    QuietIsDone(t, moves[1..]);
  }

  /** What either end makes of the other's greeting or its answer. */
  lemma MergeHeard(l: Local, peer: N.Node, msg: PeerMessage)
    requires msg == LinkUpHello(peer.nodeId, Listing(peer.ledger), Listing(peer.spent)) || msg == AckOf(peer)
    ensures P.Received(l, AsHeard(msg)) == l.WithLinkUp(peer.nodeId, HeardMerge(l.node, peer))
  {
    ConveyedItems(Listing(peer.ledger));
    ConveyedItems(Listing(peer.spent));
  }

  /** Run alone to its end, a link-up leaves both flags up and both ends with what they heard merged. */
  lemma LinkUpOutcome(s: P.Sys, n: string, m: string, moves: seq<P.Move>)
    requires Sane(s) && Quiet(s) && n in s.nodes && m in s.nodes && n != m
    requires Completes(P.Next(s, P.Greet(n, m)), moves)
    ensures P.Play(P.Next(s, P.Greet(n, m)), moves) == HeardLinkUp(s, n, m)
  {
    HelloStep(s, n, m);
    SaneSpeaks(s);
    LinkUpFrom(s, s.(bag := multiset{P.Envelope(n, m, 0, Hello(s.nodes[n]))}), n, m, moves);
  }

  lemma LinkUpFrom(s: P.Sys, s1: P.Sys, n: string, m: string, moves: seq<P.Move>)
    requires Speaks(s) && Quiet(s) && n in s.nodes && m in s.nodes && n != m
    requires s1 == s.(bag := multiset{P.Envelope(n, m, 0, Hello(s.nodes[n]))}) && Completes(s1, moves)
    ensures P.Play(s1, moves) == HeardLinkUp(s, n, m)
  {
    var a, b := s.nodes[n], s.nodes[m];
    var hello, ack := P.Envelope(n, m, 0, Hello(a)), P.Envelope(m, n, 0, AckOf(b.node));
    MergeHeard(b, a.node, hello.msg);
    MergeHeard(a, b.node, ack.msg);
    SaysClearly(s, n, hello.msg);
    SaysClearly(s, m, ack.msg);
    var s2 := s.(nodes := s.nodes[m := b.WithLinkUp(n, HeardMerge(b.node, a.node))], bag := multiset{ack});
    HelloTaken(s1, s2, hello, moves);
    AckTaken(s2, HeardLinkUp(s, n, m), ack, moves[1..]);
  }

  /**
   * A greeting from `peer` tells `here` all it needs: not so if `peer` holds the blank bearer alone and `here` does not
   * know of it, or has spent the blank bearer alone and `here` holds it.
   */
  predicate Conveys(peer: N.Node, here: N.Node) {
    && !(peer.ledger == {""} && "" !in here.ledger + here.spent)
    && !(peer.spent == {""} && "" in here.ledger)
  }

  lemma HeardMergeExactly(here: N.Node, peer: N.Node)
    requires here.ledger !! here.spent && peer.ledger !! peer.spent
    ensures HeardMerge(here, peer) == N.Merged(here, peer) <==> Conveys(peer, here)
  {
    var heard, merged := HeardMerge(here, peer), N.Merged(here, peer);
    assert forall b | b != "" :: b in heard <==> b in merged;
    assert "" in heard <==>
           ("" in here.ledger || "" in Conveyed(peer.ledger)) && "" !in here.spent + Conveyed(peer.spent);
    assert "" in merged <==> ("" in here.ledger || "" in peer.ledger) && "" !in here.spent + peer.spent;
    BlankAlone(peer.ledger);
    BlankAlone(peer.spent);
    assert heard == merged <==> ("" in heard <==> "" in merged);
  }

  lemma BlankAlone(names: set<string>)
    ensures "" in Conveyed(names) <==> "" in names && names != {""}
  {
  }

  lemma SaneApart(s: P.Sys, n: string)
    requires Sane(s) && n in s.nodes
    ensures s.nodes[n].node.ledger !! s.nodes[n].node.spent
  {
    forall b | b in s.nodes[n].node.ledger ensures b !in s.nodes[n].node.spent {
      assert s.Holds(n, b);
      assert !s.HasSpent(n, b);
    }
  }

  /** The two ends of a new link agree exactly when each greeting tells the other end all it needs. */
  lemma EndsAgreeExactly(a: N.Node, b: N.Node)
    requires a.ledger !! a.spent && b.ledger !! b.spent
    ensures HeardMerge(a, b) == HeardMerge(b, a) <==> Conveys(a, b) && Conveys(b, a)
  {
    HeardMergeExactly(a, b);
    HeardMergeExactly(b, a);
    assert N.Merged(a, b) == N.Merged(b, a);
    if !Conveys(a, b) {
      BlankDivides(a, b);
    } else if !Conveys(b, a) {
      BlankDivides(b, a);
    }
  }

  lemma BlankDivides(peer: N.Node, here: N.Node)
    requires peer.ledger !! peer.spent && here.ledger !! here.spent && !Conveys(peer, here)
    ensures "" in HeardMerge(peer, here) <==> "" !in HeardMerge(here, peer)
  {
    assert "" in {""};
    if peer.ledger == {""} {
      assert "" !in peer.spent;
    }
    if peer.spent == {""} {
      assert "" !in peer.ledger;
    }
  }

  /** A lone link-up leaves what the central one does exactly when each greeting tells the other end all it needs. */
  lemma LinkUpExactly(s: P.Sys, n: string, m: string)
    requires Sane(s) && n in s.nodes && m in s.nodes && n != m
    ensures HeardLinkUp(s, n, m) == AfterLinkUp(s, n, m) <==>
            Conveys(s.nodes[n].node, s.nodes[m].node) && Conveys(s.nodes[m].node, s.nodes[n].node)
  {
    var a, b := s.nodes[n].node, s.nodes[m].node;
    SaneApart(s, n);
    SaneApart(s, m);
    HeardMergeExactly(a, b);
    HeardMergeExactly(b, a);
    assert N.Merged(a, b) == N.Merged(b, a);
    assert HeardLinkUp(s, n, m).nodes[n].node.ledger == HeardMerge(a, b);
    assert HeardLinkUp(s, n, m).nodes[m].node.ledger == HeardMerge(b, a);
  }

  lemma AfterLinkUpAt(s: P.Sys, n: string, m: string, x: string, b: string)
    requires n in s.nodes && m in s.nodes && n != m
    ensures var t := AfterLinkUp(s, n, m);
            && (t.HasSpent(x, b) <==> s.HasSpent(x, b))
            && (t.Holds(x, b) <==>
                  if x == n || x == m
                  then (s.Holds(n, b) || s.Holds(m, b)) && !s.HasSpent(n, b) && !s.HasSpent(m, b)
                  else s.Holds(x, b))
  {
  }

  lemma AfterLinkUpLinks(s: P.Sys, n: string, m: string, x: string, y: string)
    requires n in s.nodes && m in s.nodes && n != m
    ensures LinkedIn(AfterLinkUp(s, n, m), x, y) <==>
            LinkedIn(s, x, y) || (x == n && y == m) || (x == m && y == n)
  {
  }

  lemma LinkUpSim(s: P.Sys, net: N.State, n: string, m: string)
    requires Sim(s, net) && n in s.nodes && m in s.nodes && n != m
    ensures Sim(AfterLinkUp(s, n, m), N.Run(net, [N.LinkDown(n, m), N.LinkUp(n, m)]))
  {
    CutFrame(net, n, m);
    RunTwo(net, N.LinkDown(n, m), N.LinkUp(n, m));
    forall x, b ensures AlikeAt(s, N.Exec(net, N.LinkDown(n, m)), x, b) {
      assert AlikeAt(s, net, x, b);
    }
    LinkUpSimFrom(s, N.Exec(net, N.LinkDown(n, m)), n, m);
  }

  predicate AlikeAt(s: P.Sys, net: N.State, x: string, b: string) {
    (s.Holds(x, b) <==> net.Holds(x, b)) && (s.HasSpent(x, b) <==> net.HasSpent(x, b))
  }

  lemma JoinedAlike(s: P.Sys, net: N.State, n: string, m: string, x: string, b: string)
    requires n in s.nodes && m in s.nodes && n != m && net.Valid() && N.Enabled(net, N.LinkUp(n, m))
    requires AlikeAt(s, net, n, b) && AlikeAt(s, net, m, b) && AlikeAt(s, net, x, b)
    ensures AlikeAt(AfterLinkUp(s, n, m), N.Exec(net, N.LinkUp(n, m)), x, b)
  {
    JoinSpreads(net, n, m, x, b);
    AfterLinkUpAt(s, n, m, x, b);
  }

  lemma JoinedLinks(s: P.Sys, net: N.State, n: string, m: string, x: string, y: string)
    requires n in s.nodes && m in s.nodes && n != m && net.Valid() && N.Enabled(net, N.LinkUp(n, m))
    requires net.Up(x, y) <==> LinkedIn(s, x, y) && !((x == n && y == m) || (x == m && y == n))
    ensures LinkedIn(AfterLinkUp(s, n, m), x, y) <==> N.Exec(net, N.LinkUp(n, m)).Up(x, y)
  {
    N.ExecLinks(net, N.LinkUp(n, m), x, y);
    AfterLinkUpLinks(s, n, m, x, y);
  }

  lemma AlikeSim(s: P.Sys, net: N.State)
    requires net.Valid() && net.nodes.Keys == s.nodes.Keys
    requires forall x, b :: AlikeAt(s, net, x, b)
    requires forall x, y :: LinkedIn(s, x, y) <==> net.Up(x, y)
    ensures Sim(s, net)
  {
    forall x, b ensures (s.Holds(x, b) <==> net.Holds(x, b)) && (s.HasSpent(x, b) <==> net.HasSpent(x, b)) {
      assert AlikeAt(s, net, x, b);
    }
  }

  lemma AfterLinkUpKeys(s: P.Sys, n: string, m: string)
    requires n in s.nodes && m in s.nodes
    ensures AfterLinkUp(s, n, m).nodes.Keys == s.nodes.Keys
  {
  }

  lemma JoinedAllAlike(s: P.Sys, net: N.State, n: string, m: string)
    requires n in s.nodes && m in s.nodes && n != m && net.Valid() && N.Enabled(net, N.LinkUp(n, m))
    requires forall x, b :: AlikeAt(s, net, x, b)
    ensures forall x, b :: AlikeAt(AfterLinkUp(s, n, m), N.Exec(net, N.LinkUp(n, m)), x, b)
  {
    forall x, b ensures AlikeAt(AfterLinkUp(s, n, m), N.Exec(net, N.LinkUp(n, m)), x, b) {
      JoinedAlike(s, net, n, m, x, b);
    }
  }

  lemma JoinedAllLinks(s: P.Sys, net: N.State, n: string, m: string)
    requires n in s.nodes && m in s.nodes && n != m && net.Valid() && N.Enabled(net, N.LinkUp(n, m))
    requires forall x, y :: net.Up(x, y) <==> LinkedIn(s, x, y) && !((x == n && y == m) || (x == m && y == n))
    ensures forall x, y :: LinkedIn(AfterLinkUp(s, n, m), x, y) <==> N.Exec(net, N.LinkUp(n, m)).Up(x, y)
  {
    forall x, y ensures LinkedIn(AfterLinkUp(s, n, m), x, y) <==> N.Exec(net, N.LinkUp(n, m)).Up(x, y) {
      JoinedLinks(s, net, n, m, x, y);
    }
  }

  lemma LinkUpSimFrom(s: P.Sys, net1: N.State, n: string, m: string)
    requires n in s.nodes && m in s.nodes && n != m
    requires net1.Valid() && net1.nodes.Keys == s.nodes.Keys && N.Enabled(net1, N.LinkUp(n, m))
    requires forall x, b :: AlikeAt(s, net1, x, b)
    requires forall x, y :: net1.Up(x, y) <==> LinkedIn(s, x, y) && !((x == n && y == m) || (x == m && y == n))
    ensures Sim(AfterLinkUp(s, n, m), N.Exec(net1, N.LinkUp(n, m)))
  {
    N.ExecValid(net1, N.LinkUp(n, m));
    AfterLinkUpKeys(s, n, m);
    JoinedAllAlike(s, net1, n, m);
    JoinedAllLinks(s, net1, n, m);
    AlikeSim(AfterLinkUp(s, n, m), N.Exec(net1, N.LinkUp(n, m)));
  }

  // ---- Link-down ------------------------------------------------------------------------------------

  /** A link-down under way: its message and its local half are each still to come or already done. */
  ghost predicate Cutting(cur: P.Sys, s: P.Sys, n: string, m: string) {
    var notice := P.Envelope(n, m, 0, PeerMessage.LinkDown(n));
    && cur.rounds == map[] && cur.nodes.Keys == s.nodes.Keys && P.Legible(cur, notice)
    && (cur.bag == multiset{} || cur.bag == multiset{notice})
    && (cur.cuts == multiset{} || cur.cuts == multiset{(n, m)})
    && (forall x, b :: (cur.Holds(x, b) <==> s.Holds(x, b)) && (cur.HasSpent(x, b) <==> s.HasSpent(x, b)))
    && (forall x, y :: (x != m || y != n) && (x != n || y != m) ==> (LinkedIn(cur, x, y) <==> LinkedIn(s, x, y)))
    && (LinkedIn(cur, m, n) ==> notice in cur.bag)
    && (LinkedIn(cur, n, m) ==> (n, m) in cur.cuts)
  }

  lemma CutHeard(cur: P.Sys, e: P.Envelope)
    requires cur.bag == multiset{e} && e.dst in cur.nodes && e.msg.LinkDown? && P.Legible(cur, e)
    ensures P.Next(cur, P.Deliver(e)) ==
            cur.(nodes := cur.nodes[e.dst := cur.nodes[e.dst].WithLinkDown(e.msg.from)], bag := multiset{})
  {
    P.LegibleStep(cur, e);
    assert cur.bag - multiset{e} == multiset{};
  }

  lemma CutDone(cur: P.Sys, n: string, m: string)
    requires cur.cuts == multiset{(n, m)} && n in cur.nodes
    ensures P.Next(cur, P.CutLocal(n, m)) ==
            cur.(nodes := cur.nodes[n := cur.nodes[n].WithLinkDown(m)], cuts := multiset{})
  {
    assert cur.cuts - multiset{(n, m)} == multiset{};
  }

  lemma LinkDropped(cur: P.Sys, n: string, m: string)
    requires n in cur.nodes
    ensures var t := cur.(nodes := cur.nodes[n := cur.nodes[n].WithLinkDown(m)]);
            && (forall x, b :: (t.Holds(x, b) <==> cur.Holds(x, b)) && (t.HasSpent(x, b) <==> cur.HasSpent(x, b)))
            && forall x, y :: LinkedIn(t, x, y) <==> LinkedIn(cur, x, y) && !(x == n && y == m)
  {
  }

  lemma CuttingMoves(cur: P.Sys, s: P.Sys, n: string, m: string, move: P.Move)
    requires Cutting(cur, s, n, m) && Responds(move) && P.Enabled(cur, move)
    ensures (cur.bag == multiset{P.Envelope(n, m, 0, PeerMessage.LinkDown(n))}
             && move == P.Deliver(P.Envelope(n, m, 0, PeerMessage.LinkDown(n))))
            || (cur.cuts == multiset{(n, m)} && move == P.CutLocal(n, m))
  {
    if move.Deliver? {
      assert cur.bag[move.e] > 0;
    } else if move.CutLocal? {
      assert cur.cuts[(move.n, move.m)] > 0;
    }
  }

  lemma CuttingStep(cur: P.Sys, s: P.Sys, n: string, m: string, move: P.Move)
    requires n != m && n in s.nodes && m in s.nodes && Cutting(cur, s, n, m)
    requires Responds(move) && P.Enabled(cur, move)
    ensures Cutting(P.Next(cur, move), s, n, m)
  {
    CuttingMoves(cur, s, n, m, move);
    if move.Deliver? {
      CutHeard(cur, move.e);
      HearingCuts(cur, s, n, m);
    } else {
      CutDone(cur, n, m);
      DoingCuts(cur, s, n, m);
    }
  }

  lemma HearingCuts(cur: P.Sys, s: P.Sys, n: string, m: string)
    requires n != m && n in s.nodes && m in s.nodes && Cutting(cur, s, n, m)
    ensures Cutting(cur.(nodes := cur.nodes[m := cur.nodes[m].WithLinkDown(n)], bag := multiset{}), s, n, m)
  {
    LinkDropped(cur, m, n);
    var u := cur.(nodes := cur.nodes[m := cur.nodes[m].WithLinkDown(n)]);
    SameNodes(u, u.(bag := multiset{}));
  }

  lemma DoingCuts(cur: P.Sys, s: P.Sys, n: string, m: string)
    requires n != m && n in s.nodes && m in s.nodes && Cutting(cur, s, n, m)
    ensures Cutting(cur.(nodes := cur.nodes[n := cur.nodes[n].WithLinkDown(m)], cuts := multiset{}), s, n, m)
  {
    LinkDropped(cur, n, m);
    var u := cur.(nodes := cur.nodes[n := cur.nodes[n].WithLinkDown(m)]);
    SameNodes(u, u.(cuts := multiset{}));
  }

  lemma SameNodes(s: P.Sys, t: P.Sys)
    requires t.nodes == s.nodes
    ensures forall n, b :: (t.Holds(n, b) <==> s.Holds(n, b)) && (t.HasSpent(n, b) <==> s.HasSpent(n, b))
    ensures forall n, m :: LinkedIn(t, n, m) <==> LinkedIn(s, n, m)
  {
  }

  lemma {:induction false} CuttingEnds(cur: P.Sys, s: P.Sys, net: N.State, n: string, m: string, moves: seq<P.Move>)
    requires n != m && n in s.nodes && m in s.nodes && Cutting(cur, s, n, m)
    requires Sim(s, net) && Completes(cur, moves)
    ensures Sim(P.Play(cur, moves), N.Run(net, [N.LinkDown(n, m)]))
    decreases |moves|
  {
    if moves == [] {
      var cut := N.LinkDown(n, m);
      ExecOne(net, cut);
      N.ExecValid(net, cut);
      var net1 := N.Exec(net, cut);
      forall x, b ensures (cur.Holds(x, b) <==> net1.Holds(x, b)) && (cur.HasSpent(x, b) <==> net1.HasSpent(x, b)) {
        N.ExecHolds(net, cut, x, b);
        N.ExecSpent(net, cut, x, b);
      }
      forall x, y ensures LinkedIn(cur, x, y) <==> net1.Up(x, y) {
        N.ExecLinks(net, cut, x, y);
        assert LinkedIn(s, x, y) <==> net.Up(x, y);
      }
    } else {
      CuttingStep(cur, s, n, m, moves[0]);
      CuttingEnds(P.Next(cur, moves[0]), s, net, n, m, moves[1..]);
    }
  }

  // ---- Propagation ----------------------------------------------------------------------------------

  lemma DeliverPull(s: P.Sys, e: P.Envelope)
    requires s.bag == multiset{e} && e.dst in s.nodes && e.msg.PropagateRequest? && P.Legible(s, e)
    requires s.nodes[e.dst].IsLinked(e.msg.from)
    ensures var l := s.nodes[e.dst].node;
            P.Next(s, P.Deliver(e)) ==
            s.(bag := multiset{P.Envelope(e.dst, e.src, e.conn, PropagateReply(l.nodeId, Listing(l.ledger)))})
  {
    assert s.bag - multiset{e} == multiset{};
    assert s.nodes[e.dst := s.nodes[e.dst]] == s.nodes;
  }

  lemma DeliverHoldings(s: P.Sys, e: P.Envelope)
    requires s.bag == multiset{e} && e.dst in s.nodes && e.msg.PropagateReply? && P.Legible(s, e)
    ensures P.Next(s, P.Deliver(e)) ==
            s.(nodes := s.nodes[e.dst := P.Received(s.nodes[e.dst], AsHeard(e.msg))], bag := multiset{})
  {
    P.LegibleStep(s, e);
    assert s.bag - multiset{e} == multiset{};
  }

  /** The state the central propagate leaves. */
  ghost function AfterPull(s: P.Sys, n: string, m: string): P.Sys
    requires n in s.nodes && m in s.nodes
  {
    s.(nodes := s.nodes[n := s.nodes[n].WithDelivered(s.nodes[n].PropagateDeliverable(s.nodes[m].node.ledger))])
  }

  /** The state a lone propagate command leaves: what was heard is delivered. */
  ghost function HeardPull(s: P.Sys, n: string, m: string): P.Sys
    requires n in s.nodes && m in s.nodes
  {
    var heard := Conveyed(s.nodes[m].node.ledger);
    s.(nodes := s.nodes[n := s.nodes[n].WithDelivered(s.nodes[n].PropagateDeliverable(heard))])
  }

  lemma PullTaken(s: P.Sys, t: P.Sys, e: P.Envelope, moves: seq<P.Move>)
    requires Alone(s, e) && e.msg.PropagateRequest? && s.nodes[e.dst].IsLinked(e.msg.from) && Completes(s, moves)
    requires var l := s.nodes[e.dst].node;
             t == s.(bag := multiset{P.Envelope(e.dst, e.src, e.conn, PropagateReply(l.nodeId, Listing(l.ledger)))})
    ensures moves != [] && Completes(t, moves[1..]) && P.Play(s, moves) == P.Play(t, moves[1..])
  {
    OnlyDelivery(s, e, moves);
    DeliverPull(s, e);
  }

  lemma HoldingsTaken(s: P.Sys, t: P.Sys, e: P.Envelope, moves: seq<P.Move>)
    requires Alone(s, e) && e.msg.PropagateReply? && Completes(s, moves)
    requires t == s.(nodes := s.nodes[e.dst := P.Received(s.nodes[e.dst], AsHeard(e.msg))], bag := multiset{})
    ensures P.Play(s, moves) == t
  {
    OnlyDelivery(s, e, moves);
    DeliverHoldings(s, e);
    QuietIsDone(t, moves[1..]);
  }

  /** Run alone to its end over a link that is up at both ends, a propagate delivers what is heard. */
  lemma PullOutcome(s: P.Sys, n: string, m: string, moves: seq<P.Move>)
    requires Sane(s) && Quiet(s) && P.Enabled(s, P.Pull(n, m)) && LinkedIn(s, m, n)
    requires Completes(P.Next(s, P.Pull(n, m)), moves)
    ensures P.Play(P.Next(s, P.Pull(n, m)), moves) == HeardPull(s, n, m)
  {
    SaneSpeaks(s);
    PullStep(s, n, m);
    PullFrom(s, s.(bag := multiset{P.Envelope(n, m, 0, PropagateRequest(n))}), n, m, moves);
  }

  lemma PullStep(s: P.Sys, n: string, m: string)
    requires Quiet(s) && P.Enabled(s, P.Pull(n, m))
    ensures P.Next(s, P.Pull(n, m)) == s.(bag := multiset{P.Envelope(n, m, 0, PropagateRequest(n))})
  {
  }

  lemma PullFrom(s: P.Sys, s1: P.Sys, n: string, m: string, moves: seq<P.Move>)
    requires Speaks(s) && Quiet(s) && n in s.nodes && m in s.nodes && n != m && LinkedIn(s, m, n)
    requires s1 == s.(bag := multiset{P.Envelope(n, m, 0, PropagateRequest(n))}) && Completes(s1, moves)
    ensures P.Play(s1, moves) == HeardPull(s, n, m)
  {
    var request := P.Envelope(n, m, 0, PropagateRequest(n));
    var reply := P.Envelope(m, n, 0, PropagateReply(m, Listing(s.nodes[m].node.ledger)));
    SaysClearly(s, n, request.msg);
    SaysClearly(s, m, reply.msg);
    ConveyedItems(Listing(s.nodes[m].node.ledger));
    var s2 := s.(bag := multiset{reply});
    PullTaken(s1, s2, request, moves);
    HoldingsTaken(s2, HeardPull(s, n, m), reply, moves[1..]);
  }

  /** A propagate hands over all it should unless the source holds the blank bearer alone, unknown to the other end. */
  predicate HandsOver(src: N.Node, dst: N.Node) {
    !(src.ledger == {""} && "" !in dst.ledger + dst.spent)
  }

  /** A lone propagate leaves what the central one does exactly when the source's holdings are handed over. */
  lemma PullExactly(s: P.Sys, n: string, m: string)
    requires n in s.nodes && m in s.nodes
    ensures HeardPull(s, n, m) == AfterPull(s, n, m) <==> HandsOver(s.nodes[m].node, s.nodes[n].node)
  {
    var l, ledger := s.nodes[n], s.nodes[m].node.ledger;
    assert HeardPull(s, n, m).nodes[n].node.ledger == l.node.ledger + l.PropagateDeliverable(Conveyed(ledger));
    assert AfterPull(s, n, m).nodes[n].node.ledger == l.node.ledger + l.PropagateDeliverable(ledger);
    if ledger == {""} && "" in l.node.ledger + l.node.spent {
      assert l.PropagateDeliverable(ledger) == {} == l.PropagateDeliverable({});
    }
    if ledger == {""} && "" !in l.node.ledger + l.node.spent {
      assert "" in AfterPull(s, n, m).nodes[n].node.ledger && "" !in HeardPull(s, n, m).nodes[n].node.ledger;
    }
  }

  lemma AfterPullAt(s: P.Sys, n: string, m: string, x: string, b: string)
    requires n in s.nodes && m in s.nodes
    ensures var t := AfterPull(s, n, m);
            && (t.HasSpent(x, b) <==> s.HasSpent(x, b))
            && (t.Holds(x, b) <==> s.Holds(x, b) || (x == n && s.Holds(m, b) && !s.HasSpent(n, b)))
  {
  }

  /** A propagate that has nothing to deliver fails, and delivering nothing is what it would have done. */
  lemma PullSpreads(net: N.State, n: string, m: string, x: string, b: string)
    requires net.Valid() && net.Up(m, n)
    ensures N.Exec(net, N.Propagate(m, n)).Holds(x, b) <==>
            net.Holds(x, b) || (x == n && net.Holds(m, b) && !net.HasSpent(n, b))
  {
    var a := N.Propagate(m, n);
    N.ExecHolds(net, a, x, b);
    if !N.Enabled(net, a) && net.Holds(m, b) {
      assert b !in N.Deliverable(net.nodes[m], net.nodes[n]);
    }
  }

  lemma AfterPullKeys(s: P.Sys, n: string, m: string)
    requires n in s.nodes && m in s.nodes
    ensures AfterPull(s, n, m).nodes.Keys == s.nodes.Keys
  {
  }

  lemma PullSim(s: P.Sys, net: N.State, n: string, m: string)
    requires Sim(s, net) && P.Enabled(s, P.Pull(n, m))
    ensures Sim(AfterPull(s, n, m), N.Run(net, [N.Propagate(m, n)]))
  {
    var a := N.Propagate(m, n);
    var t, net1 := AfterPull(s, n, m), N.Exec(net, a);
    ExecOne(net, a);
    N.ExecValid(net, a);
    AfterPullKeys(s, n, m);
    assert LinkedIn(s, n, m) && net.Up(n, m) && net.Up(m, n);
    forall x, b ensures (t.Holds(x, b) <==> net1.Holds(x, b)) && (t.HasSpent(x, b) <==> net1.HasSpent(x, b)) {
      PullSpreads(net, n, m, x, b);
      N.ExecSpent(net, a, x, b);
      AfterPullAt(s, n, m, x, b);
      assert (s.Holds(m, b) <==> net.Holds(m, b)) && (s.HasSpent(n, b) <==> net.HasSpent(n, b));
    }
    forall x, y ensures LinkedIn(t, x, y) <==> net1.Up(x, y) {
      N.ExecLinks(net, a, x, y);
    }
  }
}
