/** The administrator's commands at one node, and the steps of the protocol they carry out. */
module HabiNode {
  import opened Core
  import opened NetworkSpec
  import opened SharedState
  import opened PeerProtocol
  import opened Wire
  import opened Settlement
  import opened ConversionDay
  import opened Coordinator
  import P = Protocol

  datatype AdminError =
    | UnknownPeer(peer: string)
    | NoContact(peer: string)
    | UnexpectedReply(peer: string)
    | NotLinkedTo(peer: string)
    | NothingToSpend(bearer: string)
    | QuorumMissing(unreachable: seq<string>)
    | Conflict(violations: Report)

  datatype AdminResult =
    | Done
    | Status(nodeId: string, ledger: seq<string>, spent: seq<string>, links: seq<string>)
    | Failed(error: AdminError)

  type Sent = seq<(string, PeerMessage)>

  /** What each peer answers if asked during this command; peers without an entry cannot be reached. */
  type Contacts = map<string, PeerMessage>

  // ---- Gathering a settlement round -------------------------------------------------------------------

  predicate Answers(contacts: Contacts, p: string) {
    p in contacts && contacts[p].StatusReply?
  }

  function AnswerSnapshot(contacts: Contacts, p: string): PeerSnapshot
    requires Answers(contacts, p)
  {
    PeerSnapshot(p, Elements(contacts[p].ledger), Elements(contacts[p].spent))
  }

  /** The coordinator's own snapshot first, then those of the peers that answered, in the order asked. */
  function Gathered(own: Node, peers: seq<string>, contacts: Contacts): seq<PeerSnapshot> {
    if peers == [] then [PeerSnapshot(own.nodeId, own.ledger, own.spent)]
    else
      var front, last := peers[..|peers| - 1], peers[|peers| - 1];
      Gathered(own, front, contacts) + (if Answers(contacts, last) then [AnswerSnapshot(contacts, last)] else [])
  }

  function Missing(peers: seq<string>, contacts: Contacts): set<string> {
    set p | p in peers && !Answers(contacts, p)
  }

  /** Who records a spend, read directly from the answers. */
  predicate SaysSpent(own: Node, peers: seq<string>, contacts: Contacts, n: string, b: string) {
    (n == own.nodeId && b in own.spent) || (n in peers && Answers(contacts, n) && b in contacts[n].spent)
  }

  /** No bearer is reported spent by two different nodes. */
  ghost predicate AtMostOneSays(own: Node, peers: seq<string>, contacts: Contacts) {
    forall n, m, b | SaysSpent(own, peers, contacts, n, b) && SaysSpent(own, peers, contacts, m, b) :: n == m
  }

  lemma RecordsSnoc(snapshots: seq<PeerSnapshot>, last: PeerSnapshot, n: string, b: string)
    ensures Records(snapshots + [last], n, b) <==> Records(snapshots, n, b) || (n == last.nodeId && b in last.spent)
  {
    var longer := snapshots + [last];
    if Records(snapshots, n, b) {
      var i :| 0 <= i < |snapshots| && snapshots[i].nodeId == n && b in snapshots[i].spent;
      assert longer[i] == snapshots[i];
    }
    if n == last.nodeId && b in last.spent {
      assert longer[|snapshots|] == last;
    }
  }

  lemma {:induction false} GatheredRecords(own: Node, peers: seq<string>, contacts: Contacts, n: string, b: string)
    ensures Records(Gathered(own, peers, contacts), n, b) <==> SaysSpent(own, peers, contacts, n, b)
    decreases |peers|
  {
    if peers == [] {
      RecordsSnoc([], PeerSnapshot(own.nodeId, own.ledger, own.spent), n, b);
      assert [] + [PeerSnapshot(own.nodeId, own.ledger, own.spent)] == Gathered(own, peers, contacts);
    } else {
      var front, last := peers[..|peers| - 1], peers[|peers| - 1];
      assert peers == front + [last];
      GatheredRecords(own, front, contacts, n, b);
      if Answers(contacts, last) {
        RecordsSnoc(Gathered(own, front, contacts), AnswerSnapshot(contacts, last), n, b);
      } else {
        assert Gathered(own, peers, contacts) == Gathered(own, front, contacts);
      }
    }
  }

  /** The snapshots are the node's own and, of each peer that answered, what it answered; nothing else. */
  lemma {:induction false} GatheredExactly(own: Node, peers: seq<string>, contacts: Contacts, snap: PeerSnapshot)
    ensures snap in Gathered(own, peers, contacts) <==>
            || snap == PeerSnapshot(own.nodeId, own.ledger, own.spent)
            || (snap.nodeId in peers && Answers(contacts, snap.nodeId)
                && snap.ledger == Elements(contacts[snap.nodeId].ledger)
                && snap.spent == Elements(contacts[snap.nodeId].spent))
    decreases |peers|
  {
    if peers != [] {
      var front, last := peers[..|peers| - 1], peers[|peers| - 1];
      assert peers == front + [last];
      GatheredExactly(own, front, contacts, snap);
    }
  }

  /** The order in which peers are asked changes neither the verdict, nor the burn set, nor the conflict index. */
  lemma OrderIrrelevant(own: Node, left: seq<string>, right: seq<string>, contacts: Contacts)
    requires Elements(left) == Elements(right)
    ensures var a, b := Gathered(own, left, contacts), Gathered(own, right, contacts);
            && (SnapshotConflictFree(a) <==> SnapshotConflictFree(b))
            && Recorded(a) == Recorded(b) && SnapshotIndex(a) == SnapshotIndex(b)
  {
    var a, b := Gathered(own, left, contacts), Gathered(own, right, contacts);
    forall n, x ensures Records(a, n, x) <==> Records(b, n, x) {
      GatheredRecords(own, left, contacts, n, x);
      GatheredRecords(own, right, contacts, n, x);
      assert n in left <==> n in Elements(left);
      assert n in right <==> n in Elements(right);
    }
    SameRecords(a, b);
  }

  lemma SameRecords(a: seq<PeerSnapshot>, b: seq<PeerSnapshot>)
    requires forall n, x :: Records(a, n, x) <==> Records(b, n, x)
    ensures SnapshotConflictFree(a) <==> SnapshotConflictFree(b)
    ensures Recorded(a) == Recorded(b) && SnapshotIndex(a) == SnapshotIndex(b)
  {
    IndexRecords(a);
    IndexesSnapshotsExactly(SnapshotIndex(a), b);
    assert SnapshotIndex(a).Keys == Recorded(a) && SnapshotIndex(b).Keys == Recorded(b);
  }

  // ---- What a command leaves ----------------------------------------------------------------------------

  /** Whether a round goes through: every peer answered and no bearer has two recorded spenders. */
  ghost predicate RoundPasses(own: Node, peers: seq<string>, contacts: Contacts) {
    Missing(peers, contacts) == {} && SnapshotConflictFree(Gathered(own, peers, contacts))
  }

  /** Whether a command sends to a peer with the lock free, so that the node may change before the command goes on. */
  predicate Waits(l: Local, peers: seq<string>, msg: AdminMessage) {
    match msg
    case AdminLinkUp(p) => p in peers
    case AdminLinkDown(p) => p in peers
    case AdminPropagate(p) => p in peers && l.IsLinked(p)
    case AdminConversionDay => true
    case _ => false
  }

  /** The node as a command finds it when it goes on. */
  function Resumed(l: Local, meanwhile: Local, peers: seq<string>, msg: AdminMessage): Local {
    if Waits(l, peers, msg) then meanwhile else l
  }

  function StatusRequestsTo(id: string, peers: seq<string>): Sent {
    seq(|peers|, i requires 0 <= i < |peers| => (peers[i], StatusRequest(id)))
  }

  /** The messages a command sends before it goes on. */
  ghost function Requests(l: Local, peers: seq<string>, msg: AdminMessage): Sent {
    if !Waits(l, peers, msg) then []
    else
      match msg
      case AdminLinkUp(p) => [(p, Hello(l))]
      case AdminLinkDown(p) => [(p, PeerMessage.LinkDown(l.node.nodeId))]
      case AdminPropagate(p) => [(p, PropagateRequest(l.node.nodeId))]
      case AdminConversionDay => StatusRequestsTo(l.node.nodeId, peers)
      case _ => []
  }

  /** Whether a command succeeds: decided by the node as it starts and by the answers. */
  ghost predicate Succeeds(l: Local, peers: seq<string>, contacts: Contacts, msg: AdminMessage) {
    match msg
    case AdminLinkUp(p) => p in peers && p in contacts && contacts[p].LinkUpAck?
    case AdminLinkDown(p) => p in peers && p in contacts
    case AdminPropagate(p) => p in peers && l.IsLinked(p) && p in contacts && contacts[p].PropagateReply?
    case AdminSpendAt(b) => b in l.node.ledger
    case AdminConversionDay => RoundPasses(l.node, peers, contacts)
    case AdminStatus => true
    case AdminSeed(_) => true
  }

  /** What a command that succeeds makes of the node as it finds it; a command that fails makes nothing of it. */
  ghost function Effect(l: Local, now: Local, peers: seq<string>, contacts: Contacts, msg: AdminMessage): Local
    requires Succeeds(l, peers, contacts, msg)
  {
    match msg
    case AdminLinkUp(p) => Absorb(now, contacts[p]).value
    case AdminLinkDown(p) => now.WithLinkDown(p)
    case AdminPropagate(p) => Absorb(now, contacts[p]).value
    case AdminSpendAt(b) => now.WithSpend(b)
    case AdminConversionDay => now.Without(Recorded(Gathered(l.node, peers, contacts)))
    case AdminStatus => now
    case AdminSeed(b) => now.WithDelivered({b})
  }

  /** Why a command fails. */
  ghost predicate Explains(l: Local, peers: seq<string>, contacts: Contacts, msg: AdminMessage, e: AdminError) {
    match msg
    case AdminLinkUp(p) =>
      e == if p !in peers then UnknownPeer(p) else if p !in contacts then NoContact(p) else UnexpectedReply(p)
    case AdminLinkDown(p) =>
      e == if p !in peers then UnknownPeer(p) else NoContact(p)
    case AdminPropagate(p) =>
      e == if p !in peers then UnknownPeer(p) else if !l.IsLinked(p) then NotLinkedTo(p)
           else if p !in contacts then NoContact(p) else UnexpectedReply(p)
    case AdminSpendAt(b) => e == NothingToSpend(b)
    case AdminConversionDay =>
      if Missing(peers, contacts) != {} then e == QuorumMissing(Listing(Missing(peers, contacts)))
      else e.Conflict? && e.violations != [] && IsReport(e.violations, SnapshotIndex(Gathered(l.node, peers, contacts)))
    case AdminStatus => false
    case AdminSeed(_) => false
  }

  /** The notices a command broadcasts once it has succeeded. */
  ghost function Notices(l: Local, peers: seq<string>, contacts: Contacts, msg: AdminMessage)
    : multiset<(string, PeerMessage)>
  {
    match msg
    case AdminSpendAt(b) => AllTold(l.node.nodeId, l.Connected() * Elements(peers), {b})
    case AdminConversionDay => AllTold(l.node.nodeId, Elements(peers), Recorded(Gathered(l.node, peers, contacts)))
    case _ => multiset{}
  }

  ghost function AllTold(id: string, targets: set<string>, bearers: set<string>): multiset<(string, PeerMessage)> {
    multiset(set p, b | p in targets && b in bearers :: (p, SpentNotify(id, b)))
  }

  ghost predicate Distinct(xs: seq<string>) {
    forall i, j | 0 <= i < j < |xs| :: xs[i] != xs[j]
  }

  // ---- The same, read off ---------------------------------------------------------------------------------

  /** A command to this peer. */
  function Named(msg: AdminMessage): Option<string> {
    match msg
    case AdminLinkUp(p) => Some(p)
    case AdminLinkDown(p) => Some(p)
    case AdminPropagate(p) => Some(p)
    case _ => None
  }

  /** A round goes through exactly if every peer sent a status and no bearer is reported spent by two nodes. */
  lemma RoundSucceedsExactly(l: Local, peers: seq<string>, contacts: Contacts)
    ensures Succeeds(l, peers, contacts, AdminConversionDay) <==>
            && (forall p | p in peers :: p in contacts && contacts[p].StatusReply?)
            && AtMostOneSays(l.node, peers, contacts)
  {
    var snapshots := Gathered(l.node, peers, contacts);
    forall n, b ensures Records(snapshots, n, b) <==> SaysSpent(l.node, peers, contacts, n, b) {
      GatheredRecords(l.node, peers, contacts, n, b);
    }
    if Missing(peers, contacts) == {} {
      forall p | p in peers ensures Answers(contacts, p) {
        assert p !in Missing(peers, contacts);
      }
    }
  }

  /** The other commands: a peer must be known, a propagate needs its link, and the peer must answer as expected. */
  lemma CommandSucceedsExactly(l: Local, peers: seq<string>, contacts: Contacts, msg: AdminMessage)
    requires !msg.AdminConversionDay?
    ensures Succeeds(l, peers, contacts, msg) <==>
            && (Named(msg).Some? ==> Named(msg).value in peers && Named(msg).value in contacts)
            && (msg.AdminLinkUp? ==> contacts[msg.peer].LinkUpAck?)
            && (msg.AdminPropagate? ==> contacts[msg.peer].PropagateReply? && l.IsLinked(msg.peer))
            && (msg.AdminSpendAt? ==> msg.bearer in l.node.ledger)
  {
  }

  /** Which error a failing command gives, error by error. */
  lemma ErrorExactly(l: Local, peers: seq<string>, contacts: Contacts, msg: AdminMessage, e: AdminError)
    requires !Succeeds(l, peers, contacts, msg) && Explains(l, peers, contacts, msg, e)
    ensures forall p :: e == UnknownPeer(p) <==> Named(msg) == Some(p) && p !in peers
    ensures forall p :: e == NotLinkedTo(p) <==> msg == AdminPropagate(p) && p in peers && !l.IsLinked(p)
    ensures forall p :: e == NoContact(p) <==>
              Named(msg) == Some(p) && p in peers && p !in contacts && (msg.AdminPropagate? ==> l.IsLinked(p))
    ensures forall p :: e == UnexpectedReply(p) <==>
              Named(msg) == Some(p) && p in peers && p in contacts && (msg.AdminPropagate? ==> l.IsLinked(p))
    ensures forall b :: e == NothingToSpend(b) <==> msg == AdminSpendAt(b)
    ensures e.QuorumMissing? <==> msg.AdminConversionDay? && exists p :: p in peers && !Answers(contacts, p)
    ensures e.QuorumMissing? ==>
              Ascending(e.unreachable) && forall p :: p in e.unreachable <==> p in peers && !Answers(contacts, p)
    ensures e.Conflict? ==> forall b, n :: Blames(e.violations, b, n) <==>
              SaysSpent(l.node, peers, contacts, n, b) &&
              exists m :: m != n && SaysSpent(l.node, peers, contacts, m, b)
  {
    if msg.AdminConversionDay? {
      var missing := Missing(peers, contacts);
      assert forall p :: p in missing <==> p in peers && !Answers(contacts, p);
      if missing != {} {
        var p :| p in missing;
        assert forall p :: p in e.unreachable <==> p in Elements(e.unreachable);
      } else {
        ConflictBlames(l, peers, contacts, e.violations);
      }
    }
  }

  lemma ConflictBlames(l: Local, peers: seq<string>, contacts: Contacts, report: Report)
    requires IsReport(report, SnapshotIndex(Gathered(l.node, peers, contacts)))
    ensures forall b, n :: Blames(report, b, n) <==>
              SaysSpent(l.node, peers, contacts, n, b) &&
              exists m :: m != n && SaysSpent(l.node, peers, contacts, m, b)
  {
    var snapshots := Gathered(l.node, peers, contacts);
    var index := SnapshotIndex(snapshots);
    IndexRecords(snapshots);
    forall n, b ensures b in index && n in index[b] <==> SaysSpent(l.node, peers, contacts, n, b) {
      GatheredRecords(l.node, peers, contacts, n, b);
      assert Lists(index, b, n) <==> Records(snapshots, n, b);
    }
    forall b, n ensures Blames(report, b, n) <==>
      SaysSpent(l.node, peers, contacts, n, b) && exists m :: m != n && SaysSpent(l.node, peers, contacts, m, b)
    {
      ReportBlames(report, index, b, n);
    }
  }

  /** What a command that succeeds makes of the node: its links. */
  lemma EffectLinks(l: Local, now: Local, peers: seq<string>, contacts: Contacts, msg: AdminMessage, p: string)
    requires Succeeds(l, peers, contacts, msg)
    ensures var t := Effect(l, now, peers, contacts, msg);
            && t.node.nodeId == now.node.nodeId
            && (t.IsLinked(p) <==>
                  if msg == AdminLinkDown(p) then false
                  else if msg.AdminLinkUp? && contacts[msg.peer].from == p then true
                  else now.IsLinked(p))
  {
  }

  /** And its holdings and spends, bearer by bearer. */
  lemma EffectAt(l: Local, now: Local, peers: seq<string>, contacts: Contacts, msg: AdminMessage, b: string)
    requires Succeeds(l, peers, contacts, msg)
    ensures var t := Effect(l, now, peers, contacts, msg);
            && (b in t.node.spent <==> b in now.node.spent || msg == AdminSpendAt(b))
            && (b in t.node.ledger <==>
                  match msg
                  case AdminLinkUp(p) =>
                    (b in now.node.ledger || b in contacts[p].ledger) && b !in now.node.spent && b !in contacts[p].spent
                  case AdminPropagate(p) =>
                    b in now.node.ledger || (b in contacts[p].bearers && b !in now.node.spent)
                  case AdminConversionDay =>
                    b in now.node.ledger && forall n :: !SaysSpent(l.node, peers, contacts, n, b)
                  case AdminSpendAt(c) => b in now.node.ledger && b != c
                  case AdminSeed(c) => b in now.node.ledger || b == c
                  case _ => b in now.node.ledger)
  {
    if msg.AdminLinkUp? {
      AbsorbedExactly(now, contacts[msg.peer]);
    } else if msg.AdminPropagate? {
      AbsorbedExactly(now, contacts[msg.peer]);
    } else if msg.AdminConversionDay? {
      RecordedSays(l, peers, contacts, b);
    }
  }

  lemma RecordedSays(l: Local, peers: seq<string>, contacts: Contacts, b: string)
    ensures b in Recorded(Gathered(l.node, peers, contacts)) <==>
            exists n :: SaysSpent(l.node, peers, contacts, n, b)
  {
    var snapshots := Gathered(l.node, peers, contacts);
    forall n ensures Records(snapshots, n, b) <==> SaysSpent(l.node, peers, contacts, n, b) {
      GatheredRecords(l.node, peers, contacts, n, b);
    }
    if b in Recorded(snapshots) {
      var i :| 0 <= i < |snapshots| && b in snapshots[i].spent;
      assert Records(snapshots, snapshots[i].nodeId, b);
    }
  }

  /** A command broadcasts nothing but notices, one to each peer it concerns for each bearer spent or burnt. */
  lemma NoticesExactly(l: Local, peers: seq<string>, contacts: Contacts, msg: AdminMessage, n: (string, PeerMessage))
    ensures Notices(l, peers, contacts, msg)[n] ==
            if && n.0 in peers && n.1.SpentNotify? && n.1.from == l.node.nodeId
               && (|| (msg == AdminSpendAt(n.1.bearer) && l.IsLinked(n.0))
                   || (msg.AdminConversionDay?
                       && exists m :: SaysSpent(l.node, peers, contacts, m, n.1.bearer)))
            then 1 else 0
  {
    if n.1.SpentNotify? {
      RecordedSays(l, peers, contacts, n.1.bearer);
    }
    if msg.AdminSpendAt? {
      ToldExactly(l.node.nodeId, l.Connected() * Elements(peers), {msg.bearer}, n);
    } else if msg.AdminConversionDay? {
      ToldExactly(l.node.nodeId, Elements(peers), Recorded(Gathered(l.node, peers, contacts)), n);
    }
  }

  lemma ToldExactly(id: string, targets: set<string>, bearers: set<string>, n: (string, PeerMessage))
    ensures AllTold(id, targets, bearers)[n] ==
            if n.0 in targets && n.1.SpentNotify? && n.1.from == id && n.1.bearer in bearers then 1 else 0
  {
    var told := set p, b | p in targets && b in bearers :: (p, SpentNotify(id, b));
    if n.0 in targets && n.1.SpentNotify? && n.1.from == id && n.1.bearer in bearers {
      assert n == (n.0, SpentNotify(id, n.1.bearer));
      assert n in told;
    }
  }

  /** A command lets go of the lock exactly when it has asked or told a peer something; a round always does. */
  lemma WaitsExactly(l: Local, peers: seq<string>, msg: AdminMessage)
    ensures Waits(l, peers, msg) <==> Requests(l, peers, msg) != [] || msg.AdminConversionDay?
  {
  }

  // ---- The commands themselves ----------------------------------------------------------------------------

  /** Tells one peer of every bearer, in some order. */
  method TellAll(id: string, p: string, bearers: set<string>) returns (sent: Sent)
    ensures multiset(sent) == AllTold(id, {p}, bearers)
  {
    sent := [];
    var rest := bearers;
    while rest != {}
      invariant rest <= bearers
      invariant multiset(sent) == AllTold(id, {p}, bearers - rest)
      decreases rest
    {
      var b :| b in rest;
      ToldMore(id, p, bearers - rest, b);
      sent := sent + [(p, SpentNotify(id, b))];
      rest := rest - {b};
      assert bearers - rest == bearers - (rest + {b}) + {b};
    }
    assert bearers - rest == bearers;
  }

  lemma ToldMore(id: string, p: string, bearers: set<string>, b: string)
    requires b !in bearers
    ensures AllTold(id, {p}, bearers + {b}) == AllTold(id, {p}, bearers) + multiset{(p, SpentNotify(id, b))}
  {
  }

  lemma ToldWider(id: string, targets: set<string>, p: string, bearers: set<string>)
    requires p !in targets
    ensures AllTold(id, targets + {p}, bearers) == AllTold(id, targets, bearers) + AllTold(id, {p}, bearers)
  {
  }

  /** Tells every listed peer that is among the targets of every bearer. */
  method Broadcast(id: string, order: seq<string>, targets: set<string>, bearers: set<string>) returns (sent: Sent)
    requires Distinct(order)
    ensures multiset(sent) == AllTold(id, Elements(order) * targets, bearers)
  {
    sent := [];
    for i := 0 to |order|
      invariant multiset(sent) == AllTold(id, Elements(order[..i]) * targets, bearers)
    {
      var p := order[i];
      assert p !in order[..i];
      assert order[..i + 1] == order[..i] + [p];
      assert Elements(order[..i + 1]) == Elements(order[..i]) + {p};
      if p in targets {
        var more := TellAll(id, p, bearers);
        ToldWider(id, Elements(order[..i]) * targets, p, bearers);
        assert Elements(order[..i + 1]) * targets == Elements(order[..i]) * targets + {p};
        sent := sent + more;
      } else {
        assert Elements(order[..i + 1]) * targets == Elements(order[..i]) * targets;
      }
    }
    assert order[..|order|] == order;
  }

  /** Asks every peer in turn, keeping the snapshots of those that answer and the names of those that do not. */
  method Gather(own: Node, peers: seq<string>, contacts: Contacts)
    returns (snapshots: seq<PeerSnapshot>, unreachable: set<string>)
    ensures snapshots == Gathered(own, peers, contacts)
    ensures unreachable == Missing(peers, contacts)
  {
    snapshots := [PeerSnapshot(own.nodeId, own.ledger, own.spent)];
    unreachable := {};
    for i := 0 to |peers|
      invariant snapshots == Gathered(own, peers[..i], contacts)
      invariant unreachable == Missing(peers[..i], contacts)
    {
      var p := peers[i];
      assert peers[..i + 1][..i] == peers[..i];
      assert peers[..i + 1] == peers[..i] + [p];
      if p in contacts && contacts[p].StatusReply? {
        snapshots := snapshots + [PeerSnapshot(p, Elements(contacts[p].ledger), Elements(contacts[p].spent))];
      } else {
        unreachable := unreachable + {p};
      }
    }
    assert peers[..|peers|] == peers;
  }

  /** Takes every bearer of the burn set out of the ledger, one at a time. */
  method BurnLocally(shared: NodeShared, burn: set<string>)
    modifies shared
    ensures shared.Value() == old(shared.Value()).Without(burn)
  {
    var rest := burn;
    while rest != {}
      invariant rest <= burn
      invariant shared.Value() == old(shared.Value()).Without(burn - rest)
      decreases rest
    {
      var b :| b in rest;
      shared.ApplySpentNotify(b);
      rest := rest - {b};
      assert old(shared.node.ledger) - (burn - rest) == old(shared.node.ledger) - (burn - (rest + {b})) - {b};
    }
    assert burn - rest == burn;
  }

  /** The lock is free while a command waits: what other handlers have made of the node by then. */
  method Resume(shared: NodeShared, meanwhile: Local)
    modifies shared
    ensures shared.Value() == meanwhile
  {
    shared.node, shared.links := meanwhile.node, meanwhile.links;
  }

  /**
   * One settlement round coordinated from this node: its own snapshot is taken first, the burn comes after all
   * answers.
   */
  method RunRound(shared: NodeShared, peers: seq<string>, contacts: Contacts, meanwhile: Local)
    returns (r: AdminResult, sent: Sent)
    requires Distinct(peers)
    modifies shared
    ensures r == Done <==>
            && (forall p | p in peers :: p in contacts && contacts[p].StatusReply?)
            && AtMostOneSays(old(shared.node), peers, contacts)
    ensures var l, msg := old(shared.Value()), AdminConversionDay;
            if Succeeds(l, peers, contacts, msg)
            then r == Done && shared.Value() == Effect(l, meanwhile, peers, contacts, msg)
                 && multiset(sent) == Notices(l, peers, contacts, msg)
            else r.Failed? && Explains(l, peers, contacts, msg, r.error) && shared.Value() == meanwhile && sent == []
  {
    var own := shared.node;
    RoundSucceedsExactly(shared.Value(), peers, contacts);
    var snapshots, unreachable := Gather(own, peers, contacts);
    Resume(shared, meanwhile);
    if unreachable != {} {
      var names := SortedVec(unreachable);
      return Failed(QuorumMissing(names)), [];
    }
    var verdict := ComputeConversionDay(snapshots);
    match verdict
    case Err(violations) =>
      return Failed(Conflict(violations)), [];
    case Ok(burn) =>
      BurnLocally(shared, burn);
      sent := Broadcast(own.nodeId, peers, Elements(peers), burn);
      assert Elements(peers) * Elements(peers) == Elements(peers);
      r := Done;
  }

  method SpendHere(shared: NodeShared, peers: seq<string>, bearer: string) returns (r: AdminResult, sent: Sent)
    requires Distinct(peers)
    modifies shared
    ensures var l := old(shared.Value());
            if bearer in l.node.ledger
            then r == Done && shared.Value() == l.WithSpend(bearer)
                 && multiset(sent) == AllTold(l.node.nodeId, l.Connected() * Elements(peers), {bearer})
            else r == Failed(NothingToSpend(bearer)) && shared.Value() == l && sent == []
  {
    var spent := shared.LocalSpend(bearer);
    if spent.Err? {
      return Failed(NothingToSpend(bearer)), [];
    }
    var connected := shared.ConnectedPeers();
    AscendingDistinct(connected);
    sent := Broadcast(shared.node.nodeId, connected, Elements(peers), {bearer});
    r := Done;
  }

  lemma AscendingDistinct(xs: seq<string>)
    requires Ascending(xs)
    ensures Distinct(xs)
  {
    forall i, j | 0 <= i < j < |xs| ensures xs[i] != xs[j] {
      BelowIrreflexive(xs[i]);
      BelowExactly(xs[i], xs[i]);
    }
  }

  /** A command that waits for one peer's answer. */
  method AskPeer(shared: NodeShared, peers: seq<string>, contacts: Contacts, meanwhile: Local, msg: AdminMessage)
    returns (r: AdminResult, asked: Sent)
    requires msg.AdminLinkUp? || msg.AdminPropagate?
    modifies shared
    ensures var l := old(shared.Value());
            var now := Resumed(l, meanwhile, peers, msg);
            && asked == Requests(l, peers, msg)
            && if Succeeds(l, peers, contacts, msg)
               then r == Done && shared.Value() == Effect(l, now, peers, contacts, msg)
               else r.Failed? && Explains(l, peers, contacts, msg, r.error) && shared.Value() == now
  {
    var peer := msg.peer;
    asked := [];
    if peer !in peers {
      return Failed(UnknownPeer(peer)), [];
    }
    if msg.AdminPropagate? {
      var linked := shared.IsLinked(peer);
      if !linked {
        return Failed(NotLinkedTo(peer)), [];
      }
      asked := [(peer, PropagateRequest(shared.node.nodeId))];
    } else {
      var ledger := shared.LedgerSorted();
      var spent := shared.SpentSorted();
      asked := [(peer, LinkUpHello(shared.node.nodeId, ledger, spent))];
    }
    Resume(shared, meanwhile);
    if peer !in contacts {
      return Failed(NoContact(peer)), asked;
    }
    if msg.AdminLinkUp? && contacts[peer].LinkUpAck? {
      var applied := ApplyLinkUpReply(shared, contacts[peer]);
      return Done, asked;
    } else if msg.AdminPropagate? && contacts[peer].PropagateReply? {
      var applied := ApplyPropagateReply(shared, contacts[peer]);
      return Done, asked;
    }
    return Failed(UnexpectedReply(peer)), asked;
  }

  method CutLink(shared: NodeShared, peers: seq<string>, contacts: Contacts, meanwhile: Local, peer: string)
    returns (r: AdminResult, asked: Sent)
    modifies shared
    ensures var l, msg := old(shared.Value()), AdminLinkDown(peer);
            var now := Resumed(l, meanwhile, peers, msg);
            && asked == Requests(l, peers, msg)
            && if Succeeds(l, peers, contacts, msg)
               then r == Done && shared.Value() == Effect(l, now, peers, contacts, msg)
               else r.Failed? && Explains(l, peers, contacts, msg, r.error) && shared.Value() == now
  {
    if peer !in peers {
      return Failed(UnknownPeer(peer)), [];
    }
    asked := [(peer, PeerMessage.LinkDown(shared.node.nodeId))];
    Resume(shared, meanwhile);
    if peer !in contacts {
      return Failed(NoContact(peer)), asked;
    }
    shared.ApplyLinkDown(peer);
    r := Done;
  }

  method StatusRequests(id: string, peers: seq<string>) returns (asked: Sent)
    ensures asked == StatusRequestsTo(id, peers)
  {
    asked := [];
    for i := 0 to |peers|
      invariant |asked| == i && forall j | 0 <= j < i :: asked[j] == (peers[j], StatusRequest(id))
    {
      asked := asked + [(peers[i], StatusRequest(id))];
    }
  }

  /** Every command: the result, the node it leaves, what it asks of peers and what it broadcasts. */
  method HandleAdminCommand(
      shared: NodeShared, peers: seq<string>, contacts: Contacts, meanwhile: Local, msg: AdminMessage)
    returns (r: AdminResult, asked: Sent, sent: Sent)
    requires Distinct(peers)
    modifies shared
    ensures var l := old(shared.Value());
            var now := Resumed(l, meanwhile, peers, msg);
            && asked == Requests(l, peers, msg)
            && if Succeeds(l, peers, contacts, msg)
               then shared.Value() == Effect(l, now, peers, contacts, msg)
                    && multiset(sent) == Notices(l, peers, contacts, msg)
                    && r == (if msg.AdminStatus?
                             then Status(l.node.nodeId, Listing(l.node.ledger), Listing(l.node.spent),
                                         Listing(l.Connected()))
                             else Done)
               else r.Failed? && Explains(l, peers, contacts, msg, r.error) && shared.Value() == now && sent == []
  {
    asked, sent := [], [];
    match msg
    case AdminLinkUp(_) =>
      r, asked := AskPeer(shared, peers, contacts, meanwhile, msg);
    case AdminLinkDown(peer) =>
      r, asked := CutLink(shared, peers, contacts, meanwhile, peer);
    case AdminPropagate(_) =>
      r, asked := AskPeer(shared, peers, contacts, meanwhile, msg);
    case AdminSpendAt(bearer) =>
      r, sent := SpendHere(shared, peers, bearer);
    case AdminConversionDay =>
      asked := StatusRequests(shared.node.nodeId, peers);
      r, sent := RunRound(shared, peers, contacts, meanwhile);
    case AdminStatus =>
      var ledger := shared.LedgerSorted();
      var spent := shared.SpentSorted();
      var links := shared.ConnectedPeers();
      ListingUnique(links, Listing(shared.Value().Connected()));
      r := Status(shared.node.nodeId, ledger, spent, links);
    case AdminSeed(bearer) =>
      shared.node := shared.node.(ledger := shared.node.ledger + {bearer});
      r := Done;
  }

  // ---- The commands as protocol steps -----------------------------------------------------------------------

  ghost function Posted(src: string, conn: nat, messages: multiset<(string, PeerMessage)>): multiset<P.Envelope> {
    multiset(set n | n in messages :: P.Envelope(src, n.0, conn, n.1))
  }

  lemma PostedTold(src: string, conn: nat, targets: set<string>, bearers: set<string>)
    ensures Posted(src, conn, AllTold(src, targets, bearers)) == P.Tells(src, targets, conn, bearers)
  {
    var told := AllTold(src, targets, bearers);
    var posted := set n | n in told :: P.Envelope(src, n.0, conn, n.1);
    var tells := set p, b | p in targets && b in bearers :: P.Envelope(src, p, conn, SpentNotify(src, b));
    forall e ensures e in posted <==> e in tells {
      if e in tells {
        assert (e.dst, e.msg) in told;
      }
    }
    assert posted == tells;
  }

  lemma PostedNothing(src: string, conn: nat)
    ensures Posted(src, conn, multiset{}) == multiset{}
  {
  }

  lemma PostedOne(src: string, conn: nat, p: string, msg: PeerMessage)
    ensures Posted(src, conn, multiset([(p, msg)])) == multiset{P.Envelope(src, p, conn, msg)}
  {
    var posted := set n | n in multiset([(p, msg)]) :: P.Envelope(src, n.0, conn, n.1);
    assert (p, msg) in multiset([(p, msg)]);
    assert posted == {P.Envelope(src, p, conn, msg)};
  }

  /** A seed command is the protocol's seed step, for a bearer that step allows. */
  lemma SeedIsStep(s: P.Sys, n: string, b: string, peers: seq<string>, contacts: Contacts)
    requires n in s.nodes && b !in s.seeded && '\n' !in b
    ensures var l, msg := s.nodes[n], AdminSeed(b);
            P.Next(s, P.Seed(n, b)) ==
            s.(nodes := s.nodes[n := Effect(l, l, peers, contacts, msg)],
               bag := s.bag + Posted(n, 0, Notices(l, peers, contacts, msg)), seeded := s.seeded + {b})
  {
    PostedNothing(n, 0);
    assert s.bag + multiset{} == s.bag;
  }

  /** A round opens with the coordinator's own snapshot, as the command's gathering begins. */
  lemma OpenIsStep(s: P.Sys, c: string, contacts: Contacts)
    requires c in s.nodes && s.nodes[c].node.nodeId == c
    ensures var t := P.Next(s, P.Open(c));
            && t.rounds.Keys == s.rounds.Keys + {s.nextRound} && t.nextRound == s.nextRound + 1
            && t.rounds[s.nextRound].coord == c
            && t.rounds[s.nextRound].snapshots == Gathered(s.nodes[c].node, [], contacts)
            && t.nodes == s.nodes && t.bag == s.bag
  {
  }

  /** A status reply adds the snapshot the command gathers from it, once per peer. */
  lemma StatusIsStep(s: P.Sys, e: P.Envelope, read: PeerMessage, contacts: Contacts)
    requires e in s.bag && e.dst in s.nodes && s.wire(e.msg) == Ok(read) && read.StatusReply?
    requires e.conn in s.rounds && s.rounds[e.conn].coord == e.dst
    requires e.src in contacts && contacts[e.src] == read
    ensures var r, t := s.rounds[e.conn], P.Next(s, P.Deliver(e));
            && e.conn in t.rounds && t.rounds[e.conn].coord == r.coord
            && t.rounds[e.conn].snapshots ==
               r.snapshots + (if exists i :: 0 <= i < |r.snapshots| && r.snapshots[i].nodeId == e.src then []
                              else [AnswerSnapshot(contacts, e.src)])
  {
    assert P.Next(s, P.Deliver(e)) == P.Arriving(s, e, e.(msg := read));
  }

  /** Each message a round sends on opening is put on the wire by its asking step. */
  lemma AskIsStep(s: P.Sys, id: nat, l: Local, peers: seq<string>, i: nat)
    requires i < |peers| && P.Enabled(s, P.Ask(id, peers[i])) && s.rounds[id].coord == l.node.nodeId
    ensures |Requests(l, peers, AdminConversionDay)| == |peers|
    ensures var r, sent := s.rounds[id], Requests(l, peers, AdminConversionDay)[i];
            P.Next(s, P.Ask(id, peers[i])) ==
            s.(rounds := s.rounds[id := r.(asked := r.asked + {peers[i]})],
               bag := s.bag + Posted(r.coord, id, multiset([sent])))
    ensures !P.Enabled(P.Next(s, P.Ask(id, peers[i])), P.Ask(id, peers[i]))
  {
    PostedOne(l.node.nodeId, id, peers[i], StatusRequest(l.node.nodeId));
  }

  /** A link-up command first takes the step that puts its greeting on the wire. */
  lemma GreetIsStep(s: P.Sys, n: string, m: string, peers: seq<string>)
    requires n in s.nodes && m in s.nodes && n != m && m in peers
    ensures P.Next(s, P.Greet(n, m)) ==
            s.(bag := s.bag + Posted(n, 0, multiset(Requests(s.nodes[n], peers, AdminLinkUp(m)))))
  {
    PostedOne(n, 0, m, Hello(s.nodes[n]));
  }

  /** A link-down command first takes the step that puts its message on the wire. */
  lemma CutSendsStep(s: P.Sys, n: string, m: string, peers: seq<string>)
    requires n in s.nodes && m in s.nodes && n != m && m in peers && s.nodes[n].node.nodeId == n
    ensures P.Next(s, P.Cut(n, m)) ==
            s.(bag := s.bag + Posted(n, 0, multiset(Requests(s.nodes[n], peers, AdminLinkDown(m)))),
               cuts := s.cuts + multiset{(n, m)})
  {
    PostedOne(n, 0, m, PeerMessage.LinkDown(n));
  }

  /** A propagate command over a live link first takes the step that puts its request on the wire. */
  lemma PullIsStep(s: P.Sys, n: string, m: string, peers: seq<string>)
    requires n in s.nodes && m in s.nodes && n != m && m in peers && s.nodes[n].node.nodeId == n
    requires s.nodes[n].IsLinked(m)
    ensures P.Next(s, P.Pull(n, m)) ==
            s.(bag := s.bag + Posted(n, 0, multiset(Requests(s.nodes[n], peers, AdminPropagate(m)))))
  {
    PostedOne(n, 0, m, PropagateRequest(n));
    assert Waits(s.nodes[n], peers, AdminPropagate(m));
    assert P.Enabled(s, P.Pull(n, m));
  }

  /** The answer to a link-up or propagate command, as it is read, is applied to the node as the answer finds it. */
  lemma AnswerIsStep(s: P.Sys, e: P.Envelope, read: PeerMessage, l: Local, peers: seq<string>, contacts: Contacts,
                     msg: AdminMessage)
    requires e in s.bag && e.dst in s.nodes && s.wire(e.msg) == Ok(read)
    requires (read.LinkUpAck? && msg == AdminLinkUp(e.src)) || (read.PropagateReply? && msg == AdminPropagate(e.src))
    requires e.src in contacts && contacts[e.src] == read && Succeeds(l, peers, contacts, msg)
    ensures P.Next(s, P.Deliver(e)) ==
            s.(nodes := s.nodes[e.dst := Effect(l, s.nodes[e.dst], peers, contacts, msg)], bag := s.bag - multiset{e})
  {
    assert P.Next(s, P.Deliver(e)) == P.Arriving(s, e, e.(msg := read));
    assert s.bag - multiset{e} + multiset{} == s.bag - multiset{e};
  }

  /** The local half of a link-down command is applied to the node as it then is. */
  lemma CutIsStep(s: P.Sys, n: string, m: string, l: Local, peers: seq<string>, contacts: Contacts)
    requires (n, m) in s.cuts && n in s.nodes && Succeeds(l, peers, contacts, AdminLinkDown(m))
    ensures P.Next(s, P.CutLocal(n, m)) ==
            s.(nodes := s.nodes[n := Effect(l, s.nodes[n], peers, contacts, AdminLinkDown(m))],
               cuts := s.cuts - multiset{(n, m)})
  {
  }

  /** With all other nodes as peers, a spend command is the protocol's spend step. */
  lemma SpendIsStep(s: P.Sys, n: string, b: string, peers: seq<string>, contacts: Contacts)
    requires s.Holds(n, b) && s.nodes[n].node.nodeId == n
    requires Elements(peers) == s.nodes.Keys - {n} && n !in s.nodes[n].Connected()
    ensures var l, msg := s.nodes[n], AdminSpendAt(b);
            P.Next(s, P.Spend(n, b)) ==
            s.(nodes := s.nodes[n := Effect(l, l, peers, contacts, msg)],
               bag := s.bag + Posted(n, 0, Notices(l, peers, contacts, msg)))
  {
    var l := s.nodes[n];
    assert l.Connected() * Elements(peers) == l.Connected() * s.nodes.Keys;
    PostedTold(n, 0, l.Connected() * s.nodes.Keys, {b});
  }

  /**
   * A round opened by `l` can close exactly when every peer has answered, and then closes as the settlement command
   * does, whatever has become of the coordinator and of the others since. Otherwise the command fails.
   */
  lemma RoundIsStep(s: P.Sys, id: nat, l: Local, peers: seq<string>, contacts: Contacts)
    requires id in s.rounds && s.rounds[id].coord == l.node.nodeId && l.node.nodeId in s.nodes
    requires Elements(peers) == s.nodes.Keys - {l.node.nodeId}
    requires s.rounds[id].snapshots == Gathered(l.node, peers, contacts)
    ensures P.Enabled(s, P.Close(id)) <==> forall p | p in peers :: p in contacts && contacts[p].StatusReply?
    ensures !P.Enabled(s, P.Close(id)) ==> !Succeeds(l, peers, contacts, AdminConversionDay)
    ensures P.Enabled(s, P.Close(id)) ==>
              var c, msg := l.node.nodeId, AdminConversionDay;
              P.Next(s, P.Close(id)) ==
              if Succeeds(l, peers, contacts, msg)
              then s.(rounds := s.rounds - {id},
                      nodes := s.nodes[c := Effect(l, s.nodes[c], peers, contacts, msg)],
                      bag := s.bag + Posted(c, id, Notices(l, peers, contacts, msg)))
              else s.(rounds := s.rounds - {id})
  {
    QuorumAnswered(s, id, l, peers, contacts);
    RoundSucceedsExactly(l, peers, contacts);
    if P.Enabled(s, P.Close(id)) {
      RoundCloses(s, id, l, peers, contacts);
    }
  }

  lemma RoundCloses(s: P.Sys, id: nat, l: Local, peers: seq<string>, contacts: Contacts)
    requires P.Enabled(s, P.Close(id)) && s.rounds[id].coord == l.node.nodeId
    requires Elements(peers) == s.nodes.Keys - {l.node.nodeId}
    requires forall p | p in peers :: Answers(contacts, p)
    requires s.rounds[id].snapshots == Gathered(l.node, peers, contacts)
    ensures var c, msg := l.node.nodeId, AdminConversionDay;
            P.Next(s, P.Close(id)) ==
            if Succeeds(l, peers, contacts, msg)
            then s.(rounds := s.rounds - {id},
                    nodes := s.nodes[c := Effect(l, s.nodes[c], peers, contacts, msg)],
                    bag := s.bag + Posted(c, id, Notices(l, peers, contacts, msg)))
            else s.(rounds := s.rounds - {id})
  {
    var c := l.node.nodeId;
    assert Missing(peers, contacts) == {};
    PostedTold(c, id, s.nodes.Keys - {c}, Recorded(s.rounds[id].snapshots));
  }

  /** There is a snapshot of every node exactly when every peer has answered. */
  lemma QuorumAnswered(s: P.Sys, id: nat, l: Local, peers: seq<string>, contacts: Contacts)
    requires id in s.rounds && s.rounds[id].coord == l.node.nodeId && l.node.nodeId in s.nodes
    requires Elements(peers) == s.nodes.Keys - {l.node.nodeId}
    requires s.rounds[id].snapshots == Gathered(l.node, peers, contacts)
    ensures P.Quorum(s, s.rounds[id]) <==> forall p | p in peers :: p in contacts && contacts[p].StatusReply?
  {
    var snapshots := s.rounds[id].snapshots;
    if P.Quorum(s, s.rounds[id]) {
      forall p | p in peers ensures p in contacts && contacts[p].StatusReply? {
        assert p in Elements(peers) && p in s.nodes;
        var i :| 0 <= i < |snapshots| && snapshots[i].nodeId == p;
        GatheredExactly(l.node, peers, contacts, snapshots[i]);
      }
    }
    if forall p | p in peers :: p in contacts && contacts[p].StatusReply? {
      forall n | n in s.nodes ensures exists i :: 0 <= i < |snapshots| && snapshots[i].nodeId == n {
        assert n == l.node.nodeId || n in Elements(peers);
        var i := GatheredHas(l.node, peers, contacts, n);
        assert snapshots[i].nodeId == n;
      }
    }
  }

  lemma {:induction false} GatheredHas(own: Node, peers: seq<string>, contacts: Contacts, n: string) returns (i: nat)
    requires n == own.nodeId || (n in peers && Answers(contacts, n))
    ensures i < |Gathered(own, peers, contacts)| && Gathered(own, peers, contacts)[i].nodeId == n
    decreases |peers|
  {
    if peers == [] {
      i := 0;
    } else {
      var front, last := peers[..|peers| - 1], peers[|peers| - 1];
      assert peers == front + [last];
      if n == own.nodeId || n in front {
        i := GatheredHas(own, front, contacts, n);
      } else {
        i := |Gathered(own, front, contacts)|;
      }
    }
  }
}
