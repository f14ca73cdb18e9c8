/** One distributed node: the value behind its lock, and the object whose methods update it. */
module SharedState {
  import opened Core
  import opened NetworkSpec

  /** What the lock guards: the node's own ledger and spends, and its view of each link. */
  datatype Local = Local(node: Node, links: map<string, bool>) {

    predicate IsLinked(peer: string) {
      peer in links && links[peer]
    }

    function Connected(): set<string> {
      set p | p in links && links[p]
    }

    /** The merged ledger a link-up leaves here, from a peer's raw ledger and spends. */
    function LinkUpMerge(peerLedger: set<string>, peerSpent: set<string>): set<string> {
      (node.ledger + peerLedger) - (node.spent + peerSpent)
    }

    function WithLinkUp(peer: string, merged: set<string>): Local {
      Local(node.(ledger := merged), links[peer := true])
    }

    function WithLinkDown(peer: string): Local {
      this.(links := links[peer := false])
    }

    function PropagateDeliverable(peerLedger: set<string>): set<string> {
      peerLedger - node.spent - node.ledger
    }

    function WithDelivered(bearers: set<string>): Local {
      this.(node := node.(ledger := node.ledger + bearers))
    }

    /** The effect of hearing that these bearers were spent elsewhere: stop holding them, record no spend. */
    function Without(bearers: set<string>): Local {
      this.(node := node.(ledger := node.ledger - bearers))
    }

    function WithSpend(bearer: string): Local {
      this.(node := node.(ledger := node.ledger - {bearer}, spent := node.spent + {bearer}))
    }

    predicate Disjoint() {
      node.ledger !! node.spent
    }
  }

  datatype StateError = NotHeldHere | NotLinked | Unsolicited | WrongReply

  class NodeShared {
    var node: Node
    var links: map<string, bool>

    ghost function Value(): Local
      reads this
    {
      Local(node, links)
    }

    constructor (nodeId: string)
      ensures Value() == Local(Node(nodeId, {}, {}), map[])
    {
      node := Node(nodeId, {}, {});
      links := map[];
    }

    method IsLinked(peer: string) returns (up: bool)
      ensures up <==> peer in links && links[peer]
    {
      up := peer in links && links[peer];
    }

    method SetLink(peer: string, up: bool)
      modifies this`links
      ensures links == old(links)[peer := up]
    {
      links := links[peer := up];
    }

    /** The peers whose link is up, sorted. */
    method ConnectedPeers() returns (peers: seq<string>)
      ensures IsListing(peers, Value().Connected())
      ensures Ascending(peers) && forall p :: p in peers <==> p in links && links[p]
    {
      peers := SortedVec(set p | p in links && links[p]);
      assert forall p :: p in peers <==> p in Elements(peers);
    }

    /** The merge never depends on the link table and excludes whatever either side has spent. */
    method ComputeLinkUpMerge(peerLedger: set<string>, peerSpent: set<string>) returns (merged: set<string>)
      ensures merged == Value().LinkUpMerge(peerLedger, peerSpent)
      ensures forall b :: b in merged <==>
                (b in node.ledger || b in peerLedger) && b !in node.spent && b !in peerSpent
    {
      var knownSpent := node.spent + peerSpent;
      merged := set b | b in node.ledger + peerLedger && b !in knownSpent;
    }

    method ApplyLinkUp(peer: string, merged: set<string>)
      modifies this
      ensures Value() == old(Value()).WithLinkUp(peer, merged)
      ensures node.ledger == merged && node.spent == old(node.spent) && Value().IsLinked(peer)
      ensures forall p | p != peer :: Value().IsLinked(p) <==> old(Value()).IsLinked(p)
    {
      node := node.(ledger := merged);
      SetLink(peer, true);
    }

    method ApplyLinkDown(peer: string)
      modifies this
      ensures Value() == old(Value()).WithLinkDown(peer)
      ensures node == old(node)
      ensures forall p :: Value().IsLinked(p) <==> old(Value()).IsLinked(p) && p != peer
    {
      SetLink(peer, false);
    }

    method ComputePropagateDeliverable(peerLedger: set<string>) returns (deliverable: set<string>)
      ensures deliverable == Value().PropagateDeliverable(peerLedger)
      ensures forall b :: b in deliverable <==> b in peerLedger && b !in node.spent && b !in node.ledger
    {
      deliverable := set b | b in peerLedger && b !in node.spent && b !in node.ledger;
    }

    method ApplyPropagateDeliverable(deliverable: set<string>)
      modifies this
      ensures Value() == old(Value()).WithDelivered(deliverable)
      ensures node.spent == old(node.spent) && links == old(links)
      ensures forall b :: b in node.ledger <==> b in old(node.ledger) || b in deliverable
    {
      node := node.(ledger := node.ledger + deliverable);
    }

    method ApplySpentNotify(bearer: string)
      modifies this
      ensures Value() == old(Value()).Without({bearer})
      ensures node.spent == old(node.spent) && links == old(links)
      ensures forall b :: b in node.ledger <==> b in old(node.ledger) && b != bearer
    {
      node := node.(ledger := node.ledger - {bearer});
    }

    method LocalSpend(bearer: string) returns (r: Result<(), StateError>)
      modifies this
      ensures r == if bearer in old(node).ledger then Ok(()) else Err(NotHeldHere)
      ensures Value() == if r.Ok? then old(Value()).WithSpend(bearer) else old(Value())
      ensures links == old(links) && node.nodeId == old(node).nodeId
      ensures forall b :: b in node.ledger <==> b in old(node).ledger && b != bearer
      ensures forall b :: b in node.spent <==> b in old(node).spent || (b == bearer && b in old(node).ledger)
    {
      if bearer !in node.ledger {
        return Err(NotHeldHere);
      }
      node := node.(spent := node.spent + {bearer});
      node := node.(ledger := node.ledger - {bearer});
      return Ok(());
    }

    method LedgerSorted() returns (xs: seq<string>)
      ensures xs == Listing(node.ledger)
    {
      xs := SortedVec(node.ledger);
    }

    method SpentSorted() returns (xs: seq<string>)
      ensures xs == Listing(node.spent)
    {
      xs := SortedVec(node.spent);
    }
  }
}
