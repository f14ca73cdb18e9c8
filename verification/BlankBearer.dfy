/** The blank bearer, which the wire can lose: what that does to a link-up and to a settlement round. */
module BlankBearer {
  import opened Core
  import opened NetworkSpec
  import opened Wire
  import opened SharedState
  import opened PeerProtocol
  import opened ProtocolPolling
  import opened ProtocolSafety
  import opened ProtocolSettlement
  import opened Refinement
  import opened RefinementRuns
  import opened RefinementProgress
  import P = Protocol

  // ---- On the wire ----------------------------------------------------------------------------------------

  /** No name of the node contains a newline; a blank one is allowed. */
  predicate Readable(node: Node) {
    '\n' !in node.nodeId && forall b | b in node.ledger + node.spent :: '\n' !in b
  }

  lemma ListedReadable(values: set<string>)
    ensures FieldNewlineFree(Items(Listing(values))) <==> forall b | b in values :: '\n' !in b
    ensures Listing(values) == [""] <==> values == {""}
  {
    var xs := Listing(values);
    assert forall b :: b in xs <==> b in Elements(xs);
    if values == {""} {
      assert Ascending([""]) && Elements([""]) == {""};
      ListingUnique(xs, [""]);
    }
  }

  /**
   * A status reply arrives as it was sent exactly when nothing has a newline and neither list is the blank bearer
   * alone.
   */
  lemma StatusArrivesExactly(node: Node)
    ensures Transmit(StatusOf(node)) == Ok(StatusOf(node)) <==>
            Readable(node) && node.ledger != {""} && node.spent != {""}
  {
    ListedReadable(node.ledger);
    ListedReadable(node.spent);
    StatusFrame(node);
  }

  lemma StatusFrame(node: Node)
    ensures Transmit(StatusOf(node)) == Ok(StatusOf(node)) <==>
            && '\n' !in node.nodeId
            && FieldNewlineFree(Items(Listing(node.ledger))) && Listing(node.ledger) != [""]
            && FieldNewlineFree(Items(Listing(node.spent))) && Listing(node.spent) != [""]
  {
    FrameAlone(StatusOf(node));
    ThreeFields(Text(node.nodeId), Items(Listing(node.ledger)), Items(Listing(node.spent)));
  }

  lemma FrameAlone(m: PeerMessage)
    ensures Transmit(m) == Ok(m) <==> forall f | f in PeerShape(m).fields :: FieldNewlineFree(f) && f != Items([""])
  {
    PeerFrame(m, "");
    assert EncodePeer(m) + "\n" + "" == EncodePeer(m) + "\n";
  }

  lemma ThreeFields(a: Field, b: Field, c: Field)
    ensures (forall f | f in [a, b, c] :: FieldNewlineFree(f) && f != Items([""])) <==>
            && FieldNewlineFree(a) && a != Items([""])
            && FieldNewlineFree(b) && b != Items([""])
            && FieldNewlineFree(c) && c != Items([""])
  {
    assert a in [a, b, c] && b in [a, b, c] && c in [a, b, c];
  }

  // ---- In a link-up -----------------------------------------------------------------------------------------

  /** Run to its end, a link-up leaves what each end heard, whichever end was told to bring the link up. */
  lemma EitherGreets(s: P.Sys, n: string, m: string, start: P.Move, moves: seq<P.Move>)
    requires Sane(s) && Quiet(s) && n in s.nodes && m in s.nodes && n != m
    requires start == P.Greet(n, m) || start == P.Greet(m, n)
    requires Completes(P.Next(s, start), moves)
    ensures var t := P.Play(P.Next(s, start), moves);
            && n in t.nodes && t.nodes[n] == s.nodes[n].WithLinkUp(m, HeardMerge(s.nodes[n].node, s.nodes[m].node))
            && m in t.nodes && t.nodes[m] == s.nodes[m].WithLinkUp(n, HeardMerge(s.nodes[m].node, s.nodes[n].node))
  {
    if start == P.Greet(n, m) {
      LinkUpOutcome(s, n, m, moves);
    } else {
      LinkUpOutcome(s, m, n, moves);
    }
  }

  /** A node that holds the blank bearer alone keeps it to itself: an end that does not know of it does not get it. */
  lemma BlankIsNotHandedOver(s: P.Sys, n: string, m: string, start: P.Move, moves: seq<P.Move>)
    requires Sane(s) && Quiet(s) && n in s.nodes && m in s.nodes && n != m
    requires start == P.Greet(n, m) || start == P.Greet(m, n)
    requires Completes(P.Next(s, start), moves)
    requires s.nodes[n].node.ledger == {""} && !s.Holds(m, "") && !s.HasSpent(m, "")
    ensures var t := P.Play(P.Next(s, start), moves);
            t.Holds(n, "") && !t.Holds(m, "") && LinkedIn(t, n, m) && LinkedIn(t, m, n)
  {
    EitherGreets(s, n, m, start, moves);
    assert s.Holds(n, "") && !s.HasSpent(n, "");
  }

  /** A node that has spent the blank bearer alone does not say so: the other end holds it still, over a live link. */
  lemma BlankSpendIsNotTold(s: P.Sys, n: string, m: string, start: P.Move, moves: seq<P.Move>)
    requires Sane(s) && Quiet(s) && n in s.nodes && m in s.nodes && n != m
    requires start == P.Greet(n, m) || start == P.Greet(m, n)
    requires Completes(P.Next(s, start), moves)
    requires s.nodes[n].node.spent == {""} && s.Holds(m, "")
    ensures var t := P.Play(P.Next(s, start), moves);
            t.HasSpent(n, "") && t.Holds(m, "") && LinkedIn(t, n, m) && LinkedIn(t, m, n)
  {
    EitherGreets(s, n, m, start, moves);
    assert s.HasSpent(n, "") && !s.HasSpent(m, "");
  }

  /** Only node `n` has changed. */
  ghost predicate OnlyAt(s: P.Sys, t: P.Sys, n: string) {
    t.nodes.Keys == s.nodes.Keys && forall x | x in s.nodes && x != n :: t.nodes[x] == s.nodes[x]
  }

  lemma SeedStep(s: P.Sys, n: string, x: string) returns (t: P.Sys)
    requires Sane(s) && Quiet(s) && n in s.nodes && x !in s.seeded && '\n' !in x
    ensures t == P.Do(s, P.Seed(n, x)) && Sane(t) && Quiet(t) && OnlyAt(s, t, n)
    ensures t.nodes[n] == s.nodes[n].WithDelivered({x}) && t.seeded == s.seeded + {x}
  {
    t := P.Do(s, P.Seed(n, x));
    DoKeepsSane(s, P.Seed(n, x));
  }

  /** One node is given the blank bearer and another one. */
  lemma SeedTwo(s: P.Sys, n: string) returns (t: P.Sys, moves: seq<P.Move>)
    requires Sane(s) && Quiet(s) && n in s.nodes && s.seeded == {}
    ensures t == P.Play(s, moves) && Sane(t) && Quiet(t) && OnlyAt(s, t, n)
    ensures t.nodes[n] == s.nodes[n].WithDelivered({""}).WithDelivered({"b"})
  {
    var u := SeedStep(s, n, "");
    t := SeedStep(u, n, "b");
    moves := [P.Seed(n, ""), P.Seed(n, "b")];
    P.PlayTwo(s, P.Seed(n, ""), P.Seed(n, "b"));
  }

  lemma GreetStarts(s: P.Sys, n: string, m: string) returns (u: P.Sys)
    requires Sane(s) && Quiet(s) && n in s.nodes && m in s.nodes && n != m
    ensures u == P.Do(s, P.Greet(n, m)) && Sane(u)
    ensures u == s.(bag := multiset{P.Envelope(n, m, 0, Hello(s.nodes[n]))})
  {
    u := P.Do(s, P.Greet(n, m));
    DoKeepsSane(s, P.Greet(n, m));
    HelloStep(s, n, m);
  }

  lemma HelloArrives(s: P.Sys, hello: P.Envelope) returns (t: P.Sys)
    requires Sane(s) && s.bag == multiset{hello} && hello.dst in s.nodes && hello.msg.LinkUpHello?
    ensures t == P.Do(s, P.Deliver(hello)) && Sane(t) && OnlyAt(s, t, hello.dst) && t.cuts == s.cuts
    ensures t.rounds == s.rounds && t.nodes[hello.dst] == P.Received(s.nodes[hello.dst], AsHeard(hello.msg))
    ensures t.bag == multiset{P.Envelope(hello.dst, hello.src, hello.conn, AckOf(s.nodes[hello.dst].node))}
  {
    t := HelloHeard(s, hello);
    DoKeepsSane(s, P.Deliver(hello));
  }

  lemma HelloHeard(s: P.Sys, hello: P.Envelope) returns (t: P.Sys)
    requires Sane(s) && s.bag == multiset{hello} && hello.dst in s.nodes && hello.msg.LinkUpHello?
    ensures t == P.Do(s, P.Deliver(hello)) && OnlyAt(s, t, hello.dst) && t.cuts == s.cuts && t.rounds == s.rounds
    ensures t.nodes[hello.dst] == P.Received(s.nodes[hello.dst], AsHeard(hello.msg))
    ensures t.bag == multiset{P.Envelope(hello.dst, hello.src, hello.conn, AckOf(s.nodes[hello.dst].node))}
  {
    var l, ack := P.Received(s.nodes[hello.dst], AsHeard(hello.msg)), AckOf(s.nodes[hello.dst].node);
    var bag := multiset{P.Envelope(hello.dst, hello.src, hello.conn, ack)};
    ReadsExactly(s, hello);
    HelloDone(s, hello, l, bag);
    t := s.(nodes := s.nodes[hello.dst := l], bag := bag);
    ChangedAt(s, hello.dst, l, bag);
  }

  lemma HelloDone(s: P.Sys, hello: P.Envelope, l: Local, bag: multiset<P.Envelope>)
    requires s.bag == multiset{hello} && hello.dst in s.nodes && hello.msg.LinkUpHello? && P.Legible(s, hello)
    requires l == P.Received(s.nodes[hello.dst], AsHeard(hello.msg))
    requires bag == multiset{P.Envelope(hello.dst, hello.src, hello.conn, AckOf(s.nodes[hello.dst].node))}
    ensures P.Do(s, P.Deliver(hello)) == s.(nodes := s.nodes[hello.dst := l], bag := bag)
  {
    assert P.Enabled(s, P.Deliver(hello));
    DeliverHello(s, hello);
  }

  lemma ChangedAt(s: P.Sys, n: string, l: Local, bag: multiset<P.Envelope>)
    requires n in s.nodes
    ensures var t := s.(nodes := s.nodes[n := l], bag := bag);
            OnlyAt(s, t, n) && t.nodes[n] == l && t.cuts == s.cuts && t.rounds == s.rounds
  {
  }

  lemma LastLost(s: P.Sys, e: P.Envelope) returns (t: P.Sys)
    requires Sane(s) && s.bag == multiset{e}
    ensures t == P.Do(s, P.Lose(e)) && Sane(t) && t == s.(bag := multiset{})
  {
    t := P.Do(s, P.Lose(e));
    DoKeepsSane(s, P.Lose(e));
    assert multiset{e} - multiset{e} == multiset{};
  }

  lemma PlayThree(s: P.Sys, first: P.Move, second: P.Move, third: P.Move)
    ensures P.Play(s, [first, second, third]) == P.Do(P.Do(P.Do(s, first), second), third)
  {
    assert [first, second, third][1..] == [second, third];
    P.PlayTwo(P.Do(s, first), second, third);
  }

  /** The greeting arrives and its answer is lost: both hold the same, and `n` has no link. */
  lemma ShareUnanswered(s: P.Sys, n: string, m: string) returns (t: P.Sys, moves: seq<P.Move>)
    requires Sane(s) && Quiet(s) && n in s.nodes && m in s.nodes && n != m
    ensures t == P.Play(s, moves) && Sane(t) && Quiet(t) && OnlyAt(s, t, m)
    ensures t.nodes[m] == s.nodes[m].WithLinkUp(n, HeardMerge(s.nodes[m].node, s.nodes[n].node))
  {
    var hello, ack := P.Envelope(n, m, 0, Hello(s.nodes[n])), P.Envelope(m, n, 0, AckOf(s.nodes[m].node));
    var u := GreetStarts(s, n, m);
    var v := HelloArrives(u, hello);
    MergeHeard(s.nodes[m], s.nodes[n].node, hello.msg);
    assert s.nodes[n].node.nodeId == n;
    t := LastLost(v, ack);
    moves := [P.Greet(n, m), P.Deliver(hello), P.Lose(ack)];
    PlayThree(s, P.Greet(n, m), P.Deliver(hello), P.Lose(ack));
  }

  lemma BothHold(s: P.Sys, u: P.Sys, t: P.Sys, n: string, m: string)
    requires P.Started(s) && n in s.nodes && m in s.nodes && n != m && OnlyAt(s, u, n) && OnlyAt(u, t, m)
    requires u.nodes[n] == s.nodes[n].WithDelivered({""}).WithDelivered({"b"})
    requires t.nodes[m] == u.nodes[m].WithLinkUp(n, HeardMerge(u.nodes[m].node, u.nodes[n].node))
    ensures t.Holds(n, "") && t.Holds(m, "") && t.nodes[n].links == map[]
  {
    assert "b" in u.nodes[n].node.ledger && "b" !in {""};
  }

  lemma NoneSpent(s: P.Sys, u: P.Sys, t: P.Sys, n: string, m: string)
    requires P.Started(s) && n in s.nodes && m in s.nodes && OnlyAt(s, u, n) && OnlyAt(u, t, m)
    requires u.nodes[n].node.spent == s.nodes[n].node.spent && t.nodes[m].node.spent == u.nodes[m].node.spent
    ensures forall x, b :: !t.HasSpent(x, b)
  {
  }

  /** From just started nodes: two hold the blank bearer, among others, and only one of them has a link to the other. */
  lemma Shared(s: P.Sys, n: string, m: string) returns (t: P.Sys, moves: seq<P.Move>)
    requires P.Started(s) && n in s.nodes && m in s.nodes && n != m
    ensures t == P.Play(s, moves) && Sane(t) && Quiet(t) && t.nodes.Keys == s.nodes.Keys
    ensures t.Holds(n, "") && t.Holds(m, "") && t.nodes[n].links == map[]
    ensures forall x, b :: !t.HasSpent(x, b)
  {
    StartedIsSane(s);
    var u, first := SeedTwo(s, n);
    var second;
    t, second := ShareUnanswered(u, n, m);
    P.PlaySplit(s, first, second);
    moves := first + second;
    BothHold(s, u, t, n, m);
    NoneSpent(s, u, t, n, m);
  }

  lemma SpendPointwise(s: P.Sys, n: string, b: string)
    requires s.Holds(n, b)
    ensures forall x, y :: P.Do(s, P.Spend(n, b)).HasSpent(x, y) <==> s.HasSpent(x, y) || (x == n && y == b)
    ensures forall x, y :: P.Do(s, P.Spend(n, b)).Holds(x, y) <==> s.Holds(x, y) && !(x == n && y == b)
  {
    var t := P.Do(s, P.Spend(n, b));
    forall x, y
      ensures t.HasSpent(x, y) <==> s.HasSpent(x, y) || (x == n && y == b)
      ensures t.Holds(x, y) <==> s.Holds(x, y) && !(x == n && y == b)
    {
      P.DoSpent(s, P.Spend(n, b), x, y);
      P.DoHolds(s, P.Spend(n, b), x, y);
    }
  }

  lemma NobodyTold(n: string, b: string)
    ensures P.Tells(n, {}, 0, {b}) == multiset{}
  {
    forall e ensures e !in P.Tells(n, {}, 0, {b}) {
      P.TellsExactly(n, {}, 0, {b}, e);
    }
  }

  lemma SpendIsSilent(s: P.Sys, n: string, b: string)
    requires Quiet(s) && s.Holds(n, b) && s.nodes[n].links == map[]
    ensures Quiet(P.Do(s, P.Spend(n, b)))
  {
    SpendBag(s, n, b);
    NobodyTold(n, b);
    assert s.nodes[n].Connected() * s.nodes.Keys == {};
  }

  lemma AloneSpends(s: P.Sys, n: string, b: string) returns (t: P.Sys)
    requires Sane(s) && Quiet(s) && s.Holds(n, b) && s.nodes[n].links == map[]
    ensures t == P.Do(s, P.Spend(n, b)) && Sane(t) && Quiet(t) && t.nodes.Keys == s.nodes.Keys
    ensures forall x, y :: t.HasSpent(x, y) <==> s.HasSpent(x, y) || (x == n && y == b)
    ensures forall x, y :: t.Holds(x, y) <==> s.Holds(x, y) && !(x == n && y == b)
  {
    t := P.Do(s, P.Spend(n, b));
    DoKeepsSane(s, P.Spend(n, b));
    P.DoKeys(s, P.Spend(n, b));
    SpendPointwise(s, n, b);
    SpendIsSilent(s, n, b);
  }

  /** From just started nodes: `n` has spent the blank bearer alone, and `m` has not heard of it. */
  lemma SpentInSilence(s: P.Sys, n: string, m: string) returns (t: P.Sys, moves: seq<P.Move>)
    requires P.Started(s) && n in s.nodes && m in s.nodes && n != m
    ensures t == P.Play(s, moves) && Sane(t) && Quiet(t) && t.nodes.Keys == s.nodes.Keys
    ensures t.Holds(m, "") && forall x, b :: t.HasSpent(x, b) <==> x == n && b == ""
  {
    var u, first := Shared(s, n, m);
    t := AloneSpends(u, n, "");
    P.PlaySplit(s, first, [P.Spend(n, "")]);
    P.PlayOne(u, P.Spend(n, ""));
    moves := first + [P.Spend(n, "")];
  }

  lemma SpentAlone(s: P.Sys, n: string, b: string)
    requires n in s.nodes && forall x :: s.HasSpent(n, x) <==> x == b
    ensures s.nodes[n].node.spent == {b}
  {
    forall x ensures x in s.nodes[n].node.spent <==> x in {b} {
      assert s.HasSpent(n, x) <==> x in s.nodes[n].node.spent;
    }
  }

  /**
   * So from just started nodes a spender and a holder of one bearer can come to face each other over a link that has
   * just been brought up, both commands undisturbed, which the central link-up rules out.
   */
  lemma SpenderFacesHolder(s: P.Sys, n: string, m: string) returns (t: P.Sys, before: seq<P.Move>, after: seq<P.Move>)
    requires P.Started(s) && n in s.nodes && m in s.nodes && n != m
    ensures Quiet(P.Play(s, before)) && Completes(P.Do(P.Play(s, before), P.Greet(n, m)), after)
    ensures t == P.Play(P.Do(P.Play(s, before), P.Greet(n, m)), after)
    ensures t.HasSpent(n, "") && t.Holds(m, "") && LinkedIn(t, n, m) && LinkedIn(t, m, n)
  {
    var u;
    u, before := SpentInSilence(s, n, m);
    SpentAlone(u, n, "");
    after := GreetCompletes(u, n, m);
    BlankSpendIsNotTold(u, n, m, P.Greet(n, m), after);
    t := P.Play(P.Do(u, P.Greet(n, m)), after);
  }

  // ---- In a settlement round ----------------------------------------------------------------------------------

  /** From just started nodes: two have spent the blank bearer alone, and nobody has spent anything else. */
  lemma BothSpendBlank(s: P.Sys, n: string, m: string) returns (t: P.Sys, moves: seq<P.Move>)
    requires P.Started(s) && n in s.nodes && m in s.nodes && n != m
    ensures t == P.Play(s, moves) && Sane(t) && t.nodes.Keys == s.nodes.Keys
    ensures forall x, b :: t.HasSpent(x, b) <==> (x == n || x == m) && b == ""
  {
    var u, first := SpentInSilence(s, n, m);
    t := P.Do(u, P.Spend(m, ""));
    DoKeepsSane(u, P.Spend(m, ""));
    P.DoKeys(u, P.Spend(m, ""));
    forall x, b ensures t.HasSpent(x, b) <==> (x == n || x == m) && b == "" {
      P.DoSpent(u, P.Spend(m, ""), x, b);
    }
    P.PlaySplit(s, first, [P.Spend(m, "")]);
    P.PlayOne(u, P.Spend(m, ""));
    moves := first + [P.Spend(m, "")];
  }

  lemma LoneBlanksUnheard(s: P.Sys, c: string, n: string, m: string)
    requires n in s.nodes && m in s.nodes && forall x, b :: s.HasSpent(x, b) <==> (x == n || x == m) && b == ""
    ensures forall b :: !HeardTwice(s, c, b)
  {
    SpentAlone(s, n, "");
    SpentAlone(s, m, "");
    forall x, b | HeardSpender(s, c, x, b) ensures x == c {
    }
  }

  /**
   * Two spends of the blank bearer escape every round, wherever it is opened, that can close with nobody spending
   * meanwhile; and there is such a round.
   */
  lemma BlankSpendsEscape(s: P.Sys, c: string, n: string, m: string)
    returns (t: P.Sys, before: seq<P.Move>, after: seq<P.Move>)
    requires P.Started(s) && c in s.nodes && n in s.nodes && m in s.nodes && n != m
    ensures t == P.Play(s, before) && t.DoubleSpent("")
    ensures forall moves | NoSpends(moves) && P.Enabled(P.Play(P.Do(t, P.Open(c)), moves), P.Close(t.nextRound)) ::
              Passes(P.Play(P.Do(t, P.Open(c)), moves), t.nextRound)
    ensures NoSpends(after) && Passes(P.Play(P.Do(t, P.Open(c)), after), t.nextRound)
  {
    t, before := BothSpendBlank(s, n, m);
    assert t.HasSpent(n, "") && t.HasSpent(m, "");
    LoneBlanksUnheard(t, c, n, m);
    forall moves | NoSpends(moves) && P.Enabled(P.Play(P.Do(t, P.Open(c)), moves), P.Close(t.nextRound))
      ensures Passes(P.Play(P.Do(t, P.Open(c)), moves), t.nextRound)
    {
      QuietRoundIsExact(t, c, moves);
    }
    after := QuietPoll(t, c);
  }

  /** Some round hears from everyone while nobody spends. */
  lemma QuietPoll(s: P.Sys, c: string) returns (moves: seq<P.Move>)
    requires Sane(s) && c in s.nodes
    ensures NoSpends(moves) && P.Enabled(P.Play(P.Do(s, P.Open(c)), moves), P.Close(s.nextRound))
  {
    var o, t;
    o, t, moves := OpenAndPoll(s, c);
    forall i | 0 <= i < |moves| ensures !moves[i].Spend? {
      assert Possible(o, moves, i);
    }
  }
}
