/**
 * What runs of the distributed protocol can reach: double spends, past a settlement round or not, and burnt bearers.
 */
module ProtocolReach {
  import opened Core
  import opened PeerProtocol
  import opened Wire
  import opened Coordinator
  import opened ProtocolSafety
  import opened ProtocolExposure
  import opened ProtocolPolling
  import opened ProtocolSettlement
  import P = Protocol

  ghost predicate TwoNodes(s: P.Sys) {
    exists n, m :: n in s.nodes && m in s.nodes && n != m
  }

  lemma {:induction false} SpendsPersist(s: P.Sys, moves: seq<P.Move>, n: string, b: string)
    requires s.HasSpent(n, b)
    ensures P.Play(s, moves).HasSpent(n, b)
    decreases |moves|
  {
    if moves != [] {
      P.DoSpent(s, moves[0], n, b);
      SpendsPersist(P.Do(s, moves[0]), moves[1..], n, b);
    }
  }

  lemma {:induction false} PlayKeys(s: P.Sys, moves: seq<P.Move>)
    ensures P.Play(s, moves).nodes.Keys == s.nodes.Keys
    decreases |moves|
  {
    if moves != [] {
      P.DoKeys(s, moves[0]);
      PlayKeys(P.Do(s, moves[0]), moves[1..]);
    }
  }

  // ---- Bringing two nodes to the bearer -------------------------------------------------------------------

  /** One node holds the bearer; another holds it too, or has spent it. */
  ghost predicate Exposed(s: P.Sys, n: string, m: string, b: string) {
    n != m && s.Holds(n, b) && (s.Holds(m, b) || s.HasSpent(m, b))
  }

  /** The same nodes have spent the same bearers. */
  ghost predicate SameSpends(s: P.Sys, t: P.Sys) {
    forall n, b :: t.HasSpent(n, b) <==> s.HasSpent(n, b)
  }

  lemma SpendsUnmoved(s: P.Sys, move: P.Move)
    requires !move.Spend?
    ensures SameSpends(s, P.Do(s, move))
  {
    forall n, b ensures P.Do(s, move).HasSpent(n, b) <==> s.HasSpent(n, b) {
      P.DoSpent(s, move, n, b);
    }
  }

  /** A live bearer is held, or becomes held by one delivery. */
  lemma LiveIsHeld(s: P.Sys, b: string) returns (t: P.Sys, moves: seq<P.Move>, n: string)
    requires Sane(s) && Live(s, b)
    ensures t == P.Play(s, moves) && Sane(t) && t.Holds(n, b) && SameSpends(s, t) && t.nodes.Keys == s.nodes.Keys
  {
    if held :| s.Holds(held, b) {
      t, moves, n := s, [], held;
    } else {
      var e :| Carries(s, e, b);
      n, moves := e.dst, [P.Deliver(e)];
      t := P.Do(s, P.Deliver(e));
      CarriedArrives(s, e, b);
      P.PlayOne(s, P.Deliver(e));
      DoKeepsSane(s, P.Deliver(e));
      SpendsUnmoved(s, P.Deliver(e));
      P.DoKeys(s, P.Deliver(e));
    }
  }

  /** A node can always come to hold more than the blank bearer alone. */
  lemma HoldMore(s: P.Sys, n: string, b: string) returns (t: P.Sys, moves: seq<P.Move>)
    requires Sane(s) && s.Holds(n, b)
    ensures t == P.Play(s, moves) && Sane(t) && SameSpends(s, t) && t.nodes.Keys == s.nodes.Keys
    ensures t.Holds(n, b) && t.nodes[n].node.ledger != {""}
  {
    if s.nodes[n].node.ledger != {""} {
      t, moves := s, [];
    } else {
      var x := NewName(s.seeded);
      t, moves := P.Do(s, P.Seed(n, x)), [P.Seed(n, x)];
      P.PlayOne(s, P.Seed(n, x));
      DoKeepsSane(s, P.Seed(n, x));
      P.DoKeys(s, P.Seed(n, x));
      SpendsUnmoved(s, P.Seed(n, x));
      P.DoHolds(s, P.Seed(n, x), n, b);
      P.DoHolds(s, P.Seed(n, x), n, x);
      assert t.Holds(n, x);
    }
  }

  /** A greeting delivered, before its answer: the one greeted, if it has not spent the bearer, holds it too. */
  lemma GreetingGives(s: P.Sys, n: string, m: string, b: string) returns (t: P.Sys, moves: seq<P.Move>)
    requires Sane(s) && s.Holds(n, b) && s.nodes[n].node.ledger != {""} && m in s.nodes && n != m && !s.HasSpent(m, b)
    ensures t == P.Play(s, moves) && Sane(t) && t.Holds(n, b) && t.Holds(m, b)
    ensures SameSpends(s, t) && t.nodes.Keys == s.nodes.Keys
  {
    var e := P.Envelope(n, m, 0, Hello(s.nodes[n]));
    var u := P.Do(s, P.Greet(n, m));
    t, moves := P.Do(u, P.Deliver(e)), [P.Greet(n, m), P.Deliver(e)];
    P.PlayTwo(s, P.Greet(n, m), P.Deliver(e));
    DoKeepsSane(s, P.Greet(n, m));
    DoKeepsSane(u, P.Deliver(e));
    P.DoKeys(s, P.Greet(n, m));
    P.DoKeys(u, P.Deliver(e));
    SpendsUnmoved(s, P.Greet(n, m));
    SpendsUnmoved(u, P.Deliver(e));
    HelloHandsOver(s, u, n, m, b);
  }

  /** One node can always share a bearer with another that has not spent it. */
  lemma Sharing(s: P.Sys, n: string, m: string, b: string) returns (t: P.Sys, moves: seq<P.Move>)
    requires Sane(s) && s.Holds(n, b) && m in s.nodes && n != m && !s.HasSpent(m, b)
    ensures t == P.Play(s, moves) && Sane(t) && t.Holds(n, b) && t.Holds(m, b)
    ensures SameSpends(s, t) && t.nodes.Keys == s.nodes.Keys
  {
    var u, first := HoldMore(s, n, b);
    assert u.HasSpent(m, b) <==> s.HasSpent(m, b);
    var second;
    t, second := GreetingGives(u, n, m, b);
    P.PlaySplit(s, first, second);
    moves := first + second;
    SameSpendsThrough(s, u, t);
  }

  lemma SameSpendsThrough(s: P.Sys, u: P.Sys, t: P.Sys)
    requires SameSpends(s, u) && SameSpends(u, t)
    ensures SameSpends(s, t)
  {
    forall n, b ensures t.HasSpent(n, b) <==> s.HasSpent(n, b) {
      assert u.HasSpent(n, b) <==> s.HasSpent(n, b);
    }
  }

  lemma HelloHandsOver(s: P.Sys, u: P.Sys, n: string, m: string, b: string)
    requires Sane(s) && s.Holds(n, b) && s.nodes[n].node.ledger != {""} && m in s.nodes && n != m && !s.HasSpent(m, b)
    requires u == P.Do(s, P.Greet(n, m)) && Sane(u)
    ensures var t := P.Do(u, P.Deliver(P.Envelope(n, m, 0, Hello(s.nodes[n])))); t.Holds(n, b) && t.Holds(m, b)
  {
    var e := P.Envelope(n, m, 0, Hello(s.nodes[n]));
    GreetStep(s, n, m);
    ReadsExactly(u, e);
    P.DoHolds(u, P.Deliver(e), n, b);
    P.DoHolds(u, P.Deliver(e), m, b);
    P.ReceivedNode(u.nodes[m], AsHeard(e.msg), b);
    ConveyedItems(Listing(s.nodes[n].node.ledger));
    HeardCargo(e.msg, b);
    assert !s.HasSpent(n, b);
  }

  lemma GreetStep(s: P.Sys, n: string, m: string)
    requires P.Enabled(s, P.Greet(n, m))
    ensures P.Do(s, P.Greet(n, m)) == s.(bag := s.bag + multiset{P.Envelope(n, m, 0, Hello(s.nodes[n]))})
  {
  }

  /** From a live bearer and two nodes, a run without spends exposes the bearer to a second spender. */
  lemma LiveIsExposed(s: P.Sys, b: string) returns (t: P.Sys, moves: seq<P.Move>, n: string, m: string)
    requires Sane(s) && Live(s, b) && TwoNodes(s)
    ensures t == P.Play(s, moves) && Sane(t) && SameSpends(s, t) && t.nodes.Keys == s.nodes.Keys && Exposed(t, n, m, b)
  {
    var u, first;
    u, first, n := LiveIsHeld(s, b);
    if p :| u.HasSpent(p, b) {
      t, moves, m := u, first, p;
      assert !(u.Holds(n, b) && u.HasSpent(n, b));
    } else {
      var x, y :| x in s.nodes && y in s.nodes && x != y;
      m := if x == n then y else x;
      var second;
      t, second := Sharing(u, n, m, b);
      P.PlaySplit(s, first, second);
      moves := first + second;
      SameSpendsThrough(s, u, t);
    }
  }

  /** Exposed, the bearer can be spent twice by its two nodes alone. */
  lemma ExposedSpends(s: P.Sys, n: string, m: string, b: string) returns (t: P.Sys, moves: seq<P.Move>)
    requires Exposed(s, n, m, b)
    ensures t == P.Play(s, moves) && t.DoubleSpent(b) && t.rounds == s.rounds && t.nodes.Keys == s.nodes.Keys
  {
    var u := s;
    moves := [P.Spend(n, b)];
    if !s.HasSpent(m, b) {
      u := P.Do(s, P.Spend(m, b));
      SpendFrame(s, m, b);
      P.DoSpent(s, P.Spend(m, b), m, b);
      P.DoHolds(s, P.Spend(m, b), n, b);
      P.PlayTwo(s, P.Spend(m, b), P.Spend(n, b));
      moves := [P.Spend(m, b), P.Spend(n, b)];
    } else {
      P.PlayOne(s, P.Spend(n, b));
    }
    t := P.Do(u, P.Spend(n, b));
    SpendFrame(u, n, b);
    P.DoSpent(u, P.Spend(n, b), n, b);
    P.DoSpent(u, P.Spend(n, b), m, b);
  }

  lemma SpendFrame(s: P.Sys, n: string, b: string)
    ensures P.Do(s, P.Spend(n, b)).rounds == s.rounds && P.Do(s, P.Spend(n, b)).nodes.Keys == s.nodes.Keys
  {
  }

  // ---- Exact reach of a double spend ------------------------------------------------------------------------

  ghost predicate CanDoubleSpend(s: P.Sys, b: string) {
    exists moves :: P.Play(s, moves).DoubleSpent(b)
  }

  /** A double spend can be reached exactly when it has happened, or the bearer is live and there are two nodes. */
  lemma DoubleSpendReachExactly(s: P.Sys, b: string)
    requires Sane(s) && b in s.seeded
    ensures CanDoubleSpend(s, b) <==> s.DoubleSpent(b) || (Live(s, b) && TwoNodes(s))
  {
    if s.DoubleSpent(b) {
      assert P.Play(s, []).DoubleSpent(b);
    } else if Live(s, b) && TwoNodes(s) {
      var t, first, n, m := LiveIsExposed(s, b);
      var u, second := ExposedSpends(t, n, m, b);
      P.PlaySplit(s, first, second);
      assert P.Play(s, first + second).DoubleSpent(b);
    } else {
      forall moves ensures !P.Play(s, moves).DoubleSpent(b) {
        if P.Play(s, moves).DoubleSpent(b) {
          DoubleSpendNeeds(s, moves, b);
        }
      }
    }
  }

  lemma DoubleSpendNeeds(s: P.Sys, moves: seq<P.Move>, b: string)
    requires Sane(s) && b in s.seeded && P.Play(s, moves).DoubleSpent(b)
    ensures s.DoubleSpent(b) || (Live(s, b) && TwoNodes(s))
  {
    var t := P.Play(s, moves);
    var n, m :| n != m && t.HasSpent(n, b) && t.HasSpent(m, b);
    PlayKeys(s, moves);
    assert n in s.nodes && m in s.nodes;
    if !Live(s, b) {
      DistributedFinality(s, moves, b);
      assert s.HasSpent(n, b) && s.HasSpent(m, b);
    }
  }

  // ---- Exact reach of a double spend past a settlement round ---------------------------------------------------

  /** A run that opens a round at `c` and reaches a close that passes although the bearer is double spent. */
  ghost predicate Slips(s: P.Sys, c: string, b: string, before: seq<P.Move>, after: seq<P.Move>) {
    var o := P.Play(s, before);
    var t := P.Play(P.Do(o, P.Open(c)), after);
    Passes(t, o.nextRound) && t.DoubleSpent(b)
  }

  ghost predicate CanSlip(s: P.Sys, c: string, b: string) {
    exists before, after :: Slips(s, c, b, before, after)
  }

  lemma StillCloses(t: P.Sys, u: P.Sys, id: nat)
    requires P.Enabled(t, P.Close(id)) && u.rounds == t.rounds && u.nodes.Keys == t.nodes.Keys
    ensures P.Enabled(u, P.Close(id))
  {
    forall n | n in u.nodes
      ensures exists i :: 0 <= i < |u.rounds[id].snapshots| && u.rounds[id].snapshots[i].nodeId == n
    {
      assert n in t.nodes;
    }
  }

  /** A round that has heard from everyone, opened where nothing was heard of twice, passes whatever is spent later. */
  lemma PolledPasses(s: P.Sys, t: P.Sys, u: P.Sys, id: nat)
    requires P.Enabled(t, P.Close(id)) && AllShow(t, t.rounds[id]) && t.nodes == s.nodes
    requires u.rounds == t.rounds && u.nodes.Keys == t.nodes.Keys
    requires forall x :: !HeardTwice(s, t.rounds[id].coord, x)
    ensures Passes(u, id)
  {
    var r := t.rounds[id];
    SameHeard(s, t, r.coord);
    ShownIsRecorded(t, r);
    RecordedConflicts(t, r);
    StillCloses(t, u, id);
  }

  /**
   * The gap: a round that has heard from everyone passes although the bearer is then spent twice, whatever is in
   * flight.
   */
  lemma LateSpendSlipsThrough(s: P.Sys, c: string, n: string, m: string, b: string) returns (after: seq<P.Move>)
    requires Sane(s) && c in s.nodes && Exposed(s, n, m, b) && forall x :: !HeardTwice(s, c, x)
    ensures Slips(s, c, b, [], after)
  {
    var o, t, poll := OpenAndPoll(s, c);
    assert t.Holds(n, b) && (t.Holds(m, b) || t.HasSpent(m, b));
    var u, spends := ExposedSpends(t, n, m, b);
    P.PlaySplit(o, poll, spends);
    after := poll + spends;
    PolledPasses(s, t, u, s.nextRound);
    assert P.Play(s, []) == s;
  }

  /** A double spend that the round does not hear of needs no late spend. */
  lemma UnheardSlipsThrough(s: P.Sys, c: string, b: string) returns (after: seq<P.Move>)
    requires Sane(s) && c in s.nodes && s.DoubleSpent(b) && forall x :: !HeardTwice(s, c, x)
    ensures Slips(s, c, b, [], after)
  {
    var o, t, poll := OpenAndPoll(s, c);
    PolledPasses(s, t, t, s.nextRound);
    SameDoubleSpends(s, t, b);
    after := poll;
    assert P.Play(s, []) == s;
  }

  lemma SameDoubleSpends(s: P.Sys, t: P.Sys, x: string)
    requires t.nodes == s.nodes || SameSpends(s, t)
    ensures t.DoubleSpent(x) <==> s.DoubleSpent(x)
  {
    if t.DoubleSpent(x) {
      var n, m :| n != m && t.HasSpent(n, x) && t.HasSpent(m, x);
      assert s.HasSpent(n, x) && s.HasSpent(m, x);
    }
    if s.DoubleSpent(x) {
      var n, m :| n != m && s.HasSpent(n, x) && s.HasSpent(m, x);
      assert t.HasSpent(n, x) && t.HasSpent(m, x);
    }
  }

  lemma SlipAfter(s: P.Sys, c: string, b: string, before: seq<P.Move>, after: seq<P.Move>)
    requires Slips(P.Play(s, before), c, b, [], after)
    ensures Slips(s, c, b, before, after)
  {
    assert P.Play(P.Play(s, before), []) == P.Play(s, before);
  }

  /**
   * A round can pass over a double spend exactly when there can be one, and so far nothing has two spenders the round
   * would hear of.
   */
  lemma SlipExactly(s: P.Sys, c: string, b: string)
    requires Sane(s) && c in s.nodes && b in s.seeded
    ensures CanSlip(s, c, b) <==>
            (s.DoubleSpent(b) || (Live(s, b) && TwoNodes(s))) && forall x :: !HeardTwice(s, c, x)
  {
    if (s.DoubleSpent(b) || (Live(s, b) && TwoNodes(s))) && forall x :: !HeardTwice(s, c, x) {
      CanSlipFrom(s, c, b);
    }
    if before, after :| Slips(s, c, b, before, after) {
      SlipNeeds(s, c, b, before, after);
    }
  }

  lemma CanSlipFrom(s: P.Sys, c: string, b: string)
    requires Sane(s) && c in s.nodes && (s.DoubleSpent(b) || (Live(s, b) && TwoNodes(s)))
    requires forall x :: !HeardTwice(s, c, x)
    ensures CanSlip(s, c, b)
  {
    if s.DoubleSpent(b) {
      var after := UnheardSlipsThrough(s, c, b);
      assert Slips(s, c, b, [], after);
    } else {
      var t, before, n, m := LiveIsExposed(s, b);
      SameHeard(s, t, c);
      var after := LateSpendSlipsThrough(t, c, n, m, b);
      SlipAfter(s, c, b, before, after);
    }
  }

  lemma SlipNeeds(s: P.Sys, c: string, b: string, before: seq<P.Move>, after: seq<P.Move>)
    requires Sane(s) && c in s.nodes && b in s.seeded && Slips(s, c, b, before, after)
    ensures (s.DoubleSpent(b) || (Live(s, b) && TwoNodes(s))) && forall x :: !HeardTwice(s, c, x)
  {
    var o := P.Play(s, before);
    PlayKeepsSane(s, before);
    PlayKeys(s, before);
    forall x ensures !HeardTwice(s, c, x) {
      if n, m :| n != m && HeardSpender(s, c, n, x) && HeardSpender(s, c, m, x) {
        StillHeard(s, before, c, n, x);
        StillHeard(s, before, c, m, x);
        OldConflictFails(o, c, after, n, m, x);
      }
    }
    P.PlaySplit(s, before, [P.Open(c)] + after);
    PlayFirst(o, P.Do(o, P.Open(c)), P.Open(c), after);
    DoubleSpendNeeds(s, before + ([P.Open(c)] + after), b);
  }

  /** Spends that a round would hear of stay so. */
  lemma {:induction false} StillHeard(s: P.Sys, moves: seq<P.Move>, c: string, n: string, x: string)
    requires HeardSpender(s, c, n, x)
    ensures HeardSpender(P.Play(s, moves), c, n, x)
    decreases |moves|
  {
    if moves != [] {
      SpentGrows(s, moves[0], n);
      StillHeard(P.Do(s, moves[0]), moves[1..], c, n, x);
    }
  }

  /** A round opened over a double spend it hears of never passes. */
  lemma OldConflictFails(o: P.Sys, c: string, after: seq<P.Move>, n: string, m: string, x: string)
    requires Sane(o) && c in o.nodes && n != m && HeardSpender(o, c, n, x) && HeardSpender(o, c, m, x)
    ensures !Passes(P.Play(P.Do(o, P.Open(c)), after), o.nextRound)
  {
    var s := P.Do(o, P.Open(c));
    Opened(o, s, c);
    PlayKeepsSane(s, after);
    OpeningConflictFails(s, o.nextRound, after, n, m, x);
  }

  lemma OpeningConflictFails(s: P.Sys, id: nat, after: seq<P.Move>, n: string, m: string, x: string)
    requires Sane(P.Play(s, after)) && id < s.nextRound && id in s.rounds
    requires n != m && s.HasSpent(n, x) && s.HasSpent(m, x)
    requires HeardAtOpening(s.rounds[id], n, x) && HeardAtOpening(s.rounds[id], m, x)
    ensures !Passes(P.Play(s, after), id)
  {
    SpendsPersist(s, after, n, x);
    SpendsPersist(s, after, m, x);
    if id in P.Play(s, after).rounds {
      OpeningKept(s, after, id);
      OldSpendsFail(P.Play(s, after), id, n, m, x);
    }
  }

  lemma OldSpendsFail(t: P.Sys, id: nat, n: string, m: string, x: string)
    requires Sane(t) && id in t.rounds && n != m && t.HasSpent(n, x) && t.HasSpent(m, x)
    requires HeardAtOpening(t.rounds[id], n, x) && HeardAtOpening(t.rounds[id], m, x)
    ensures !Passes(t, id)
  {
    if Passes(t, id) {
      SuccessBlamesLateSpends(t, id, n, m, x);
    }
  }

  /** A witness from scratch: two started nodes and one seeded bearer are enough. */
  lemma SlipFromStarted(s: P.Sys, c: string, n: string, b: string)
    requires P.Started(s) && TwoNodes(s) && c in s.nodes && n in s.nodes && '\n' !in b
    ensures CanSlip(P.Do(s, P.Seed(n, b)), c, b)
  {
    var t := P.Do(s, P.Seed(n, b));
    StartedIsSane(s);
    DoKeepsSane(s, P.Seed(n, b));
    P.DoKeys(s, P.Seed(n, b));
    P.DoHolds(s, P.Seed(n, b), n, b);
    SeededGrows(s, P.Seed(n, b));
    SpendsUnmoved(s, P.Seed(n, b));
    assert t.Holds(n, b);
    forall x ensures !HeardTwice(t, c, x) {
      SameDoubleSpends(s, t, x);
      OnlyBlankIsMissed(t, c, x);
    }
    SlipExactly(t, c, b);
  }

  // ---- After a round that passed ---------------------------------------------------------------------------

  /**
   * Someone other than the coordinator holds the bearer, or a message would hand it to a node that has not spent it.
   */
  ghost predicate Astray(s: P.Sys, c: string, b: string) {
    || (exists n :: n != c && s.Holds(n, b))
    || (exists e :: Carries(s, e, b))
  }

  lemma BurnLeaves(s: P.Sys, id: nat, b: string)
    requires Sane(s) && Passes(s, id) && b in Recorded(s.rounds[id].snapshots)
    ensures Live(P.Do(s, P.Close(id)), b) <==> Astray(s, s.rounds[id].coord, b)
  {
    forall n ensures P.Do(s, P.Close(id)).Holds(n, b) <==> n != s.rounds[id].coord && s.Holds(n, b) {
      P.DoHolds(s, P.Close(id), n, b);
    }
    forall e ensures Carries(P.Do(s, P.Close(id)), e, b) <==> Carries(s, e, b) {
      BurnCarries(s, id, b, e);
    }
    LiveElsewhere(s, P.Do(s, P.Close(id)), s.rounds[id].coord, b);
  }

  lemma LiveElsewhere(s: P.Sys, t: P.Sys, c: string, b: string)
    requires forall n :: t.Holds(n, b) <==> n != c && s.Holds(n, b)
    requires forall e :: Carries(t, e, b) <==> Carries(s, e, b)
    ensures Live(t, b) <==> Astray(s, c, b)
  {
  }

  lemma BurnCarries(s: P.Sys, id: nat, b: string, e: P.Envelope)
    requires Passes(s, id)
    ensures Carries(P.Do(s, P.Close(id)), e, b) <==> Carries(s, e, b)
  {
    P.DoSpent(s, P.Close(id), e.dst, b);
    if e in s.bag {
      CloseKeepsBag(s, id, e);
    } else if e in P.Do(s, P.Close(id)).bag {
      CloseEmits(s, id, e);
    }
  }

  lemma CloseKeepsBag(s: P.Sys, id: nat, e: P.Envelope)
    requires P.Enabled(s, P.Close(id)) && e in s.bag
    ensures e in P.Do(s, P.Close(id)).bag
  {
  }

  /** No later run holds the bearer or adds a spender. */
  ghost predicate SettledForGood(s: P.Sys, b: string) {
    forall moves, n :: !P.Play(s, moves).Holds(n, b) && (P.Play(s, moves).HasSpent(n, b) <==> s.HasSpent(n, b))
  }

  lemma SettledForGoodExactly(s: P.Sys, b: string)
    requires Sane(s) && b in s.seeded
    ensures SettledForGood(s, b) <==> !Live(s, b)
  {
    if Live(s, b) {
      var t, moves, n := LiveIsHeld(s, b);
      assert P.Play(s, moves).Holds(n, b);
    } else {
      forall moves, n
        ensures !P.Play(s, moves).Holds(n, b) && (P.Play(s, moves).HasSpent(n, b) <==> s.HasSpent(n, b))
      {
        DistributedFinality(s, moves, b);
        assert !Live(P.Play(s, moves), b);
      }
    }
  }

  /**
   * Distributed settlement finality: what a passing round burns is settled for good exactly when nothing was astray.
   */
  lemma BurnIsFinalExactly(s: P.Sys, id: nat, b: string)
    requires Sane(s) && Passes(s, id) && b in Recorded(s.rounds[id].snapshots)
    ensures SettledForGood(P.Do(s, P.Close(id)), b) <==> !Astray(s, s.rounds[id].coord, b)
  {
    DoKeepsSane(s, P.Close(id));
    RecordedWasSeeded(s, id, b);
    SeededGrows(s, P.Close(id));
    BurnLeaves(s, id, b);
    SettledForGoodExactly(P.Do(s, P.Close(id)), b);
  }

  lemma RecordedWasSeeded(s: P.Sys, id: nat, b: string)
    requires Sane(s) && id in s.rounds && b in Recorded(s.rounds[id].snapshots)
    ensures b in s.seeded
  {
    RoundIsFresh(s, id);
    RecordedIsSpent(s, s.rounds[id], b);
    assert Seen(s, b);
  }

  /** Only messages to other nodes are delivered. */
  ghost predicate DeliversElsewhere(moves: seq<P.Move>, c: string) {
    forall i | 0 <= i < |moves| :: moves[i].Deliver? && moves[i].e.dst != c
  }

  lemma {:induction false} HeldThrough(s: P.Sys, moves: seq<P.Move>, c: string, b: string)
    requires s.Holds(c, b) && DeliversElsewhere(moves, c)
    ensures P.Play(s, moves).Holds(c, b)
    decreases |moves|
  {
    if moves != [] {
      P.DoHolds(s, moves[0], c, b);
      HeldThrough(P.Do(s, moves[0]), moves[1..], c, b);
    }
  }

  /**
   * A burnt bearer comes back: a holder the notice has not reached greets the coordinator, which had not spent it
   * itself. Delivering all notices afterwards changes nothing, because none is addressed to the coordinator.
   */
  lemma BurntComesBack(s: P.Sys, id: nat, n: string, b: string, notices: seq<P.Move>) returns (moves: seq<P.Move>)
    requires Sane(s) && Passes(s, id) && b in Recorded(s.rounds[id].snapshots)
    requires n != s.rounds[id].coord && s.Holds(n, b) && !s.HasSpent(s.rounds[id].coord, b)
    requires DeliversElsewhere(notices, s.rounds[id].coord)
    ensures P.Play(P.Do(s, P.Close(id)), moves + notices).Holds(s.rounds[id].coord, b)
  {
    var c, t := s.rounds[id].coord, P.Do(s, P.Close(id));
    DoKeepsSane(s, P.Close(id));
    P.DoKeys(s, P.Close(id));
    P.DoHolds(s, P.Close(id), n, b);
    P.DoSpent(s, P.Close(id), c, b);
    P.DoSpent(s, P.Close(id), n, b);
    var returned;
    returned, moves := Sharing(t, n, c, b);
    P.PlaySplit(t, moves, notices);
    HeldThrough(P.Play(t, moves), notices, c, b);
  }
}
