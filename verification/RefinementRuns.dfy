/** Notices on their way: the state they lead to, and the refinement of spends. */
module RefinementRuns {
  import opened Wire
  import opened ProtocolPolling
  import opened ProtocolSafety
  import opened NetworkRuns
  import opened Refinement
  import N = NetworkSpec
  import P = Protocol

  // ---- Notices on their way -----------------------------------------------------------------------

  /** A notice in flight will take the bearer from this node. */
  ghost predicate Told(bag: multiset<P.Envelope>, n: string, b: string) {
    exists e :: e in bag && Tells(e, n, b)
  }

  predicate Tells(e: P.Envelope, n: string, b: string) {
    e.dst == n && e.msg.SpentNotify? && e.msg.bearer == b
  }

  predicate StatusOnly(msg: PeerMessage) {
    msg.StatusRequest? || msg.StatusReply?
  }

  /** Once the notices in flight have arrived, the distributed state looks like the central network. */
  ghost predicate Settling(s: P.Sys, net: N.State) {
    && net.Valid() && net.nodes.Keys == s.nodes.Keys
    && s.cuts == multiset{} && s.rounds == map[]
    && (forall e | e in s.bag :: e.src in s.nodes && e.dst in s.nodes && (e.msg.SpentNotify? || StatusOnly(e.msg)))
    && (forall n, b :: net.HasSpent(n, b) <==> s.HasSpent(n, b))
    && (forall n, m :: net.Up(n, m) <==> LinkedIn(s, n, m))
    && (forall n, b :: net.Holds(n, b) <==> s.Holds(n, b) && !Told(s.bag, n, b))
  }

  lemma NoticeStep(s: P.Sys, e: P.Envelope)
    requires e in s.bag && e.dst in s.nodes && e.msg.SpentNotify? && P.Legible(s, e) && s.rounds == map[]
    ensures P.Next(s, P.Deliver(e)) ==
            s.(nodes := s.nodes[e.dst := s.nodes[e.dst].Without({e.msg.bearer})], bag := s.bag - multiset{e})
  {
    P.LegibleStep(s, e);
  }

  /** What a status message is answered with. */
  ghost function StatusAnswer(s: P.Sys, e: P.Envelope): multiset<P.Envelope>
    requires e.dst in s.nodes
  {
    if e.msg.StatusRequest?
    then multiset{P.Envelope(e.dst, e.src, e.conn, StatusOf(s.nodes[e.dst].node))}
    else multiset{}
  }

  lemma StatusStep(s: P.Sys, e: P.Envelope)
    requires e in s.bag && e.dst in s.nodes && StatusOnly(e.msg) && P.Legible(s, e)
    ensures P.Next(s, P.Deliver(e)) ==
            s.(rounds := P.Record(s.rounds, P.AsRead(e)), bag := s.bag - multiset{e} + StatusAnswer(s, e))
  {
    if e.msg.StatusRequest? {
      RequestStep(s, e);
      assert P.Record(s.rounds, P.AsRead(e)) == s.rounds;
    } else {
      ReplyStep(s, e);
      assert s.bag - multiset{e} + multiset{} == s.bag - multiset{e};
    }
  }

  lemma WithoutAt(s: P.Sys, p: string, gone: set<string>)
    requires p in s.nodes
    ensures var t := s.(nodes := s.nodes[p := s.nodes[p].Without(gone)]);
            && (forall n, b :: t.Holds(n, b) <==> s.Holds(n, b) && !(n == p && b in gone))
            && (forall n, b :: t.HasSpent(n, b) <==> s.HasSpent(n, b))
            && (forall n, m :: LinkedIn(t, n, m) <==> LinkedIn(s, n, m))
  {
  }

  lemma ToldMinus(bag: multiset<P.Envelope>, e: P.Envelope, n: string, b: string)
    requires e in bag
    ensures Told(bag, n, b) <==> Told(bag - multiset{e}, n, b) || Tells(e, n, b)
  {
    if Told(bag, n, b) && !Tells(e, n, b) {
      var f :| f in bag && Tells(f, n, b);
      assert f in bag - multiset{e};
    }
    if Told(bag - multiset{e}, n, b) {
      var f :| f in bag - multiset{e} && Tells(f, n, b);
      assert f in bag;
    }
  }

  lemma ToldPlus(bag: multiset<P.Envelope>, more: multiset<P.Envelope>, n: string, b: string)
    ensures Told(bag + more, n, b) <==> Told(bag, n, b) || Told(more, n, b)
  {
    if e :| e in bag && Tells(e, n, b) {
      assert e in bag + more;
    }
    if e :| e in more && Tells(e, n, b) {
      assert e in bag + more;
    }
    if e :| e in bag + more && Tells(e, n, b) {
      assert e in bag || e in more;
    }
  }

  lemma NoticeSettles(s: P.Sys, net: N.State, e: P.Envelope)
    requires Settling(s, net) && e in s.bag && e.msg.SpentNotify? && P.Legible(s, e)
    ensures Settling(P.Next(s, P.Deliver(e)), net)
  {
    NoticeStep(s, e);
    NoticeTaken(s, net, e);
  }

  lemma NoticeTaken(s: P.Sys, net: N.State, e: P.Envelope)
    requires Settling(s, net) && e in s.bag && e.msg.SpentNotify?
    ensures Settling(s.(nodes := s.nodes[e.dst := s.nodes[e.dst].Without({e.msg.bearer})],
                        bag := s.bag - multiset{e}), net)
  {
    var u := s.(nodes := s.nodes[e.dst := s.nodes[e.dst].Without({e.msg.bearer})]);
    var t := u.(bag := s.bag - multiset{e});
    WithoutAt(s, e.dst, {e.msg.bearer});
    forall n, b ensures net.Holds(n, b) <==> t.Holds(n, b) && !Told(t.bag, n, b) {
      ToldMinus(s.bag, e, n, b);
      assert t.Holds(n, b) <==> u.Holds(n, b);
    }
    forall n, b ensures net.HasSpent(n, b) <==> t.HasSpent(n, b) {
      assert t.HasSpent(n, b) <==> u.HasSpent(n, b);
    }
    forall n, m ensures net.Up(n, m) <==> LinkedIn(t, n, m) {
      assert LinkedIn(t, n, m) <==> LinkedIn(u, n, m);
    }
  }

  lemma StatusSettles(s: P.Sys, net: N.State, e: P.Envelope)
    requires Settling(s, net) && e in s.bag && StatusOnly(e.msg) && P.Legible(s, e)
    ensures Settling(P.Next(s, P.Deliver(e)), net)
  {
    StatusStep(s, e);
    StatusTaken(s, net, e, StatusAnswer(s, e));
  }

  lemma ToldStatus(bag: multiset<P.Envelope>, e: P.Envelope, more: multiset<P.Envelope>, n: string, b: string)
    requires e in bag && StatusOnly(e.msg) && forall f | f in more :: StatusOnly(f.msg)
    ensures Told(bag - multiset{e} + more, n, b) <==> Told(bag, n, b)
  {
    ToldMinus(bag, e, n, b);
    ToldPlus(bag - multiset{e}, more, n, b);
  }

  lemma StatusTaken(s: P.Sys, net: N.State, e: P.Envelope, more: multiset<P.Envelope>)
    requires Settling(s, net) && e in s.bag && StatusOnly(e.msg)
    requires forall f | f in more :: f.src in s.nodes && f.dst in s.nodes && StatusOnly(f.msg)
    ensures Settling(s.(bag := s.bag - multiset{e} + more), net)
  {
    var t := s.(bag := s.bag - multiset{e} + more);
    forall f | f in t.bag ensures f in s.bag || f in more {
    }
    forall n, b ensures net.Holds(n, b) <==> t.Holds(n, b) && !Told(t.bag, n, b) {
      ToldStatus(s.bag, e, more, n, b);
      assert t.Holds(n, b) <==> s.Holds(n, b);
    }
    forall n, b ensures net.HasSpent(n, b) <==> t.HasSpent(n, b) {
      assert t.HasSpent(n, b) <==> s.HasSpent(n, b);
    }
    forall n, m ensures net.Up(n, m) <==> LinkedIn(t, n, m) {
      assert LinkedIn(t, n, m) <==> LinkedIn(s, n, m);
    }
  }

  lemma SettlingStep(s: P.Sys, net: N.State, move: P.Move)
    requires Sane(s) && Settling(s, net) && Responds(move) && P.Enabled(s, move)
    ensures Sane(P.Next(s, move)) && Settling(P.Next(s, move), net)
  {
    DoKeepsSane(s, move);
    assert move.Deliver?;
    ReadsExactly(s, move.e);
    if move.e.msg.SpentNotify? {
      NoticeSettles(s, net, move.e);
    } else {
      StatusSettles(s, net, move.e);
    }
  }

  lemma {:induction false} SettlingEnds(s: P.Sys, net: N.State, moves: seq<P.Move>)
    requires Sane(s) && Settling(s, net) && Completes(s, moves)
    ensures Sim(P.Play(s, moves), net)
    decreases |moves|
  {
    if moves == [] {
      forall n, b ensures !Told(s.bag, n, b) {
      }
    } else {
      SettlingStep(s, net, moves[0]);
      SettlingEnds(P.Next(s, moves[0]), net, moves[1..]);
    }
  }

  // ---- Spends -----------------------------------------------------------------------------------------

  lemma SpendStarts(s: P.Sys, net: N.State, n: string, b: string)
    requires Sane(s) && Quiet(s) && Sim(s, net) && s.Holds(n, b)
    ensures Settling(P.Do(s, P.Spend(n, b)), N.Exec(net, N.SpendAt(n, b)))
  {
    N.ExecValid(net, N.SpendAt(n, b));
    P.DoKeys(s, P.Spend(n, b));
    SpendBag(s, n, b);
    forall x, y ensures N.Exec(net, N.SpendAt(n, b)).Up(x, y) <==> LinkedIn(P.Do(s, P.Spend(n, b)), x, y) {
      N.ExecLinks(net, N.SpendAt(n, b), x, y);
      SpendKeepsLinks(s, n, b, x, y);
    }
    forall x, c
      ensures N.Exec(net, N.SpendAt(n, b)).HasSpent(x, c) <==> P.Do(s, P.Spend(n, b)).HasSpent(x, c)
      ensures N.Exec(net, N.SpendAt(n, b)).Holds(x, c) <==>
              P.Do(s, P.Spend(n, b)).Holds(x, c) && !Told(P.Do(s, P.Spend(n, b)).bag, x, c)
    {
      SpendLooks(s, net, n, b, x, c);
    }
  }

  lemma SpendLooks(s: P.Sys, net: N.State, n: string, b: string, x: string, c: string)
    requires Quiet(s) && Sim(s, net) && s.Holds(n, b)
    ensures N.Exec(net, N.SpendAt(n, b)).HasSpent(x, c) <==> P.Do(s, P.Spend(n, b)).HasSpent(x, c)
    ensures N.Exec(net, N.SpendAt(n, b)).Holds(x, c) <==>
            P.Do(s, P.Spend(n, b)).Holds(x, c) && !Told(P.Do(s, P.Spend(n, b)).bag, x, c)
  {
    N.ExecSpent(net, N.SpendAt(n, b), x, c);
    N.ExecHolds(net, N.SpendAt(n, b), x, c);
    P.DoSpent(s, P.Spend(n, b), x, c);
    P.DoHolds(s, P.Spend(n, b), x, c);
    SpendTold(s, n, b, x, c);
    assert net.Holds(n, b) && (LinkedIn(s, n, x) <==> net.Up(n, x));
  }

  lemma SpendKeepsLinks(s: P.Sys, n: string, b: string, x: string, y: string)
    requires s.Holds(n, b)
    ensures LinkedIn(P.Do(s, P.Spend(n, b)), x, y) <==> LinkedIn(s, x, y)
  {
  }

  lemma SpendBag(s: P.Sys, n: string, b: string)
    requires Quiet(s) && s.Holds(n, b)
    ensures var t := P.Do(s, P.Spend(n, b));
            && t.cuts == multiset{} && t.rounds == map[]
            && t.bag == P.Tells(n, s.nodes[n].Connected() * s.nodes.Keys, 0, {b})
            && (forall e | e in t.bag :: e.src == n && e.dst in s.nodes && e.msg.SpentNotify?)
  {
    var t := P.Do(s, P.Spend(n, b));
    assert t.bag == P.Tells(n, s.nodes[n].Connected() * s.nodes.Keys, 0, {b});
    forall e | e in t.bag ensures e.src == n && e.dst in s.nodes && e.msg.SpentNotify? {
      P.TellsExactly(n, s.nodes[n].Connected() * s.nodes.Keys, 0, {b}, e);
    }
  }

  lemma SpendTold(s: P.Sys, n: string, b: string, x: string, c: string)
    requires Quiet(s) && s.Holds(n, b)
    ensures Told(P.Do(s, P.Spend(n, b)).bag, x, c) <==> c == b && x in s.nodes && LinkedIn(s, n, x)
  {
    SpendBag(s, n, b);
    ToldTells(n, s.nodes[n].Connected() * s.nodes.Keys, 0, {b}, x, c);
  }

  lemma ToldTells(src: string, targets: set<string>, conn: nat, bearers: set<string>, x: string, c: string)
    ensures Told(P.Tells(src, targets, conn, bearers), x, c) <==> x in targets && c in bearers
  {
    var bag := P.Tells(src, targets, conn, bearers);
    if x in targets && c in bearers {
      var e := P.Envelope(src, x, conn, SpentNotify(src, c));
      P.TellsExactly(src, targets, conn, bearers, e);
      assert e in bag && Tells(e, x, c);
    }
    if e :| e in bag && Tells(e, x, c) {
      P.TellsExactly(src, targets, conn, bearers, e);
    }
  }

  lemma SpendRefines(s: P.Sys, net: N.State, n: string, b: string, moves: seq<P.Move>)
    requires Sane(s) && Quiet(s) && Sim(s, net) && s.Holds(n, b) && Completes(P.Do(s, P.Spend(n, b)), moves)
    ensures Sim(P.Play(P.Do(s, P.Spend(n, b)), moves), N.Run(net, [N.SpendAt(n, b)]))
  {
    ExecOne(net, N.SpendAt(n, b));
    SpendStarts(s, net, n, b);
    DoKeepsSane(s, P.Spend(n, b));
    SettlingEnds(P.Do(s, P.Spend(n, b)), N.Exec(net, N.SpendAt(n, b)), moves);
  }
}
