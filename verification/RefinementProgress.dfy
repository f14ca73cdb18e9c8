/** The refinement is about something: every quiet state has a central image, and every command can complete. */
module RefinementProgress {
  import opened Core
  import opened PeerProtocol
  import opened Wire
  import opened Coordinator
  import opened ProtocolPolling
  import opened ProtocolSafety
  import opened Refinement
  import opened RefinementRuns
  import opened RefinementRounds
  import opened RefinementSessions
  import N = NetworkSpec
  import P = Protocol

  // ---- Central images -----------------------------------------------------------------------------------

  ghost predicate FlagsAgree(s: P.Sys) {
    forall n, m :: LinkedIn(s, n, m) ==> LinkedIn(s, m, n)
  }

  ghost function ImageNodes(s: P.Sys): map<string, N.Node> {
    map n | n in s.nodes :: N.Node(n, s.nodes[n].node.ledger, s.nodes[n].node.spent)
  }

  ghost function ImageLinks(s: P.Sys): N.LinkTable {
    map n | n in s.nodes :: map m | m in s.nodes :: LinkedIn(s, n, m)
  }

  ghost function Image(s: P.Sys): N.State {
    N.State(ImageNodes(s), ImageLinks(s), [])
  }

  lemma ImageUp(s: P.Sys, n: string, m: string)
    requires Wired(s)
    ensures Image(s).Up(n, m) <==> LinkedIn(s, n, m)
  {
  }

  lemma ImageValid(s: P.Sys)
    requires Wired(s) && FlagsAgree(s)
    ensures Image(s).Valid()
  {
    forall n ensures !N.Linked(Image(s).links, n, n) {
      ImageUp(s, n, n);
    }
    forall n, m | N.Linked(Image(s).links, n, m) ensures N.Linked(Image(s).links, m, n) {
      ImageUp(s, n, m);
      ImageUp(s, m, n);
    }
  }

  lemma ImageLooks(s: P.Sys, net: N.State)
    requires net.nodes == ImageNodes(s)
    ensures net.nodes.Keys == s.nodes.Keys
    ensures forall n, b :: (s.Holds(n, b) <==> net.Holds(n, b)) && (s.HasSpent(n, b) <==> net.HasSpent(n, b))
  {
  }

  lemma ImageSim(s: P.Sys)
    requires Wired(s) && FlagsAgree(s)
    ensures Sim(s, Image(s))
  {
    ImageValid(s);
    ImageLooks(s, Image(s));
    forall n, m ensures LinkedIn(s, n, m) <==> Image(s).Up(n, m) {
      ImageUp(s, n, m);
    }
  }

  lemma SimAgrees(s: P.Sys, net: N.State)
    requires Sim(s, net)
    ensures FlagsAgree(s)
  {
    forall n, m | LinkedIn(s, n, m) ensures LinkedIn(s, m, n) {
      assert net.Up(n, m) && net.Up(m, n);
    }
  }

  /** A distributed state looks like some central network exactly when its link flags agree. */
  lemma CentralImageExactly(s: P.Sys)
    requires Wired(s)
    ensures (exists net :: Sim(s, net)) <==> FlagsAgree(s)
  {
    if FlagsAgree(s) {
      ImageSim(s);
    }
    if net :| Sim(s, net) {
      SimAgrees(s, net);
    }
  }

  lemma SeedKeepsQuiet(s: P.Sys, move: P.Move)
    requires Quiet(s) && FlagsAgree(s) && move.Seed?
    ensures Quiet(P.Do(s, move)) && FlagsAgree(P.Do(s, move))
  {
    var t := P.Do(s, move);
    forall n, m ensures LinkedIn(t, n, m) <==> LinkedIn(s, n, m) {
    }
  }

  /** Started nodes, however seeded, are where a session may begin. */
  lemma {:induction false} SeededStart(s: P.Sys, seeds: seq<P.Move>)
    requires Sane(s) && Quiet(s) && FlagsAgree(s) && forall move | move in seeds :: move.Seed?
    ensures var t := P.Play(s, seeds); Sane(t) && Quiet(t) && exists net :: Sim(t, net)
    decreases |seeds|
  {
    if seeds == [] {
      CentralImageExactly(s);
    } else {
      DoKeepsSane(s, seeds[0]);
      SeedKeepsQuiet(s, seeds[0]);
      SeededStart(P.Do(s, seeds[0]), seeds[1..]);
    }
  }

  lemma StartedAgrees(s: P.Sys)
    requires P.Started(s)
    ensures Sane(s) && Quiet(s) && FlagsAgree(s)
  {
    StartedIsSane(s);
    forall n, m ensures !LinkedIn(s, n, m) {
    }
  }

  // ---- Link flags ------------------------------------------------------------------------------------------

  lemma HeardLinkUpAgrees(s: P.Sys, n: string, m: string)
    requires FlagsAgree(s) && n in s.nodes && m in s.nodes && n != m
    ensures FlagsAgree(HeardLinkUp(s, n, m))
  {
    var t := HeardLinkUp(s, n, m);
    forall x, y ensures LinkedIn(t, x, y) <==> LinkedIn(s, x, y) || (x == n && y == m) || (x == m && y == n) {
    }
  }

  lemma HeardPullAgrees(s: P.Sys, n: string, m: string)
    requires FlagsAgree(s) && n in s.nodes && m in s.nodes
    ensures FlagsAgree(HeardPull(s, n, m))
  {
    var t := HeardPull(s, n, m);
    forall x, y ensures LinkedIn(t, x, y) <==> LinkedIn(s, x, y) {
    }
  }

  lemma CommandKeepsFlags(s: P.Sys, start: P.Move, moves: seq<P.Move>)
    requires Sane(s) && Quiet(s) && FlagsAgree(s)
    requires Starts(start) && P.Enabled(s, start) && Completes(P.Next(s, start), moves)
    ensures FlagsAgree(P.Play(P.Next(s, start), moves))
  {
    ImageSim(s);
    match start
    case Greet(n, m) =>
      LinkUpOutcome(s, n, m, moves);
      HeardLinkUpAgrees(s, n, m);
    case Cut(n, m) =>
      CutRefines(s, Image(s), n, m, moves);
      SimAgrees(P.Play(P.Next(s, start), moves), N.Run(Image(s), [N.LinkDown(n, m)]));
    case Pull(n, m) =>
      assert LinkedIn(s, n, m) && LinkedIn(s, m, n);
      PullOutcome(s, n, m, moves);
      HeardPullAgrees(s, n, m);
    case Spend(n, b) =>
      SpendRefines(s, Image(s), n, b, moves);
      SimAgrees(P.Play(P.Next(s, start), moves), N.Run(Image(s), [N.SpendAt(n, b)]));
    case Open(c) =>
      RoundOutcome(s, Image(s), c, moves);
      SimAgrees(P.Play(P.Next(s, start), moves), Burnt(Image(s), HeardBurn(s, c)));
  }

  /** Link flags agree at both ends after every session, whether its commands are faithful or not. */
  lemma {:induction false} SessionLinksSymmetric(s: P.Sys, commands: seq<Command>)
    requires Sane(s) && Quiet(s) && FlagsAgree(s) && Session(s, commands)
    ensures FlagsAgree(P.Play(s, Moves(commands)))
    decreases |commands|
  {
    if commands != [] {
      var t := CommandEnds(s, commands[0]);
      CommandKeepsFlags(s, commands[0].start, commands[0].rest);
      SessionLinksSymmetric(t, commands[1..]);
      PlayCommand(s, commands[0], Moves(commands[1..]));
    }
  }

  // ---- Commands can complete ------------------------------------------------------------------------------

  lemma StepFirst(s: P.Sys, t: P.Sys, move: P.Move, rest: seq<P.Move>)
    requires Responds(move) && P.Enabled(s, move) && t == P.Next(s, move) && Completes(t, rest)
    ensures Completes(s, [move] + rest)
  {
    assert ([move] + rest)[1..] == rest;
  }

  lemma GreetCompletes(s: P.Sys, n: string, m: string) returns (moves: seq<P.Move>)
    requires Sane(s) && Quiet(s) && P.Enabled(s, P.Greet(n, m))
    ensures Completes(P.Next(s, P.Greet(n, m)), moves)
  {
    var s1 := P.Next(s, P.Greet(n, m));
    var hello, ack := P.Envelope(n, m, 0, Hello(s.nodes[n])), P.Envelope(m, n, 0, AckOf(s.nodes[m].node));
    SaneSpeaks(s);
    SaysClearly(s, n, hello.msg);
    SaysClearly(s, m, ack.msg);
    HelloStep(s, n, m);
    DeliverHello(s1, hello);
    var s2 := P.Next(s1, P.Deliver(hello));
    assert s2.bag == multiset{ack};
    DeliverAck(s2, ack);
    StepFirst(s2, P.Next(s2, P.Deliver(ack)), P.Deliver(ack), []);
    StepFirst(s1, s2, P.Deliver(hello), [P.Deliver(ack)] + []);
    moves := [P.Deliver(hello)] + ([P.Deliver(ack)] + []);
  }

  lemma CutCompletes(s: P.Sys, n: string, m: string) returns (moves: seq<P.Move>)
    requires Sane(s) && Quiet(s) && P.Enabled(s, P.Cut(n, m))
    ensures Completes(P.Next(s, P.Cut(n, m)), moves)
  {
    var s1 := P.Next(s, P.Cut(n, m));
    var notice := P.Envelope(n, m, 0, PeerMessage.LinkDown(n));
    SaneSpeaks(s);
    SaysClearly(s, n, notice.msg);
    assert s1.bag == multiset{notice} && s1.cuts == multiset{(n, m)};
    CutHeard(s1, notice);
    var s2 := P.Next(s1, P.Deliver(notice));
    CutDone(s2, n, m);
    StepFirst(s2, P.Next(s2, P.CutLocal(n, m)), P.CutLocal(n, m), []);
    StepFirst(s1, s2, P.Deliver(notice), [P.CutLocal(n, m)] + []);
    moves := [P.Deliver(notice)] + ([P.CutLocal(n, m)] + []);
  }

  lemma PullCompletes(s: P.Sys, n: string, m: string) returns (moves: seq<P.Move>)
    requires Sane(s) && Quiet(s) && FlagsAgree(s) && P.Enabled(s, P.Pull(n, m))
    ensures Completes(P.Next(s, P.Pull(n, m)), moves)
  {
    assert LinkedIn(s, n, m) && LinkedIn(s, m, n);
    var s1 := P.Next(s, P.Pull(n, m));
    var request := P.Envelope(n, m, 0, PropagateRequest(n));
    PullStep(s, n, m);
    SaneSpeaks(s);
    SaysClearly(s, n, request.msg);
    SaysClearly(s, m, PropagateReply(m, Listing(s.nodes[m].node.ledger)));
    DeliverPull(s1, request);
    var s2 := P.Next(s1, P.Deliver(request));
    var reply := P.Envelope(m, n, 0, PropagateReply(m, Listing(s.nodes[m].node.ledger)));
    assert s2.bag == multiset{reply};
    DeliverHoldings(s2, reply);
    StepFirst(s2, P.Next(s2, P.Deliver(reply)), P.Deliver(reply), []);
    StepFirst(s1, s2, P.Deliver(request), [P.Deliver(reply)] + []);
    moves := [P.Deliver(request)] + ([P.Deliver(reply)] + []);
  }

  /** Notices alone drain by being delivered one after another. */
  lemma {:induction false} NoticesDrain(s: P.Sys) returns (moves: seq<P.Move>)
    requires Sane(s) && s.cuts == multiset{} && s.rounds == map[]
    requires forall e | e in s.bag :: e.dst in s.nodes && e.msg.SpentNotify?
    ensures Completes(s, moves)
    decreases |s.bag|
  {
    if s.bag == multiset{} {
      moves := [];
    } else {
      var e :| e in s.bag;
      ReadsExactly(s, e);
      NoticeStep(s, e);
      DoKeepsSane(s, P.Deliver(e));
      var rest := NoticesDrain(P.Next(s, P.Deliver(e)));
      StepFirst(s, P.Next(s, P.Deliver(e)), P.Deliver(e), rest);
      moves := [P.Deliver(e)] + rest;
    }
  }

  lemma SpendCompletes(s: P.Sys, n: string, b: string) returns (moves: seq<P.Move>)
    requires Sane(s) && Quiet(s) && s.Holds(n, b)
    ensures Completes(P.Do(s, P.Spend(n, b)), moves)
  {
    SpendBag(s, n, b);
    DoKeepsSane(s, P.Spend(n, b));
    moves := NoticesDrain(P.Do(s, P.Spend(n, b)));
  }

  // ---- A round that hears from everyone -------------------------------------------------------------------

  lemma {:induction false} TakesCompletes(s: P.Sys, moves: seq<P.Move>, rest: seq<P.Move>)
    requires Takes(s, moves) && Completes(P.Play(s, moves), rest)
    ensures Completes(s, moves + rest)
    decreases |moves|
  {
    if moves == [] {
      assert moves + rest == rest;
    } else {
      var t := TakesRest(s, moves);
      TakesCompletes(t, moves[1..], rest);
      TakesFront(s, t, moves, rest);
    }
  }

  lemma TakesFront(s: P.Sys, t: P.Sys, moves: seq<P.Move>, rest: seq<P.Move>)
    requires moves != [] && Responds(moves[0]) && P.Enabled(s, moves[0]) && t == P.Next(s, moves[0])
    requires Completes(t, moves[1..] + rest)
    ensures Completes(s, moves + rest)
  {
    HeadFirst(moves, rest);
    StepFirst(s, t, moves[0], moves[1..] + rest);
  }

  lemma HeadFirst<T>(xs: seq<T>, ys: seq<T>)
    requires xs != []
    ensures [xs[0]] + (xs[1..] + ys) == xs + ys
  {
  }

  lemma TakesRest(s: P.Sys, moves: seq<P.Move>) returns (t: P.Sys)
    requires moves != [] && Takes(s, moves)
    ensures Responds(moves[0]) && P.Enabled(s, moves[0]) && t == P.Next(s, moves[0]) && Takes(t, moves[1..])
    ensures P.Play(s, moves) == P.Play(t, moves[1..])
  {
    t := P.Do(s, moves[0]);
    assert Possible(s, moves, 0) && moves[..0] == [];
    forall k | 0 <= k < |moves[1..]| ensures Possible(t, moves[1..], k) {
      assert Possible(s, moves, k + 1);
      assert moves[..k + 1] == [moves[0]] + moves[1..][..k];
      PlayFirst(s, t, moves[0], moves[1..][..k]);
    }
  }

  lemma CloseCompletes(cur: P.Sys, c: string, id: nat) returns (moves: seq<P.Move>)
    requires Sane(cur) && P.Enabled(cur, P.Close(id)) && cur.rounds.Keys == {id} && cur.rounds[id].coord == c
    requires cur.bag == multiset{} && cur.cuts == multiset{}
    ensures Completes(cur, moves)
  {
    DoKeepsSane(cur, P.Close(id));
    CloseStep(cur, c, id);
    ClosedBag(cur, P.Next(cur, P.Close(id)), c, id);
    var rest := NoticesDrain(P.Next(cur, P.Close(id)));
    StepFirst(cur, P.Next(cur, P.Close(id)), P.Close(id), rest);
    moves := [P.Close(id)] + rest;
  }

  lemma ClosedBag(cur: P.Sys, t: P.Sys, c: string, id: nat)
    requires c in cur.nodes && id in cur.rounds && cur.bag == multiset{} && cur.cuts == multiset{}
    requires t == if SnapshotConflictFree(cur.rounds[id].snapshots)
                  then Burned(cur, c, id, Recorded(cur.rounds[id].snapshots))
                  else cur.(rounds := map[])
    ensures t.cuts == multiset{} && t.rounds == map[]
    ensures forall e | e in t.bag :: e.dst in t.nodes && e.msg.SpentNotify?
  {
    forall e | e in t.bag ensures e.dst in t.nodes && e.msg.SpentNotify? {
      P.TellsExactly(c, cur.nodes.Keys - {c}, id, Recorded(cur.rounds[id].snapshots), e);
    }
  }

  lemma RoundCompletes(s: P.Sys, c: string) returns (moves: seq<P.Move>)
    requires Sane(s) && Quiet(s) && c in s.nodes
    ensures Completes(P.Do(s, P.Open(c)), moves)
  {
    var o, t, poll := OpenAndPoll(s, c);
    DoKeepsSane(s, P.Open(c));
    PlayKeepsSane(o, poll);
    RoundAlone(s, t, s.nextRound);
    var rest := CloseCompletes(t, c, s.nextRound);
    TakesCompletes(o, poll, rest);
    moves := poll + rest;
  }

  lemma RoundAlone(s: P.Sys, t: P.Sys, id: nat)
    requires Quiet(s) && id in t.rounds && t.bag == s.bag && t.cuts == s.cuts
    requires t.rounds == s.rounds[id := t.rounds[id]]
    ensures t.rounds.Keys == {id} && t.bag == multiset{} && t.cuts == multiset{}
  {
  }

  /** From a quiet state every command that can start has a run that completes it. */
  lemma CommandCompletes(s: P.Sys, start: P.Move) returns (moves: seq<P.Move>)
    requires Sane(s) && Quiet(s) && FlagsAgree(s) && Starts(start) && P.Enabled(s, start)
    ensures Completes(P.Do(s, start), moves)
  {
    match start
    case Greet(n, m) => moves := GreetCompletes(s, n, m);
    case Cut(n, m) => moves := CutCompletes(s, n, m);
    case Pull(n, m) => moves := PullCompletes(s, n, m);
    case Spend(n, b) => moves := SpendCompletes(s, n, b);
    case Open(c) => moves := RoundCompletes(s, c);
  }
}
