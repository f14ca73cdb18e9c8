/** Refinement of whole sessions: exactly when commands run one after another do what their central calls do. */
module RefinementSessions {
  import opened Wire
  import opened ProtocolPolling
  import opened ProtocolSafety
  import opened Refinement
  import opened RefinementRuns
  import opened RefinementRounds
  import N = NetworkSpec
  import P = Protocol

  // ---- Commands ---------------------------------------------------------------------------------------------------

  lemma CutRefines(s: P.Sys, net: N.State, n: string, m: string, moves: seq<P.Move>)
    requires Sane(s) && Quiet(s) && Sim(s, net) && P.Enabled(s, P.Cut(n, m)) && Completes(P.Next(s, P.Cut(n, m)), moves)
    ensures Sim(P.Play(P.Next(s, P.Cut(n, m)), moves), N.Run(net, [N.LinkDown(n, m)]))
  {
    CutStarts(s, n, m);
    CuttingEnds(P.Next(s, P.Cut(n, m)), s, net, n, m, moves);
  }

  lemma SameLedger(t: P.Sys, u: P.Sys, net: N.State, n: string)
    requires Sim(t, net) && Sim(u, net) && n in t.nodes && n in u.nodes
    ensures t.nodes[n].node.ledger == u.nodes[n].node.ledger
  {
    forall b ensures b in t.nodes[n].node.ledger <==> b in u.nodes[n].node.ledger {
      assert (t.Holds(n, b) <==> net.Holds(n, b)) && (u.Holds(n, b) <==> net.Holds(n, b));
    }
  }

  lemma GreetRefines(s: P.Sys, net: N.State, n: string, m: string, moves: seq<P.Move>)
    requires Sane(s) && Quiet(s) && Sim(s, net) && P.Enabled(s, P.Greet(n, m))
    requires Completes(P.Next(s, P.Greet(n, m)), moves)
    ensures Sim(P.Play(P.Next(s, P.Greet(n, m)), moves), N.Run(net, [N.LinkDown(n, m), N.LinkUp(n, m)])) <==>
            Conveys(s.nodes[n].node, s.nodes[m].node) && Conveys(s.nodes[m].node, s.nodes[n].node)
  {
    LinkUpOutcome(s, n, m, moves);
    LinkUpSim(s, net, n, m);
    LinkUpExactly(s, n, m);
    if Sim(HeardLinkUp(s, n, m), N.Run(net, [N.LinkDown(n, m), N.LinkUp(n, m)])) {
      SameLedger(HeardLinkUp(s, n, m), AfterLinkUp(s, n, m), N.Run(net, [N.LinkDown(n, m), N.LinkUp(n, m)]), n);
      SameLedger(HeardLinkUp(s, n, m), AfterLinkUp(s, n, m), N.Run(net, [N.LinkDown(n, m), N.LinkUp(n, m)]), m);
    }
  }

  lemma PullRefines(s: P.Sys, net: N.State, n: string, m: string, moves: seq<P.Move>)
    requires Sane(s) && Quiet(s) && Sim(s, net) && P.Enabled(s, P.Pull(n, m))
    requires Completes(P.Next(s, P.Pull(n, m)), moves)
    ensures Sim(P.Play(P.Next(s, P.Pull(n, m)), moves), N.Run(net, [N.Propagate(m, n)])) <==>
            HandsOver(s.nodes[m].node, s.nodes[n].node)
  {
    assert LinkedIn(s, n, m) && net.Up(n, m) && net.Up(m, n) && LinkedIn(s, m, n);
    PullOutcome(s, n, m, moves);
    PullSim(s, net, n, m);
    PullExactly(s, n, m);
    if Sim(HeardPull(s, n, m), N.Run(net, [N.Propagate(m, n)])) {
      SameLedger(HeardPull(s, n, m), AfterPull(s, n, m), N.Run(net, [N.Propagate(m, n)]), n);
    }
  }

  /** When a command, run alone, does what its central calls do. Only the blank bearer can make it fail to. */
  ghost predicate Faithful(s: P.Sys, start: P.Move)
    requires Starts(start) && P.Enabled(s, start)
  {
    match start
    case Greet(n, m) =>
      Conveys(s.nodes[n].node, s.nodes[m].node) && Conveys(s.nodes[m].node, s.nodes[n].node)
    case Pull(n, m) => HandsOver(s.nodes[m].node, s.nodes[n].node)
    case Open(c) => RoundConveys(s, c)
    case _ => true
  }

  /**
   * One command, run alone from a quiet state with every peer responding, does what its central calls do exactly if it
   * is faithful there.
   */
  lemma CommandRefines(s: P.Sys, net: N.State, start: P.Move, moves: seq<P.Move>)
    requires Sane(s) && Quiet(s) && Sim(s, net)
    requires Starts(start) && P.Enabled(s, start) && Completes(P.Do(s, start), moves)
    ensures Sim(P.Play(P.Do(s, start), moves), N.Run(net, Calls(start))) <==> Faithful(s, start)
  {
    match start
    case Greet(n, m) => GreetRefines(s, net, n, m, moves);
    case Cut(n, m) => CutRefines(s, net, n, m, moves);
    case Pull(n, m) => PullRefines(s, net, n, m, moves);
    case Spend(n, b) => SpendRefines(s, net, n, b, moves);
    case Open(c) => RoundRefines(s, net, c, moves);
  }

  /** Where the blank bearer is neither held nor spent, every command is faithful. */
  lemma UnblankIsFaithful(s: P.Sys, start: P.Move)
    requires Sane(s) && "" !in s.seeded && Starts(start) && P.Enabled(s, start)
    ensures Faithful(s, start)
  {
    assert !Seen(s, "");
    forall n | n in s.nodes ensures s.nodes[n].node.ledger != {""} && s.nodes[n].node.spent != {""} {
      assert !s.Holds(n, "") && !s.HasSpent(n, "");
      assert "" in {""};
    }
  }

  lemma CutStarts(s: P.Sys, n: string, m: string)
    requires Sane(s) && Quiet(s) && P.Enabled(s, P.Cut(n, m))
    ensures Cutting(P.Next(s, P.Cut(n, m)), s, n, m)
  {
    SaneSpeaks(s);
    SaysClearly(s, n, PeerMessage.LinkDown(n));
    var t := P.Next(s, P.Cut(n, m));
    assert t.nodes == s.nodes;
    assert t.bag == multiset{P.Envelope(n, m, 0, PeerMessage.LinkDown(n))} && t.cuts == multiset{(n, m)};
  }

  // ---- Sessions ---------------------------------------------------------------------------------------------------

  datatype Command = Command(start: P.Move, rest: seq<P.Move>)

  /** Commands one after another: each starts once the previous one has completed. */
  ghost predicate Session(s: P.Sys, commands: seq<Command>)
    decreases |commands|
  {
    commands != [] ==>
      && Starts(commands[0].start) && P.Enabled(s, commands[0].start)
      && Completes(P.Next(s, commands[0].start), commands[0].rest)
      && Session(P.Play(P.Next(s, commands[0].start), commands[0].rest), commands[1..])
  }

  function Moves(commands: seq<Command>): seq<P.Move> {
    if commands == [] then [] else [commands[0].start] + commands[0].rest + Moves(commands[1..])
  }

  function AllCalls(commands: seq<Command>): seq<N.Action>
    requires forall c | c in commands :: Starts(c.start)
  {
    if commands == [] then [] else Calls(commands[0].start) + AllCalls(commands[1..])
  }

  lemma {:induction false} CompletesQuiet(s: P.Sys, moves: seq<P.Move>)
    requires Completes(s, moves)
    ensures Quiet(P.Play(s, moves))
    decreases |moves|
  {
    if moves != [] {
      CompletesQuiet(P.Next(s, moves[0]), moves[1..]);
    }
  }

  lemma {:induction false} SessionStarts(s: P.Sys, commands: seq<Command>)
    requires Session(s, commands)
    ensures forall c | c in commands :: Starts(c.start)
    decreases |commands|
  {
    if commands != [] {
      SessionStarts(P.Play(P.Next(s, commands[0].start), commands[0].rest), commands[1..]);
    }
  }

  /** Every command is faithful where it starts. */
  ghost predicate AllFaithful(s: P.Sys, commands: seq<Command>)
    requires Session(s, commands)
    decreases |commands|
  {
    commands != [] ==>
      && Faithful(s, commands[0].start)
      && AllFaithful(P.Play(P.Next(s, commands[0].start), commands[0].rest), commands[1..])
  }

  /** Command by command, the session is in the state its central calls lead to. */
  ghost predicate Follows(s: P.Sys, net: N.State, commands: seq<Command>)
    requires Session(s, commands) && net.Valid()
    decreases |commands|
  {
    && Sim(s, net)
    && (commands != [] ==>
          Follows(P.Play(P.Next(s, commands[0].start), commands[0].rest),
                  N.Run(net, Calls(commands[0].start)), commands[1..]))
  }

  /** The state a command leads to is one where the next can start. */
  lemma CommandEnds(s: P.Sys, first: Command) returns (t: P.Sys)
    requires Sane(s) && P.Enabled(s, first.start) && Completes(P.Next(s, first.start), first.rest)
    ensures t == P.Play(P.Next(s, first.start), first.rest) && Sane(t) && Quiet(t)
  {
    t := P.Play(P.Next(s, first.start), first.rest);
    DoKeepsSane(s, first.start);
    PlayKeepsSane(P.Next(s, first.start), first.rest);
    CompletesQuiet(P.Next(s, first.start), first.rest);
  }

  /**
   * Refinement, exactly: a session of commands follows its central calls command by command if and only if each
   * command is faithful where it starts.
   */
  lemma {:induction false} SessionFollowsExactly(s: P.Sys, net: N.State, commands: seq<Command>)
    requires Sane(s) && Quiet(s) && Sim(s, net) && Session(s, commands)
    ensures Follows(s, net, commands) <==> AllFaithful(s, commands)
    decreases |commands|
  {
    if commands != [] {
      var first := commands[0];
      var t := CommandEnds(s, first);
      CommandRefines(s, net, first.start, first.rest);
      if Faithful(s, first.start) {
        SessionFollowsExactly(t, N.Run(net, Calls(first.start)), commands[1..]);
      }
    }
  }

  /** Such a session leads to the state its central calls lead to, and leaves nothing in flight. */
  lemma {:induction false} SessionRefines(s: P.Sys, net: N.State, commands: seq<Command>)
    requires Sane(s) && Quiet(s) && Sim(s, net) && Session(s, commands) && AllFaithful(s, commands)
    ensures forall c | c in commands :: Starts(c.start)
    ensures var t := P.Play(s, Moves(commands));
            Sane(t) && Quiet(t) && Sim(t, N.Run(net, AllCalls(commands)))
    decreases |commands|
  {
    SessionStarts(s, commands);
    if commands != [] {
      var first := commands[0];
      var t := CommandEnds(s, first);
      CommandRefines(s, net, first.start, first.rest);
      SessionRefines(t, N.Run(net, Calls(first.start)), commands[1..]);
      N.RunSplit(net, Calls(first.start), AllCalls(commands[1..]));
      PlayCommand(s, first, Moves(commands[1..]));
    }
  }

  lemma {:induction false} CompletesSeeds(s: P.Sys, moves: seq<P.Move>)
    requires Completes(s, moves)
    ensures P.Play(s, moves).seeded == s.seeded
    decreases |moves|
  {
    if moves != [] {
      SeededGrows(s, moves[0]);
      CompletesSeeds(P.Next(s, moves[0]), moves[1..]);
    }
  }

  /** Where the blank bearer was never seeded, every session is faithful throughout. */
  lemma {:induction false} UnblankSession(s: P.Sys, commands: seq<Command>)
    requires Sane(s) && Quiet(s) && "" !in s.seeded && Session(s, commands)
    ensures AllFaithful(s, commands)
    decreases |commands|
  {
    if commands != [] {
      var first := commands[0];
      UnblankIsFaithful(s, first.start);
      SeededGrows(s, first.start);
      CompletesSeeds(P.Next(s, first.start), first.rest);
      var t := CommandEnds(s, first);
      UnblankSession(t, commands[1..]);
    }
  }

  lemma PlayCommand(s: P.Sys, first: Command, later: seq<P.Move>)
    requires P.Enabled(s, first.start)
    ensures P.Play(s, [first.start] + first.rest + later) == P.Play(P.Play(P.Next(s, first.start), first.rest), later)
  {
    var whole := [first.start] + first.rest + later;
    assert whole[1..] == first.rest + later;
    P.PlaySplit(P.Next(s, first.start), first.rest, later);
  }
}
