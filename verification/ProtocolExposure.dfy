/** Exposure and finality in the distributed protocol, with messages in flight. */
module ProtocolExposure {
  import opened Wire
  import opened ProtocolSafety
  import P = Protocol

  /** A message in flight that, as it will be read, would hand the bearer to a node that has not spent it. */
  ghost predicate Carries(s: P.Sys, e: P.Envelope, b: string) {
    e in s.bag && b in P.Cargo(AsHeard(e.msg)) && !s.HasSpent(e.dst, b)
  }

  /** The bearer is held by some node, or on its way to one that could take it. */
  ghost predicate Live(s: P.Sys, b: string) {
    || (exists n :: s.Holds(n, b))
    || (exists e :: Carries(s, e, b))
  }

  lemma EmittedCargo(s: P.Sys, move: P.Move, e: P.Envelope, b: string)
    requires P.Enabled(s, move) && Emits(s, move, e) && b in P.Cargo(e.msg)
    ensures exists n :: s.Holds(n, b)
  {
    match move
    case Greet(n, m) => assert s.Holds(n, b);
    case Deliver(f) => assert s.Holds(f.dst, b);
    case Spend(_, _) =>
    case Close(_) =>
    case Cut(_, _) =>
    case Pull(_, _) =>
    case Ask(_, _) =>
  }

  lemma DeadUnheld(s: P.Sys, move: P.Move, b: string, n: string)
    requires Sane(s) && b in s.seeded && !Live(s, b)
    ensures !P.Do(s, move).Holds(n, b) && (P.Do(s, move).HasSpent(n, b) <==> s.HasSpent(n, b))
  {
    assert !s.Holds(n, b);
    P.DoSpent(s, move, n, b);
    P.DoHolds(s, move, n, b);
    if P.Enabled(s, move) && move.Deliver? {
      assert !Carries(s, move.e, b);
      ReadsExactly(s, move.e);
      P.ReceivedNode(s.nodes[move.e.dst], AsHeard(move.e.msg), b);
    }
  }

  lemma DeadUncarried(s: P.Sys, move: P.Move, b: string, e: P.Envelope)
    requires Sane(s) && b in s.seeded && !Live(s, b) && P.Enabled(s, move)
    ensures !Carries(P.Do(s, move), e, b)
  {
    P.DoSpent(s, move, e.dst, b);
    if e in P.Do(s, move).bag && b in P.Cargo(AsHeard(e.msg)) {
      HeardCargo(e.msg, b);
      SaneReads(s, move);
      EmitsOnly(s, move, e);
      if e in s.bag {
        assert !Carries(s, e, b);
      } else {
        EmittedCargo(s, move, e, b);
      }
    }
  }

  /** A dead bearer stays dead and gains no spender, in whatever order messages arrive. */
  lemma DeadStays(s: P.Sys, move: P.Move, b: string)
    requires Sane(s) && b in s.seeded && !Live(s, b)
    ensures !Live(P.Do(s, move), b)
    ensures forall n :: P.Do(s, move).HasSpent(n, b) <==> s.HasSpent(n, b)
  {
    forall n ensures !P.Do(s, move).Holds(n, b) && (P.Do(s, move).HasSpent(n, b) <==> s.HasSpent(n, b)) {
      DeadUnheld(s, move, b, n);
    }
    forall e ensures !Carries(P.Do(s, move), e, b) {
      if P.Enabled(s, move) {
        DeadUncarried(s, move, b, e);
      } else {
        assert !Carries(s, e, b);
      }
    }
  }

  /**
   * Distributed finality: once a seeded bearer is neither held nor on its way to a taker, no run holds or spends it
   * again.
   */
  lemma {:induction false} DistributedFinality(s: P.Sys, moves: seq<P.Move>, b: string)
    requires Sane(s) && b in s.seeded && !Live(s, b)
    ensures !Live(P.Play(s, moves), b)
    ensures forall n :: P.Play(s, moves).HasSpent(n, b) <==> s.HasSpent(n, b)
    decreases |moves|
  {
    if moves != [] {
      DoKeepsSane(s, moves[0]);
      DeadStays(s, moves[0], b);
      SeededGrows(s, moves[0]);
      DistributedFinality(P.Do(s, moves[0]), moves[1..], b);
    }
  }

  ghost predicate CanGainSpender(s: P.Sys, b: string) {
    exists moves, n :: !s.HasSpent(n, b) && P.Play(s, moves).HasSpent(n, b)
  }

  lemma HeldIsExposed(s: P.Sys, n: string, b: string)
    requires Sane(s) && s.Holds(n, b)
    ensures CanGainSpender(s, b)
  {
    P.PlayOne(s, P.Spend(n, b));
    P.DoSpent(s, P.Spend(n, b), n, b);
    assert !s.HasSpent(n, b) && P.Play(s, [P.Spend(n, b)]).HasSpent(n, b);
  }

  /** No message in flight hands over what it reports spent. */
  lemma HeardApart(s: P.Sys, e: P.Envelope, b: string)
    requires Sane(s) && e in s.bag && b in P.Cargo(AsHeard(e.msg))
    ensures b !in P.Reported(AsHeard(e.msg))
  {
    assert Truthful(s, e);
    HeardCargo(e.msg, b);
  }

  /** A carried bearer is held by its receiver once delivered. */
  lemma CarriedArrives(s: P.Sys, e: P.Envelope, b: string)
    requires Sane(s) && Carries(s, e, b)
    ensures P.Do(s, P.Deliver(e)).Holds(e.dst, b)
  {
    assert Truthful(s, e);
    ReadsExactly(s, e);
    P.ReceivedNode(s.nodes[e.dst], AsHeard(e.msg), b);
    HeardApart(s, e, b);
    P.DoHolds(s, P.Deliver(e), e.dst, b);
  }

  lemma CarriedIsExposed(s: P.Sys, e: P.Envelope, b: string)
    requires Sane(s) && Carries(s, e, b)
    ensures CanGainSpender(s, b)
  {
    CarriedArrives(s, e, b);
    P.PlayTwo(s, P.Deliver(e), P.Spend(e.dst, b));
    P.DoSpent(P.Do(s, P.Deliver(e)), P.Spend(e.dst, b), e.dst, b);
    assert !s.HasSpent(e.dst, b) && P.Play(s, [P.Deliver(e), P.Spend(e.dst, b)]).HasSpent(e.dst, b);
  }

  /** Exact exposure: a seeded bearer can gain a spender exactly while it is held or on its way to a taker. */
  lemma DistributedExposureExact(s: P.Sys, b: string)
    requires Sane(s) && b in s.seeded
    ensures CanGainSpender(s, b) <==> Live(s, b)
  {
    if n :| s.Holds(n, b) {
      HeldIsExposed(s, n, b);
    } else if e :| Carries(s, e, b) {
      CarriedIsExposed(s, e, b);
    } else {
      forall moves, n | P.Play(s, moves).HasSpent(n, b) ensures s.HasSpent(n, b) {
        DistributedFinality(s, moves, b);
      }
    }
  }
}
