/** The specified gossip design with a revocation barrier, at any number of nodes and bearers. */
module BarrierGossip {
  datatype Config = Config(nodes: set<string>, bearers: set<string>)

  /** `network` holds the ordered pairs of nodes whose link entry is TRUE. */
  datatype State = State(
    ledgers: map<string, set<string>>,
    spent: map<string, set<string>>,
    network: set<(string, string)>,
    barrier: set<string>)

  ghost predicate TypeOK(c: Config, s: State) {
    && s.ledgers.Keys == c.nodes && s.spent.Keys == c.nodes
    && (forall n | n in c.nodes :: s.ledgers[n] <= c.bearers && s.spent[n] <= c.bearers)
    && (forall p | p in s.network :: p.0 in c.nodes && p.1 in c.nodes)
    && s.barrier <= c.bearers
  }

  /** Any placement of bearers, nothing spent, every link up. */
  ghost predicate Init(c: Config, s: State) {
    && TypeOK(c, s)
    && (forall n | n in c.nodes :: s.spent[n] == {})
    && s.network == (set a, b | a in c.nodes && b in c.nodes && a != b :: (a, b))
    && s.barrier == {}
  }

  ghost function ConnectedTo(c: Config, s: State, n: string): set<string> {
    set m | m in c.nodes && m != n && (n, m) in s.network
  }

  ghost predicate FullyConnected(c: Config, s: State) {
    forall a, b | a in c.nodes && b in c.nodes :: a == b || (a, b) in s.network
  }

  ghost predicate PartiallyIsolated(c: Config, s: State, n: string) {
    exists m :: m in c.nodes && m != n && (n, m) !in s.network
  }

  ghost predicate LinkDown(c: Config, s: State, t: State, n: string, m: string) {
    && n in c.nodes && m in c.nodes && n != m && (n, m) in s.network
    && t == s.(network := s.network - {(n, m), (m, n)})
  }

  ghost predicate LinkUp(c: Config, s: State, t: State, n: string, m: string)
    requires TypeOK(c, s)
  {
    && n in c.nodes && m in c.nodes && n != m && (n, m) !in s.network
    && var merged := (s.ledgers[n] + s.ledgers[m]) - (s.spent[n] + s.spent[m]) - s.barrier;
       t == s.(network := s.network + {(n, m), (m, n)}, ledgers := s.ledgers[n := merged][m := merged])
  }

  ghost predicate Propagate(c: Config, s: State, t: State, src: string, dst: string)
    requires TypeOK(c, s)
  {
    && src in c.nodes && dst in c.nodes && (src, dst) in s.network
    && var deliverable := s.ledgers[src] - s.spent[dst] - s.ledgers[dst] - s.barrier;
       && deliverable != {}
       && t == s.(ledgers := s.ledgers[dst := s.ledgers[dst] + deliverable])
  }

  ghost predicate SpendAt(c: Config, s: State, t: State, n: string, b: string)
    requires TypeOK(c, s)
  {
    && n in c.nodes && b in s.ledgers[n]
    && t.spent == s.spent[n := s.spent[n] + {b}]
    && t.ledgers == (map m | m in c.nodes ::
                       if m == n || m in ConnectedTo(c, s, n) then s.ledgers[m] - {b} else s.ledgers[m])
    && t.barrier == (if PartiallyIsolated(c, s, n) then s.barrier + {b} else s.barrier)
    && t.network == s.network
  }

  ghost predicate ClearBarrier(c: Config, s: State, t: State)
    requires TypeOK(c, s)
  {
    && FullyConnected(c, s)
    && (forall b, n | b in s.barrier && n in c.nodes :: b !in s.ledgers[n])
    && t == s.(barrier := {})
  }

  ghost predicate Next(c: Config, s: State, t: State)
    requires TypeOK(c, s)
  {
    || (exists n, m :: LinkDown(c, s, t, n, m))
    || (exists n, m :: LinkUp(c, s, t, n, m))
    || (exists src, dst :: Propagate(c, s, t, src, dst))
    || (exists n, b :: SpendAt(c, s, t, n, b))
    || ClearBarrier(c, s, t)
  }

  ghost predicate StepOrStutter(c: Config, s: State, t: State) {
    TypeOK(c, s) && (s == t || Next(c, s, t))
  }

  /** States one after another, each reached from the one before by a step or a stutter. */
  ghost predicate Path(c: Config, states: seq<State>) {
    states != [] && forall k | 0 <= k < |states| - 1 :: StepOrStutter(c, states[k], states[k + 1])
  }

  /** A finite behaviour. `TypeOK` costs nothing in a step: `PathInv` gives it. */
  ghost predicate Behaviour(c: Config, states: seq<State>) {
    Path(c, states) && Init(c, states[0])
  }

  function Last(states: seq<State>): State
    requires states != []
  {
    states[|states| - 1]
  }

  // ---- The three properties of the specification --------------------------------------------------

  ghost predicate DoubleSpent(c: Config, s: State, b: string)
    requires TypeOK(c, s)
  {
    exists n, m :: n in c.nodes && m in c.nodes && n != m && b in s.spent[n] && b in s.spent[m]
  }

  ghost predicate PairwiseSyncedNoDoubleSpend(c: Config, s: State)
    requires TypeOK(c, s)
  {
    forall n, m, b | n in c.nodes && m in c.nodes && (n, m) in s.network && (b in s.spent[n] || b in s.spent[m]) ::
      b !in s.ledgers[n] && b !in s.ledgers[m]
  }

  ghost predicate BarrierConsistent(c: Config, s: State)
    requires TypeOK(c, s)
  {
    FullyConnected(c, s) && s.barrier == {} ==>
      forall n, m, b | n in c.nodes && m in c.nodes && b in s.spent[n] :: b !in s.ledgers[m]
  }

  // ---- The inductive invariant ----------------------------------------------------------------------

  /** Every spent bearer is behind the barrier or held nowhere. */
  ghost predicate Fenced(c: Config, s: State)
    requires TypeOK(c, s)
  {
    forall n, m, b | n in c.nodes && m in c.nodes && b in s.spent[n] && b in s.ledgers[m] :: b in s.barrier
  }

  ghost predicate Symmetric(s: State) {
    forall n, m :: (n, m) in s.network ==> (m, n) in s.network && n != m
  }

  ghost predicate Inv(c: Config, s: State) {
    TypeOK(c, s) && Symmetric(s) && Fenced(c, s) && PairwiseSyncedNoDoubleSpend(c, s)
  }

  /** A node marks as spent only what it no longer holds, and the barrier has only what someone has spent. */
  ghost predicate Tidy(c: Config, s: State)
    requires TypeOK(c, s)
  {
    && (forall n | n in c.nodes :: s.ledgers[n] !! s.spent[n])
    && forall b | b in s.barrier :: exists n :: n in c.nodes && b in s.spent[n]
  }

  // ---- What a step can change, and when -------------------------------------------------------------------

  /** A bearer is spent where it is held, and behind the barrier at once if its spender lacks a link. */
  lemma SpendsExactly(c: Config, s: State, t: State, n: string, b: string)
    requires TypeOK(c, s) && Next(c, s, t) && n in c.nodes
    ensures t.spent.Keys == c.nodes && (b in s.spent[n] ==> b in t.spent[n])
    ensures b in t.spent[n] && b !in s.spent[n] ==> b in s.ledgers[n] && (PartiallyIsolated(c, s, n) ==> b in t.barrier)
  {
  }

  /** The barrier takes in only what a partially isolated node spends, and is lifted only as a whole, at peace. */
  lemma BarrierExactly(c: Config, s: State, t: State, b: string)
    requires TypeOK(c, s) && Next(c, s, t)
    ensures b in t.barrier && b !in s.barrier ==>
              exists n :: SpendAt(c, s, t, n, b) && PartiallyIsolated(c, s, n)
    ensures b in s.barrier && b !in t.barrier ==>
              && t.barrier == {} && FullyConnected(c, s) && t.ledgers == s.ledgers
              && forall n, x | n in c.nodes && x in s.barrier :: x !in s.ledgers[n]
  {
  }

  /** Nothing behind the barrier is ever handed on, nor what the receiver has spent, and only over a live link. */
  lemma GainsExactly(c: Config, s: State, t: State, n: string, b: string)
    requires TypeOK(c, s) && Next(c, s, t) && n in c.nodes
    ensures t.ledgers.Keys == c.nodes
    ensures b in t.ledgers[n] && b !in s.ledgers[n] ==>
              && b !in s.barrier && b !in s.spent[n]
              && exists m :: m in c.nodes && b in s.ledgers[m] && (m, n) in t.network
  {
    if p, q :| LinkUp(c, s, t, p, q) {
      if b in t.ledgers[n] && b !in s.ledgers[n] {
        var m := if n == p then q else p;
        assert b in s.ledgers[m] && (m, n) in t.network;
      }
    }
  }

  /** Each call is possible exactly under its guard, with these effects: links. */
  lemma LinkStepsPossible(c: Config, s: State, n: string, m: string)
    requires TypeOK(c, s) && n in c.nodes && m in c.nodes && n != m
    ensures (n, m) in s.network ==> Next(c, s, s.(network := s.network - {(n, m), (m, n)}))
    ensures (n, m) !in s.network ==>
              exists t :: Next(c, s, t) && t.network == s.network + {(n, m), (m, n)} && t.ledgers.Keys == c.nodes
                          && forall x :: x in t.ledgers[n] <==>
                               && (x in s.ledgers[n] || x in s.ledgers[m])
                               && x !in s.spent[n] && x !in s.spent[m] && x !in s.barrier
  {
    if (n, m) in s.network {
      assert LinkDown(c, s, s.(network := s.network - {(n, m), (m, n)}), n, m);
    } else {
      var merged := (s.ledgers[n] + s.ledgers[m]) - (s.spent[n] + s.spent[m]) - s.barrier;
      var t := s.(network := s.network + {(n, m), (m, n)}, ledgers := s.ledgers[n := merged][m := merged]);
      assert LinkUp(c, s, t, n, m);
    }
  }

  /** Holdings, spends and the barrier. */
  lemma OtherStepsPossible(c: Config, s: State, n: string, m: string, b: string)
    requires TypeOK(c, s) && n in c.nodes && m in c.nodes && b in s.ledgers[n]
    ensures (n, m) in s.network && b !in s.spent[m] && b !in s.ledgers[m] && b !in s.barrier ==>
              exists t :: Next(c, s, t) && t.ledgers.Keys == c.nodes && b in t.ledgers[m]
    ensures exists t :: Next(c, s, t) && t.spent.Keys == c.nodes && b in t.spent[n]
  {
    if (n, m) in s.network && b !in s.spent[m] && b !in s.ledgers[m] && b !in s.barrier {
      var more := s.ledgers[n] - s.spent[m] - s.ledgers[m] - s.barrier;
      var t := s.(ledgers := s.ledgers[m := s.ledgers[m] + more]);
      assert b in more && Propagate(c, s, t, n, m);
    }
    var ledgers := map x | x in c.nodes ::
      if x == n || x in ConnectedTo(c, s, n) then s.ledgers[x] - {b} else s.ledgers[x];
    var t := State(ledgers, s.spent[n := s.spent[n] + {b}], s.network,
                   if PartiallyIsolated(c, s, n) then s.barrier + {b} else s.barrier);
    assert SpendAt(c, s, t, n, b);
  }

  lemma ClearPossible(c: Config, s: State)
    requires TypeOK(c, s) && FullyConnected(c, s) && forall b, n | b in s.barrier && n in c.nodes :: b !in s.ledgers[n]
    ensures Next(c, s, s.(barrier := {}))
  {
    assert ClearBarrier(c, s, s.(barrier := {}));
  }

  lemma LinkDownKeeps(c: Config, s: State, t: State, n: string, m: string)
    requires Inv(c, s) && LinkDown(c, s, t, n, m)
    ensures Inv(c, t)
  {
  }

  lemma LinkUpKeeps(c: Config, s: State, t: State, n: string, m: string)
    requires Inv(c, s) && LinkUp(c, s, t, n, m)
    ensures Inv(c, t)
  {
  }

  lemma PropagateKeeps(c: Config, s: State, t: State, src: string, dst: string)
    requires Inv(c, s) && Propagate(c, s, t, src, dst)
    ensures Inv(c, t)
  {
  }

  lemma SpendPoints(c: Config, s: State, t: State, n: string, b: string, m: string, x: string)
    requires TypeOK(c, s) && SpendAt(c, s, t, n, b) && m in c.nodes
    ensures t.ledgers.Keys == c.nodes && t.spent.Keys == c.nodes
    ensures x in t.spent[m] <==> x in s.spent[m] || (m == n && x == b)
    ensures x in t.ledgers[m] <==> x in s.ledgers[m] && !(x == b && (m == n || (n, m) in s.network))
  {
  }

  lemma SpendFenced(c: Config, s: State, t: State, n: string, b: string)
    requires Inv(c, s) && SpendAt(c, s, t, n, b) && TypeOK(c, t)
    ensures Fenced(c, t)
  {
    forall p, m, x | p in c.nodes && m in c.nodes && x in t.spent[p] && x in t.ledgers[m] ensures x in t.barrier {
      SpendPoints(c, s, t, n, b, p, x);
      SpendPoints(c, s, t, n, b, m, x);
      if x == b {
        assert m != n && (n, m) !in s.network;
        assert PartiallyIsolated(c, s, n);
      }
    }
  }

  lemma SpendSynced(c: Config, s: State, t: State, n: string, b: string)
    requires Inv(c, s) && SpendAt(c, s, t, n, b) && TypeOK(c, t)
    ensures PairwiseSyncedNoDoubleSpend(c, t)
  {
    forall p, m, x | p in c.nodes && m in c.nodes && (p, m) in t.network && (x in t.spent[p] || x in t.spent[m])
      ensures x !in t.ledgers[p] && x !in t.ledgers[m]
    {
      SpendPoints(c, s, t, n, b, p, x);
      SpendPoints(c, s, t, n, b, m, x);
      assert (m, p) in s.network;
    }
  }

  lemma SpendTyped(c: Config, s: State, t: State, n: string, b: string)
    requires TypeOK(c, s) && SpendAt(c, s, t, n, b)
    ensures TypeOK(c, t)
  {
    assert b in c.bearers;
  }

  lemma SpendKeeps(c: Config, s: State, t: State, n: string, b: string)
    requires Inv(c, s) && SpendAt(c, s, t, n, b)
    ensures Inv(c, t)
  {
    SpendTyped(c, s, t, n, b);
    SpendFenced(c, s, t, n, b);
    SpendSynced(c, s, t, n, b);
  }

  lemma ClearKeeps(c: Config, s: State, t: State)
    requires Inv(c, s) && ClearBarrier(c, s, t)
    ensures Inv(c, t)
  {
    forall n, m, b | n in c.nodes && m in c.nodes && b in t.spent[n] ensures b !in t.ledgers[m] {
      assert b in s.spent[n];
      assert b in s.ledgers[m] ==> b in s.barrier;
    }
  }

  lemma NextKeeps(c: Config, s: State, t: State)
    requires Inv(c, s) && Next(c, s, t)
    ensures Inv(c, t)
  {
    if n, m :| LinkDown(c, s, t, n, m) {
      LinkDownKeeps(c, s, t, n, m);
    } else if n, m :| LinkUp(c, s, t, n, m) {
      LinkUpKeeps(c, s, t, n, m);
    } else if src, dst :| Propagate(c, s, t, src, dst) {
      PropagateKeeps(c, s, t, src, dst);
    } else if n, b :| SpendAt(c, s, t, n, b) {
      SpendKeeps(c, s, t, n, b);
    } else {
      ClearKeeps(c, s, t);
    }
  }

  lemma SpendTidy(c: Config, s: State, t: State, n: string, b: string)
    requires TypeOK(c, s) && TypeOK(c, t) && Tidy(c, s) && SpendAt(c, s, t, n, b)
    ensures Tidy(c, t)
  {
    forall m, x | m in c.nodes && x in t.ledgers[m] ensures x !in t.spent[m] {
      SpendPoints(c, s, t, n, b, m, x);
    }
    forall x | x in t.barrier ensures exists m :: m in c.nodes && x in t.spent[m] {
      if x == b {
        assert x in t.spent[n];
      } else {
        var m :| m in c.nodes && x in s.spent[m];
        assert x in t.spent[m];
      }
    }
  }

  lemma SameSpentTidy(c: Config, s: State, t: State)
    requires TypeOK(c, s) && TypeOK(c, t) && Tidy(c, s) && t.spent == s.spent && t.barrier <= s.barrier
    requires forall n | n in c.nodes :: t.ledgers[n] !! t.spent[n]
    ensures Tidy(c, t)
  {
  }

  lemma NextTidy(c: Config, s: State, t: State)
    requires TypeOK(c, s) && TypeOK(c, t) && Tidy(c, s) && Next(c, s, t)
    ensures Tidy(c, t)
  {
    if n, b :| SpendAt(c, s, t, n, b) {
      SpendTidy(c, s, t, n, b);
    } else {
      SameSpentTidy(c, s, t);
    }
  }

  lemma {:induction false} PathInv(c: Config, states: seq<State>)
    requires Path(c, states) && Inv(c, states[0]) && Tidy(c, states[0])
    ensures Inv(c, Last(states)) && Tidy(c, Last(states))
    decreases |states|
  {
    var k := |states| - 1;
    if k > 0 {
      assert StepOrStutter(c, states[k - 1], states[k - 1 + 1]);
      PathInv(c, states[..k]);
      if states[k] != states[k - 1] {
        NextKeeps(c, states[k - 1], states[k]);
        NextTidy(c, states[k - 1], states[k]);
      }
    }
  }

  /** Both safety properties hold at the end of every behaviour, for any nodes and bearers. */
  lemma BarrierSafety(c: Config, states: seq<State>)
    requires Behaviour(c, states)
    ensures TypeOK(c, Last(states))
    ensures PairwiseSyncedNoDoubleSpend(c, Last(states))
    ensures BarrierConsistent(c, Last(states))
  {
    PathInv(c, states);
  }

  // ---- The global property is not one of them ---------------------------------------------------------

  ghost predicate SomeDoubleSpent(c: Config, s: State) {
    TypeOK(c, s) && exists b :: DoubleSpent(c, s, b)
  }

  ghost predicate LeadsTo(c: Config, s: State, t: State) {
    exists states :: Path(c, states) && states[0] == s && Last(states) == t
  }

  ghost predicate CanDoubleSpend(c: Config, s: State) {
    exists t :: LeadsTo(c, s, t) && SomeDoubleSpent(c, t)
  }

  lemma LeadsNowhere(c: Config, s: State)
    ensures LeadsTo(c, s, s)
  {
    assert Path(c, [s]) && Last([s]) == s;
  }

  lemma LeadsFurther(c: Config, s: State, t: State, u: State)
    requires LeadsTo(c, s, t) && TypeOK(c, t) && Next(c, t, u)
    ensures LeadsTo(c, s, u)
  {
    var states :| Path(c, states) && states[0] == s && Last(states) == t;
    var longer := states + [u];
    forall k | 0 <= k < |longer| - 1 ensures StepOrStutter(c, longer[k], longer[k + 1]) {
      assert k < |states| - 1 ==> StepOrStutter(c, states[k], states[k + 1]);
    }
    assert longer[0] == s && Last(longer) == u;
  }

  lemma LeadsInv(c: Config, s: State, t: State)
    requires Inv(c, s) && Tidy(c, s) && LeadsTo(c, s, t)
    ensures Inv(c, t) && Tidy(c, t)
  {
    var states :| Path(c, states) && states[0] == s && Last(states) == t;
    PathInv(c, states);
  }

  lemma CutStep(c: Config, s: State, n: string, m: string) returns (t: State)
    requires Inv(c, s) && n in c.nodes && m in c.nodes && n != m && (n, m) in s.network
    ensures Next(c, s, t) && t == s.(network := s.network - {(n, m), (m, n)})
  {
    t := s.(network := s.network - {(n, m), (m, n)});
    assert LinkDown(c, s, t, n, m);
  }

  /** Restoring a link shares a bearer that neither end has spent and that is not behind the barrier. */
  lemma JoinStep(c: Config, s: State, n: string, m: string, b: string) returns (t: State)
    requires Inv(c, s) && n in c.nodes && m in c.nodes && n != m && (n, m) !in s.network
    requires b in s.ledgers[n] && b !in s.spent[n] && b !in s.spent[m] && b !in s.barrier
    ensures Next(c, s, t) && t.network == s.network + {(n, m), (m, n)} && t.spent == s.spent
    ensures t.ledgers.Keys == c.nodes && b in t.ledgers[n] && b in t.ledgers[m]
  {
    var merged := (s.ledgers[n] + s.ledgers[m]) - (s.spent[n] + s.spent[m]) - s.barrier;
    t := s.(network := s.network + {(n, m), (m, n)}, ledgers := s.ledgers[n := merged][m := merged]);
    assert LinkUp(c, s, t, n, m);
  }

  /** Cut the link if it is up: nothing else changes. */
  lemma Part(c: Config, s: State, t: State, n: string, m: string) returns (u: State)
    requires Inv(c, s) && Tidy(c, s) && LeadsTo(c, s, t) && n in c.nodes && m in c.nodes && n != m
    ensures LeadsTo(c, s, u) && Inv(c, t) && Inv(c, u) && Tidy(c, u)
    ensures (n, m) !in u.network && u.ledgers == t.ledgers && u.spent == t.spent && u.barrier == t.barrier
  {
    LeadsInv(c, s, t);
    u := t;
    if (n, m) in t.network {
      u := CutStep(c, t, n, m);
      LeadsFurther(c, s, t, u);
      LeadsInv(c, s, u);
    }
  }

  /** Cut a link, restore it, cut it again: both ends now hold a bearer nobody has spent. */
  lemma ShareAcross(c: Config, s: State, n: string, m: string, b: string) returns (t: State)
    requires Inv(c, s) && Tidy(c, s) && n in c.nodes && m in c.nodes && n != m && b in s.ledgers[n]
    requires forall p | p in c.nodes :: b !in s.spent[p]
    ensures LeadsTo(c, s, t) && Inv(c, t) && (n, m) !in t.network && b in t.ledgers[n] && b in t.ledgers[m]
  {
    LeadsNowhere(c, s);
    var cut := Part(c, s, s, n, m);
    var joined := JoinStep(c, cut, n, m, b);
    LeadsFurther(c, s, cut, joined);
    t := Part(c, s, joined, n, m);
  }

  ghost function Spent(c: Config, s: State, n: string, b: string): State
    requires TypeOK(c, s) && n in c.nodes
  {
    State(map m | m in c.nodes :: if m == n || m in ConnectedTo(c, s, n) then s.ledgers[m] - {b} else s.ledgers[m],
          s.spent[n := s.spent[n] + {b}],
          s.network,
          if PartiallyIsolated(c, s, n) then s.barrier + {b} else s.barrier)
  }

  /** A spend is recorded; a node with no link to the spender keeps what it holds. */
  lemma SpendOnce(c: Config, s: State, n: string, m: string, b: string) returns (t: State)
    requires Inv(c, s) && n in c.nodes && m in c.nodes && n != m && b in s.ledgers[n]
    ensures Next(c, s, t) && Inv(c, t) && b in t.spent[n] && s.spent[m] <= t.spent[m] && t.network == s.network
    ensures (n, m) !in s.network ==> t.ledgers[m] == s.ledgers[m]
  {
    t := Spent(c, s, n, b);
    assert SpendAt(c, s, t, n, b);
    SpendKeeps(c, s, t, n, b);
  }

  /** The holder of a bearer someone else has spent spends it too. */
  lemma SpendAfter(c: Config, s: State, n: string, m: string, b: string)
    requires Inv(c, s) && n in c.nodes && m in c.nodes && n != m && b in s.ledgers[n] && b in s.spent[m]
    ensures CanDoubleSpend(c, s)
  {
    var t := SpendOnce(c, s, n, m, b);
    LeadsNowhere(c, s);
    LeadsFurther(c, s, s, t);
    assert DoubleSpent(c, t, b);
    assert SomeDoubleSpent(c, t);
  }

  /** Two nodes share the bearer, part, and both spend it. */
  lemma SplitSpend(c: Config, s: State, n: string, m: string, b: string)
    requires Inv(c, s) && Tidy(c, s) && n in c.nodes && m in c.nodes && n != m && b in s.ledgers[n]
    requires forall p | p in c.nodes :: b !in s.spent[p]
    ensures CanDoubleSpend(c, s)
  {
    var t := ShareAcross(c, s, n, m, b);
    var once := SpendOnce(c, t, n, m, b);
    LeadsFurther(c, s, t, once);
    var twice := SpendOnce(c, once, m, n, b);
    LeadsFurther(c, s, once, twice);
    assert DoubleSpent(c, twice, b);
    assert SomeDoubleSpent(c, twice);
  }

  lemma {:induction false} NothingFromNothing(c: Config, states: seq<State>)
    requires Path(c, states) && Inv(c, states[0]) && Tidy(c, states[0]) && Barren(c, states[0])
    ensures Barren(c, Last(states)) && Last(states).spent == states[0].spent
    decreases |states|
  {
    var k := |states| - 1;
    if k > 0 {
      assert StepOrStutter(c, states[k - 1], states[k - 1 + 1]);
      NothingFromNothing(c, states[..k]);
      BarrenStep(c, states[k - 1], states[k]);
    }
  }

  ghost predicate Barren(c: Config, s: State) {
    TypeOK(c, s) && forall n | n in c.nodes :: s.ledgers[n] == {}
  }

  lemma BarrenStep(c: Config, s: State, t: State)
    requires Barren(c, s) && StepOrStutter(c, s, t)
    ensures Barren(c, t) && t.spent == s.spent
  {
    if n, m :| LinkUp(c, s, t, n, m) {
      BarrenLinkUp(c, s, t, n, m);
    } else {
      forall src, dst ensures !Propagate(c, s, t, src, dst) {
        BarrenStays(c, s, t, src, dst);
      }
    }
  }

  lemma BarrenLinkUp(c: Config, s: State, t: State, n: string, m: string)
    requires Barren(c, s) && LinkUp(c, s, t, n, m)
    ensures Barren(c, t) && t.spent == s.spent
  {
  }

  lemma BarrenStays(c: Config, s: State, t: State, src: string, dst: string)
    requires Barren(c, s)
    ensures !Propagate(c, s, t, src, dst)
  {
  }

  /**
   * From every state of the invariant: a double spend is reachable exactly when it is there, or two nodes have
   * something to spend.
   */
  lemma DoubleSpendReachableExactly(c: Config, s: State)
    requires Inv(c, s) && Tidy(c, s)
    ensures CanDoubleSpend(c, s) <==>
            || SomeDoubleSpent(c, s)
            || ((exists n, m :: n in c.nodes && m in c.nodes && n != m)
                && exists n :: n in c.nodes && s.ledgers[n] != {})
  {
    if SomeDoubleSpent(c, s) {
      LeadsNowhere(c, s);
    } else if n :| n in c.nodes && s.ledgers[n] != {} {
      var b :| b in s.ledgers[n];
      if p, q :| p in c.nodes && q in c.nodes && p != q {
        if m :| m in c.nodes && b in s.spent[m] {
          SpendAfter(c, s, n, m, b);
        } else {
          SplitSpend(c, s, n, if p == n then q else p, b);
        }
      }
    } else {
      forall t | LeadsTo(c, s, t) ensures !SomeDoubleSpent(c, t) {
        NothingSpent(c, s, t);
      }
    }
  }

  lemma NothingSpent(c: Config, s: State, t: State)
    requires Inv(c, s) && Tidy(c, s) && Barren(c, s) && LeadsTo(c, s, t) && !SomeDoubleSpent(c, s)
    ensures !SomeDoubleSpent(c, t)
  {
    var states :| Path(c, states) && states[0] == s && Last(states) == t;
    NothingFromNothing(c, states);
    if b :| TypeOK(c, t) && DoubleSpent(c, t, b) {
      assert DoubleSpent(c, s, b);
    }
  }

  /** Every initial state is one of these. */
  lemma InitHolds(c: Config, s: State)
    requires Init(c, s)
    ensures Inv(c, s) && Tidy(c, s)
  {
  }
}
