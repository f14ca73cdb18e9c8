/** The policy gate specification: runs, safety, stability, eventual decision and a bound on work. */
module PolicyGate {
  import opened Core

  datatype Decision = Undecided | Approved | Blocked | Deferred

  datatype Config = Config(nodes: set<string>, actions: set<string>)

  /** `up` holds the nodes that are reachable. */
  datatype State = State(
    pending: set<string>,
    confirmations: map<string, set<string>>,
    decisions: map<string, Decision>,
    up: set<string>)

  ghost predicate TypeOK(c: Config, s: State) {
    && s.pending <= c.actions
    && s.confirmations.Keys == c.actions && s.decisions.Keys == c.actions
    && (forall a | a in c.actions :: s.confirmations[a] <= c.nodes)
    && s.up <= c.nodes
  }

  ghost predicate Init(c: Config, s: State) {
    && s.pending == {}
    && s.confirmations == (map a | a in c.actions :: {})
    && s.decisions == (map a | a in c.actions :: Undecided)
    && s.up == c.nodes
  }

  ghost predicate Open(c: Config, s: State, a: string)
    requires TypeOK(c, s)
  {
    a in s.pending && s.decisions[a] == Undecided
  }

  ghost predicate ProposeAction(c: Config, s: State, t: State, a: string)
    requires TypeOK(c, s)
  {
    && a in c.actions && a !in s.pending && s.decisions[a] == Undecided
    && t == s.(pending := s.pending + {a})
  }

  ghost predicate NodeConfirms(c: Config, s: State, t: State, n: string, a: string)
    requires TypeOK(c, s)
  {
    && n in c.nodes && Open(c, s, a) && n in s.up
    && t == s.(confirmations := s.confirmations[a := s.confirmations[a] + {n}])
  }

  ghost predicate NodeBlocks(c: Config, s: State, t: State, n: string, a: string)
    requires TypeOK(c, s)
  {
    && n in c.nodes && Open(c, s, a) && n in s.up
    && t == s.(decisions := s.decisions[a := Blocked])
  }

  /** What makes an approval possible. */
  ghost predicate Confirmed(c: Config, s: State, a: string)
    requires TypeOK(c, s)
  {
    Open(c, s, a) && s.confirmations[a] == c.nodes
  }

  ghost predicate ApproveIfQuorumConfirmed(c: Config, s: State, t: State, a: string)
    requires TypeOK(c, s)
  {
    Confirmed(c, s, a) && t == s.(decisions := s.decisions[a := Approved])
  }

  ghost predicate DeferIfUnreachable(c: Config, s: State, t: State, a: string)
    requires TypeOK(c, s)
  {
    && Open(c, s, a)
    && (exists n :: n in c.nodes && n !in s.up && n !in s.confirmations[a])
    && t == s.(decisions := s.decisions[a := Deferred])
  }

  ghost predicate LinkDown(c: Config, s: State, t: State, n: string) {
    n in c.nodes && t == s.(up := s.up - {n})
  }

  ghost predicate LinkUp(c: Config, s: State, t: State, n: string) {
    n in c.nodes && t == s.(up := s.up + {n})
  }

  /** A step of the gate itself, as opposed to a link going up or down. */
  ghost predicate GateStep(c: Config, s: State, t: State)
    requires TypeOK(c, s)
  {
    || (exists a :: ProposeAction(c, s, t, a))
    || (exists n, a :: NodeConfirms(c, s, t, n, a))
    || (exists n, a :: NodeBlocks(c, s, t, n, a))
    || (exists a :: ApproveIfQuorumConfirmed(c, s, t, a))
    || (exists a :: DeferIfUnreachable(c, s, t, a))
  }

  ghost predicate LinkStep(c: Config, s: State, t: State) {
    || (exists n :: LinkDown(c, s, t, n))
    || (exists n :: LinkUp(c, s, t, n))
  }

  ghost predicate Next(c: Config, s: State, t: State)
    requires TypeOK(c, s)
  {
    GateStep(c, s, t) || LinkStep(c, s, t)
  }

  lemma NextTypeOK(c: Config, s: State, t: State)
    requires TypeOK(c, s) && Next(c, s, t)
    ensures TypeOK(c, t)
  {
    if a :| ProposeAction(c, s, t, a) {
    } else if n, a :| NodeConfirms(c, s, t, n, a) {
    } else if n, a :| NodeBlocks(c, s, t, n, a) {
    } else if a :| ApproveIfQuorumConfirmed(c, s, t, a) {
    } else if a :| DeferIfUnreachable(c, s, t, a) {
    } else if n :| LinkDown(c, s, t, n) {
    } else {
      var n :| LinkUp(c, s, t, n);
    }
  }

  // ---- What a step can change, and when -------------------------------------------------------------------

  /** A confirmation is added only to an open action and only by a reachable node; none is taken back. */
  lemma ConfirmationsGrow(c: Config, s: State, t: State, a: string, n: string)
    requires TypeOK(c, s) && Next(c, s, t) && a in c.actions
    ensures TypeOK(c, t)
    ensures n in s.confirmations[a] ==> n in t.confirmations[a]
    ensures n in t.confirmations[a] && n !in s.confirmations[a] ==> n in s.up && Open(c, s, a)
  {
    NextTypeOK(c, s, t);
  }

  /** Actions enter the system undecided and never leave it. */
  lemma PendingGrows(c: Config, s: State, t: State, a: string)
    requires TypeOK(c, s) && Next(c, s, t)
    ensures a in s.pending ==> a in t.pending
    ensures a in t.pending && a !in s.pending ==> a in c.actions && s.decisions[a] == Undecided
  {
  }

  /** A decision is taken only on an open action: approval, block and deferral each for their own reason. */
  lemma DecisionsExactly(c: Config, s: State, t: State, a: string)
    requires TypeOK(c, s) && Next(c, s, t) && a in c.actions
    ensures TypeOK(c, t)
    ensures t.decisions[a] != s.decisions[a] ==> Open(c, s, a) && t.decisions[a] != Undecided
    ensures t.decisions[a] != s.decisions[a] && t.decisions[a] == Approved ==> s.confirmations[a] == c.nodes
    ensures t.decisions[a] != s.decisions[a] && t.decisions[a] == Blocked ==> exists n :: n in c.nodes && n in s.up
    ensures t.decisions[a] != s.decisions[a] && t.decisions[a] == Deferred ==>
              exists n :: n in c.nodes && n !in s.up && n !in s.confirmations[a]
  {
    NextTypeOK(c, s, t);
  }

  /** And each of these can happen whenever its reason is there. */
  lemma DecisionsPossible(c: Config, s: State, a: string, n: string, d: Decision)
    requires TypeOK(c, s) && Open(c, s, a) && n in c.nodes
    requires d == Approved ==> s.confirmations[a] == c.nodes
    requires d == Blocked ==> n in s.up
    requires d == Deferred ==> n !in s.up && n !in s.confirmations[a]
    requires d != Undecided
    ensures Next(c, s, s.(decisions := s.decisions[a := d]))
  {
    var t := s.(decisions := s.decisions[a := d]);
    match d
    case Approved => assert ApproveIfQuorumConfirmed(c, s, t, a);
    case Blocked => assert NodeBlocks(c, s, t, n, a);
    case Deferred => assert DeferIfUnreachable(c, s, t, a);
    case Undecided =>
  }

  lemma WorkPossible(c: Config, s: State, a: string, n: string)
    requires TypeOK(c, s) && a in c.actions && n in c.nodes && s.decisions[a] == Undecided
    ensures a !in s.pending ==> Next(c, s, s.(pending := s.pending + {a}))
    ensures a in s.pending && n in s.up ==>
              Next(c, s, s.(confirmations := s.confirmations[a := s.confirmations[a] + {n}]))
    ensures Next(c, s, s.(up := s.up - {n})) && Next(c, s, s.(up := s.up + {n}))
  {
    if a !in s.pending {
      assert ProposeAction(c, s, s.(pending := s.pending + {a}), a);
    } else if n in s.up {
      assert NodeConfirms(c, s, s.(confirmations := s.confirmations[a := s.confirmations[a] + {n}]), n, a);
    }
    assert LinkDown(c, s, s.(up := s.up - {n}), n) && LinkUp(c, s, s.(up := s.up + {n}), n);
  }

  // ---- Infinite runs ------------------------------------------------------------------------------

  type Behaviour = nat -> State

  /** `TypeOK` is there for `Next` to be defined; `RunTypeOK` shows that it always holds. */
  ghost predicate StepOrStutter(c: Config, s: State, t: State) {
    s == t || (TypeOK(c, s) && Next(c, s, t))
  }

  ghost predicate StepAt(c: Config, run: Behaviour, i: nat) {
    StepOrStutter(c, run(i), run(i + 1))
  }

  ghost predicate IsRun(c: Config, run: Behaviour) {
    Init(c, run(0)) && forall i: nat :: StepAt(c, run, i)
  }

  lemma {:induction false} RunTypeOK(c: Config, run: Behaviour, i: nat)
    requires IsRun(c, run)
    ensures TypeOK(c, run(i))
  {
    if i > 0 {
      RunTypeOK(c, run, i - 1);
      assert StepAt(c, run, i - 1);
      if run(i) != run(i - 1) {
        NextTypeOK(c, run(i - 1), run(i));
      }
    }
  }

  // ---- Safety ----------------------------------------------------------------------------------------

  ghost predicate NoActionApprovedWithoutFullConfirmation(c: Config, s: State)
    requires TypeOK(c, s)
  {
    forall a | a in c.actions && s.decisions[a] == Approved :: s.confirmations[a] == c.nodes
  }

  /** A decision, once taken, is never changed, and with it the confirmations it rests on. */
  lemma DecisionIsFinal(c: Config, s: State, t: State, a: string)
    requires TypeOK(c, s) && Next(c, s, t) && a in c.actions && s.decisions[a] != Undecided
    ensures TypeOK(c, t) && t.decisions[a] == s.decisions[a] && t.confirmations[a] == s.confirmations[a]
  {
    NextTypeOK(c, s, t);
  }

  lemma StepKeepsApproval(c: Config, s: State, t: State)
    requires TypeOK(c, s) && TypeOK(c, t) && Next(c, s, t) && NoActionApprovedWithoutFullConfirmation(c, s)
    ensures NoActionApprovedWithoutFullConfirmation(c, t)
  {
    forall a | a in c.actions && t.decisions[a] == Approved ensures t.confirmations[a] == c.nodes {
      if s.decisions[a] != Undecided {
        DecisionIsFinal(c, s, t, a);
      } else {
        ApprovedNow(c, s, t, a);
      }
    }
  }

  lemma ApprovedNow(c: Config, s: State, t: State, a: string)
    requires TypeOK(c, s) && TypeOK(c, t) && Next(c, s, t)
    requires a in c.actions && s.decisions[a] == Undecided && t.decisions[a] == Approved
    ensures t.confirmations[a] == c.nodes
  {
  }

  /** In every run, an approved action has been confirmed by every node. */
  lemma {:induction false} ApprovalNeedsEveryNode(c: Config, run: Behaviour, i: nat)
    requires IsRun(c, run)
    ensures TypeOK(c, run(i)) && NoActionApprovedWithoutFullConfirmation(c, run(i))
  {
    RunTypeOK(c, run, i);
    if i > 0 {
      ApprovalNeedsEveryNode(c, run, i - 1);
      assert StepAt(c, run, i - 1);
      if run(i) != run(i - 1) {
        StepKeepsApproval(c, run(i - 1), run(i));
      }
    }
  }

  /** A confirmation given at this point of the run, by a node reachable then. */
  ghost predicate ConfirmsAt(c: Config, run: Behaviour, k: nat, a: string, n: string) {
    && TypeOK(c, run(k)) && TypeOK(c, run(k + 1)) && a in c.actions && Open(c, run(k), a) && n in run(k).up
    && n !in run(k).confirmations[a] && n in run(k + 1).confirmations[a]
  }

  /** In every run each confirmation was given while its node was reachable and the action open. */
  lemma {:induction false} ConfirmedWhileReachable(c: Config, run: Behaviour, i: nat, a: string, n: string)
    requires IsRun(c, run) && a in c.actions && TypeOK(c, run(i)) && n in run(i).confirmations[a]
    ensures exists k: nat :: k < i && ConfirmsAt(c, run, k, a, n)
  {
    assert i > 0;
    RunTypeOK(c, run, i - 1);
    assert StepAt(c, run, i - 1);
    if n in run(i - 1).confirmations[a] {
      ConfirmedWhileReachable(c, run, i - 1, a, n);
    } else {
      ConfirmationsGrow(c, run(i - 1), run(i), a, n);
      assert ConfirmsAt(c, run, i - 1, a, n);
    }
  }

  lemma DecisionStays(c: Config, s: State, t: State, a: string)
    requires StepOrStutter(c, s, t) && TypeOK(c, s) && a in c.actions && s.decisions[a] != Undecided
    ensures TypeOK(c, t) && t.decisions[a] == s.decisions[a]
  {
    if t != s {
      DecisionIsFinal(c, s, t, a);
    }
  }

  lemma DecisionNext(c: Config, run: Behaviour, j: nat, a: string)
    requires IsRun(c, run) && TypeOK(c, run(j)) && a in c.actions && run(j).decisions[a] != Undecided
    ensures TypeOK(c, run(j + 1)) && run(j + 1).decisions[a] == run(j).decisions[a]
  {
    assert StepAt(c, run, j);
    DecisionStays(c, run(j), run(j + 1), a);
  }

  /** Decisions are written once: from the moment one is taken it stays what it is. */
  lemma {:induction false} DecisionsAreWriteOnce(c: Config, run: Behaviour, i: nat, j: nat, a: string)
    requires IsRun(c, run) && i <= j && a in c.actions
    requires TypeOK(c, run(i)) && run(i).decisions[a] != Undecided
    ensures TypeOK(c, run(j)) && run(j).decisions[a] == run(i).decisions[a]
    decreases j
  {
    if i < j {
      DecisionsAreWriteOnce(c, run, i, j - 1, a);
      DecisionNext(c, run, j - 1, a);
    }
  }

  // ---- Stability and eventual decision --------------------------------------------------------------

  /** Once every node has confirmed, no step but an approval or a block of that action ends the wait. */
  lemma ConfirmedIsStable(c: Config, s: State, t: State, a: string)
    requires TypeOK(c, s) && Next(c, s, t) && a in c.actions && Confirmed(c, s, a)
    ensures TypeOK(c, t)
    ensures Confirmed(c, t, a) || t.decisions[a] == Approved || t.decisions[a] == Blocked
  {
    NextTypeOK(c, s, t);
  }

  ghost predicate ConfirmedAt(c: Config, run: Behaviour, j: nat, a: string) {
    TypeOK(c, run(j)) && Confirmed(c, run(j), a)
  }

  ghost predicate ApprovedAt(c: Config, run: Behaviour, k: nat, a: string) {
    TypeOK(c, run(k)) && ApproveIfQuorumConfirmed(c, run(k), run(k + 1), a)
  }

  ghost predicate ConfirmedFrom(c: Config, run: Behaviour, i: nat, a: string) {
    forall j: nat | i <= j :: ConfirmedAt(c, run, j, a)
  }

  /** Weak fairness of approving `a`: if it stays possible from some point on, it is eventually taken. */
  ghost predicate WeaklyFair(c: Config, run: Behaviour, a: string) {
    forall i: nat | ConfirmedFrom(c, run, i, a) :: exists k: nat | i <= k :: ApprovedAt(c, run, k, a)
  }

  ghost predicate DecidedAt(c: Config, run: Behaviour, j: nat, a: string) {
    TypeOK(c, run(j)) && a in c.actions && (run(j).decisions[a] == Approved || run(j).decisions[a] == Blocked)
  }

  lemma {:induction false} ConfirmedUntilDecided(c: Config, run: Behaviour, i: nat, j: nat, a: string)
    requires IsRun(c, run) && a in c.actions && i <= j
    requires TypeOK(c, run(i)) && Confirmed(c, run(i), a)
    requires forall k: nat | i <= k <= j :: !DecidedAt(c, run, k, a)
    ensures TypeOK(c, run(j)) && Confirmed(c, run(j), a)
    decreases j
  {
    if i < j {
      ConfirmedUntilDecided(c, run, i, j - 1, a);
      assert StepAt(c, run, j - 1);
      if run(j) != run(j - 1) {
        ConfirmedIsStable(c, run(j - 1), run(j), a);
        assert !DecidedAt(c, run, j, a);
      }
    }
  }

  /** Under weak fairness a pending action that every node has confirmed is eventually approved or blocked. */
  lemma EventuallyDecided(c: Config, run: Behaviour, i: nat, a: string)
    requires IsRun(c, run) && a in c.actions && WeaklyFair(c, run, a)
    requires TypeOK(c, run(i)) && Confirmed(c, run(i), a)
    ensures exists j: nat :: i <= j && DecidedAt(c, run, j, a)
  {
    if !(exists j: nat :: i <= j && DecidedAt(c, run, j, a)) {
      forall j: nat | i <= j ensures ConfirmedAt(c, run, j, a) {
        ConfirmedUntilDecided(c, run, i, j, a);
      }
      assert ConfirmedFrom(c, run, i, a);
      var k: nat :| i <= k && ApprovedAt(c, run, k, a);
      ApprovalDecides(c, run, k, a);
    }
  }

  lemma ApprovalDecides(c: Config, run: Behaviour, k: nat, a: string)
    requires IsRun(c, run) && a in c.actions && ApprovedAt(c, run, k, a)
    ensures DecidedAt(c, run, k + 1, a)
  {
    RunTypeOK(c, run, k + 1);
  }

  // ---- A bound on the gate's work ---------------------------------------------------------------------

  function ConfirmedPairs(s: State): set<(string, string)> {
    set a, n | a in s.confirmations && n in s.confirmations[a] :: (a, n)
  }

  function DecidedActions(s: State): set<string> {
    set a | a in s.decisions && s.decisions[a] != Undecided
  }

  /** Proposals, confirmations and decisions made so far. */
  function Progress(s: State): nat {
    |s.pending| + |ConfirmedPairs(s)| + |DecidedActions(s)|
  }

  lemma ProgressBounded(c: Config, s: State)
    requires TypeOK(c, s)
    ensures Progress(s) <= |c.actions| * (|c.nodes| + 2)
  {
    PairCount(c.actions, c.nodes, ConfirmedPairs(s));
    SubsetCount(s.pending, c.actions);
    SubsetCount(DecidedActions(s), c.actions);
    assert |c.actions| * (|c.nodes| + 2) == |c.actions| * |c.nodes| + |c.actions| + |c.actions|;
  }

  lemma LinkStepKeepsProgress(c: Config, s: State, t: State)
    requires LinkStep(c, s, t)
    ensures Progress(t) == Progress(s)
  {
  }

  lemma ProposeProgress(c: Config, s: State, t: State, a: string)
    requires TypeOK(c, s) && ProposeAction(c, s, t, a)
    ensures Progress(t) == Progress(s) + 1
  {
    assert ConfirmedPairs(t) == ConfirmedPairs(s) && DecidedActions(t) == DecidedActions(s);
  }

  lemma ConfirmProgress(c: Config, s: State, t: State, n: string, a: string)
    requires TypeOK(c, s) && NodeConfirms(c, s, t, n, a) && t != s
    ensures Progress(t) == Progress(s) + 1
  {
    assert a in c.actions;
    var wider := s.confirmations[a] + {n};
    assert wider == s.confirmations[a] || n !in s.confirmations[a];
    assert s.confirmations[a := s.confirmations[a]] == s.confirmations;
    assert ConfirmedPairs(t) == ConfirmedPairs(s) + {(a, n)};
    assert (a, n) !in ConfirmedPairs(s);
    assert DecidedActions(t) == DecidedActions(s);
  }

  lemma DecideProgress(c: Config, s: State, t: State, a: string, d: Decision)
    requires TypeOK(c, s) && Open(c, s, a) && d != Undecided && t == s.(decisions := s.decisions[a := d])
    ensures Progress(t) == Progress(s) + 1
  {
    assert a in c.actions;
    assert ConfirmedPairs(t) == ConfirmedPairs(s);
    assert DecidedActions(t) == DecidedActions(s) + {a} && a !in DecidedActions(s);
  }

  /** Every effective gate step makes exactly one unit of progress, link steps make none. */
  lemma GateStepProgress(c: Config, s: State, t: State)
    requires TypeOK(c, s) && GateStep(c, s, t) && t != s
    ensures Progress(t) == Progress(s) + 1
  {
    if a :| ProposeAction(c, s, t, a) {
      ProposeProgress(c, s, t, a);
    } else if n, a :| NodeConfirms(c, s, t, n, a) {
      ConfirmProgress(c, s, t, n, a);
    } else if n, a :| NodeBlocks(c, s, t, n, a) {
      DecideProgress(c, s, t, a, Blocked);
    } else if a :| ApproveIfQuorumConfirmed(c, s, t, a) {
      DecideProgress(c, s, t, a, Approved);
    } else {
      var a :| DeferIfUnreachable(c, s, t, a);
      DecideProgress(c, s, t, a, Deferred);
    }
  }

  /** Effective gate steps among the first `i` steps of a run. */
  ghost function GateSteps(c: Config, run: Behaviour, i: nat): nat {
    if i == 0 then 0
    else GateSteps(c, run, i - 1) +
         (if run(i) != run(i - 1) && !LinkStep(c, run(i - 1), run(i)) then 1 else 0)
  }

  lemma {:induction false} StepsAreProgress(c: Config, run: Behaviour, i: nat)
    requires IsRun(c, run)
    ensures GateSteps(c, run, i) <= Progress(run(i))
  {
    if i > 0 {
      StepsAreProgress(c, run, i - 1);
      RunTypeOK(c, run, i - 1);
      assert StepAt(c, run, i - 1);
      if run(i) != run(i - 1) {
        if LinkStep(c, run(i - 1), run(i)) {
          LinkStepKeepsProgress(c, run(i - 1), run(i));
        } else {
          GateStepProgress(c, run(i - 1), run(i));
        }
      }
    }
  }

  /** No run takes more than actions times (nodes plus two) effective gate steps. */
  lemma GateWorkIsBounded(c: Config, run: Behaviour, i: nat)
    requires IsRun(c, run)
    ensures GateSteps(c, run, i) <= |c.actions| * (|c.nodes| + 2)
  {
    StepsAreProgress(c, run, i);
    RunTypeOK(c, run, i);
    ProgressBounded(c, run(i));
  }
}
