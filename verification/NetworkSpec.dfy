/** The central ledger network as a state machine: the state of `Network`, its five calls, and runs of calls. */
module NetworkSpec {
  import opened Core

  /** One node's view: the bearers it holds and the bearers it has itself spent. */
  datatype Node = Node(nodeId: string, ledger: set<string>, spent: set<string>)

  type LinkTable = map<string, map<string, bool>>

  predicate Linked(links: LinkTable, n: string, m: string) {
    n in links && m in links[n] && links[n][m]
  }

  /** The link table has a row for each known node, and each row an entry for every known node. */
  ghost predicate Square(links: LinkTable, ids: set<string>) {
    && links.Keys == ids
    && (forall n, m | n in links && m in links :: m in links[n])
  }

  ghost predicate Symmetric(links: LinkTable) {
    && (forall n :: !Linked(links, n, n))
    && (forall n, m :: Linked(links, n, m) ==> Linked(links, m, n))
  }

  datatype LogEntry =
    | LinkDownLogged(n: string, m: string)
    | LinkUpLogged(n: string, m: string)
    | PropagateLogged(src: string, dst: string, delivered: set<string>)
    | SpendLogged(n: string, bearer: string)
    | SettlementLogged(participants: set<string>, cleared: set<string>)

  datatype State = State(nodes: map<string, Node>, links: LinkTable, log: seq<LogEntry>) {

    /** The link table is square over the known nodes, symmetric, and has no self link. */
    ghost predicate Valid() {
      && (forall n | n in nodes :: nodes[n].nodeId == n)
      && Square(links, nodes.Keys)
      && Symmetric(links)
    }

    /** A node marks as spent only what it no longer holds. */
    ghost predicate Disjoint() {
      forall n | n in nodes :: nodes[n].ledger !! nodes[n].spent
    }

    predicate Up(n: string, m: string) {
      Linked(links, n, m)
    }

    predicate Holds(n: string, b: string) {
      n in nodes && b in nodes[n].ledger
    }

    predicate HasSpent(n: string, b: string) {
      n in nodes && b in nodes[n].spent
    }

    function ConnectedTo(n: string): set<string> {
      if n in links then set m | m in links[n] && m != n && Linked(links, n, m) else {}
    }

    function Spenders(b: string): set<string> {
      set n | n in nodes && b in nodes[n].spent
    }

    /** Every bearer that some node holds or has spent. */
    function Bearers(): set<string> {
      set n, b | n in nodes && b in nodes[n].ledger + nodes[n].spent :: b
    }

    /** The participants of a settlement that exist: all nodes when none are named. */
    function Members(participants: Option<set<string>>): set<string> {
      if participants.None? then nodes.Keys else participants.value * nodes.Keys
    }

    function SpentBy(members: set<string>): set<string> {
      set n, b | n in members && n in nodes && b in nodes[n].spent :: b
    }

    function SpendersAmong(members: set<string>, b: string): set<string> {
      set n | n in members && n in nodes && b in nodes[n].spent
    }
  }

  datatype Action =
    | LinkDown(n: string, m: string)
    | LinkUp(n: string, m: string)
    | Propagate(src: string, dst: string)
    | SpendAt(n: string, bearer: string)
    | ConversionDay(participants: Option<set<string>>)

  function SetLink(links: LinkTable, n: string, m: string, up: bool): LinkTable
    requires n in links && m in links && n != m
  {
    links[n := links[n][m := up]][m := links[m][n := up]]
  }

  /** The ledger both ends of a new link agree on: everything either holds that neither has spent. */
  function Merged(left: Node, right: Node): set<string> {
    (left.ledger + right.ledger) - (left.spent + right.spent)
  }

  /** What a source can hand a destination: all it holds that the destination neither spent nor holds. */
  function Deliverable(src: Node, dst: Node): set<string> {
    src.ledger - dst.spent - dst.ledger
  }

  ghost predicate ConflictFree(s: State, members: set<string>) {
    forall n, m, b | n in members && m in members && s.HasSpent(n, b) && s.HasSpent(m, b) :: n == m
  }

  /** When a call succeeds; otherwise it returns an error. */
  ghost predicate Enabled(s: State, a: Action) {
    match a
    case LinkDown(n, m) => n != m && s.Up(n, m)
    case LinkUp(n, m) => n != m && n in s.nodes && m in s.nodes && !s.Up(n, m)
    case Propagate(src, dst) =>
      s.Up(src, dst) && src in s.nodes && dst in s.nodes && Deliverable(s.nodes[src], s.nodes[dst]) != {}
    case SpendAt(n, b) => s.Holds(n, b)
    case ConversionDay(p) => ConflictFree(s, s.Members(p))
  }

  function DropFrom(nodes: map<string, Node>, targets: set<string>, bearers: set<string>): map<string, Node> {
    map n | n in nodes :: if n in targets then nodes[n].(ledger := nodes[n].ledger - bearers) else nodes[n]
  }

  /** The state after a successful call. */
  ghost function Step(s: State, a: Action): (s': State)
    requires s.Valid() && Enabled(s, a)
  {
    match a
    case LinkDown(n, m) =>
      s.(links := SetLink(s.links, n, m, false), log := s.log + [LinkDownLogged(n, m)])
    case LinkUp(n, m) =>
      var merged := Merged(s.nodes[n], s.nodes[m]);
      State(s.nodes[n := s.nodes[n].(ledger := merged)][m := s.nodes[m].(ledger := merged)],
            SetLink(s.links, n, m, true),
            s.log + [LinkUpLogged(n, m)])
    case Propagate(src, dst) =>
      var delivered := Deliverable(s.nodes[src], s.nodes[dst]);
      s.(nodes := s.nodes[dst := s.nodes[dst].(ledger := s.nodes[dst].ledger + delivered)],
         log := s.log + [PropagateLogged(src, dst, delivered)])
    case SpendAt(n, b) =>
      var marked := s.nodes[n := s.nodes[n].(spent := s.nodes[n].spent + {b})];
      s.(nodes := DropFrom(marked, s.ConnectedTo(n) + {n}, {b}), log := s.log + [SpendLogged(n, b)])
    case ConversionDay(p) =>
      var members := s.Members(p);
      var cleared := s.SpentBy(members);
      s.(nodes := DropFrom(s.nodes, members, cleared),
         log := s.log + [SettlementLogged(if p.None? then s.nodes.Keys else p.value, cleared)])
  }

  /** One call: a failing call returns an error and leaves the state alone. */
  ghost function Exec(s: State, a: Action): State
    requires s.Valid()
  {
    if Enabled(s, a) then Step(s, a) else s
  }

  ghost function Run(s: State, acts: seq<Action>): (s': State)
    requires s.Valid()
    ensures s'.Valid() && s'.nodes.Keys == s.nodes.Keys
    decreases |acts|
  {
    if acts == [] then s
    else
      ExecValid(s, acts[0]);
      Run(Exec(s, acts[0]), acts[1..])
  }

  lemma SetLinkSquare(links: LinkTable, ids: set<string>, n: string, m: string, up: bool)
    requires Square(links, ids) && n in ids && m in ids && n != m
    ensures Square(SetLink(links, n, m, up), ids)
  {
  }

  lemma SetLinkLinked(links: LinkTable, n: string, m: string, up: bool, x: string, y: string)
    requires n in links && m in links && n != m
    ensures Linked(SetLink(links, n, m, up), x, y) <==>
            if (x == n && y == m) || (x == m && y == n) then up else Linked(links, x, y)
  {
  }

  lemma SetLinkSymmetric(links: LinkTable, n: string, m: string, up: bool)
    requires Symmetric(links) && n in links && m in links && n != m
    ensures Symmetric(SetLink(links, n, m, up))
  {
    var r := SetLink(links, n, m, up);
    forall x ensures !Linked(r, x, x) {
      SetLinkLinked(links, n, m, up, x, x);
    }
    forall x, y | Linked(r, x, y) ensures Linked(r, y, x) {
      SetLinkLinked(links, n, m, up, x, y);
      SetLinkLinked(links, n, m, up, y, x);
    }
  }

  lemma StepTable(s: State, a: Action)
    requires s.Valid() && Enabled(s, a)
    ensures Square(Step(s, a).links, s.nodes.Keys) && Symmetric(Step(s, a).links)
  {
    match a
    case LinkDown(n, m) =>
      SetLinkSquare(s.links, s.nodes.Keys, n, m, false);
      SetLinkSymmetric(s.links, n, m, false);
    case LinkUp(n, m) =>
      SetLinkSquare(s.links, s.nodes.Keys, n, m, true);
      SetLinkSymmetric(s.links, n, m, true);
    case Propagate(_, _) =>
    case SpendAt(_, _) =>
    case ConversionDay(_) =>
  }

  lemma ExecValid(s: State, a: Action)
    requires s.Valid()
    ensures Exec(s, a).Valid() && Exec(s, a).nodes.Keys == s.nodes.Keys
  {
    if Enabled(s, a) {
      StepTable(s, a);
      StepNamed(s, a);
    }
  }

  lemma StepNamed(s: State, a: Action)
    requires s.Valid() && Enabled(s, a)
    ensures Step(s, a).nodes.Keys == s.nodes.Keys
    ensures forall n | n in s.nodes :: Step(s, a).nodes[n].nodeId == n
  {
    match a
    case LinkDown(n, m) =>
    case LinkUp(n, m) =>
    case Propagate(_, _) =>
    case SpendAt(_, _) =>
    case ConversionDay(_) =>
  }

  // Effects of one call, read off pointwise: what later proofs use instead of the map updates.

  lemma ExecLinks(s: State, a: Action, n: string, m: string)
    requires s.Valid()
    ensures Exec(s, a).Up(n, m) <==>
            if a.LinkDown? && ((n == a.n && m == a.m) || (n == a.m && m == a.n)) && Enabled(s, a) then false
            else if a.LinkUp? && ((n == a.n && m == a.m) || (n == a.m && m == a.n)) && Enabled(s, a) then true
            else s.Up(n, m)
  {
    if Enabled(s, a) {
      match a
      case LinkDown(p, q) => SetLinkLinked(s.links, p, q, false, n, m);
      case LinkUp(p, q) => SetLinkLinked(s.links, p, q, true, n, m);
      case _ =>
    }
  }

  lemma ExecSpent(s: State, a: Action, n: string, b: string)
    requires s.Valid()
    ensures Exec(s, a).HasSpent(n, b) <==> s.HasSpent(n, b) || (a == SpendAt(n, b) && s.Holds(n, b))
  {
    if Enabled(s, a) {
      match a
      case LinkDown(p, q) =>
      case LinkUp(p, q) =>
      case Propagate(_, _) =>
      case SpendAt(_, _) =>
      case ConversionDay(_) =>
    }
  }

  lemma ExecHolds(s: State, a: Action, n: string, b: string)
    requires s.Valid()
    ensures Exec(s, a).Holds(n, b) <==>
            if !Enabled(s, a) then s.Holds(n, b)
            else match a
                 case LinkDown(_, _) => s.Holds(n, b)
                 case LinkUp(p, q) =>
                   if n == p || n == q
                   then (s.Holds(p, b) || s.Holds(q, b)) && !s.HasSpent(p, b) && !s.HasSpent(q, b)
                   else s.Holds(n, b)
                 case Propagate(src, dst) => s.Holds(n, b) || (n == dst && s.Holds(src, b) && !s.HasSpent(dst, b))
                 case SpendAt(p, c) => s.Holds(n, b) && !(b == c && (n == p || s.Up(p, n)))
                 case ConversionDay(p) =>
                   s.Holds(n, b) && !(n in s.Members(p) && b in s.SpentBy(s.Members(p)))
  {
    if Enabled(s, a) {
      match a
      case LinkDown(p, q) =>
      case LinkUp(p, q) =>
      case Propagate(_, _) =>
      case SpendAt(p, c) =>
        assert s.Up(p, n) ==> n in s.links[p];
      case ConversionDay(_) =>
    }
  }

  /** A settlement, in terms of the participants it was given: who takes part, when it succeeds, what it takes away. */
  lemma SettlementAt(s: State, p: Option<set<string>>, n: string, b: string)
    requires s.Valid()
    ensures Enabled(s, ConversionDay(p)) <==>
            forall x, y, c |
              (p.None? || (x in p.value && y in p.value)) && s.HasSpent(x, c) && s.HasSpent(y, c) :: x == y
    ensures Exec(s, ConversionDay(p)).Holds(n, b) <==>
            s.Holds(n, b) && !(Enabled(s, ConversionDay(p)) && (p.None? || n in p.value)
                               && exists x :: (p.None? || x in p.value) && s.HasSpent(x, b))
  {
    ExecHolds(s, ConversionDay(p), n, b);
    var members := s.Members(p);
    forall x ensures x in members <==> (p.None? || x in p.value) && x in s.nodes {
    }
    assert b in s.SpentBy(members) <==> exists x :: x in members && s.HasSpent(x, b);
  }

  /** What each call that succeeds adds to the log, said by what it changed; a failing call logs nothing. */
  lemma ExecLog(s: State, a: Action)
    requires s.Valid()
    ensures !Enabled(s, a) ==> Exec(s, a).log == s.log
    ensures Enabled(s, a) ==>
              |Exec(s, a).log| == |s.log| + 1 && s.log <= Exec(s, a).log && Logs(s, a, Exec(s, a).log[|s.log|])
  {
    if Enabled(s, a) {
      match a
      case LinkDown(_, _) =>
      case LinkUp(_, _) =>
      case Propagate(src, dst) => PropagateLog(s, src, dst);
      case SpendAt(_, _) =>
      case ConversionDay(p) => SettlementLog(s, p);
    }
  }

  /** The entry says what the call was and which bearers it newly delivered or found spent. */
  ghost predicate Logs(s: State, a: Action, entry: LogEntry)
    requires s.Valid()
  {
    match a
    case LinkDown(n, m) => entry == LinkDownLogged(n, m)
    case LinkUp(n, m) => entry == LinkUpLogged(n, m)
    case Propagate(src, dst) =>
      && entry.PropagateLogged? && entry.src == src && entry.dst == dst
      && forall b :: b in entry.delivered <==> Exec(s, a).Holds(dst, b) && !s.Holds(dst, b)
    case SpendAt(n, b) => entry == SpendLogged(n, b)
    case ConversionDay(p) =>
      && entry.SettlementLogged? && entry.participants == (if p.None? then s.nodes.Keys else p.value)
      && forall b :: b in entry.cleared <==> exists n :: (p.None? || n in p.value) && s.HasSpent(n, b)
  }

  lemma PropagateLog(s: State, src: string, dst: string)
    requires s.Valid() && Enabled(s, Propagate(src, dst))
    ensures Logs(s, Propagate(src, dst), Exec(s, Propagate(src, dst)).log[|s.log|])
  {
    var entry := Exec(s, Propagate(src, dst)).log[|s.log|];
    assert entry == PropagateLogged(src, dst, Deliverable(s.nodes[src], s.nodes[dst]));
    forall b ensures b in entry.delivered <==> Exec(s, Propagate(src, dst)).Holds(dst, b) && !s.Holds(dst, b) {
      ExecHolds(s, Propagate(src, dst), dst, b);
    }
  }

  lemma SettlementLog(s: State, p: Option<set<string>>)
    requires s.Valid() && Enabled(s, ConversionDay(p))
    ensures Logs(s, ConversionDay(p), Exec(s, ConversionDay(p)).log[|s.log|])
  {
    var entry := Exec(s, ConversionDay(p)).log[|s.log|];
    assert entry == SettlementLogged(if p.None? then s.nodes.Keys else p.value, s.SpentBy(s.Members(p)));
    forall b ensures b in entry.cleared <==> exists n :: (p.None? || n in p.value) && s.HasSpent(n, b) {
      if n :| (p.None? || n in p.value) && s.HasSpent(n, b) {
        assert n in s.Members(p) && b in s.nodes[n].spent;
      }
      if b in s.SpentBy(s.Members(p)) {
        var n :| n in s.Members(p) && n in s.nodes && b in s.nodes[n].spent;
        assert s.HasSpent(n, b);
      }
    }
  }

  lemma {:induction false} RunSplit(s: State, before: seq<Action>, after: seq<Action>)
    requires s.Valid()
    ensures Run(s, before + after) == Run(Run(s, before), after)
    decreases |before|
  {
    if before == [] {
      assert before + after == after;
    } else {
      ExecValid(s, before[0]);
      assert (before + after)[1..] == before[1..] + after;
      RunSplit(Exec(s, before[0]), before[1..], after);
    }
  }
}
