/** The socket-free settlement logic of a distributed coordinator, over gathered snapshots. */
module Coordinator {
  import opened Core
  import opened NetworkSpec
  import opened Settlement
  import opened Networks
  import opened ConversionDay

  datatype PeerSnapshot = PeerSnapshot(nodeId: string, ledger: set<string>, spent: set<string>)

  /** Some snapshot of this node records the spend. */
  ghost predicate Records(snapshots: seq<PeerSnapshot>, n: string, b: string) {
    exists i :: 0 <= i < |snapshots| && snapshots[i].nodeId == n && b in snapshots[i].spent
  }

  /** Every bearer any snapshot records as spent. */
  function Recorded(snapshots: seq<PeerSnapshot>): set<string> {
    set i, b | 0 <= i < |snapshots| && b in snapshots[i].spent :: b
  }

  /** Who has spent what, according to the snapshots. */
  function SnapshotIndex(snapshots: seq<PeerSnapshot>): map<string, set<string>> {
    map b | b in Recorded(snapshots) :: set i | 0 <= i < |snapshots| && b in snapshots[i].spent :: snapshots[i].nodeId
  }

  ghost predicate SnapshotConflictFree(snapshots: seq<PeerSnapshot>) {
    forall n, m, b :: Records(snapshots, n, b) && Records(snapshots, m, b) ==> n == m
  }

  ghost predicate IndexesSnapshots(index: map<string, set<string>>, snapshots: seq<PeerSnapshot>) {
    && (forall b, n :: Lists(index, b, n) <==> Records(snapshots, n, b))
    && forall b | b in index :: index[b] != {}
  }

  lemma IndexesSnapshotsExactly(index: map<string, set<string>>, snapshots: seq<PeerSnapshot>)
    requires IndexesSnapshots(index, snapshots)
    ensures index == SnapshotIndex(snapshots)
  {
    var expected := SnapshotIndex(snapshots);
    forall b ensures b in index <==> b in expected {
      if b in index {
        var n :| n in index[b];
        assert Lists(index, b, n);
        assert Records(snapshots, n, b);
      }
      if b in expected {
        var i :| 0 <= i < |snapshots| && b in snapshots[i].spent;
        assert Records(snapshots, snapshots[i].nodeId, b);
        assert Lists(index, b, snapshots[i].nodeId);
      }
    }
    forall b | b in index ensures index[b] == expected[b] {
      forall n ensures n in index[b] <==> n in expected[b] {
        assert Lists(index, b, n) <==> Records(snapshots, n, b);
      }
    }
  }

  /** The index does list exactly what the snapshots record. */
  lemma IndexRecords(snapshots: seq<PeerSnapshot>)
    ensures IndexesSnapshots(SnapshotIndex(snapshots), snapshots)
  {
    var index := SnapshotIndex(snapshots);
    forall b, n ensures b in index && n in index[b] <==> Records(snapshots, n, b) {
      if Records(snapshots, n, b) {
        var i :| 0 <= i < |snapshots| && snapshots[i].nodeId == n && b in snapshots[i].spent;
        assert b in Recorded(snapshots);
      }
    }
    forall b | b in index ensures index[b] != {} {
      var i :| 0 <= i < |snapshots| && b in snapshots[i].spent;
      assert snapshots[i].nodeId in index[b];
    }
  }

  lemma SnapshotReportEmptyExactly(index: map<string, set<string>>, snapshots: seq<PeerSnapshot>, report: Report)
    requires IndexesSnapshots(index, snapshots) && IsReport(report, index)
    ensures report == [] <==> SnapshotConflictFree(snapshots)
  {
    var subjects := Subjects(report);
    if report != [] {
      var b := subjects[0];
      assert b in Elements(subjects);
      var n :| n in index[b];
      assert index[b] == {n} + (index[b] - {n}) && |{n}| == 1;
      var m :| m in index[b] - {n};
      assert Lists(index, b, n) && Lists(index, b, m);
    } else {
      forall n, m, b | Records(snapshots, n, b) && Records(snapshots, m, b) ensures n == m {
        assert Lists(index, b, n) && Lists(index, b, m);
        assert b !in Elements(subjects);
        if n != m {
          SubsetCount({n, m}, index[b]);
        }
      }
    }
  }

  lemma RecordsStep(snapshots: seq<PeerSnapshot>, k: nat, n: string, b: string)
    requires k < |snapshots|
    ensures Records(snapshots[..k + 1], n, b) <==>
            Records(snapshots[..k], n, b) || (n == snapshots[k].nodeId && b in snapshots[k].spent)
  {
    var longer, shorter := snapshots[..k + 1], snapshots[..k];
    if Records(longer, n, b) {
      var i :| 0 <= i < |longer| && longer[i].nodeId == n && b in longer[i].spent;
      assert i < k ==> shorter[i] == longer[i];
    }
    if Records(shorter, n, b) {
      var i :| 0 <= i < |shorter| && shorter[i].nodeId == n && b in shorter[i].spent;
      assert longer[i] == shorter[i];
    }
    assert longer[k] == snapshots[k];
  }

  /** The burn set when no bearer has two spenders, otherwise the full conflict report. */
  method ComputeConversionDay(snapshots: seq<PeerSnapshot>) returns (r: Result<set<string>, Report>)
    ensures r.Ok? <==> SnapshotConflictFree(snapshots)
    ensures r.Ok? ==> r.value == Recorded(snapshots)
    ensures r.Err? ==> r.error != [] && IsReport(r.error, SnapshotIndex(snapshots))
  {
    var spentBy: map<string, set<string>> := map[];
    for k := 0 to |snapshots|
      invariant IndexesSnapshots(spentBy, snapshots[..k])
    {
      ghost var before := spentBy;
      spentBy := AddSpends(spentBy, snapshots[k].nodeId, snapshots[k].spent);
      forall b, n ensures Lists(spentBy, b, n) <==> Records(snapshots[..k + 1], n, b) {
        RecordsStep(snapshots, k, n, b);
        assert Lists(before, b, n) <==> Records(snapshots[..k], n, b);
      }
    }
    assert snapshots[..|snapshots|] == snapshots;
    IndexesSnapshotsExactly(spentBy, snapshots);
    var violations := SortedReport(spentBy);
    SnapshotReportEmptyExactly(spentBy, snapshots, violations);
    if violations != [] {
      return Err(violations);
    }
    return Ok(spentBy.Keys);
  }

  /** Whether no snapshot holds a bearer that any snapshot records as spent. */
  method CheckPostConversionDaySafety(snapshots: seq<PeerSnapshot>) returns (safe: bool)
    ensures safe <==> forall i | 0 <= i < |snapshots| :: snapshots[i].ledger !! Recorded(snapshots)
  {
    var globalSpent := Recorded(snapshots);
    for k := 0 to |snapshots|
      invariant forall i | 0 <= i < k :: snapshots[i].ledger !! globalSpent
    {
      if snapshots[k].ledger * globalSpent != {} {
        return false;
      }
      assert forall b :: b in snapshots[k].ledger && b in globalSpent ==> b in snapshots[k].ledger * globalSpent;
    }
    return true;
  }

  /** Snapshots of every node of a network, one each. */
  ghost predicate Snapshots(s: State, snapshots: seq<PeerSnapshot>) {
    && (forall i | 0 <= i < |snapshots| ::
          snapshots[i].nodeId in s.nodes && snapshots[i].spent == s.nodes[snapshots[i].nodeId].spent)
    && forall n | n in s.nodes :: exists i :: 0 <= i < |snapshots| && snapshots[i].nodeId == n
  }

  /**
   * Over snapshots of all nodes, the coordinator's index is the central one, and so its verdict and burn set are too.
   */
  lemma CoordinatorAgrees(s: State, snapshots: seq<PeerSnapshot>)
    requires Snapshots(s, snapshots)
    ensures SnapshotIndex(snapshots) == SpenderIndex(s, s.nodes.Keys)
    ensures Recorded(snapshots) == s.SpentBy(s.nodes.Keys)
    ensures SnapshotConflictFree(snapshots) <==> ConflictFree(s, s.nodes.Keys)
  {
    forall n, b ensures Records(snapshots, n, b) <==> s.HasSpent(n, b) {
      RecordsAll(s, snapshots, n, b);
    }
    var index := SpenderIndex(s, s.nodes.Keys);
    forall b ensures b in Recorded(snapshots) <==> b in s.SpentBy(s.nodes.Keys) {
      if b in Recorded(snapshots) {
        var i :| 0 <= i < |snapshots| && b in snapshots[i].spent;
        assert s.HasSpent(snapshots[i].nodeId, b);
      }
      if b in s.SpentBy(s.nodes.Keys) {
        var n :| n in s.nodes && b in s.nodes[n].spent;
        assert s.HasSpent(n, b) && Records(snapshots, n, b);
      }
    }
    forall b | b in index ensures SnapshotIndex(snapshots)[b] == index[b] {
      forall n ensures n in SnapshotIndex(snapshots)[b] <==> n in index[b] {
        assert Records(snapshots, n, b) <==> s.HasSpent(n, b);
      }
    }
  }

  lemma RecordsAll(s: State, snapshots: seq<PeerSnapshot>, n: string, b: string)
    requires Snapshots(s, snapshots)
    ensures Records(snapshots, n, b) <==> s.HasSpent(n, b)
  {
    if s.HasSpent(n, b) {
      var i :| 0 <= i < |snapshots| && snapshots[i].nodeId == n;
      assert b in snapshots[i].spent;
    }
  }
}
