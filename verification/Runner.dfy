/**
 Recording a run: the driver streams the graph and writes one numbered row per visit, across any number of
 pauses and resumes, while other executions write rows of their own.
 */
module Runner {
  import opened Common
  import opened Routing
  import Budgets
  import Graph
  import Nodes
  import State

  datatype WorkflowStep = WorkflowStep(execution: nat, sequence: nat, node: Node)

  /** One item of the stream: a node's update, or the pause of a run that waits for a human. */
  datatype Item = Updated(node: Node) | Interrupt

  function RowsOf(rows: seq<WorkflowStep>, execution: nat): seq<WorkflowStep> {
    if rows == [] then []
    else RowsOf(rows[..|rows| - 1], execution)
         + if rows[|rows| - 1].execution == execution then [rows[|rows| - 1]] else []
  }

  /** The nodes on record for one execution, in the order they were written. */
  function Recorded(rows: seq<WorkflowStep>, execution: nat): (nodes: seq<Node>)
    ensures |nodes| == |RowsOf(rows, execution)|
  {
    seq(|RowsOf(rows, execution)|, i requires 0 <= i < |RowsOf(rows, execution)| => RowsOf(rows, execution)[i].node)
  }

  /** The rows of the execution are numbered 0, 1, 2, ... in the order they were written. */
  ghost predicate Numbered(rows: seq<WorkflowStep>, execution: nat) {
    forall i :: 0 <= i < |RowsOf(rows, execution)| ==> RowsOf(rows, execution)[i].sequence == i
  }

  lemma AppendOwn(rows: seq<WorkflowStep>, row: WorkflowStep)
    ensures RowsOf(rows + [row], row.execution) == RowsOf(rows, row.execution) + [row]
    ensures Recorded(rows + [row], row.execution) == Recorded(rows, row.execution) + [row.node]
    ensures forall e :: e != row.execution ==> RowsOf(rows + [row], e) == RowsOf(rows, e)
  {
    assert (rows + [row])[..|rows|] == rows;
  }

  lemma {:induction false} AppendOthers(rows: seq<WorkflowStep>, more: seq<WorkflowStep>, execution: nat)
    requires forall row :: row in more ==> row.execution != execution
    ensures RowsOf(rows + more, execution) == RowsOf(rows, execution)
  {
    if more == [] {
      assert rows + more == rows;
    } else {
      var init := more[..|more| - 1];
      assert (rows + more)[..|rows + more| - 1] == rows + init;
      AppendOthers(rows, init, execution);
    }
  }

  lemma {:induction false} RowsAreOwn(rows: seq<WorkflowStep>, execution: nat)
    ensures forall row :: row in RowsOf(rows, execution) <==> row in rows && row.execution == execution
  {
    if rows != [] {
      RowsAreOwn(rows[..|rows| - 1], execution);
      assert rows == rows[..|rows| - 1] + [rows[|rows| - 1]];
    }
  }

  /** Numbered rows: the number after the highest one is their count. */
  lemma NextIsCount(rows: seq<WorkflowStep>, execution: nat, next: nat)
    requires Numbered(rows, execution)
    requires forall row :: row in rows && row.execution == execution ==> row.sequence < next
    requires next > 0 ==> exists row :: row in rows && row.execution == execution && row.sequence == next - 1
    ensures next == |RowsOf(rows, execution)|
  {
    RowsAreOwn(rows, execution);
    var own := RowsOf(rows, execution);
    if own != [] { assert own[|own| - 1] in own; }
    if next > 0 {
      var row :| row in rows && row.execution == execution && row.sequence == next - 1;
      assert row in own;
    }
  }

  /** One more visit under the next number, whatever other executions wrote in between. */
  lemma NextRow(rows: seq<WorkflowStep>, others: seq<WorkflowStep>, execution: nat, node: Node)
    requires Numbered(rows, execution) && forall row :: row in others ==> row.execution != execution
    ensures var n := |RowsOf(rows, execution)|;
            var rows' := rows + others + [WorkflowStep(execution, n, node)];
            && Numbered(rows', execution) && |RowsOf(rows', execution)| == n + 1
            && Recorded(rows', execution) == Recorded(rows, execution) + [node]
  {
    var row := WorkflowStep(execution, |RowsOf(rows, execution)|, node);
    AppendOthers(rows, others, execution);
    AppendOwn(rows + others, row);
  }

  // ---- The stream ------------------------------------------------------------------------------------------

  function VisitsInChunk(chunk: seq<Item>, n: nat): seq<Node>
    requires n <= |chunk|
  {
    if n == 0 then [] else VisitsInChunk(chunk, n - 1) + if chunk[n - 1].Interrupt? then [] else [chunk[n - 1].node]
  }

  /** The nodes visited in the first `n` chunks; pauses are not visits. */
  function Visits(stream: seq<seq<Item>>, n: nat): seq<Node>
    requires n <= |stream|
  {
    if n == 0 then [] else Visits(stream, n - 1) + VisitsInChunk(stream[n - 1], |stream[n - 1]|)
  }

  function Items(stream: seq<seq<Item>>, n: nat): seq<Item>
    requires n <= |stream|
  {
    if n == 0 then [] else Items(stream, n - 1) + stream[n - 1]
  }

  /** The visits among the first `n` items. */
  function VisitsIn(items: seq<Item>, n: nat): seq<Node>
    requires n <= |items|
  {
    if n == 0 then [] else VisitsIn(items, n - 1) + if items[n - 1].Interrupt? then [] else [items[n - 1].node]
  }

  lemma {:induction false} VisitsInJoined(a: seq<Item>, b: seq<Item>, n: nat)
    requires n <= |b|
    ensures VisitsIn(a + b, |a| + n) == VisitsIn(a, |a|) + VisitsIn(b, n)
  {
    if n == 0 {
      SamePrefix(a, b, |a|);
    } else {
      VisitsInJoined(a, b, n - 1);
      assert (a + b)[|a| + n - 1] == b[n - 1];
    }
  }

  lemma {:induction false} SamePrefix(a: seq<Item>, b: seq<Item>, n: nat)
    requires n <= |a|
    ensures VisitsIn(a + b, n) == VisitsIn(a, n)
  {
    if n > 0 { SamePrefix(a, b, n - 1); }
  }

  lemma {:induction false} VisitsAreItems(stream: seq<seq<Item>>, n: nat)
    requires n <= |stream|
    ensures Visits(stream, n) == VisitsIn(Items(stream, n), |Items(stream, n)|)
  {
    if n > 0 {
      VisitsAreItems(stream, n - 1);
      var chunk := stream[n - 1];
      VisitsInJoined(Items(stream, n - 1), chunk, |chunk|);
      ChunkVisits(chunk, |chunk|);
    }
  }

  lemma {:induction false} ChunkVisits(chunk: seq<Item>, n: nat)
    requires n <= |chunk|
    ensures VisitsInChunk(chunk, n) == VisitsIn(chunk, n)
  {
    if n > 0 { ChunkVisits(chunk, n - 1); }
  }

  // ---- Starts, pauses and resumes of one run ---------------------------------------------------------------

  function NodesOf(run: seq<Nodes.Step>): (nodes: seq<Node>)
    ensures |nodes| == |run| && forall i :: 0 <= i < |run| ==> nodes[i] == run[i].node
  {
    seq(|run|, i requires 0 <= i < |run| => run[i].node)
  }

  /** After its first `k` visits the run waits for a human. */
  ghost predicate Paused(policy: Budgets.BudgetPolicy, run: seq<Nodes.Step>, k: nat)
    requires k <= |run|
  {
    Nodes.Standing(policy, run, k) == Some(ApprovalGate)
  }

  function UpdatesOf(nodes: seq<Node>): (items: seq<Item>)
    ensures |items| == |nodes| && forall i :: 0 <= i < |nodes| ==> items[i] == Updated(nodes[i])
  {
    seq(|nodes|, i requires 0 <= i < |nodes| => Updated(nodes[i]))
  }

  /**
   What the graph streams when the run goes on from visit `lo` to visit `hi` in one start or resume: the
   updates of these visits, and an interrupt at the end exactly when the run then stands at the gate. It
   stops at every gate it reaches, so a gate can only be the visit a resume begins with.
   */
  ghost predicate Streams(policy: Budgets.BudgetPolicy, run: seq<Nodes.Step>, lo: nat, hi: nat,
                          stream: seq<seq<Item>>)
  {
    && lo <= hi <= |run|
    && Items(stream, |stream|)
       == UpdatesOf(NodesOf(run)[lo..hi]) + (if Paused(policy, run, hi) then [Interrupt] else [])
    && (forall j :: lo < j < hi ==> !Paused(policy, run, j))
  }

  /** One start and any number of resumes of the run, cut where it paused. */
  ghost predicate Sessions(policy: Budgets.BudgetPolicy, run: seq<Nodes.Step>, cuts: seq<nat>,
                           streams: seq<seq<seq<Item>>>)
  {
    && |cuts| == |streams| + 1 && cuts[0] == 0 && cuts[|streams|] <= |run|
    && (forall i :: 0 <= i < |streams| ==> Streams(policy, run, cuts[i], cuts[i + 1], streams[i]))
    && (forall i :: 0 < i < |streams| ==> cuts[i] <= |run| && Paused(policy, run, cuts[i]))
  }

  lemma {:induction false} UpdatesAreVisits(nodes: seq<Node>, n: nat)
    requires n <= |nodes|
    ensures VisitsIn(UpdatesOf(nodes), n) == nodes[..n]
  {
    if n > 0 { UpdatesAreVisits(nodes, n - 1); }
  }

  /** The visits in such a stream are the stretch of the run it went through. */
  lemma StreamsVisit(policy: Budgets.BudgetPolicy, run: seq<Nodes.Step>, lo: nat, hi: nat, stream: seq<seq<Item>>)
    requires Streams(policy, run, lo, hi, stream)
    ensures Visits(stream, |stream|) == NodesOf(run)[lo..hi]
  {
    hide Nodes.Standing, Items, Visits, VisitsIn;
    var stretch := NodesOf(run)[lo..hi];
    var updates := UpdatesOf(stretch);
    var pause: seq<Item> := if Paused(policy, run, hi) then [Interrupt] else [];
    VisitsAreItems(stream, |stream|);
    VisitsInJoined(updates, pause, |pause|);
    UpdatesAreVisits(stretch, |stretch|);
    NoVisitsIn(pause);
    assert stretch[..|stretch|] == stretch;
  }

  lemma Joined(nodes: seq<Node>, lo: nat, hi: nat)
    requires lo <= hi <= |nodes|
    ensures nodes[..lo] + nodes[lo..hi] == nodes[..hi]
  {
  }

  lemma NoVisitsIn(pause: seq<Item>)
    requires pause == [] || pause == [Interrupt]
    ensures VisitsIn(pause, |pause|) == []
  {
    if pause != [] { assert VisitsIn(pause, 0) == []; }
  }

  class Recorder {
    var steps: seq<WorkflowStep>

    constructor ()
      ensures steps == []
    {
      steps := [];
    }

    /** One more than the highest number on record, or 0 for a new execution. */
    method NextSequence(execution: nat) returns (next: nat)
      ensures forall row :: row in steps && row.execution == execution ==> row.sequence < next
      ensures next > 0 ==> exists row :: row in steps && row.execution == execution && row.sequence == next - 1
    {
      next := 0;
      for i := 0 to |steps|
        invariant forall row :: row in steps[..i] && row.execution == execution ==> row.sequence < next
        invariant next > 0 ==> exists row :: row in steps && row.execution == execution && row.sequence == next - 1
      {
        assert steps[..i + 1] == steps[..i] + [steps[i]];
        if steps[i].execution == execution && steps[i].sequence >= next {
          next := steps[i].sequence + 1;
        }
      }
      assert steps[..|steps|] == steps;
    }

    method RecordStep(execution: nat, sequence: nat, node: Node)
      modifies this
      ensures steps == old(steps) + [WorkflowStep(execution, sequence, node)]
    {
      steps := steps + [WorkflowStep(execution, sequence, node)];
    }

    /** Rows that other executions write meanwhile. */
    method Meanwhile(rows: seq<WorkflowStep>)
      modifies this
      ensures steps == old(steps) + rows
    {
      steps := steps + rows;
    }

    /**
     Stream one start or resume, recording each visit under the next number. `others` are the rows other
     executions write between two of its own.
     */
    method Drive(execution: nat, stream: seq<seq<Item>>, others: nat -> seq<WorkflowStep>) returns (visited: seq<Node>)
      requires Numbered(steps, execution)
      requires forall k, row :: row in others(k) ==> row.execution != execution
      modifies this
      ensures visited == Visits(stream, |stream|)
      ensures Numbered(steps, execution)
      ensures Recorded(steps, execution) == old(Recorded(steps, execution)) + visited
    {
      hide Numbered, RowsOf, Recorded;
      visited := [];
      var sequence := NextSequence(execution);
      NextIsCount(steps, execution, sequence);
      for c := 0 to |stream|
        invariant visited == Visits(stream, c)
        invariant Numbered(steps, execution) && sequence == |RowsOf(steps, execution)|
        invariant Recorded(steps, execution) == old(Recorded(steps, execution)) + visited
      {
        for i := 0 to |stream[c]|
          invariant visited == Visits(stream, c) + VisitsInChunk(stream[c], i)
          invariant Numbered(steps, execution) && sequence == |RowsOf(steps, execution)|
          invariant Recorded(steps, execution) == old(Recorded(steps, execution)) + visited
        {
          if stream[c][i].Interrupt? {
            continue;
          }
          var node := stream[c][i].node;
          NextRow(steps, others(sequence), execution, node);
          Meanwhile(others(sequence));
          visited := visited + [node];
          RecordStep(execution, sequence, node);
          sequence := sequence + 1;
        }
      }
    }

    /**
     One start and any number of resumes of a run, with other executions recording theirs all the while: the
     record of this execution is numbered without gaps, consists of exactly the run's visits so far, and is a
     path of the graph in which a gate appears only after the pause it was resumed from.
     */
    method StartAndResume(execution: nat, streams: seq<seq<seq<Item>>>, others: (nat, nat) -> seq<WorkflowStep>,
                          ghost policy: Budgets.BudgetPolicy, ghost run: seq<Nodes.Step>, ghost cuts: seq<nat>)
      requires RowsOf(steps, execution) == []
      requires forall i, k, row :: row in others(i, k) ==> row.execution != execution
      requires Nodes.ShippedRun(policy, run) && Sessions(policy, run, cuts, streams)
      modifies this
      ensures Numbered(steps, execution)
      ensures Recorded(steps, execution) == NodesOf(run)[..cuts[|streams|]]
      ensures PathWithPauses(policy, run, Pauses(cuts), Recorded(steps, execution))
    {
      hide Nodes.ShippedRun, Nodes.Standing, NodesOf;
      for i := 0 to |streams|
        invariant Numbered(steps, execution)
        invariant Recorded(steps, execution) == NodesOf(run)[..cuts[i]]
      {
        StreamsVisit(policy, run, cuts[i], cuts[i + 1], streams[i]);
        Joined(NodesOf(run), cuts[i], cuts[i + 1]);
        var session: nat := i;
        var visited := Drive(execution, streams[i], (k: nat) => others(session, k));
      }
      SessionsMakeAPath(policy, run, cuts, streams);
    }
  }

  // ---- What the record shows --------------------------------------------------------------------------------

  /**
   These nodes are a path of the graph from its start: each is the one the edges prescribe after its
   predecessor, in the state the run was in. The gates among them are exactly those the run had paused at and
   was resumed from, each with the decision it read. While the run is paused, the gate it waits at is not there.
   */
  ghost predicate PathWithPauses(policy: Budgets.BudgetPolicy, run: seq<Nodes.Step>, pauses: set<nat>,
                                 nodes: seq<Node>)
  {
    && |nodes| <= |run|
    && (nodes != [] ==> nodes[0] == Supervisor)
    && (forall p :: 0 < p < |nodes| ==> Graph.Next(nodes[p - 1], Nodes.StateAt(run, p), policy) == Some(nodes[p]))
    && (forall p :: 0 <= p < |nodes| ==> (nodes[p] == ApprovalGate <==> p in pauses))
    && (forall p :: 0 <= p < |nodes| && nodes[p] == ApprovalGate ==> run[p].input.GateRead?)
    && (Paused(policy, run, |nodes|) ==> nodes != [] && nodes[|nodes| - 1] == Decide)
  }

  /** The places at which the sessions before the last one paused. */
  function Pauses(cuts: seq<nat>): set<nat> {
    set i | 0 < i < |cuts| - 1 :: cuts[i]
  }

  /** The session a visit was made in. */
  lemma {:induction false} SessionOf(policy: Budgets.BudgetPolicy, run: seq<Nodes.Step>, cuts: seq<nat>,
                                     streams: seq<seq<seq<Item>>>, n: nat, p: nat) returns (i: nat)
    requires Sessions(policy, run, cuts, streams) && n <= |streams| && p < cuts[n]
    ensures i < n && cuts[i] <= p < cuts[i + 1]
  {
    hide Streams;
    if cuts[n - 1] <= p {
      i := n - 1;
    } else {
      i := SessionOf(policy, run, cuts, streams, n - 1, p);
    }
  }

  lemma GatesArePauses(policy: Budgets.BudgetPolicy, run: seq<Nodes.Step>, cuts: seq<nat>,
                       streams: seq<seq<seq<Item>>>, p: nat)
    requires Nodes.ShippedRun(policy, run) && Sessions(policy, run, cuts, streams) && p < cuts[|streams|]
    ensures run[p].node == ApprovalGate <==> p in Pauses(cuts)
    ensures run[p].node == ApprovalGate ==> run[p].input.GateRead?
  {
    hide Nodes.StateAt, Items;
    if p > 0 { assert Nodes.Follows(policy, run, p); }
    assert Nodes.Standing(policy, run, p) == Some(run[p].node);
    if run[p].node == ApprovalGate {
      var i := SessionOf(policy, run, cuts, streams, |streams|, p);
      assert Streams(policy, run, cuts[i], cuts[i + 1], streams[i]);
      assert Paused(policy, run, p);
    }
  }

  /** The visits of any number of sessions of one run form such a path. */
  lemma SessionsMakeAPath(policy: Budgets.BudgetPolicy, run: seq<Nodes.Step>, cuts: seq<nat>,
                          streams: seq<seq<seq<Item>>>)
    requires Nodes.ShippedRun(policy, run) && Sessions(policy, run, cuts, streams)
    ensures PathWithPauses(policy, run, Pauses(cuts), NodesOf(run)[..cuts[|streams|]])
  {
    hide Nodes.StateAt, Streams;
    var nodes := NodesOf(run)[..cuts[|streams|]];
    forall p | 0 < p < |nodes| ensures Graph.Next(nodes[p - 1], Nodes.StateAt(run, p), policy) == Some(nodes[p]) {
      assert Nodes.Follows(policy, run, p);
    }
    forall p | 0 <= p < |nodes|
      ensures nodes[p] == ApprovalGate <==> p in Pauses(cuts)
      ensures nodes[p] == ApprovalGate ==> run[p].input.GateRead?
    {
      GatesArePauses(policy, run, cuts, streams, p);
    }
  }

  /** The status reported after a drive: a pause takes precedence over whatever the last node wrote. */
  function ResolveStatus(s: State.State, paused: bool): State.Status {
    if paused then State.AwaitingApproval else s.status
  }

  /** A run at its end is reported as completed or escalated, and completed only with every system verified. */
  lemma EndedRunsAreReported(policy: Budgets.BudgetPolicy, run: seq<Nodes.Step>)
    requires Nodes.ShippedRun(policy, run) && Nodes.Ended(run)
    ensures var status := ResolveStatus(Nodes.StateAt(run, |run|), false);
            && status in {State.Completed, State.Escalated}
            && (status == State.Completed ==>
                  |run| >= 3 && run[|run| - 3].node == Validate && run[|run| - 3].input.SystemsRead?
                  && var input := run[|run| - 3].input;
                     input.billing.Some? && input.billing.value.1 == "active"
                     && input.crmPlan == Some(input.billing.value.0) && input.tier == Some(input.billing.value.0))
  {
    hide Nodes.StateAt, Nodes.ShippedRun;
    Nodes.CompletedMeansVerified(policy, run);
  }
}
