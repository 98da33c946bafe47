/** The warm state of a session and the operations that read and update it. */
module Sessions {
  import opened Types
  import opened Glob
  import opened Graphs

  /** How an evaluation ended. */
  datatype Evaluation =
    | Evaluated(graph: Graph, errors: seq<EvalError>)
    | Interrupted
    | Broken(message: string)

  datatype SessionError =
    | EvaluationFailed(message: string)
    | InitialEvaluationIncomplete(operation: string)
    | SessionCancelled

  datatype Reply<+T> = Done(value: T) | Refused(error: SessionError)

  ghost function Selected(g: Graph, f: Filter): set<Path> {
    set p | p in g && Selects(f, g[p])
  }

  class WarmState {
    var graph: Graph
    var errors: seq<EvalError>
    var completed: bool
    var error: Option<string>

    constructor ()
      ensures graph == map[] && errors == [] && !completed && error == None
    {
      graph, errors, completed, error := map[], [], false, None;
    }

    method Publish(graph: Graph, errors: seq<EvalError>)
      modifies this
      ensures this.graph == graph && this.errors == errors && completed && error == None
    {
      this.graph, this.errors, completed, error := graph, errors, true, None;
    }

    /** A snapshot lists exactly the entries the filter selects, each once, and is
        refused exactly until an evaluation has completed. */
    method QuerySnapshot(filter: Filter) returns (reply: Reply<seq<Derivation>>)
      ensures reply.Done? <==> completed
      ensures reply.Done? ==> Lists(reply.value, graph, Selected(graph, filter))
      ensures reply.Refused? ==>
                reply.error ==
                if error.Some? then EvaluationFailed(error.value) else InitialEvaluationIncomplete("query_snapshot")
    {
      if !completed {
        return Refused(if error.Some? then EvaluationFailed(error.value)
                       else InitialEvaluationIncomplete("query_snapshot"));
      }
      var found: seq<Derivation> := [];
      var todo := graph.Keys;
      ghost var listed: set<Path> := {};
      assert ListsAt([], graph, {}, []);
      while todo != {}
        invariant todo <= graph.Keys && Lists(found, graph, listed)
        invariant forall p :: p in listed <==> p in Selected(graph, filter) && p !in todo
        decreases todo
      {
        var path :| path in todo;
        todo := todo - {path};
        var selected := MatchesFilter(graph[path], filter);
        if selected {
          ListsMore(found, graph, listed, path);
          found, listed := found + [graph[path]], listed + {path};
        }
      }
      assert listed == Selected(graph, filter);
      return Done(found);
    }

    /** The first half of `diff_once`: the graph to compare with. */
    method TakeSnapshot() returns (reply: Reply<Graph>)
      ensures completed ==> reply == Done(graph)
      ensures !completed ==>
                reply == Refused(if error.Some? then EvaluationFailed(error.value)
                                 else InitialEvaluationIncomplete("diff_once"))
    {
      if !completed {
        return Refused(if error.Some? then EvaluationFailed(error.value)
                       else InitialEvaluationIncomplete("diff_once"));
      }
      return Done(graph);
    }

    /** The second half, after the evaluation.  Unless it ran to its end, the warm state
        is left alone. */
    method FinishDiff(previous: Graph, result: Evaluation) returns (reply: Reply<Diff>)
      modifies this
      ensures reply.Done? <==> result.Evaluated?
      ensures reply.Done? ==> IsDiff(previous, graph, reply.value) && reply.value.errors == errors
      ensures reply.Done? ==> graph == result.graph && errors == result.errors && completed && error == None
      ensures reply.Refused? ==> unchanged(this)
      ensures reply.Refused? ==>
                reply.error == if result.Broken? then EvaluationFailed(result.message) else SessionCancelled
    {
      match result {
        case Broken(message) => reply := Refused(EvaluationFailed(message));
        case Interrupted => reply := Refused(SessionCancelled);
        case Evaluated(next, found) =>
          var diff := DiffGraphs(previous, next, found);
          Publish(next, found);
          reply := Done(diff);
      }
    }

    /** `diff_once`, while others publish the complete ones of `meanwhile` between its
        snapshot and its own update.  Its diff is from the snapshot, whatever graph it
        then overwrites. */
    method DiffOnce(result: Evaluation, meanwhile: seq<Evaluation>)
      returns (reply: Reply<Diff>, ghost overwritten: Graph)
      modifies this
      ensures reply.Done? <==> old(completed) && result.Evaluated?
      ensures reply.Done? ==> IsDiff(old(graph), graph, reply.value) && reply.value.errors == errors
      ensures reply.Done? ==> graph == result.graph && errors == result.errors && completed && error == None
      ensures reply.Done? ==> overwritten == Latest(old(graph), meanwhile)
      ensures !old(completed) ==>
                && unchanged(this)
                && reply == Refused(if error.Some? then EvaluationFailed(error.value)
                                    else InitialEvaluationIncomplete("diff_once"))
      ensures old(completed) && !reply.Done? ==> completed && graph == Latest(old(graph), meanwhile)
    {
      overwritten := graph;
      var snapshot := TakeSnapshot();
      if snapshot.Refused? {
        return Refused(snapshot.error), overwritten;
      }
      for i := 0 to |meanwhile|
        invariant completed && graph == Latest(old(graph), meanwhile[..i])
      {
        assert meanwhile[..i + 1][..i] == meanwhile[..i];
        if meanwhile[i].Evaluated? {
          Publish(meanwhile[i].graph, meanwhile[i].errors);
        }
      }
      assert meanwhile[..|meanwhile|] == meanwhile;
      overwritten := graph;
      reply := FinishDiff(snapshot.value, result);
    }

    /** One turn of the watch loop.  `sent` is what goes to the watcher. */
    method ApplyWatchEvaluationResult(result: Evaluation, previous: Graph)
      returns (proceed: bool, sent: Option<Reply<Diff>>)
      modifies this
      ensures proceed <==> !result.Interrupted?
      ensures result.Interrupted? <==> sent.None?
      ensures result.Broken? ==> sent == Some(Refused(EvaluationFailed(result.message)))
      ensures result.Evaluated? ==> sent.value.Done? && IsDiff(previous, graph, sent.value.value)
      ensures result.Evaluated? ==> graph == result.graph && errors == result.errors && completed && error == None
      ensures !result.Evaluated? ==> unchanged(this)
    {
      match result {
        case Broken(message) =>
          return true, Some(Refused(EvaluationFailed(message)));
        case Interrupted =>
          return false, None;
        case Evaluated(next, found) =>
          var diff := DiffGraphs(previous, next, found);
          Publish(next, found);
          return true, Some(Done(diff));
      }
    }

    /** The watch loop over the evaluations its file events trigger.  The diffs it
        sends, applied in order to the graph it started from, track the warm graph
        through failed and cancelled re-evaluations. */
    method WatchLoop(results: seq<Evaluation>) returns (sent: seq<Reply<Diff>>)
      requires WellKeyed(graph) && forall r :: r in results && r.Evaluated? ==> WellKeyed(r.graph)
      modifies this
      ensures |sent| == Handled(results)
      ensures forall i :: 0 <= i < |sent| ==> (sent[i].Done? <==> results[i].Evaluated?)
      ensures graph == Latest(old(graph), results[..|sent|])
      ensures Agree(Followed(old(graph), sent), graph)
    {
      sent := [];
      for i := 0 to |results|
        invariant Tracks(old(graph), results, i, sent, graph)
      {
        var previous := graph;
        var proceed, item := ApplyWatchEvaluationResult(results[i], previous);
        if !proceed {
          HandledAt(results, i);
          return;
        }
        TracksMore(old(graph), results, i, sent, item.value, previous, graph);
        sent := sent + [item.value];
      }
      HandledAt(results, |sent|);
    }
  }

  /** The loop has handled `n` evaluations and sent their diffs and failures. */
  ghost predicate Tracks(start: Graph, results: seq<Evaluation>, n: nat, sent: seq<Reply<Diff>>, current: Graph) {
    && |sent| == n <= |results| && WellKeyed(current)
    && (forall j :: 0 <= j < n ==> !results[j].Interrupted? && (sent[j].Done? <==> results[j].Evaluated?))
    && current == Latest(start, results[..n])
    && Agree(Followed(start, sent), current)
  }

  lemma {:induction false} TracksMore(
    start: Graph, results: seq<Evaluation>, n: nat,
    sent: seq<Reply<Diff>>, item: Reply<Diff>, previous: Graph, current: Graph)
    requires n < |results| && Tracks(start, results, n, sent, previous) && WellKeyed(current)
    requires !results[n].Interrupted? && (item.Done? <==> results[n].Evaluated?)
    requires if item.Done? then IsDiff(previous, current, item.value) else current == previous
    requires results[n].Evaluated? ==> current == results[n].graph
    ensures Tracks(start, results, n + 1, sent + [item], current)
  {
    FollowedMore(start, sent, item, previous, current);
    assert results[..n + 1][..n] == results[..n];
  }

  /** How many evaluations a watch loop handles before one is cancelled. */
  function Handled(results: seq<Evaluation>): (n: nat)
    ensures n <= |results|
  {
    if results == [] || results[0].Interrupted? then 0 else 1 + Handled(results[1..])
  }

  lemma {:induction false} HandledAt(results: seq<Evaluation>, n: nat)
    requires n <= |results| && (forall j :: 0 <= j < n ==> !results[j].Interrupted?)
    requires n < |results| ==> results[n].Interrupted?
    ensures Handled(results) == n
    decreases n
  {
    if n > 0 {
      HandledAt(results[1..], n - 1);
    }
  }

  /** The graph of the last evaluation that completed. */
  function Latest(start: Graph, results: seq<Evaluation>): Graph {
    if results == [] then start
    else
      var last := results[|results| - 1];
      if last.Evaluated? then last.graph else Latest(start, results[..|results| - 1])
  }

  /** What a watcher has after applying every diff it was sent. */
  function Followed(start: Graph, sent: seq<Reply<Diff>>): Graph {
    if sent == [] then start
    else
      var before, last := Followed(start, sent[..|sent| - 1]), sent[|sent| - 1];
      if last.Done? then Patched(before, last.value) else before
  }

  lemma {:induction false} FollowedMore(
    start: Graph, sent: seq<Reply<Diff>>, item: Reply<Diff>, previous: Graph, current: Graph)
    requires Agree(Followed(start, sent), previous) && WellKeyed(previous) && WellKeyed(current)
    requires if item.Done? then IsDiff(previous, current, item.value) else current == previous
    ensures Agree(Followed(start, sent + [item]), current)
  {
    assert (sent + [item])[..|sent|] == sent;
    if item.Done? {
      DiffIsPatch(Followed(start, sent), previous, current, item.value);
    }
  }
}
