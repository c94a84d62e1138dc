/** Executions of the methods of Reconcilers.dfy are runs: what is proved of all runs holds of them. */
module Executions {
  import opened Text
  import opened Cluster
  import opened Controllers
  import opened Runs
  import opened Reconcilers

  /** What happens between two calls of `req`: anything but its own calls and a restart. */
  predicate Elsewhere(gap: seq<Label>, req: Key) {
    forall i :: 0 <= i < |gap| ==> !gap[i].Crash? && !(gap[i].Step? && gap[i].req == req)
  }

  /** The run that weaves the events of a reconcile into whatever else happens. */
  function Woven(req: Key, events: seq<Event>, gaps: seq<seq<Label>>): seq<Label>
    requires |gaps| == |events|
    decreases |events|
  {
    if events == [] then []
    else
      var n := |events| - 1;
      Woven(req, events[..n], gaps[..n]) + gaps[n] + [Step(req, events[n].inp)]
  }

  /** The gaps account for all the changes that the calls met. */
  ghost predicate Accounted(tools: Tools, s: System, req: Key, events: seq<Event>, gaps: seq<seq<Label>>)
    requires |gaps| == |events|
    decreases |events|
  {
    events != [] ==>
      var n := |events| - 1;
      && Accounted(tools, s, req, events[..n], gaps[..n])
      && Elsewhere(gaps[n], req)
      && Exec(tools, Exec(tools, s, Woven(req, events[..n], gaps[..n])), gaps[n]).world == events[n].before
  }

  lemma {:induction false} ElsewhereKeeps(tools: Tools, s: System, gap: seq<Label>, req: Key)
    requires Elsewhere(gap, req)
    ensures PcOf(Exec(tools, s, gap), req) == PcOf(s, req)
    decreases |gap|
  {
    hide Perform, CallOf, Resume, Outside;
    if gap == [] {
    } else {
      assert !gap[0].Crash? && !(gap[0].Step? && gap[0].req == req);
      ElsewhereKeeps(tools, Do(tools, s, gap[0]), gap[1..], req);
    }
  }

  /** Any execution of a reconciler, with everything that happened in between, is a run of the system; it
      leaves the cluster as its last call found and left it, and its thread where the machine stands. */
  lemma {:induction false} ExecutionsAreRuns(
      tools: Tools, s: System, req: Key, events: seq<Event>, gaps: seq<seq<Label>>, pc: Pc)
    requires |gaps| == |events| && req !in s.threads
    requires Reached(req, events) == Some(pc) && Accounted(tools, s, req, events, gaps)
    ensures var end := Exec(tools, s, Woven(req, events, gaps));
            && PcOf(end, req) == (if pc.Finished? then Start else pc)
            && (events != [] ==> end.world == events[|events| - 1].after)
    decreases |events|
  {
    hide Perform, CallOf, Resume, Outside;
    if events == [] {
    } else {
      var n := |events| - 1;
      var e, before := events[n], Exec(tools, s, Woven(req, events[..n], gaps[..n]));
      var prev := Reached(req, events[..n]).value;
      ExecutionsAreRuns(tools, s, req, events[..n], gaps[..n], prev);
      ElsewhereKeeps(tools, before, gaps[n], req);
      var met := Exec(tools, before, gaps[n]);
      ExecAppend(tools, s, Woven(req, events[..n], gaps[..n]), gaps[n]);
      ExecAppend(tools, s, Woven(req, events[..n], gaps[..n]) + gaps[n], [Step(req, e.inp)]);
      assert Exec(tools, met, [Step(req, e.inp)]) == Do(tools, met, Step(req, e.inp));
      assert PcOf(met, req) == prev;
    }
  }
}
