/**
 `Init` of the container job service: one worker per runner updates it and sends the outcome
 on a channel that has room for all; `Init` receives until the first error.
 */
module InitFanOut {
  import opened Wrappers

  /** The outcome of one runner's update: an error, or none. */
  type Update = Option<string>

  /** `order` lists the workers that have sent, first to last; `taken` what `Init` received. */
  datatype State = State(order: seq<nat>, channel: seq<Update>, taken: seq<Update>, result: Option<Update>)

  datatype Step = Send(worker: nat) | Receive | Finish

  const START: State := State([], [], [], None)

  /** The worker's update is over and the channel is full. */
  predicate Blocks(updates: seq<Update>, s: State, worker: nat) {
    worker < |updates| && worker !in s.order && |s.channel| == |updates|
  }

  predicate Enabled(updates: seq<Update>, s: State, a: Step) {
    match a
    case Send(w) => w < |updates| && w !in s.order && !Blocks(updates, s, w)
    case Receive => s.result.None? && |s.taken| < |updates| && s.channel != []
    case Finish => s.result.None? && |s.taken| == |updates|
  }

  function Apply(updates: seq<Update>, s: State, a: Step): State
    requires Enabled(updates, s, a)
  {
    match a
    case Send(w) => s.(order := s.order + [w], channel := s.channel + [updates[w]])
    case Receive =>
      s.(channel := s.channel[1..], taken := s.taken + [s.channel[0]],
         result := if s.channel[0].Some? then Some(s.channel[0]) else None)
    case Finish => s.(result := Some(None))
  }

  ghost predicate IsRun(updates: seq<Update>, states: seq<State>, steps: seq<Step>) {
    && |states| == |steps| + 1
    && states[0] == START
    && forall i {:trigger steps[i]} :: 0 <= i < |steps| ==>
         Enabled(updates, states[i], steps[i]) && states[i + 1] == Apply(updates, states[i], steps[i])
  }

  /** What was sent is what was received followed by what is still in the channel. */
  ghost predicate Conserved(updates: seq<Update>, s: State) {
    && |s.taken| + |s.channel| == |s.order|
    && (forall i :: 0 <= i < |s.order| ==> s.order[i] < |updates| && (s.taken + s.channel)[i] == updates[s.order[i]])
  }

  ghost predicate Distinct(order: seq<nat>) {
    forall i, j :: 0 <= i < j < |order| ==> order[i] != order[j]
  }

  ghost predicate ResultOk(updates: seq<Update>, s: State) {
    match s.result
    case None => forall u :: u in s.taken ==> u.None?
    case Some(None) => |s.taken| == |updates| && forall u :: u in s.taken ==> u.None?
    case Some(Some(e)) => Some(e) in s.taken
  }

  ghost predicate Inv(updates: seq<Update>, s: State) {
    Conserved(updates, s) && Distinct(s.order) && ResultOk(updates, s)
  }

  lemma StepKeepsInv(updates: seq<Update>, s: State, a: Step)
    requires Inv(updates, s) && Enabled(updates, s, a)
    ensures Inv(updates, Apply(updates, s, a))
  {
    var s' := Apply(updates, s, a);
    if a.Receive? {
      assert s'.taken + s'.channel == s.taken + s.channel;
    } else if a.Send? {
      assert s'.taken + s'.channel == s.taken + s.channel + [updates[a.worker]];
    }
  }

  lemma {:induction false} RunKeepsInv(updates: seq<Update>, states: seq<State>, steps: seq<Step>, n: nat)
    requires IsRun(updates, states, steps) && n < |states|
    ensures Inv(updates, states[n])
  {
    if n > 0 {
      RunKeepsInv(updates, states, steps, n - 1);
      StepKeepsInv(updates, states[n - 1], steps[n - 1]);
    }
  }

  /** Distinct numbers below `n` that leave one out are fewer than `n`; and if there are `n`
      of them, none is left out. */
  lemma {:induction false} Pigeonhole(order: seq<nat>, n: nat)
    requires Distinct(order) && forall i :: 0 <= i < |order| ==> order[i] < n
    ensures |order| <= n
    ensures forall w: nat :: w < n && w !in order ==> |order| < n
    decreases n
  {
    if order != [] {
      assert order[0] < n;
      if n - 1 in order {
        var k :| 0 <= k < |order| && order[k] == n - 1;
        var rest := order[..k] + order[k + 1..];
        Pigeonhole(rest, n - 1);
        assert forall w: nat :: w < n - 1 && w !in order ==> w !in rest;
      } else {
        Pigeonhole(order, n - 1);
      }
    }
  }

  /** No worker ever blocks on its send, whether `Init` is still receiving or has returned
      early with an error. */
  lemma WorkersNeverBlock(updates: seq<Update>, states: seq<State>, steps: seq<Step>, n: nat, worker: nat)
    requires IsRun(updates, states, steps) && n < |states|
    ensures !Blocks(updates, states[n], worker)
  {
    RunKeepsInv(updates, states, steps, n);
    Pigeonhole(states[n].order, |updates|);
  }

  /** Once `Init` has returned: it returned nil exactly when every update succeeded, and an
      error it returned is the error of one of the runners. */
  lemma InitReportsFailures(updates: seq<Update>, states: seq<State>, steps: seq<Step>, n: nat)
    requires IsRun(updates, states, steps) && n < |states|
    requires states[n].result.Some?
    ensures states[n].result == Some(None) <==> forall w :: 0 <= w < |updates| ==> updates[w].None?
    ensures states[n].result != Some(None) ==> exists w :: 0 <= w < |updates| && states[n].result == Some(updates[w])
  {
    RunKeepsInv(updates, states, steps, n);
    var s := states[n];
    if s.result == Some(None) {
      forall w | 0 <= w < |updates|
        ensures updates[w].None?
      {
        Pigeonhole(s.order, |updates|);
        assert w in s.order;
        var i :| 0 <= i < |s.order| && s.order[i] == w;
        assert (s.taken + s.channel)[i] == s.taken[i];
      }
    } else {
      var i :| 0 <= i < |s.taken| && s.taken[i] == s.result.value;
      assert (s.taken + s.channel)[i] == s.taken[i];
      assert s.result == Some(updates[s.order[i]]);
    }
  }

  /** Every run is finite: a step is a send, a receive or the return. */
  lemma {:induction false} RunsAreShort(updates: seq<Update>, states: seq<State>, steps: seq<Step>, n: nat)
    requires IsRun(updates, states, steps) && n < |states|
    ensures n <= |states[n].order| + |states[n].taken| + if states[n].result == Some(None) then 1 else 0
    ensures n <= 2 * |updates| + 1
  {
    RunKeepsInv(updates, states, steps, n);
    Pigeonhole(states[n].order, |updates|);
    if n > 0 {
      RunsAreShort(updates, states, steps, n - 1);
      RunKeepsInv(updates, states, steps, n - 1);
      assert states[n] == Apply(updates, states[n - 1], steps[n - 1]);
    }
  }

  /** When nothing can move any more, every worker has sent and `Init` has returned. */
  lemma NothingGetsStuck(updates: seq<Update>, states: seq<State>, steps: seq<Step>)
    requires IsRun(updates, states, steps)
    requires forall a :: !Enabled(updates, states[|steps|], a)
    ensures states[|steps|].result.Some?
    ensures forall w: nat :: w < |updates| ==> w in states[|steps|].order
  {
    var s := states[|steps|];
    RunKeepsInv(updates, states, steps, |steps|);
    Pigeonhole(s.order, |updates|);
    forall w: nat | w < |updates|
      ensures w in s.order
    {
      WorkersNeverBlock(updates, states, steps, |steps|, w);
      assert !Enabled(updates, s, Send(w));
    }
    AllInMeansFull(s.order, |updates|);
    assert !Enabled(updates, s, Receive) && !Enabled(updates, s, Finish);
  }

  lemma {:induction false} AllInMeansFull(order: seq<nat>, n: nat)
    requires forall w: nat :: w < n ==> w in order
    ensures n <= |order|
    decreases n
  {
    if n > 0 {
      assert n - 1 in order;
      var k :| 0 <= k < |order| && order[k] == n - 1;
      var rest := order[..k] + order[k + 1..];
      forall w: nat | w < n - 1
        ensures w in rest
      {
        assert w in order;
        var i :| 0 <= i < |order| && order[i] == w;
        assert if i < k then rest[i] == w else rest[i - 1] == w;
      }
      AllInMeansFull(rest, n - 1);
    }
  }

  /** The receiving loop, when the workers send in this order. */
  method Init(updates: seq<Update>, order: seq<nat>) returns (err: Update)
    requires Distinct(order) && |order| == |updates|
    requires forall i :: 0 <= i < |order| ==> order[i] < |updates|
    ensures err.None? <==> forall w :: 0 <= w < |updates| ==> updates[w].None?
    ensures err.Some? ==> exists i :: 0 <= i < |order| && err == updates[order[i]]
                                      && forall j :: 0 <= j < i ==> updates[order[j]].None?
  {
    for i := 0 to |updates|
      invariant forall j :: 0 <= j < i ==> updates[order[j]].None?
    {
      if updates[order[i]].Some? {
        return updates[order[i]];
      }
    }
    forall w: nat | w < |updates|
      ensures updates[w].None?
    {
      Pigeonhole(order, |updates|);
      assert w in order;
    }
    return None;
  }
}
