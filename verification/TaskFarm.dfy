/**
 * The parallel task pipeline of src/task: a ventilator, any number of workers, and a sink that broadcasts
 * KILL when it has received a start marker and as many results as there are tasks, in whatever order.
 */
module TaskFarm {
  import opened Frames
  import opened Channels
  import opened Decimal

  const MARKER: Frame := [48]

  function Total(ws: seq<nat>): nat {
    if ws == [] then 0 else Total(Front(ws)) + Last(ws)
  }

  /** The total is the sum of the workloads, however they are divided. */
  lemma {:induction false} TotalAdds(ws: seq<nat>, us: seq<nat>)
    ensures Total(ws + us) == Total(ws) + Total(us)
    ensures forall x: nat :: Total([x]) == x
  {
    forall x: nat
      ensures Total([x]) == x
    {
      assert Front([x]) == [];
    }
    if us == [] {
      assert ws + us == ws;
    } else {
      assert Front(ws + us) == ws + Front(us);
      TotalAdds(ws, Front(us));
    }
  }

  /** What the ventilator sends to the workers. */
  function Texts(workloads: seq<nat>): (ts: seq<Frame>)
    ensures |ts| == |workloads| && forall i :: 0 <= i < |ts| ==> ts[i] == Print(workloads[i])
  {
    seq(|workloads|, i requires 0 <= i < |workloads| => Print(workloads[i]))
  }

  /** The ventilator: the start marker goes to the sink, one text for each workload to the workers. */
  method Ventilate(workloads: seq<nat>) returns (toSink: seq<Frame>, toWorkers: seq<Frame>, totalMsec: nat)
    ensures toSink == [MARKER] && totalMsec == Total(workloads)
    ensures toWorkers == Texts(workloads) && forall i :: 0 <= i < |workloads| ==> Atoi(toWorkers[i]) == workloads[i]
  {
    hide Atoi, Print;
    toSink, toWorkers, totalMsec := [MARKER], [], 0;
    for i := 0 to |workloads|
      invariant toWorkers == Texts(workloads[..i]) && totalMsec == Total(workloads[..i])
      invariant forall k :: 0 <= k < i ==> Atoi(toWorkers[k]) == workloads[k]
    {
      assert Front(workloads[..i + 1]) == workloads[..i];
      RoundTrip(workloads[i]);
      totalMsec := totalMsec + workloads[i];
      toWorkers := toWorkers + [Print(workloads[i])];
    }
    assert workloads[..|workloads|] == workloads;
  }

  /** The sink sends KILL when it has received one message for the start and n for the tasks. */
  predicate Kills(n: nat, received: nat) {
    received >= n + 1
  }

  /** The sink: one message for the start, n for the tasks, then KILL; it never looks at what it receives. */
  method Sink(n: nat, arrivals: seq<Frame>) returns (kill: bool, received: nat)
    ensures kill <==> Kills(n, |arrivals|)
    ensures received == if |arrivals| >= n + 1 then n + 1 else |arrivals|
  {
    kill, received := false, 0;
    if |arrivals| == 0 {
      return;
    }
    received := 1;
    var taskNbr := 0;
    while taskNbr < n
      invariant taskNbr <= n && received == taskNbr + 1 <= |arrivals|
    {
      if received == |arrivals| {
        return;
      }
      received := received + 1;
      taskNbr := taskNbr + 1;
    }
    kill := true;
  }

  /** What a worker's poll may report at once: a task, and that KILL has come. */
  datatype WorkerPoll = WorkerPoll(task: Option<Frame>, kill: bool)

  /** The tasks a worker does: those of its polls up to and including the first that reports KILL. */
  function Done(polls: seq<WorkerPoll>): seq<Frame> {
    if polls == [] then [] else
      (if polls[0].task.Some? then [polls[0].task.value] else []) + if polls[0].kill then [] else Done(polls[1..])
  }

  /** The tasks in a sequence of polls, KILL or not. */
  function Tasks(polls: seq<WorkerPoll>): seq<Frame> {
    if polls == [] then [] else
      (if polls[0].task.Some? then [polls[0].task.value] else []) + Tasks(polls[1..])
  }

  /** A worker does the tasks of all polls up to the first that reports KILL, that one included, and no more. */
  lemma {:induction false} DoneUpToKill(polls: seq<WorkerPoll>, k: nat)
    requires k <= |polls| && (forall i :: 0 <= i < k ==> !polls[i].kill) && (k < |polls| ==> polls[k].kill)
    ensures Done(polls) == Tasks(if k < |polls| then polls[..k + 1] else polls)
  {
    if polls != [] {
      if k == 0 {
        assert polls[..1][1..] == [];
      } else {
        DoneUpToKill(polls[1..], k - 1);
        assert k < |polls| ==> polls[..k + 1][1..] == polls[1..][..k];
      }
    }
  }

  /** The worker: sleep for the time the text says, send the text on, and leave when KILL has come. */
  method Work(polls: seq<WorkerPoll>) returns (results: seq<Frame>, naps: seq<int>, stopped: bool)
    ensures results == Done(polls)
    ensures |naps| == |results| && forall i :: 0 <= i < |results| ==> naps[i] == Atoi(results[i])
    ensures stopped <==> exists i :: 0 <= i < |polls| && polls[i].kill
  {
    hide Atoi, Done;
    results, naps, stopped := [], [], false;
    var i := 0;
    assert polls[0..] == polls && results + Done(polls) == Done(polls);
    while i < |polls|
      invariant i <= |polls| && !stopped && results + Done(polls[i..]) == Done(polls)
      invariant |naps| == |results| && forall k :: 0 <= k < |results| ==> naps[k] == Atoi(results[k])
      invariant forall k :: 0 <= k < i ==> !polls[k].kill
    {
      DoneStep(polls, results, i);
      var p := polls[i];
      if p.task.Some? {
        naps := naps + [Atoi(p.task.value)];
        results := results + [p.task.value];
      }
      if p.kill {
        return results, naps, true;
      }
      i := i + 1;
    }
    assert polls[i..] == [] && results + Done([]) == results by {
      DoneNothing();
    }
  }

  lemma DoneNothing()
    ensures Done([]) == []
  {
  }

  /** What one poll adds to the tasks done. */
  lemma DoneStep(polls: seq<WorkerPoll>, before: seq<Frame>, i: nat)
    requires i < |polls|
    ensures var after := if polls[i].task.Some? then before + [polls[i].task.value] else before;
            before + Done(polls[i..]) == if polls[i].kill then after else after + Done(polls[i + 1..])
  {
    assert polls[i..][0] == polls[i] && polls[i..][1..] == polls[i + 1..];
  }

  // ---- The system ----

  datatype Item = Marker | Result(task: Frame)
  datatype Job = Job(worker: Frame, task: Frame)

  datatype State = State(marked: bool, unsent: seq<Frame>, pipe: seq<Frame>, working: seq<Job>, toSink: seq<Item>,
                         received: seq<Item>, killed: bool, stopped: set<Frame>)

  ghost predicate Init(tasks: seq<Frame>, s: State) {
    s == State(false, tasks, [], [], [], [], false, {})
  }

  function Results(texts: seq<Frame>): (items: seq<Item>)
    ensures |items| == |texts| && forall i :: 0 <= i < |texts| ==> items[i] == Result(texts[i])
  {
    seq(|texts|, i requires 0 <= i < |texts| => Result(texts[i]))
  }

  lemma OneResult(task: Frame, kill: bool)
    ensures Results(Done([WorkerPoll(Some(task), kill)])) == [Result(task)]
  {
    var p := [WorkerPoll(Some(task), kill)];
    assert p[1..] == [] && Done([]) == [];
  }

  datatype Step = SendMarker | SendTask | Pull(i: nat, w: Frame) | Finish(i: nat) | Collect(i: nat) | Stop(w: Frame)

  ghost predicate Busy(s: State, w: Frame) {
    exists i :: 0 <= i < |s.working| && s.working[i].worker == w
  }

  ghost predicate Enabled(s: State, step: Step) {
    match step
    case SendMarker => !s.marked
    case SendTask => s.marked && s.unsent != []
    case Pull(i, w) => i < |s.pipe| && !Busy(s, w) && w !in s.stopped
    case Finish(i) => i < |s.working|
    case Collect(i) => i < |s.toSink| && !s.killed
    case Stop(w) => s.killed && !Busy(s, w)
  }

  /** The sink takes its (n+1)st message and broadcasts KILL; before that it only counts. */
  ghost function Apply(tasks: seq<Frame>, s: State, step: Step): State
    requires Enabled(s, step)
  {
    match step
    case SendMarker => s.(marked := true, toSink := s.toSink + [Marker])
    case SendTask => s.(unsent := s.unsent[1..], pipe := s.pipe + [s.unsent[0]])
    case Pull(i, w) => s.(pipe := Without(s.pipe, i), working := s.working + [Job(w, s.pipe[i])])
    case Finish(i) =>
      s.(working := Without(s.working, i),
          toSink := s.toSink + Results(Done([WorkerPoll(Some(s.working[i].task), s.killed)])))
    case Collect(i) =>
      s.(toSink := Without(s.toSink, i), received := s.received + [s.toSink[i]],
        killed := Kills(|tasks|, |s.received| + 1))
    case Stop(w) => s.(stopped := s.stopped + {w})
  }

  ghost predicate Next(tasks: seq<Frame>, s: State, t: State) {
    exists step :: Enabled(s, step) && t == Apply(tasks, s, step)
  }

  ghost predicate Run(tasks: seq<Frame>, run: seq<State>) {
    |run| > 0
    && if |run| == 1 then Init(tasks, run[0]) else Run(tasks, Front(run)) && Next(tasks, Last(Front(run)), Last(run))
  }

  function TaskOf(t: Frame): multiset<Frame> {
    multiset{t}
  }

  function JobTask(j: Job): multiset<Frame> {
    multiset{j.task}
  }

  function ItemTask(x: Item): multiset<Frame> {
    if x.Result? then multiset{x.task} else multiset{}
  }

  function MarkerOf(x: Item): multiset<()> {
    if x.Marker? then multiset{()} else multiset{}
  }

  /** In how many places a task, or its result, is found. */
  function Places(s: State, t: Frame): nat {
    Sum(TaskOf, s.unsent)[t] + Sum(TaskOf, s.pipe)[t] + Sum(JobTask, s.working)[t]
    + Sum(ItemTask, s.toSink)[t] + Sum(ItemTask, s.received)[t]
  }

  /** Nothing is lost or made up, so all messages the sink will ever get number one more than the tasks. */
  ghost predicate Inv(tasks: seq<Frame>, s: State) {
    && (forall t :: Places(s, t) == Sum(TaskOf, tasks)[t])
    && Sum(MarkerOf, s.toSink)[()] + Sum(MarkerOf, s.received)[()] + (if s.marked then 0 else 1) == 1
    && |s.unsent| + |s.pipe| + |s.working| + |s.toSink| + |s.received| + (if s.marked then 0 else 1) == |tasks| + 1
    && (s.killed <==> |s.received| == |tasks| + 1)
    && (s.stopped != {} ==> s.killed)
  }

  lemma VentilatorKeepsInv(tasks: seq<Frame>, s: State, step: Step)
    requires Inv(tasks, s) && Enabled(s, step) && (step.SendMarker? || step.SendTask? || step.Stop?)
    ensures Inv(tasks, Apply(tasks, s, step))
  {
    hide Sum;
    var t := Apply(tasks, s, step);
    if step.SendMarker? {
      SumPush(ItemTask, s.toSink, Marker);
      SumPush(MarkerOf, s.toSink, Marker);
    } else if step.SendTask? {
      SumPull(TaskOf, s.unsent, 0);
      assert Without(s.unsent, 0) == s.unsent[1..];
      SumPush(TaskOf, s.pipe, s.unsent[0]);
    }
    forall k
      ensures Places(t, k) == Sum(TaskOf, tasks)[k]
    {
      assert Places(s, k) == Sum(TaskOf, tasks)[k];
    }
  }

  lemma Pulled(tasks: seq<Frame>, s: State, t: State, i: nat, w: Frame)
    requires Inv(tasks, s) && i < |s.pipe|
    requires t == s.(pipe := Without(s.pipe, i), working := s.working + [Job(w, s.pipe[i])])
    ensures Inv(tasks, t)
  {
    hide Sum;
    SumPull(TaskOf, s.pipe, i);
    SumPush(JobTask, s.working, Job(w, s.pipe[i]));
    assert forall k :: Places(t, k) == Places(s, k);
  }

  lemma Finished(tasks: seq<Frame>, s: State, t: State, i: nat, x: Item)
    requires Inv(tasks, s) && i < |s.working| && x == Result(s.working[i].task)
    requires t == s.(working := Without(s.working, i), toSink := s.toSink + [x])
    ensures Inv(tasks, t)
  {
    hide Sum;
    SumPull(JobTask, s.working, i);
    SumPush(ItemTask, s.toSink, x);
    SumPush(MarkerOf, s.toSink, x);
    assert forall k :: Places(t, k) == Places(s, k);
  }

  lemma Collected(tasks: seq<Frame>, s: State, t: State, i: nat, x: Item)
    requires Inv(tasks, s) && i < |s.toSink| && !s.killed && x == s.toSink[i]
    requires t == s.(toSink := Without(s.toSink, i), received := s.received + [x],
                     killed := Kills(|tasks|, |s.received| + 1))
    ensures Inv(tasks, t)
  {
    hide Sum;
    ItemMoves(ItemTask, s, t, i, x);
    ItemMoves(MarkerOf, s, t, i, x);
    assert forall k :: Places(t, k) == Places(s, k);
    hide Places;
  }

  lemma ItemMoves<K>(f: Item -> multiset<K>, s: State, t: State, i: nat, x: Item)
    requires i < |s.toSink| && x == s.toSink[i] && t.toSink == Without(s.toSink, i) && t.received == s.received + [x]
    ensures forall k :: Sum(f, t.toSink)[k] + Sum(f, t.received)[k] == Sum(f, s.toSink)[k] + Sum(f, s.received)[k]
    ensures |t.toSink| + |t.received| == |s.toSink| + |s.received|
  {
    hide Sum;
    SumPull(f, s.toSink, i);
    SumPush(f, s.received, x);
  }

  lemma StepKeepsInv(tasks: seq<Frame>, s: State, step: Step)
    requires Inv(tasks, s) && Enabled(s, step)
    ensures Inv(tasks, Apply(tasks, s, step))
  {
    hide Inv;
    var t := Apply(tasks, s, step);
    match step
    case Pull(i, w) => Pulled(tasks, s, t, i, w);
    case Finish(i) => OneResult(s.working[i].task, s.killed); Finished(tasks, s, t, i, Result(s.working[i].task));
    case Collect(i) => assert !s.killed; Collected(tasks, s, t, i, s.toSink[i]);
    case _ => VentilatorKeepsInv(tasks, s, step);
  }

  lemma {:induction false} RunKeepsInv(tasks: seq<Frame>, run: seq<State>)
    requires Run(tasks, run)
    ensures Inv(tasks, Last(run))
  {
    hide Apply, Enabled, Sum;
    if |run| == 1 {
      InitInv(tasks, run[0]);
    } else {
      hide Inv, Init;
      RunKeepsInv(tasks, Front(run));
      var s, t := Last(Front(run)), Last(run);
      var step :| Enabled(s, step) && t == Apply(tasks, s, step);
      StepKeepsInv(tasks, s, step);
    }
  }

  lemma InitInv(tasks: seq<Frame>, s: State)
    requires Init(tasks, s)
    ensures Inv(tasks, s)
  {
  }

  /**
   * KILL is safe: it is sent only after every task has been sent, worked on and collected, even when a
   * result overtakes the start marker; so no worker stops while anything is left to do.
   */
  lemma {:induction false} KillIsSafe(tasks: seq<Frame>, run: seq<State>)
    requires Run(tasks, run) && (Last(run).killed || Last(run).stopped != {})
    ensures var s := Last(run);
            && s.unsent == [] && s.pipe == [] && s.working == [] && s.toSink == []
            && (forall t :: Sum(ItemTask, s.received)[t] == Sum(TaskOf, tasks)[t])
            && Sum(MarkerOf, s.received)[()] == 1
  {
    RunKeepsInv(tasks, run);
    var s := Last(run);
    forall t
      ensures Sum(ItemTask, s.received)[t] == Sum(TaskOf, tasks)[t]
    {
      assert Places(s, t) == Sum(TaskOf, tasks)[t];
    }
  }
}
