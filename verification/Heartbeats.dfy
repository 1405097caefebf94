/**
 * The queue and its workers in real time, without requests: when do heartbeats keep everybody alive?
 *
 * A message takes at most `delay` ms to reach its peer's socket; once a poll is ready (or has timed out)
 * the pass it starts is over within `pass` ms. The queue takes one message per pass, in any order, so the
 * time a message waits grows with the number of workers. The passes themselves are QueueSpec.Pass and
 * PPWorker.WPass, the functions the two programs are proved against.
 */
module Heartbeats {
  import opened Frames
  import opened Channels
  import opened QueueSpec
  import W = PPWorker

  datatype Config = Config(ids: set<Frame>, delay: nat, pass: nat) {
    /** The slowest possible route still beats the three lives of 1000 ms. */
    predicate Fast() {
      (|ids| + 4) * pass < INTERVAL && 2 * delay + (|ids| + 4) * pass <= INTERVAL
    }

    /** How long a message can wait in the queue's socket. */
    function Backlog(): nat {
      (|ids| + 1) * pass
    }
  }

  /** One message from a worker, and when it was handed to the socket at the latest. */
  datatype Up = Up(worker: Frame, content: Frame, sent: int)
  datatype Waiting = Waiting(up: Up, at: int)
  datatype Down = Down(worker: Frame, sent: int)

  /** A running worker: its variables, the end of its last pass, the arrivals it has not read. */
  datatype View = View(s: W.WState, done: int, arrivals: seq<int>, since: int)

  /**
   * registered, busyFrom, served and View.since are history variables: no step depends on them. They say
   * whom the queue has heard and until when, when it last stopped being idle, whom it served since, and
   * when a worker last got its lives back.
   */
  datatype State = State(
    now: int,
    queue: QState, done: int, flights: seq<Up>, inbox: seq<Waiting>,
    downs: seq<Down>, workers: map<Frame, View>,
    suspected: bool,
    registered: map<Frame, int>, busyFrom: int, served: set<Frame>)

  ghost predicate Init(cfg: Config, s: State) {
    s == State(s.now, QState([], s.now + INTERVAL), s.now, [], [], [], map[], false, map[], s.now, {})
  }

  /** When a poll that began at done returns: at the first arrival, or after its timeout. */
  function Ready(done: int, arrivals: seq<int>): int {
    if arrivals == [] || arrivals[0] >= done + INTERVAL then done + INTERVAL
    else if arrivals[0] > done then arrivals[0] else done
  }

  function Arrivals(inbox: seq<Waiting>): seq<int> {
    if inbox == [] then [] else [inbox[0].at]
  }

  function QReady(s: State): int {
    Ready(s.done, Arrivals(s.inbox))
  }

  function WReady(v: View): int {
    Ready(v.done, v.arrivals)
  }

  predicate Overdue(done: int, arrivals: seq<int>) {
    arrivals == [] || arrivals[0] >= done + INTERVAL
  }

  /** No deadline has passed: messages are on time, and so are the passes of the queue and the workers. */
  ghost predicate OnTime(cfg: Config, s: State) {
    && (forall i :: 0 <= i < |s.flights| ==> s.now <= s.flights[i].sent + cfg.delay)
    && (forall i :: 0 <= i < |s.downs| ==> s.now <= s.downs[i].sent + cfg.delay)
    && s.now <= QReady(s) + cfg.pass
    && (forall x :: x in s.workers ==> s.now <= WReady(s.workers[x]) + cfg.pass)
  }

  datatype Step =
    | Tick(d: nat)
    | Start(x: Frame, at: int)
    | Arrive(i: nat)
    | Take(i: nat, c: Clocks)
    | Idle(c: Clocks)
    | Deliver(i: nat)
    | Wake(x: Frame, beat: bool, check: int, rearm: int, end: int)

  ghost predicate Enabled(cfg: Config, s: State, step: Step) {
    !s.suspected &&
    match step
    case Tick(d) => OnTime(cfg, s.(now := s.now + d))
    case Start(x, at) => x in cfg.ids && x !in s.workers && s.now <= at <= s.now + cfg.pass
    case Arrive(i) => i < |s.flights|
    case Take(i, c) => i < |s.inbox| && QReady(s) <= s.now && InOrder(s.now, c) && c.purge <= QReady(s) + cfg.pass
    case Idle(c) =>
      Overdue(s.done, Arrivals(s.inbox)) && QReady(s) <= s.now && InOrder(s.now, c) && c.purge <= QReady(s) + cfg.pass
    case Deliver(i) => i < |s.downs| && s.downs[i].worker in s.workers
    case Wake(x, beat, check, rearm, end) =>
      && x in s.workers && var v := s.workers[x];
      && (if beat then v.arrivals != [] else Overdue(v.done, v.arrivals))
      && WReady(v) <= s.now <= check <= rearm <= end <= WReady(v) + cfg.pass
  }

  /** What the heartbeats of a round are on their way to. */
  function Downs(beats: seq<Msg>, sent: int): (ds: seq<Down>)
    requires forall i :: 0 <= i < |beats| ==> |beats[i]| > 0
    ensures |ds| == |beats| && forall i :: 0 <= i < |beats| ==> ds[i] == Down(beats[i][0], sent)
  {
    seq(|beats|, i requires 0 <= i < |beats| => Down(beats[i][0], sent))
  }

  function AfterQueuePass(s: State, inbox: seq<Waiting>, inp: Input, c: Clocks): State
    requires GoodInput(inp)
  {
    var r := Pass(s.queue, inp, c);
    s.(queue := r.0, done := c.purge, inbox := inbox, downs := s.downs + Downs(r.1.beats, c.purge))
  }

  function Ups(x: Frame, sent: seq<Msg>, at: int): (us: seq<Up>)
    requires forall i :: 0 <= i < |sent| ==> |sent[i]| > 0
    ensures |us| == |sent| && forall i :: 0 <= i < |sent| ==> us[i] == Up(x, sent[i][0], at)
  {
    seq(|sent|, i requires 0 <= i < |sent| => Up(x, sent[i][0], at))
  }

  function BeatPoll(beat: bool): W.Poll {
    if beat then W.Got([HEARTBEAT], false, false) else W.Timeout
  }

  ghost function Apply(cfg: Config, s: State, step: Step): State
    requires Enabled(cfg, s, step)
  {
    match step
    case Tick(d) => s.(now := s.now + d)
    case Start(x, at) =>
      s.(workers := s.workers[x := View(W.Fresh(at + INTERVAL), at, [], at)], flights := s.flights + [Up(x, READY, at)])
    case Arrive(i) =>
      var t := s.(flights := Without(s.flights, i), inbox := s.inbox + [Waiting(s.flights[i], s.now)]);
      if s.inbox == [] then t.(busyFrom := s.now, served := {}) else t
    case Take(i, c) =>
      var u := s.inbox[i].up;
      AfterQueuePass(s, Without(s.inbox, i), Input(Some([u.worker, u.content]), None), c)
        .(registered := s.registered[u.worker := c.ready + INTERVAL * LIVENESS], served := s.served + {u.worker})
    case Idle(c) => AfterQueuePass(s, s.inbox, Input(None, None), c)
    case Deliver(i) =>
      var x := s.downs[i].worker;
      var v := s.workers[x];
      s.(downs := Without(s.downs, i), workers := s.workers[x := v.(arrivals := v.arrivals + [s.now])])
    case Wake(x, beat, check, rearm, end) =>
      var v := s.workers[x];
      var r := W.WPass(v.s, BeatPoll(beat), check, rearm);
      if r.1.reconnected then s.(suspected := true) else
        var v' := View(r.0, end, if beat then v.arrivals[1..] else v.arrivals, if beat then end else v.since);
        s.(workers := s.workers[x := v'], flights := s.flights + Ups(x, r.1.sent, end))
  }

  ghost predicate Next(cfg: Config, s: State, t: State) {
    exists step :: Enabled(cfg, s, step) && t == Apply(cfg, s, step)
  }

  ghost predicate Run(cfg: Config, run: seq<State>) {
    |run| > 0
    && if |run| == 1 then Init(cfg, run[0]) else Run(cfg, Front(run)) && Next(cfg, Last(Front(run)), Last(run))
  }

  // ---- The invariant ----

  ghost predicate Pending(s: State, x: Frame) {
    (exists i :: 0 <= i < |s.flights| && s.flights[i].worker == x)
    || (exists i :: 0 <= i < |s.inbox| && s.inbox[i].up.worker == x)
  }

  /** No worker has two messages on the way. */
  ghost predicate OneEach(s: State) {
    && (forall i, j :: 0 <= i < j < |s.flights| ==> s.flights[i].worker != s.flights[j].worker)
    && (forall i, j :: 0 <= i < j < |s.inbox| ==> s.inbox[i].up.worker != s.inbox[j].up.worker)
    && (forall i, j :: 0 <= i < |s.flights| && 0 <= j < |s.inbox| ==> s.flights[i].worker != s.inbox[j].up.worker)
  }

  /** A message on the way: its sender's timer was rearmed for it, and the sender is safe until it is read. */
  ghost predicate UpOk(cfg: Config, s: State, u: Up) {
    && u.worker in s.workers && u.content != []
    && var v := s.workers[u.worker];
    && u.sent <= v.s.heartbeatAt - INTERVAL + cfg.pass
    && (u.worker in s.registered ==> s.registered[u.worker] > u.sent + cfg.delay + cfg.Backlog())
    && (u.worker !in s.registered ==> u.sent <= v.since)
  }

  ghost predicate UpsOk(cfg: Config, s: State) {
    && OneEach(s)
    && (forall i :: 0 <= i < |s.flights| ==> UpOk(cfg, s, s.flights[i]))
    && (forall i :: 0 <= i < |s.inbox| ==> UpOk(cfg, s, s.inbox[i].up) && s.inbox[i].at <= s.now
                                           && s.inbox[i].at <= s.inbox[i].up.sent + cfg.delay)
    && (forall i, j :: 0 <= i < j < |s.inbox| ==> s.inbox[i].at <= s.inbox[j].at)
  }

  function Turns(n: nat, pass: nat): nat {
    n * pass
  }

  /** A worker that was served in this busy period will not send again before the period is over. */
  ghost predicate ServedOk(cfg: Config, s: State, x: Frame) {
    x in s.workers && !Pending(s, x)
    && s.workers[x].s.heartbeatAt >= s.busyFrom - cfg.delay - cfg.pass + INTERVAL
  }

  /** While messages wait, the queue is serving each worker at most once, one pass each, since busyFrom. */
  ghost predicate BusyOk(cfg: Config, s: State) {
    s.inbox != [] ==>
      && s.busyFrom <= s.inbox[0].at
      && QReady(s) <= s.busyFrom + Turns(|s.served| + 1, cfg.pass)
      && s.served <= cfg.ids
      && (s.inbox[0].at <= s.done || (s.served == {} && s.busyFrom == s.inbox[0].at))
      && (forall x :: x in s.served ==> ServedOk(cfg, s, x))
  }

  /** The queue lists exactly the workers it has heard, and no heartbeat round is overdue. */
  ghost predicate QueueOk(cfg: Config, s: State) {
    && QInv(s.queue, s.done)
    && s.done <= s.now + cfg.pass && s.done < s.queue.heartbeatAt + cfg.pass
    && s.queue.heartbeatAt <= s.now + INTERVAL + cfg.pass
    && s.registered.Keys <= s.workers.Keys
    && (forall x :: x in s.registered ==> Entry(x, s.registered[x]) in s.queue.workers)
    && (forall e :: e in s.queue.workers ==> e.id in s.registered && s.registered[e.id] == e.expiry)
  }

  /** The variables of one worker, and how long the queue will wait for it. */
  ghost predicate ViewOk(cfg: Config, s: State, x: Frame)
    requires x in s.workers
  {
    var v := s.workers[x];
    && x in cfg.ids
    && v.done <= s.now + cfg.pass && v.done <= v.s.heartbeatAt + cfg.pass
    && v.s.heartbeatAt <= s.now + INTERVAL + cfg.pass
    && 1 <= v.s.liveness <= 3 && v.since <= v.done && v.done >= v.since + INTERVAL * (3 - v.s.liveness)
    && (forall i :: 0 <= i < |v.arrivals| ==> v.arrivals[i] <= s.now)
    && (v.arrivals != [] ==> x in s.registered)
    && (x in s.registered && !Pending(s, x) ==> s.registered[x] >= v.s.heartbeatAt + 2 * INTERVAL - cfg.pass)
    && (x !in s.registered ==> Pending(s, x))
  }

  /** A heartbeat will have reached worker x before its third life is over. */
  ghost predicate Covered(cfg: Config, s: State, x: Frame)
    requires x in s.workers
  {
    var end := s.workers[x].since + 3 * INTERVAL;
    || (s.workers[x].arrivals != [] && s.workers[x].arrivals[0] < end)
    || (exists i :: 0 <= i < |s.downs| && s.downs[i].worker == x && s.downs[i].sent + cfg.delay < end)
    || (x in s.registered && s.queue.heartbeatAt + INTERVAL + 2 * cfg.pass + cfg.delay <= end)
    || x !in s.registered
  }

  ghost predicate DownsOk(cfg: Config, s: State) {
    forall i :: 0 <= i < |s.downs| ==> s.downs[i].worker in s.registered && s.downs[i].sent <= s.now + cfg.pass
  }

  ghost predicate WorkersOk(cfg: Config, s: State) {
    forall x :: x in s.workers ==> ViewOk(cfg, s, x) && Covered(cfg, s, x)
  }

  ghost predicate Inv(cfg: Config, s: State) {
    && !s.suspected && OnTime(cfg, s) && UpsOk(cfg, s) && BusyOk(cfg, s)
    && QueueOk(cfg, s) && DownsOk(cfg, s) && WorkersOk(cfg, s)
  }

  // ---- The invariant is kept: time, starts, arrivals ----

  lemma TurnsStep(n: nat, pass: nat)
    ensures Turns(n + 1, pass) == Turns(n, pass) + pass && Turns(0, pass) == 0 && Turns(1, pass) == pass
  {
  }

  lemma TurnsMonotone(m: nat, n: nat, pass: nat)
    requires m <= n
    ensures Turns(m, pass) <= Turns(n, pass)
  {
  }

  lemma SmallerSet<T>(a: set<T>, b: set<T>)
    requires a <= b
    ensures |a| <= |b|
  {
    assert b == a + (b - a);
  }

  /** A busy queue is done with its current pass before anything waiting has waited too long. */
  lemma BusyBound(cfg: Config, s: State)
    requires UpsOk(cfg, s) && BusyOk(cfg, s) && s.inbox != [] && s.workers.Keys <= cfg.ids
    ensures QReady(s) + cfg.pass <= s.busyFrom + cfg.Backlog()
    ensures forall i :: 0 <= i < |s.inbox| ==> s.busyFrom <= s.inbox[i].at
    ensures forall i :: 0 <= i < |s.inbox| ==> QReady(s) + cfg.pass <= s.inbox[i].up.sent + cfg.delay + cfg.Backlog()
  {
    var x := s.inbox[0].up.worker;
    assert UpOk(cfg, s, s.inbox[0].up) && Pending(s, x);
    assert x !in s.served by {
      assert x in s.served ==> ServedOk(cfg, s, x);
    }
    SmallerSet(s.served + {x}, cfg.ids);
    TurnsMonotone(|s.served| + 1, |cfg.ids|, cfg.pass);
    TurnsStep(|cfg.ids|, cfg.pass);
  }

  lemma SameWorkers(cfg: Config, s: State, t: State, x: Frame)
    requires x in s.workers && ViewOk(cfg, s, x) && Covered(cfg, s, x)
    requires s.now <= t.now && x in t.workers && t.workers[x] == s.workers[x] && Pending(t, x) == Pending(s, x)
    requires t.queue == s.queue && t.registered == s.registered && t.downs == s.downs
    ensures ViewOk(cfg, t, x) && Covered(cfg, t, x)
  {
    hide Pending;
  }

  lemma TickKeepsInv(cfg: Config, s: State, d: nat)
    requires Inv(cfg, s) && Enabled(cfg, s, Tick(d))
    ensures Inv(cfg, Apply(cfg, s, Tick(d)))
  {
    hide Covered, ViewOk, UpsOk, BusyOk, Pending, QInv;
    var t := s.(now := s.now + d);
    LaterUps(cfg, s, t);
    SamePending(s, t);
    forall x | x in t.workers
      ensures ViewOk(cfg, t, x) && Covered(cfg, t, x)
    {
      SameWorkers(cfg, s, t, x);
    }
  }

  lemma LaterUps(cfg: Config, s: State, t: State)
    requires UpsOk(cfg, s) && BusyOk(cfg, s) && t.now >= s.now && t == s.(now := t.now)
    ensures UpsOk(cfg, t) && BusyOk(cfg, t)
  {
    assert forall x :: Pending(t, x) == Pending(s, x);
    hide Pending;
    assert UpsOk(cfg, t) by {
      assert forall u :: UpOk(cfg, s, u) ==> UpOk(cfg, t, u);
    }
    assert BusyOk(cfg, t) by {
      assert forall x :: x in s.served && ServedOk(cfg, s, x) ==> ServedOk(cfg, t, x);
    }
  }

  lemma ArrivePending(cfg: Config, s: State, i: nat, x: Frame)
    requires !s.suspected && i < |s.flights|
    ensures Pending(Apply(cfg, s, Arrive(i)), x) == Pending(s, x)
  {
    var t := Apply(cfg, s, Arrive(i));
    var n := |s.inbox|;
    assert forall k :: 0 <= k < |t.flights| ==> t.flights[k] == s.flights[if k < i then k else k + 1];
    assert t.inbox[n] == Waiting(s.flights[i], s.now);
    if k :| 0 <= k < |s.flights| && s.flights[k].worker == x {
      assert k < i ==> t.flights[k].worker == x;
      assert k > i ==> t.flights[k - 1].worker == x;
      assert k == i ==> t.inbox[n].up.worker == x;
    } else if k :| 0 <= k < n && s.inbox[k].up.worker == x {
      assert t.inbox[k].up.worker == x;
    }
  }

  lemma ArriveOneEach(s: State, t: State, i: nat)
    requires OneEach(s) && i < |s.flights|
    requires t.flights == Without(s.flights, i) && t.inbox == s.inbox + [Waiting(s.flights[i], s.now)]
    ensures OneEach(t)
  {
    assert forall k :: 0 <= k < |t.flights| ==> t.flights[k] == s.flights[if k < i then k else k + 1];
    assert forall k :: 0 <= k < |t.inbox| ==> t.inbox[k].up == if k < |s.inbox| then s.inbox[k].up else s.flights[i];
  }

  lemma ArriveInbox(cfg: Config, s: State, t: State, i: nat)
    requires UpsOk(cfg, s) && i < |s.flights| && s.now <= s.flights[i].sent + cfg.delay && t.now == s.now
    requires t.inbox == s.inbox + [Waiting(s.flights[i], s.now)]
    ensures forall k :: 0 <= k < |t.inbox| ==> UpOk(cfg, s, t.inbox[k].up) && t.inbox[k].at <= t.now
                                               && t.inbox[k].at <= t.inbox[k].up.sent + cfg.delay
    ensures forall j, k :: 0 <= j < k < |t.inbox| ==> t.inbox[j].at <= t.inbox[k].at
  {
    hide UpOk, OneEach;
    var n := |s.inbox|;
    assert forall k :: 0 <= k < |t.inbox| ==> t.inbox[k] == if k < n then s.inbox[k] else Waiting(s.flights[i], s.now);
  }

  lemma ArriveUps(cfg: Config, s: State, i: nat)
    requires Inv(cfg, s) && i < |s.flights|
    ensures UpsOk(cfg, Apply(cfg, s, Arrive(i)))
  {
    hide Covered, ViewOk, QInv, BusyOk, WorkersOk, QueueOk, DownsOk, Pending, OneEach;
    var t := Apply(cfg, s, Arrive(i));
    assert forall u :: UpOk(cfg, s, u) ==> UpOk(cfg, t, u);
    ArriveOneEach(s, t, i);
    ArriveInbox(cfg, s, t, i);
    hide UpOk, Apply;
    assert forall k :: 0 <= k < |t.flights| ==> t.flights[k] == s.flights[if k < i then k else k + 1];
  }

  lemma ArriveBusy(cfg: Config, s: State, i: nat)
    requires Inv(cfg, s) && i < |s.flights|
    ensures BusyOk(cfg, Apply(cfg, s, Arrive(i))) && OnTime(cfg, Apply(cfg, s, Arrive(i)))
  {
    hide Covered, ViewOk, QInv, WorkersOk;
    var t := Apply(cfg, s, Arrive(i));
    forall x { ArrivePending(cfg, s, i, x); }
    assert forall k :: 0 <= k < |t.flights| ==> t.flights[k] == s.flights[if k < i then k else k + 1];
    hide Pending, UpsOk;
    if s.inbox == [] {
      TurnsStep(0, cfg.pass);
    } else {
      assert t.inbox[0] == s.inbox[0];
      assert forall x :: x in s.served && ServedOk(cfg, s, x) ==> ServedOk(cfg, t, x);
    }
  }

  lemma ArriveKeepsInv(cfg: Config, s: State, i: nat)
    requires Inv(cfg, s) && Enabled(cfg, s, Arrive(i))
    ensures Inv(cfg, Apply(cfg, s, Arrive(i)))
  {
    hide Covered, ViewOk, QInv, UpsOk, BusyOk, OnTime, Pending;
    var t := Apply(cfg, s, Arrive(i));
    ArriveUps(cfg, s, i);
    ArriveBusy(cfg, s, i);
    forall x | x in t.workers
      ensures ViewOk(cfg, t, x) && Covered(cfg, t, x)
    {
      ArrivePending(cfg, s, i, x);
      SameWorkers(cfg, s, t, x);
    }
  }

  lemma SentPending(s: State, t: State, u: Up, x: Frame)
    requires t.flights == s.flights + [u] && t.inbox == s.inbox
    ensures Pending(t, x) == (Pending(s, x) || x == u.worker)
  {
    assert t.flights[|s.flights|] == u;
    assert forall k :: 0 <= k < |s.flights| ==> t.flights[k] == s.flights[k];
  }

  /** A new message on the way, from a worker that had none. */
  lemma SentUps(cfg: Config, s: State, t: State, u: Up)
    requires UpsOk(cfg, s) && t.flights == s.flights + [u] && t.inbox == s.inbox && t.now == s.now
    requires t.registered == s.registered && s.workers.Keys <= t.workers.Keys && u.worker in t.workers
    requires !Pending(s, u.worker) && UpOk(cfg, t, u)
    requires forall x :: x in s.workers && x != u.worker ==> t.workers[x] == s.workers[x]
    ensures UpsOk(cfg, t)
  {
    assert forall k :: 0 <= k < |s.flights| ==> t.flights[k] == s.flights[k] && s.flights[k].worker != u.worker;
    assert t.flights[|s.flights|] == u;
    assert forall v: Up :: v.worker != u.worker && UpOk(cfg, s, v) ==> UpOk(cfg, t, v);
  }

  /** Sending does not disturb the busy period, because a worker that was served in it does not send. */
  lemma SentBusy(cfg: Config, s: State, t: State, u: Up)
    requires BusyOk(cfg, s) && t.flights == s.flights + [u]
    requires t.inbox == s.inbox && t.done == s.done && t.busyFrom == s.busyFrom && t.served == s.served
    requires s.workers.Keys <= t.workers.Keys && (s.inbox != [] ==> u.worker !in s.served)
    requires forall x :: x in s.workers && x != u.worker ==> t.workers[x] == s.workers[x]
    ensures BusyOk(cfg, t)
  {
    forall x | s.inbox != [] && x in s.served
      ensures ServedOk(cfg, t, x)
    {
      assert ServedOk(cfg, s, x);
      SentPending(s, t, u, x);
    }
  }

  lemma StartKeepsInv(cfg: Config, s: State, x: Frame, at: int)
    requires Inv(cfg, s) && Enabled(cfg, s, Start(x, at))
    ensures Inv(cfg, Apply(cfg, s, Start(x, at)))
  {
    hide QInv, UpsOk, BusyOk, Pending, ViewOk, Covered;
    var t := Apply(cfg, s, Start(x, at));
    var u := Up(x, READY, at);
    assert !Pending(s, x) by {
      NotStartedNotPending(cfg, s, x);
    }
    SentUps(cfg, s, t, u);
    assert BusyOk(cfg, t) by {
      NotStartedNotServed(cfg, s, x);
      SentBusy(cfg, s, t, u);
    }
    assert forall i :: 0 <= i < |t.flights| ==> t.flights[i] == u || t.flights[i] in s.flights;
    forall y | y in t.workers
      ensures ViewOk(cfg, t, y) && Covered(cfg, t, y)
    {
      SentPending(s, t, u, y);
      if y == x {
        NewWorkerOk(cfg, s, t, x, at);
      } else {
        SameWorkers(cfg, s, t, y);
      }
    }
  }

  lemma NewWorkerOk(cfg: Config, s: State, t: State, x: Frame, at: int)
    requires x in t.workers && t.workers[x] == View(W.Fresh(at + INTERVAL), at, [], at)
    requires x in cfg.ids && t.now <= at <= t.now + cfg.pass && x !in t.registered && Pending(t, x)
    ensures ViewOk(cfg, t, x) && Covered(cfg, t, x)
  {
    hide Pending;
  }

  lemma NotStartedNotPending(cfg: Config, s: State, x: Frame)
    requires UpsOk(cfg, s) && x !in s.workers
    ensures !Pending(s, x)
  {
  }

  lemma NotStartedNotServed(cfg: Config, s: State, x: Frame)
    requires BusyOk(cfg, s) && x !in s.workers
    ensures s.inbox != [] ==> x !in s.served
  {
    assert s.inbox != [] && x in s.served ==> ServedOk(cfg, s, x);
  }

  // ---- The invariant is kept: deliveries and the workers' passes ----

  lemma FastBounds(cfg: Config)
    requires cfg.Fast()
    ensures cfg.Backlog() + 3 * cfg.pass < INTERVAL && 2 * cfg.delay + cfg.Backlog() + 3 * cfg.pass <= INTERVAL
    ensures cfg.Backlog() >= cfg.pass
  {
    assert (|cfg.ids| + 4) * cfg.pass == cfg.Backlog() + 3 * cfg.pass;
    assert cfg.Backlog() == |cfg.ids| * cfg.pass + cfg.pass;
  }

  /** Delivering a heartbeat keeps every worker covered: by the arrival itself, or as before. */
  lemma DeliverCovered(cfg: Config, s: State, i: nat, y: Frame)
    requires Inv(cfg, s) && Enabled(cfg, s, Deliver(i)) && y in s.workers
    ensures Covered(cfg, Apply(cfg, s, Deliver(i)), y)
  {
    hide QInv, UpsOk, BusyOk, Pending;
    var t := Apply(cfg, s, Deliver(i));
    var end := s.workers[y].since + 3 * INTERVAL;
    assert Covered(cfg, s, y) && ViewOk(cfg, s, y);
    if k :| 0 <= k < |s.downs| && s.downs[k].worker == y && s.downs[k].sent + cfg.delay < end {
      if k != i {
        assert t.downs[if k < i then k else k - 1] == s.downs[k];
      }
    }
  }

  lemma DeliverView(cfg: Config, s: State, i: nat, y: Frame)
    requires Inv(cfg, s) && Enabled(cfg, s, Deliver(i)) && y in s.workers
    ensures var t := Apply(cfg, s, Deliver(i));
            (Pending(t, y) == Pending(s, y) ==> ViewOk(cfg, t, y)) && t.now <= WReady(t.workers[y]) + cfg.pass
  {
    hide QInv, UpsOk, BusyOk, Pending, Covered;
    assert ViewOk(cfg, s, y);
    assert s.downs[i].worker in s.registered;
  }

  lemma DeliveredUps(cfg: Config, s: State, t: State)
    requires UpsOk(cfg, s) && BusyOk(cfg, s) && t == s.(downs := t.downs, workers := t.workers)
    requires s.workers.Keys == t.workers.Keys
    requires forall x :: x in s.workers ==> t.workers[x] == s.workers[x].(arrivals := t.workers[x].arrivals)
    ensures UpsOk(cfg, t) && BusyOk(cfg, t)
  {
    SamePending(s, t);
    hide Pending;
    assert UpsOk(cfg, t) by {
      assert forall u :: UpOk(cfg, s, u) ==> UpOk(cfg, t, u);
    }
    assert BusyOk(cfg, t) by {
      assert forall x :: x in s.served && ServedOk(cfg, s, x) ==> ServedOk(cfg, t, x);
    }
  }

  lemma DeliverKeepsInv(cfg: Config, s: State, i: nat)
    requires Inv(cfg, s) && Enabled(cfg, s, Deliver(i))
    ensures Inv(cfg, Apply(cfg, s, Deliver(i)))
  {
    hide QInv, Covered, ViewOk;
    var t := Apply(cfg, s, Deliver(i));
    assert forall k :: 0 <= k < |t.downs| ==> t.downs[k] == s.downs[if k < i then k else k + 1];
    SamePending(s, t);
    DeliveredUps(cfg, s, t);
    hide Pending, UpsOk, BusyOk, WReady;
    forall y | y in t.workers
      ensures ViewOk(cfg, t, y) && Covered(cfg, t, y) && t.now <= WReady(t.workers[y]) + cfg.pass
    {
      DeliverView(cfg, s, i, y);
      DeliverCovered(cfg, s, i, y);
    }
  }

  /** A heartbeat always reaches a worker before it has counted down its third life. */
  lemma NeverThirdSilence(cfg: Config, s: State, x: Frame)
    requires cfg.Fast() && Inv(cfg, s) && x in s.workers
    requires Overdue(s.workers[x].done, s.workers[x].arrivals) && WReady(s.workers[x]) <= s.now
    ensures s.workers[x].s.liveness > 1
  {
    hide QInv;
    FastBounds(cfg);
    var v := s.workers[x];
    assert ViewOk(cfg, s, x) && Covered(cfg, s, x);
    if s.inbox != [] {
      BusyBound(cfg, s);
    }
  }

  lemma WakeEffect(s: W.WState, beat: bool, check: int, rearm: int)
    requires beat || s.liveness > 1
    ensures var r := W.WPass(s, BeatPoll(beat), check, rearm);
            && !r.1.reconnected
            && r.0.liveness == (if beat then 3 else s.liveness - 1)
            && r.0.heartbeatAt == (if check > s.heartbeatAt then rearm + INTERVAL else s.heartbeatAt)
            && r.1.sent == if check > s.heartbeatAt then [[HEARTBEAT]] else []
  {
  }

  /** When a worker's timer has run out, its message before that has been read long ago. */
  lemma SendMeansClear(cfg: Config, s: State, x: Frame)
    requires cfg.Fast() && Inv(cfg, s) && x in s.workers && s.now + cfg.pass > s.workers[x].s.heartbeatAt
    ensures !Pending(s, x) && x in s.registered && (s.inbox != [] ==> x !in s.served)
  {
    hide QInv, Covered;
    FastBounds(cfg);
    assert ViewOk(cfg, s, x);
    if s.inbox != [] {
      BusyBound(cfg, s);
      assert x in s.served ==> ServedOk(cfg, s, x);
    }
  }

  /** The view of a worker after its pass. */
  ghost predicate WokenView(cfg: Config, s: State, x: Frame, beat: bool, check: int, rearm: int, end: int, v': View)
    requires x in s.workers && (beat ==> s.workers[x].arrivals != [])
  {
    var v := s.workers[x];
    && v'.done == end && v'.arrivals == (if beat then v.arrivals[1..] else v.arrivals)
    && v'.since == (if beat then end else v.since)
    && v'.s.liveness == (if beat then 3 else v.s.liveness - 1)
    && v'.s.heartbeatAt == if check > v.s.heartbeatAt then rearm + INTERVAL else v.s.heartbeatAt
  }

  lemma WakeView(cfg: Config, s: State, t: State, x: Frame, beat: bool, check: int, rearm: int, end: int)
    requires cfg.Fast() && Inv(cfg, s) && Enabled(cfg, s, Wake(x, beat, check, rearm, end))
    requires beat || s.workers[x].s.liveness > 1
    requires x in t.workers && WokenView(cfg, s, x, beat, check, rearm, end, t.workers[x])
    requires t.now == s.now && t.queue == s.queue && t.registered == s.registered && t.downs == s.downs
    requires Pending(t, x) == (Pending(s, x) || check > s.workers[x].s.heartbeatAt)
    ensures ViewOk(cfg, t, x) && Covered(cfg, t, x) && t.now <= WReady(t.workers[x]) + cfg.pass
  {
    hide QInv, Pending, UpsOk, BusyOk;
    FastBounds(cfg);
    assert ViewOk(cfg, s, x) && Covered(cfg, s, x);
    var v := t.workers[x];
    assert forall i :: 0 <= i < |v.arrivals| ==> v.arrivals[i] <= s.now;
  }

  lemma WakeUp(cfg: Config, s: State, t: State, x: Frame, beat: bool, check: int, rearm: int, end: int)
    requires cfg.Fast() && Inv(cfg, s) && Enabled(cfg, s, Wake(x, beat, check, rearm, end))
    requires beat || s.workers[x].s.liveness > 1
    requires check > s.workers[x].s.heartbeatAt
    requires x in t.workers && WokenView(cfg, s, x, beat, check, rearm, end, t.workers[x])
             && t.registered == s.registered
    ensures !Pending(s, x) && (s.inbox != [] ==> x !in s.served) && UpOk(cfg, t, Up(x, HEARTBEAT, end))
  {
    hide QInv, Covered, Pending, UpsOk, BusyOk;
    FastBounds(cfg);
    assert ViewOk(cfg, s, x);
    SendMeansClear(cfg, s, x);
  }

  lemma QuietWakeUps(cfg: Config, s: State, t: State, x: Frame)
    requires Inv(cfg, s) && x in s.workers && x in t.workers && t.workers == s.workers[x := t.workers[x]]
    requires t.workers[x].s.heartbeatAt == s.workers[x].s.heartbeatAt
    requires t.workers[x].since == s.workers[x].since || x in s.registered
    requires t == s.(workers := t.workers)
    ensures UpsOk(cfg, t) && BusyOk(cfg, t)
  {
    hide QInv, Covered, ViewOk, Pending;
    assert forall y :: Pending(t, y) == Pending(s, y) by { SamePending(s, t); }
    assert UpsOk(cfg, t) by {
      assert forall u :: UpOk(cfg, s, u) ==> UpOk(cfg, t, u);
    }
    assert BusyOk(cfg, t) by {
      assert forall y :: y in s.served && ServedOk(cfg, s, y) ==> ServedOk(cfg, t, y);
    }
  }

  lemma SamePending(s: State, t: State)
    requires t.flights == s.flights && t.inbox == s.inbox
    ensures forall y :: Pending(t, y) == Pending(s, y)
  {
  }

  lemma WakeKeepsInv(cfg: Config, s: State, x: Frame, beat: bool, check: int, rearm: int, end: int)
    requires cfg.Fast() && Inv(cfg, s) && Enabled(cfg, s, Wake(x, beat, check, rearm, end))
    ensures Inv(cfg, Apply(cfg, s, Wake(x, beat, check, rearm, end)))
  {
    hide QInv, Covered, ViewOk, Pending, UpsOk, BusyOk, W.WPass, WReady;
    var t := Apply(cfg, s, Wake(x, beat, check, rearm, end));
    var v := s.workers[x];
    assert beat || v.s.liveness > 1 by {
      if !beat { NeverThirdSilence(cfg, s, x); }
    }
    WakeEffect(v.s, beat, check, rearm);
    assert WokenView(cfg, s, x, beat, check, rearm, end, t.workers[x]);
    var sends := check > v.s.heartbeatAt;
    if sends {
      var u := Up(x, HEARTBEAT, end);
      assert t.flights == s.flights + [u];
      WakeUp(cfg, s, t, x, beat, check, rearm, end);
      SentUps(cfg, s, t, u);
      SentBusy(cfg, s, t, u);
      forall y { SentPending(s, t, u, y); }
      assert forall i :: 0 <= i < |t.flights| ==> t.flights[i] == u || t.flights[i] == s.flights[i];
    } else {
      assert t.flights == s.flights;
      SamePending(s, t);
      if beat { HeardIsRegistered(cfg, s, x); }
      QuietWakeUps(cfg, s, t, x);
    }
    WakeView(cfg, s, t, x, beat, check, rearm, end);
    forall y | y in t.workers
      ensures ViewOk(cfg, t, y) && Covered(cfg, t, y)
    {
      if y != x {
        SameWorkers(cfg, s, t, y);
      }
    }
  }

  lemma HeardIsRegistered(cfg: Config, s: State, x: Frame)
    requires WorkersOk(cfg, s) && x in s.workers && s.workers[x].arrivals != []
    ensures x in s.registered
  {
    assert ViewOk(cfg, s, x);
  }

  // ---- The invariant is kept: the queue's passes ----

  /** The registrations after a pass that heard worker x, or nobody. */
  function Heard(reg: map<Frame, int>, x: Option<Frame>, ready: int): map<Frame, int> {
    if x.Some? then reg[x.value := ready + INTERVAL * LIVENESS] else reg
  }

  /** The list says of each worker what the registrations say. */
  ghost predicate Matches(q: seq<Entry>, reg: map<Frame, int>) {
    && (forall x :: x in reg ==> Entry(x, reg[x]) in q)
    && (forall e :: e in q ==> e.id in reg && reg[e.id] == e.expiry)
  }

  lemma HeardMatches(q: seq<Entry>, reg: map<Frame, int>, inp: Input, x: Option<Frame>, ready: int)
    requires inp.front.None? && Distinct(q) && Matches(q, reg)
    requires if x.Some? then inp.back.Some? && |inp.back.value| == 2 && inp.back.value[0] == x.value else inp.back.None?
    ensures Matches(AfterFront(q, inp, ready), Heard(reg, x, ready))
  {
    hide Ready;
    if x.Some? {
      ReadyKeeps(q, Entry(x.value, ready + INTERVAL * LIVENESS));
    }
  }

  /** A heartbeat round speaks to exactly the registered workers. */
  lemma BeatsMatch(q: seq<Entry>, reg: map<Frame, int>)
    requires Matches(q, reg)
    ensures forall y :: y in reg ==> [y, HEARTBEAT] in Beats(q)
    ensures forall m :: m in Beats(q) ==> |m| > 0 && m[0] in reg
  {
    hide Beats;
    forall y | y in reg
      ensures [y, HEARTBEAT] in Beats(q)
    {
      var k :| 0 <= k < |q| && q[k] == Entry(y, reg[y]);
      assert Beats(q)[k] == [y, HEARTBEAT];
    }
    forall m | m in Beats(q)
      ensures |m| > 0 && m[0] in reg
    {
      var k :| 0 <= k < |q| && Beats(q)[k] == m;
      assert q[k] in q;
    }
  }

  lemma LiveMatches(q: seq<Entry>, reg: map<Frame, int>, t: int)
    requires Matches(q, reg) && forall y :: y in reg ==> reg[y] > t
    ensures Matches(Live(q, t), reg)
  {
    LiveMembers(q, t);
  }

  /** What a request-free pass does to the queue, its timer and its registrations, if nobody is late. */
  lemma PassFacts(q: QState, done: int, reg: map<Frame, int>, inp: Input, x: Option<Frame>, c: Clocks)
    requires inp.front.None? && QInv(q, done) && Matches(q.workers, reg) && InOrder(done, c)
    requires if x.Some? then inp.back.Some? && |inp.back.value| == 2 && inp.back.value[0] == x.value else inp.back.None?
    requires forall y :: y in Heard(reg, x, c.ready) ==> Heard(reg, x, c.ready)[y] > c.purge
    ensures var r := Pass(q, inp, c); var reg' := Heard(reg, x, c.ready);
            && QInv(r.0, c.purge) && Matches(r.0.workers, reg')
            && r.0.heartbeatAt == (if c.check >= q.heartbeatAt then c.rearm + INTERVAL else q.heartbeatAt)
            && (c.check >= q.heartbeatAt ==> forall y :: y in reg' ==> [y, HEARTBEAT] in r.1.beats)
            && (forall m :: m in r.1.beats ==> |m| > 0 && m[0] in reg')
  {
    var q2 := AfterFront(q.workers, inp, c.ready);
    HeardMatches(q.workers, reg, inp, x, c.ready);
    hide AfterFront, AfterBack, Live, Beats, DropFront, Heard, Matches, RemoveFirst, Distinct, Sorted, AllLive;
    PassKeepsInv(q, inp, c, done);
    hide QInv;
    LiveMatches(q2, Heard(reg, x, c.ready), c.purge);
    BeatsMatch(q2, Heard(reg, x, c.ready));
  }

  /** No registered worker has expired by the time this pass purges, whatever it reads from the clock. */
  lemma NobodyExpires(cfg: Config, s: State, y: Frame, end: int)
    requires cfg.Fast() && Inv(cfg, s) && y in s.registered
    requires QReady(s) <= s.now && end <= QReady(s) + cfg.pass
    ensures s.registered[y] > end
  {
    hide QInv, Covered;
    FastBounds(cfg);
    assert y in s.workers && ViewOk(cfg, s, y);
    if s.inbox != [] {
      BusyBound(cfg, s);
    }
  }

  /** The step of the queue, with the message at position i taken or with none. */
  ghost predicate QueueStep(cfg: Config, s: State, i: Option<nat>, c: Clocks) {
    Enabled(cfg, s, if i.Some? then Take(i.value, c) else Idle(c))
  }

  ghost function QueueNext(cfg: Config, s: State, i: Option<nat>, c: Clocks): State
    requires QueueStep(cfg, s, i, c)
  {
    Apply(cfg, s, if i.Some? then Take(i.value, c) else Idle(c))
  }

  function Taken(s: State, i: Option<nat>): Option<Frame>
    requires i.Some? ==> i.value < |s.inbox|
  {
    if i.Some? then Some(s.inbox[i.value].up.worker) else None
  }

  /** What the queue's step changes. */
  ghost predicate Passed(cfg: Config, s: State, t: State, i: Option<nat>, c: Clocks)
    requires i.Some? ==> i.value < |s.inbox|
  {
    var x := Taken(s, i);
    && t == s.(queue := t.queue, done := c.purge, downs := t.downs, registered := t.registered,
               inbox := t.inbox, served := t.served)
    && t.inbox == (if i.Some? then Without(s.inbox, i.value) else s.inbox)
    && t.served == (if x.Some? then s.served + {x.value} else s.served)
    && t.registered == Heard(s.registered, x, c.ready)
    && QInv(t.queue, c.purge) && Matches(t.queue.workers, t.registered)
    && t.queue.heartbeatAt == (if c.check >= s.queue.heartbeatAt then c.rearm + INTERVAL else s.queue.heartbeatAt)
    && (forall d :: d in s.downs ==> d in t.downs)
    && (c.check >= s.queue.heartbeatAt ==> forall y :: y in t.registered ==> Down(y, c.purge) in t.downs)
    && (forall d :: d in t.downs ==> d in s.downs || (d.worker in t.registered && d.sent == c.purge))
  }

  lemma DownsMembers(beats: seq<Msg>, reg: map<Frame, int>, sent: int)
    requires forall i :: 0 <= i < |beats| ==> |beats[i]| > 0
    requires forall m :: m in beats ==> |m| > 0 && m[0] in reg
    ensures forall d :: d in Downs(beats, sent) ==> d.worker in reg && d.sent == sent
    ensures forall y :: [y, HEARTBEAT] in beats ==> Down(y, sent) in Downs(beats, sent)
  {
    var ds := Downs(beats, sent);
    forall d | d in ds
      ensures d.worker in reg && d.sent == sent
    {
      var k :| 0 <= k < |ds| && ds[k] == d;
      assert beats[k] in beats;
    }
    forall y | [y, HEARTBEAT] in beats
      ensures Down(y, sent) in ds
    {
      var k :| 0 <= k < |beats| && beats[k] == [y, HEARTBEAT];
      assert ds[k] == Down(y, sent);
    }
  }

  lemma HeardOutlive(cfg: Config, s: State, i: Option<nat>, c: Clocks)
    requires cfg.Fast() && Inv(cfg, s) && QueueStep(cfg, s, i, c)
    ensures var reg' := Heard(s.registered, Taken(s, i), c.ready); forall y :: y in reg' ==> reg'[y] > c.purge
  {
    hide Inv;
    FastBounds(cfg);
    var x := Taken(s, i);
    var reg' := Heard(s.registered, x, c.ready);
    forall y | y in reg'
      ensures reg'[y] > c.purge
    {
      if x != Some(y) {
        NobodyExpires(cfg, s, y, c.purge);
      }
    }
  }

  function InputOf(s: State, i: Option<nat>): Input
    requires i.Some? ==> i.value < |s.inbox|
  {
    if i.Some? then Input(Some([s.inbox[i.value].up.worker, s.inbox[i.value].up.content]), None) else Input(None, None)
  }

  lemma QueueNextIs(cfg: Config, s: State, i: Option<nat>, c: Clocks)
    requires QueueStep(cfg, s, i, c)
    ensures (i.Some? ==> i.value < |s.inbox|) && InOrder(s.now, c) && s.done <= s.now && GoodInput(InputOf(s, i))
    ensures var x := Taken(s, i); var r := Pass(s.queue, InputOf(s, i), c);
            QueueNext(cfg, s, i, c)
            == s.(queue := r.0, done := c.purge, inbox := if i.Some? then Without(s.inbox, i.value) else s.inbox,
                  downs := s.downs + Downs(r.1.beats, c.purge), registered := Heard(s.registered, x, c.ready),
                  served := if x.Some? then s.served + {x.value} else s.served)
  {
    hide Pass, OnTime;
  }

  lemma BeforePass(cfg: Config, s: State)
    requires Inv(cfg, s)
    ensures QInv(s.queue, s.done) && Matches(s.queue.workers, s.registered)
  {
  }

  lemma QueuePassed(cfg: Config, s: State, i: Option<nat>, c: Clocks)
    requires cfg.Fast() && Inv(cfg, s) && QueueStep(cfg, s, i, c)
    ensures Passed(cfg, s, QueueNext(cfg, s, i, c), i, c)
  {
    hide Inv, QInv, Pass, Downs, Passed, Matches, QueueStep, QueueNext;
    HeardOutlive(cfg, s, i, c);
    QueueNextIs(cfg, s, i, c);
    BeforePass(cfg, s);
    PassFacts(s.queue, s.done, s.registered, InputOf(s, i), Taken(s, i), c);
    PassedFrom(cfg, s, QueueNext(cfg, s, i, c), i, c, Pass(s.queue, InputOf(s, i), c));
  }

  lemma PassedFrom(cfg: Config, s: State, t: State, i: Option<nat>, c: Clocks, r: (QState, Output))
    requires i.Some? ==> i.value < |s.inbox|
    requires forall k :: 0 <= k < |r.1.beats| ==> |r.1.beats[k]| > 0
    requires t == s.(queue := r.0, done := c.purge, inbox := if i.Some? then Without(s.inbox, i.value) else s.inbox,
                     downs := s.downs + Downs(r.1.beats, c.purge),
                     registered := Heard(s.registered, Taken(s, i), c.ready),
                     served := if i.Some? then s.served + {s.inbox[i.value].up.worker} else s.served)
    requires QInv(r.0, c.purge) && Matches(r.0.workers, t.registered)
    requires r.0.heartbeatAt == if c.check >= s.queue.heartbeatAt then c.rearm + INTERVAL else s.queue.heartbeatAt
    requires c.check >= s.queue.heartbeatAt ==> forall y :: y in t.registered ==> [y, HEARTBEAT] in r.1.beats
    requires forall m :: m in r.1.beats ==> |m| > 0 && m[0] in t.registered
    ensures Passed(cfg, s, t, i, c)
  {
    hide QInv, Heard, Downs, Matches;
    DownsMembers(r.1.beats, t.registered, c.purge);
  }

  /** Facts about the queue's step that the proofs below use instead of its definition. */
  ghost predicate QueueStepFacts(cfg: Config, s: State, t: State, i: Option<nat>, c: Clocks) {
    && (if i.Some? then i.value < |s.inbox| else Overdue(s.done, Arrivals(s.inbox)))
    && QReady(s) <= s.now && InOrder(s.now, c) && c.purge <= QReady(s) + cfg.pass && s.done <= s.now
    && Passed(cfg, s, t, i, c)
  }

  lemma StepFacts(cfg: Config, s: State, i: Option<nat>, c: Clocks)
    requires cfg.Fast() && Inv(cfg, s) && QueueStep(cfg, s, i, c)
    ensures QueueStepFacts(cfg, s, QueueNext(cfg, s, i, c), i, c)
  {
    QueuePassed(cfg, s, i, c);
    hide Inv, Passed, Apply;
  }

  /** Taking a message ends its sender's wait and nobody else's. */
  lemma TakePending(s: State, t: State, i: nat, y: Frame)
    requires OneEach(s) && i < |s.inbox| && t.flights == s.flights && t.inbox == Without(s.inbox, i)
    ensures Pending(t, y) == (Pending(s, y) && y != s.inbox[i].up.worker)
  {
    assert forall k :: 0 <= k < |t.inbox| ==> t.inbox[k] == s.inbox[if k < i then k else k + 1];
    if k :| 0 <= k < |s.inbox| && s.inbox[k].up.worker == y && k != i {
      assert t.inbox[if k < i then k else k - 1] == s.inbox[k];
    }
  }

  lemma PassPending(s: State, t: State, i: Option<nat>, y: Frame)
    requires OneEach(s) && (i.Some? ==> i.value < |s.inbox|)
    requires t.flights == s.flights && t.inbox == if i.Some? then Without(s.inbox, i.value) else s.inbox
    ensures Pending(t, y) == (Pending(s, y) && Some(y) != Taken(s, i))
  {
    if i.Some? {
      TakePending(s, t, i.value, y);
    } else {
      SamePending(s, t);
    }
  }

  lemma PassOneEach(s: State, t: State, i: Option<nat>)
    requires OneEach(s) && (i.Some? ==> i.value < |s.inbox|) && t.flights == s.flights && t.inbox == Removed(s.inbox, i)
    ensures OneEach(t)
  {
    var j := if i.Some? then i.value else |s.inbox|;
    assert forall k :: 0 <= k < |t.inbox| ==> t.inbox[k] == s.inbox[if k < j then k else k + 1];
  }

  /** The worker that was heard had no other message on the way. */
  lemma HeardHasNoOther(s: State, t: State, i: nat)
    requires OneEach(s) && i < |s.inbox| && t.flights == s.flights && t.inbox == Without(s.inbox, i)
    ensures forall k :: 0 <= k < |t.flights| ==> t.flights[k].worker != s.inbox[i].up.worker
    ensures forall k :: 0 <= k < |t.inbox| ==> t.inbox[k].up.worker != s.inbox[i].up.worker
  {
    assert forall k :: 0 <= k < |t.inbox| ==> t.inbox[k] == s.inbox[if k < i then k else k + 1];
  }

  lemma PassUps(cfg: Config, s: State, t: State, i: Option<nat>, c: Clocks)
    requires UpsOk(cfg, s) && QueueStepFacts(cfg, s, t, i, c)
    ensures UpsOk(cfg, t)
  {
    hide QInv, Matches, OneEach;
    assert forall u :: UpOk(cfg, s, u) && Some(u.worker) != Taken(s, i) ==> UpOk(cfg, t, u);
    PassOneEach(s, t, i);
    if i.Some? {
      HeardHasNoOther(s, t, i.value);
    }
    var j := if i.Some? then i.value else |s.inbox|;
    assert forall k :: 0 <= k < |t.inbox| ==> t.inbox[k] == s.inbox[if k < j then k else k + 1];
    assert t.flights == s.flights && t.now == s.now;
    hide UpOk, Passed, Without;
  }

  lemma PassBusy(cfg: Config, s: State, t: State, i: Option<nat>, c: Clocks)
    requires Inv(cfg, s) && QueueStepFacts(cfg, s, t, i, c) && t.inbox != []
    ensures BusyOk(cfg, t)
  {
    hide QInv, Matches, Covered, ViewOk, OnTime, DownsOk, QueueOk, Pending;
    assert s.workers.Keys <= cfg.ids by { IdsOk(cfg, s); }
    BusyBound(cfg, s);
    var j := if i.Some? then i.value else |s.inbox|;
    assert forall k :: 0 <= k < |t.inbox| ==> t.inbox[k] == s.inbox[if k < j then k else k + 1];
    if i.None? {
      TurnsStep(0, cfg.pass);
    } else {
      TurnsStep(|s.served| + 1, cfg.pass);
      PendingNotServed(cfg, s, i.value);
    }
    forall x | x in t.served
      ensures ServedOk(cfg, t, x)
    {
      PassPending(s, t, i, x);
      if x in s.served {
        assert ServedOk(cfg, s, x);
      } else {
        assert UpOk(cfg, s, s.inbox[i.value].up);
      }
    }
  }

  lemma IdsOk(cfg: Config, s: State)
    requires WorkersOk(cfg, s)
    ensures s.workers.Keys <= cfg.ids
  {
    assert forall x :: x in s.workers ==> ViewOk(cfg, s, x);
  }

  lemma PendingNotServed(cfg: Config, s: State, i: nat)
    requires BusyOk(cfg, s) && i < |s.inbox|
    ensures s.inbox[i].up.worker !in s.served
  {
    var x := s.inbox[i].up.worker;
    assert Pending(s, x);
    assert x in s.served ==> ServedOk(cfg, s, x);
  }

  lemma PassQueue(cfg: Config, s: State, t: State, i: Option<nat>, c: Clocks)
    requires Inv(cfg, s) && QueueStepFacts(cfg, s, t, i, c)
    ensures QueueOk(cfg, t) && DownsOk(cfg, t)
  {
    hide Covered, ViewOk, OnTime, Pending, BusyOk;
    assert QInv(t.queue, t.done);
    hide QInv;
    if i.Some? {
      assert UpOk(cfg, s, s.inbox[i.value].up);
    }
    assert forall k :: 0 <= k < |t.downs| ==> t.downs[k] in t.downs;
    assert forall d :: d in s.downs ==> d.worker in s.registered && d.sent <= s.now + cfg.pass;
  }

  /** The workers' views do not change; a worker that was just heard is safe for another three intervals. */
  lemma PassView(cfg: Config, s: State, t: State, i: Option<nat>, c: Clocks, y: Frame)
    requires Inv(cfg, s) && QueueStepFacts(cfg, s, t, i, c) && y in s.workers
    ensures ViewOk(cfg, t, y)
  {
    hide QInv, Covered, OnTime, BusyOk, Pending, Matches;
    assert ViewOk(cfg, s, y);
    PassPending(s, t, i, y);
  }

  lemma DownsGrow(cfg: Config, s: State, t: State, y: Frame)
    requires y in s.workers && Covered(cfg, s, y) && t.workers == s.workers
             && t.queue.heartbeatAt <= s.queue.heartbeatAt
    requires (forall d :: d in s.downs ==> d in t.downs) && (y in t.registered <==> y in s.registered)
    ensures Covered(cfg, t, y)
  {
    var end := s.workers[y].since + 3 * INTERVAL;
    if k :| 0 <= k < |s.downs| && s.downs[k].worker == y && s.downs[k].sent + cfg.delay < end {
      assert s.downs[k] in t.downs;
    }
  }

  /** A heartbeat round covers every worker that was waiting for it. */
  lemma RoundCovers(cfg: Config, s: State, t: State, k: nat, y: Frame)
    requires y in s.workers && y in s.registered && y in t.registered && Covered(cfg, s, y) && t.workers == s.workers
    requires forall d :: d in s.downs ==> d in t.downs
    requires k < |t.downs| && t.downs[k].worker == y && t.downs[k].sent < s.queue.heartbeatAt + INTERVAL + 2 * cfg.pass
    ensures Covered(cfg, t, y)
  {
    var end := s.workers[y].since + 3 * INTERVAL;
    if m :| 0 <= m < |s.downs| && s.downs[m].worker == y && s.downs[m].sent + cfg.delay < end {
      assert s.downs[m] in t.downs;
    }
  }

  lemma RoundReaches(cfg: Config, s: State, t: State, i: Option<nat>, c: Clocks, y: Frame)
    requires cfg.Fast() && Inv(cfg, s) && QueueStepFacts(cfg, s, t, i, c) && y in s.workers
    requires y in s.registered && y in t.registered && c.check >= s.queue.heartbeatAt
    ensures Covered(cfg, t, y)
  {
    hide QInv, OnTime, UpsOk, BusyOk, Pending, Matches, ViewOk, Covered, DownsOk, Without, Heard;
    assert Covered(cfg, s, y);
    assert c.purge < s.queue.heartbeatAt + INTERVAL + 2 * cfg.pass;
    assert Down(y, c.purge) in t.downs;
    var k :| 0 <= k < |t.downs| && t.downs[k] == Down(y, c.purge);
    RoundCovers(cfg, s, t, k, y);
  }

  lemma PassCovered(cfg: Config, s: State, t: State, i: Option<nat>, c: Clocks, y: Frame)
    requires cfg.Fast() && Inv(cfg, s) && QueueStepFacts(cfg, s, t, i, c) && y in s.workers
    ensures Covered(cfg, t, y)
  {
    hide QInv, OnTime, UpsOk, BusyOk, Pending, Matches, ViewOk, UpOk;
    assert Covered(cfg, s, y);
    if y in t.registered {
      if y !in s.registered {
        FirstHeard(cfg, s, t, i, c, y);
      } else if c.check < s.queue.heartbeatAt {
        DownsGrow(cfg, s, t, y);
      } else {
        RoundReaches(cfg, s, t, i, c, y);
      }
    }
  }

  /** The pass that hears a worker for the first time leaves it covered. */
  lemma FirstHeard(cfg: Config, s: State, t: State, i: Option<nat>, c: Clocks, y: Frame)
    requires cfg.Fast() && Inv(cfg, s) && QueueStepFacts(cfg, s, t, i, c)
    requires y in s.workers && y !in s.registered && y in t.registered
    ensures Covered(cfg, t, y)
  {
    FastBounds(cfg);
    IdsOk(cfg, s);
    BusyBound(cfg, s);
    hide BusyOk, Pending, Matches, WorkersOk;
    assert UpOk(cfg, s, s.inbox[i.value].up);
    if c.check >= s.queue.heartbeatAt {
      var k :| 0 <= k < |t.downs| && t.downs[k] == Down(y, c.purge);
    }
  }

  lemma PassOnTime(cfg: Config, s: State, t: State, i: Option<nat>, c: Clocks)
    requires Inv(cfg, s) && QueueStepFacts(cfg, s, t, i, c)
    ensures OnTime(cfg, t)
  {
    hide QInv, Matches, WorkersOk, UpsOk, BusyOk, QueueOk, DownsOk;
    forall k | 0 <= k < |t.downs|
      ensures t.now <= t.downs[k].sent + cfg.delay
    {
      assert t.downs[k] in t.downs;
    }
  }

  lemma QueueKeepsInv(cfg: Config, s: State, i: Option<nat>, c: Clocks)
    requires cfg.Fast() && Inv(cfg, s) && QueueStep(cfg, s, i, c)
    ensures Inv(cfg, QueueNext(cfg, s, i, c))
  {
    var t := QueueNext(cfg, s, i, c);
    StepFacts(cfg, s, i, c);
    hide QueueStep, QueueNext;
    PassedKeepsInv(cfg, s, t, i, c);
  }

  lemma PassedKeepsInv(cfg: Config, s: State, t: State, i: Option<nat>, c: Clocks)
    requires cfg.Fast() && Inv(cfg, s) && QueueStepFacts(cfg, s, t, i, c)
    ensures Inv(cfg, t)
  {
    hide QInv, Matches, Covered, ViewOk, Pending, UpsOk, BusyOk, QueueOk, DownsOk, OnTime, Without, Heard;
    PassUps(cfg, s, t, i, c);
    if t.inbox != [] {
      PassBusy(cfg, s, t, i, c);
    } else {
      IdleBusy(cfg, t);
    }
    PassQueue(cfg, s, t, i, c);
    PassOnTime(cfg, s, t, i, c);
    forall y | y in t.workers
      ensures ViewOk(cfg, t, y) && Covered(cfg, t, y)
    {
      PassView(cfg, s, t, i, c, y);
      PassCovered(cfg, s, t, i, c, y);
    }
  }

  lemma IdleBusy(cfg: Config, s: State)
    requires s.inbox == []
    ensures BusyOk(cfg, s)
  {
  }

  // ---- The result ----

  lemma StepKeepsInv(cfg: Config, s: State, step: Step)
    requires cfg.Fast() && Inv(cfg, s) && Enabled(cfg, s, step)
    ensures Inv(cfg, Apply(cfg, s, step))
  {
    hide Inv, Apply;
    match step
    case Tick(d) => TickKeepsInv(cfg, s, d);
    case Start(x, at) => StartKeepsInv(cfg, s, x, at);
    case Arrive(i) => ArriveKeepsInv(cfg, s, i);
    case Take(i, c) => QueueKeepsInv(cfg, s, Some(i), c);
    case Idle(c) => QueueKeepsInv(cfg, s, None, c);
    case Deliver(i) => DeliverKeepsInv(cfg, s, i);
    case Wake(x, beat, check, rearm, end) => WakeKeepsInv(cfg, s, x, beat, check, rearm, end);
  }

  lemma InitInv(cfg: Config, s: State)
    requires Init(cfg, s)
    ensures Inv(cfg, s)
  {
  }

  lemma {:induction false} SystemKeepsInv(cfg: Config, run: seq<State>)
    requires cfg.Fast() && Run(cfg, run)
    ensures Inv(cfg, Last(run))
  {
    hide Inv, Init, Apply, Enabled;
    if |run| == 1 {
      InitInv(cfg, run[0]);
    } else {
      var s, t := Last(Front(run)), Last(run);
      SystemKeepsInv(cfg, Front(run));
      var step :| Enabled(cfg, s, step) && t == Apply(cfg, s, step);
      StepKeepsInv(cfg, s, step);
    }
  }

  /**
   * No false suspicion: in every run without requests, with any number of workers starting at any time,
   * no running worker's liveness reaches 0 and the queue never purges a worker it has listed.
   */
  lemma {:induction false} NoFalseSuspicion(cfg: Config, run: seq<State>)
    requires cfg.Fast() && Run(cfg, run)
    ensures !Last(run).suspected
    ensures forall x :: x in Last(run).workers ==> Last(run).workers[x].s.liveness >= 1
    ensures |run| > 1 ==> forall e :: e in Last(Front(run)).queue.workers ==>
              exists f :: f in Last(run).queue.workers && f.id == e.id
  {
    hide Apply, Enabled, QInv, Covered, Pending, BusyOk, UpsOk, OnTime, DownsOk;
    SystemKeepsInv(cfg, run);
    assert forall x :: x in Last(run).workers ==> ViewOk(cfg, Last(run), x);
    if |run| > 1 {
      var s, t := Last(Front(run)), Last(run);
      SystemKeepsInv(cfg, Front(run));
      var step :| Enabled(cfg, s, step) && t == Apply(cfg, s, step);
      RegisteredStays(cfg, s, step);
      forall e | e in s.queue.workers
        ensures exists f :: f in t.queue.workers && f.id == e.id
      {
        assert Entry(e.id, t.registered[e.id]) in t.queue.workers;
      }
    }
  }

  lemma RegisteredStays(cfg: Config, s: State, step: Step)
    requires Enabled(cfg, s, step)
    ensures s.registered.Keys <= Apply(cfg, s, step).registered.Keys
  {
    hide Pass, W.WPass, OnTime;
  }

  // ---- Heartbeats are used up ----

  /** A run with the steps that were taken. */
  ghost predicate Trace(cfg: Config, run: seq<State>, steps: seq<Step>) {
    |run| == |steps| + 1
    && if steps == [] then Init(cfg, run[0])
       else Trace(cfg, Front(run), Front(steps)) && Enabled(cfg, Last(Front(run)), Last(steps))
            && Last(run) == Apply(cfg, Last(Front(run)), Last(steps))
  }

  /** The step brings a heartbeat to worker x. */
  predicate Delivers(s: State, step: Step, x: Frame) {
    step.Deliver? && step.i < |s.downs| && s.downs[step.i].worker == x
  }

  function BeatsDelivered(run: seq<State>, steps: seq<Step>, x: Frame): nat
    requires |run| == |steps| + 1
  {
    if steps == [] then 0
    else BeatsDelivered(Front(run), Front(steps), x) + if Delivers(Last(Front(run)), Last(steps), x) then 1 else 0
  }

  /** Passes in which worker x read a heartbeat. */
  function BeatsRead(steps: seq<Step>, x: Frame): nat {
    if steps == [] then 0
    else BeatsRead(Front(steps), x) + if Last(steps).Wake? && Last(steps).x == x && Last(steps).beat then 1 else 0
  }

  function BeatsWaiting(s: State, x: Frame): nat {
    if x in s.workers then |s.workers[x].arrivals| else 0
  }

  /** Each heartbeat that reaches a worker is read once or still waits. */
  lemma {:induction false} BeatsUsedUp(cfg: Config, run: seq<State>, steps: seq<Step>, x: Frame)
    requires Trace(cfg, run, steps)
    ensures BeatsRead(steps, x) + BeatsWaiting(Last(run), x) == BeatsDelivered(run, steps, x)
  {
    if steps != [] {
      hide Enabled, Apply, Init;
      BeatsUsedUp(cfg, Front(run), Front(steps), x);
      BeatsStep(cfg, Last(Front(run)), Last(steps), x);
    }
  }

  lemma BeatsStep(cfg: Config, s: State, step: Step, x: Frame)
    requires Enabled(cfg, s, step)
    ensures BeatsWaiting(Apply(cfg, s, step), x) + (if step.Wake? && step.x == x && step.beat then 1 else 0)
         == BeatsWaiting(s, x) + if Delivers(s, step, x) then 1 else 0
  {
    hide Pass, W.WPass, OnTime;
    if step.Wake? && step.beat {
      WakeEffect(s.workers[step.x].s, true, step.check, step.rearm);
    }
  }

  /** The model does not stop time: if no millisecond can pass, something else can happen first. */
  lemma TimeProgresses(cfg: Config, s: State)
    requires Inv(cfg, s)
    ensures Enabled(cfg, s, Tick(1)) || exists step :: Enabled(cfg, s, step) && !step.Tick?
  {
    hide QInv, Covered, Pending, BusyOk, UpsOk;
    var t, n := s.(now := s.now + 1), s.now;
    var c := Clocks(n, n, n, n);
    if k :| 0 <= k < |s.flights| && t.now > s.flights[k].sent + cfg.delay {
      assert Enabled(cfg, s, Arrive(k));
    } else if k :| 0 <= k < |s.downs| && t.now > s.downs[k].sent + cfg.delay {
      assert s.downs[k].worker in s.registered;
      assert Enabled(cfg, s, Deliver(k));
    } else if t.now > QReady(s) + cfg.pass {
      if s.inbox == [] {
        assert Enabled(cfg, s, Idle(c));
      } else {
        assert Enabled(cfg, s, Take(0, c));
      }
    } else if x :| x in s.workers && t.now > WReady(s.workers[x]) + cfg.pass {
      assert Enabled(cfg, s, Wake(x, s.workers[x].arrivals != [], n, n, n));
    } else {
      assert Enabled(cfg, s, Tick(1));
    }
  }
}
