/**
 * How sharp the bound of Heartbeats is: once a message may take 501 ms, two workers and a queue that all
 * do their passes in no time at all can reach a state where a running, connected worker gives the queue up.
 */
module SlowNetwork {
  import opened Frames
  import opened Channels
  import opened Heartbeats
  import Q = QueueSpec

  ghost predicate Reached(cfg: Config, s: State) {
    exists run :: Run(cfg, run) && Last(run) == s
  }

  lemma Go(cfg: Config, s: State, step: Step, t: State)
    requires Reached(cfg, s) && Enabled(cfg, s, step) && t == Apply(cfg, s, step)
    ensures Reached(cfg, t)
  {
    var run :| Run(cfg, run) && Last(run) == s;
    hide Enabled, Apply;
    var longer := run + [t];
    assert Front(longer) == run && Last(longer) == t;
    assert Next(cfg, s, t);
    assert Run(cfg, longer);
  }

  lemma Wait(cfg: Config, s: State, d: nat, t: State)
    requires Reached(cfg, s) && !s.suspected && t == s.(now := s.now + d) && OnTime(cfg, t)
    ensures Reached(cfg, t)
  {
    Go(cfg, s, Tick(d), t);
  }

  /** Worker x wakes after a second without a message, late by some ms; its heartbeat timer may have run out. */
  lemma Woken(cfg: Config, s: State, x: Frame, late: nat, t: State)
    requires Reached(cfg, s) && !s.suspected && x in s.workers && late <= cfg.pass
    requires var v := s.workers[x]; v.arrivals == [] && s.now == v.done + 1000 && v.s.liveness > 1
    requires var v, end := s.workers[x], s.now + late;
             var beat := end > v.s.heartbeatAt;
             var w := v.s.(liveness := v.s.liveness - 1, heartbeatAt := if beat then end + 1000 else v.s.heartbeatAt);
             t == s.(workers := s.workers[x := v.(s := w, done := end)],
                     flights := s.flights + if beat then [Up(x, Q.HEARTBEAT, end)] else [])
    ensures Reached(cfg, t)
  {
    hide Reached;
    var end := s.now + late;
    Go(cfg, s, Wake(x, false, end, end, end), t);
  }

  /** The only message on the way reaches the queue's empty socket. */
  lemma Arrived(cfg: Config, s: State, u: Up, t: State)
    requires Reached(cfg, s) && !s.suspected && s.flights == [u] && s.inbox == []
    requires t == s.(flights := [], inbox := [Waiting(u, s.now)], busyFrom := s.now, served := {})
    ensures Reached(cfg, t)
  {
    hide Reached;
    assert Without(s.flights, 0) == [];
    Go(cfg, s, Arrive(0), t);
  }

  /** Time 1000: x was started at 499 and its READY is still on its way to the queue. */
  function Expecting(x: Frame): State {
    State(1000, Q.QState([], 1000), 0, [Up(x, Q.READY, 499)], [], [],
          map[x := View(W.Fresh(1499), 499, [], 499)], false, map[], 0, {})
  }

  lemma ExpectingReached(cfg: Config, x: Frame)
    requires x in cfg.ids && cfg.delay >= 501
    ensures Reached(cfg, Expecting(x))
  {
    var s0 := State(0, Q.QState([], 1000), 0, [], [], [], map[], false, map[], 0, {});
    assert Reached(cfg, s0) by {
      assert Run(cfg, [s0]) && Last([s0]) == s0;
    }
    hide Reached;
    var s1 := s0.(now := 499);
    Wait(cfg, s0, 499, s1);
    var s2 := Expecting(x).(now := 499);
    Go(cfg, s1, Start(x, 499), s2);
    Wait(cfg, s2, 501, Expecting(x));
  }

  /** The same moment: the queue has just sent a round to nobody, then hears x, whose READY took 501 ms. */
  function Heard(x: Frame): State {
    State(1000, Q.QState([Q.Entry(x, 4000)], 2000), 1000, [], [], [],
          map[x := View(W.Fresh(1499), 499, [], 499)], false, map[x := 4000], 1000, {x})
  }

  lemma HeardReached(cfg: Config, x: Frame)
    requires x in cfg.ids && cfg.delay >= 501
    ensures Reached(cfg, Heard(x))
  {
    hide Reached;
    ExpectingReached(cfg, x);
    var s0 := Expecting(x);
    var s1 := s0.(queue := Q.QState([], 2000), done := 1000);
    Go(cfg, s0, Idle(Q.At(1000)), s1);
    var s2 := s1.(flights := [], inbox := [Waiting(Up(x, Q.READY, 499), 1000)], busyFrom := 1000);
    Arrived(cfg, s1, Up(x, Q.READY, 499), s2);
    HeardBy(cfg, s2, Up(x, Q.READY, 499), 1000, 0, Heard(x));
  }

  /** The readings of a pass that is over some ms after it began. */
  function Ending(now: int, late: nat): Q.Clocks {
    Q.Clocks(now, now, now, now + late)
  }

  /** A sign of life read between two rounds, while nobody is due to be purged. */
  lemma QuietRead(q: Q.QState, x: Frame, content: Frame, now: int, late: nat)
    requires content != [] && now < q.heartbeatAt && late < 3000 && forall e :: e in q.workers ==> now + late < e.expiry
    ensures Q.Pass(q, Q.Input(Some([x, content]), None), Ending(now, late))
         == (q.(workers := Q.Ready(q.workers, Q.Entry(x, now + 3000))), Q.Output(None, None, []))
  {
    hide Q.RemoveFirst;
    Survivors(q.workers, x);
    var r := Q.Ready(q.workers, Q.Entry(x, now + 3000));
    assert r[0] in r;
    assert Unwrapped([x, content]) == [content];
    assert Q.DropFront(r, now + late) == r;
  }

  /** The queue reads the one message it has; the pass is over `late` ms later. */
  lemma HeardBy(cfg: Config, s: State, u: Up, at: int, late: nat, t: State)
    requires Reached(cfg, s) && !s.suspected && s.inbox == [Waiting(u, at)] && u.content != []
    requires QReady(s) == s.now >= s.done && late <= cfg.pass && late < 3000 && s.now < s.queue.heartbeatAt
    requires forall e :: e in s.queue.workers ==> s.now + late < e.expiry
    requires t == s.(inbox := [], done := s.now + late,
                     queue := s.queue.(workers := Q.Ready(s.queue.workers, Q.Entry(u.worker, s.now + 3000))),
                     registered := s.registered[u.worker := s.now + 3000], served := s.served + {u.worker})
    ensures Reached(cfg, t)
  {
    hide Q.Pass, Q.Ready, Reached;
    QuietRead(s.queue, u.worker, u.content, s.now, late);
    Go(cfg, s, Take(0, Ending(s.now, late)), t);
  }

  lemma {:induction false} Survivors(q: seq<Q.Entry>, x: Frame)
    ensures forall e :: e in Q.RemoveFirst(q, x) ==> e in q
  {
    if q != [] && q[0].id != x {
      Survivors(q[1..], x);
    }
  }

  /** Time 1999, just before the next round is due: y's READY makes the queue poll for another second. */
  function HeardBoth(x: Frame, y: Frame): State {
    State(1999, Q.QState([Q.Entry(x, 4000), Q.Entry(y, 4999)], 2000), 1999, [], [], [],
          map[x := View(W.WState(2, 1000, 0, 1499), 1499, [], 499), y := View(W.Fresh(2999), 1999, [], 1999)],
          false, map[x := 4000, y := 4999], 1999, {y})
  }

  lemma AnotherReady(x: Frame, y: Frame)
    requires x != y
    ensures Q.Ready([Q.Entry(x, 4000)], Q.Entry(y, 4999)) == [Q.Entry(x, 4000), Q.Entry(y, 4999)]
    ensures Q.Ready([Q.Entry(x, 4000), Q.Entry(y, 4999)], Q.Entry(x, 5999)) == [Q.Entry(y, 4999), Q.Entry(x, 5999)]
  {
    assert Q.RemoveFirst([], y) == [];
    assert [Q.Entry(x, 4000)][1..] == [];
    assert Q.RemoveFirst([Q.Entry(x, 4000)], y) == [Q.Entry(x, 4000)];
  }

  lemma HeardBothReached(cfg: Config, x: Frame, y: Frame)
    requires Reached(cfg, Heard(x)) && x != y && y in cfg.ids
    ensures Reached(cfg, HeardBoth(x, y))
  {
    hide Reached;
    var s0 := Heard(x);
    var s1 := s0.(now := 1499);
    Wait(cfg, s0, 499, s1);
    var s2 := s1.(workers := map[x := View(W.WState(2, 1000, 0, 1499), 1499, [], 499)]);
    Woken(cfg, s1, x, 0, s2);
    var s3 := s2.(now := 1999);
    Wait(cfg, s2, 500, s3);
    var s4 := s3.(workers := s2.workers[y := View(W.Fresh(2999), 1999, [], 1999)], flights := [Up(y, Q.READY, 1999)]);
    Go(cfg, s3, Start(y, 1999), s4);
    var s5 := s4.(flights := [], inbox := [Waiting(Up(y, Q.READY, 1999), 1999)], busyFrom := 1999, served := {});
    Arrived(cfg, s4, Up(y, Q.READY, 1999), s5);
    AnotherReady(x, y);
    HeardBy(cfg, s5, Up(y, Q.READY, 1999), 1999, 0, HeardBoth(x, y));
  }

  /** Time 2999: the late round is on its way to both, and x's own heartbeat has been heard. */
  function RoundSent(x: Frame, y: Frame): State {
    State(2999, Q.QState([Q.Entry(y, 4999), Q.Entry(x, 5999)], 3999), 2999, [], [], [Down(x, 2999), Down(y, 2999)],
          map[x := View(W.WState(1, 1000, 0, 3499), 2499, [], 499),
              y := View(W.WState(2, 1000, 0, 2999), 2999, [], 1999)],
          false, map[x := 5999, y := 4999], 2999, {x})
  }

  /** The round at 2999, a second after y was heard. */
  lemma LateRound(q: Q.QState, x: Frame, y: Frame)
    requires q == Q.QState([Q.Entry(x, 4000), Q.Entry(y, 4999)], 2000)
    ensures Q.Pass(q, Q.Input(None, None), Q.At(2999))
         == (q.(heartbeatAt := 3999), Q.Output(None, None, [[x, Q.HEARTBEAT], [y, Q.HEARTBEAT]]))
  {
    assert Q.Beats(q.workers) == [[x, Q.HEARTBEAT], [y, Q.HEARTBEAT]];
  }

  /** The worker x wakes for the second time without having heard the queue. */
  function Uneasy(x: Frame, y: Frame): State {
    HeardBoth(x, y).(now := 2999, flights := [Up(x, Q.HEARTBEAT, 2499)],
      workers := map[x := View(W.WState(1, 1000, 0, 3499), 2499, [], 499), y := View(W.Fresh(2999), 1999, [], 1999)])
  }

  lemma UneasyReached(cfg: Config, x: Frame, y: Frame)
    requires Reached(cfg, HeardBoth(x, y)) && x != y && cfg.delay >= 500
    ensures Reached(cfg, Uneasy(x, y))
  {
    hide Reached, Enabled, Apply;
    var s0 := HeardBoth(x, y);
    var s1 := s0.(now := 2499);
    Wait(cfg, s0, 500, s1);
    var s2 := Uneasy(x, y).(now := 2499);
    Woken(cfg, s1, x, 0, s2);
    Wait(cfg, s2, 500, Uneasy(x, y));
  }

  lemma RoundOut(cfg: Config, x: Frame, y: Frame, t: State)
    requires Reached(cfg, Uneasy(x, y)) && x != y
    requires var s := Uneasy(x, y);
             t == s.(queue := s.queue.(heartbeatAt := 3999), done := 2999, downs := [Down(x, 2999), Down(y, 2999)])
    ensures Reached(cfg, t)
  {
    hide Reached, Q.Pass;
    var s := Uneasy(x, y);
    LateRound(s.queue, x, y);
    Go(cfg, s, Idle(Q.At(2999)), t);
  }

  lemma RoundSentReached(cfg: Config, x: Frame, y: Frame)
    requires Reached(cfg, Uneasy(x, y)) && x != y
    ensures Reached(cfg, RoundSent(x, y))
  {
    hide Reached, Q.Pass, Q.Ready;
    var s0 := Uneasy(x, y);
    var s1 := s0.(queue := s0.queue.(heartbeatAt := 3999), done := 2999, downs := [Down(x, 2999), Down(y, 2999)]);
    RoundOut(cfg, x, y, s1);
    hide Enabled, Apply;
    var s2 := s1.(workers := RoundSent(x, y).workers);
    Woken(cfg, s1, y, 0, s2);
    var s3 := s2.(flights := [], inbox := [Waiting(Up(x, Q.HEARTBEAT, 2499), 2999)], busyFrom := 2999, served := {});
    Arrived(cfg, s2, Up(x, Q.HEARTBEAT, 2499), s3);
    AnotherReady(x, y);
    HeardBy(cfg, s3, Up(x, Q.HEARTBEAT, 2499), 2999, 0, RoundSent(x, y));
  }

  lemma GivesUp(cfg: Config, s: State, x: Frame, t: State)
    requires Reached(cfg, s) && !s.suspected && x in s.workers && t == s.(suspected := true)
    requires var v := s.workers[x]; v.arrivals == [] && s.now == v.done + 1000 && v.s.liveness == 1
    ensures Reached(cfg, t)
  {
    hide Reached;
    Go(cfg, s, Wake(x, false, s.now, s.now, s.now), t);
  }

  /** At 3499 the third second is over: x reconnects, a millisecond before the heartbeat is due to arrive. */
  lemma FalseSuspicion(cfg: Config)
    requires |cfg.ids| >= 2 && cfg.delay >= 501
    ensures exists run :: Run(cfg, run) && Last(run).suspected
  {
    hide Run, Enabled, Apply;
    var x :| x in cfg.ids;
    var y := Another(cfg.ids, x);
    HeardReached(cfg, x);
    HeardBothReached(cfg, x, y);
    UneasyReached(cfg, x, y);
    RoundSentReached(cfg, x, y);
    var s0 := RoundSent(x, y);
    var s1 := s0.(now := 3499);
    Wait(cfg, s0, 500, s1);
    GivesUp(cfg, s1, x, s1.(suspected := true));
  }

  lemma Another(ids: set<Frame>, x: Frame) returns (y: Frame)
    requires |ids| >= 2 && x in ids
    ensures y in ids && y != x
  {
    assert |ids - {x}| == |ids| - 1;
    y :| y in ids - {x};
  }

  // ---- Slow passes ----

  /** Time 1000: the queue is in a pass until 1667 whose round reached nobody; x's READY waits already. */
  function Waits(x: Frame): State {
    State(1000, Q.QState([], 2667), 1667, [], [Waiting(Up(x, Q.READY, 1000), 1000)], [],
          map[x := View(W.Fresh(2000), 1000, [], 1000)], false, map[], 1000, {})
  }

  lemma WaitsReached(cfg: Config, x: Frame)
    requires x in cfg.ids && cfg.pass >= 667
    ensures Reached(cfg, Waits(x))
  {
    var s0 := State(0, Q.QState([], 1000), 0, [], [], [], map[], false, map[], 0, {});
    assert Reached(cfg, s0) by {
      assert Run(cfg, [s0]) && Last([s0]) == s0;
    }
    hide Reached;
    var s1 := s0.(now := 1000);
    Wait(cfg, s0, 1000, s1);
    var s2 := s1.(queue := Q.QState([], 2667), done := 1667);
    Go(cfg, s1, Idle(Q.Clocks(1000, 1000, 1667, 1667)), s2);
    var s3 := s2.(workers := Waits(x).workers, flights := [Up(x, Q.READY, 1000)]);
    Go(cfg, s2, Start(x, 1000), s3);
    Arrived(cfg, s3, Up(x, Q.READY, 1000), Waits(x));
  }

  /** Time 2001: x is listed, has lost a life, and its first heartbeat waits for a pass that ends at 2334. */
  function WaitsAgain(x: Frame): State {
    State(2001, Q.QState([Q.Entry(x, 4667)], 2667), 2334, [], [Waiting(Up(x, Q.HEARTBEAT, 2001), 2001)], [],
          map[x := View(W.WState(2, 1000, 0, 3001), 2001, [], 1000)], false, map[x := 4667], 2001, {})
  }

  lemma WaitsAgainReached(cfg: Config, x: Frame)
    requires Reached(cfg, Waits(x)) && cfg.pass >= 667
    ensures Reached(cfg, WaitsAgain(x))
  {
    hide Reached, Enabled, Apply;
    var s0 := Waits(x);
    var s1 := s0.(now := 1667);
    Wait(cfg, s0, 667, s1);
    assert Q.Ready([], Q.Entry(x, 4667)) == [Q.Entry(x, 4667)];
    var s2 := s1.(inbox := [], done := 2334, queue := Q.QState([Q.Entry(x, 4667)], 2667),
                  registered := map[x := 4667], served := {x});
    HeardBy(cfg, s1, Up(x, Q.READY, 1000), 1000, 667, s2);
    var s3 := s2.(now := 2000);
    Wait(cfg, s2, 333, s3);
    var s4 := s3.(workers := WaitsAgain(x).workers, flights := [Up(x, Q.HEARTBEAT, 2001)]);
    Woken(cfg, s3, x, 1, s4);
    var s5 := s4.(now := 2001);
    Wait(cfg, s4, 1, s5);
    Arrived(cfg, s5, Up(x, Q.HEARTBEAT, 2001), WaitsAgain(x));
  }

  /** Time 4001: the queue has been idle since 3001 and is about to send its round; x's third second is over. */
  function Forgotten(x: Frame): State {
    State(4001, Q.QState([Q.Entry(x, 5334)], 2667), 3001, [], [], [],
          map[x := View(W.WState(1, 1000, 0, 3001), 3001, [], 1000)], false, map[x := 5334], 2001, {x})
  }

  lemma SameAgain(x: Frame)
    ensures Q.Ready([Q.Entry(x, 4667)], Q.Entry(x, 5334)) == [Q.Entry(x, 5334)]
  {
    assert Q.RemoveFirst([Q.Entry(x, 4667)], x) == [];
  }

  lemma ForgottenReached(cfg: Config, x: Frame)
    requires Reached(cfg, WaitsAgain(x)) && cfg.pass >= 667
    ensures Reached(cfg, Forgotten(x))
  {
    hide Reached, Enabled, Apply, Q.Ready;
    var s0 := WaitsAgain(x);
    var s1 := s0.(now := 2334);
    Wait(cfg, s0, 333, s1);
    SameAgain(x);
    var s2 := s1.(inbox := [], done := 3001, queue := Q.QState([Q.Entry(x, 5334)], 2667),
                  registered := map[x := 5334], served := {x});
    HeardBy(cfg, s1, Up(x, Q.HEARTBEAT, 2001), 2001, 667, s2);
    var s3 := s2.(now := 3001);
    Wait(cfg, s2, 667, s3);
    var s4 := s3.(workers := Forgotten(x).workers);
    Woken(cfg, s3, x, 0, s4);
    Wait(cfg, s4, 1000, Forgotten(x));
  }

  /** However fast the network is: with passes that may take 667 ms a single worker can give the queue up. */
  lemma SlowPasses(cfg: Config)
    requires cfg.ids != {} && cfg.pass >= 667
    ensures exists run :: Run(cfg, run) && Last(run).suspected
  {
    hide Run, Enabled, Apply;
    var x :| x in cfg.ids;
    WaitsReached(cfg, x);
    WaitsAgainReached(cfg, x);
    ForgottenReached(cfg, x);
    GivesUp(cfg, Forgotten(x), x, Forgotten(x).(suspected := true));
  }

  /** With passes that take no time, and at least two workers, nobody is falsely suspected iff 2 * delay <= 1000. */
  lemma SuspicionBound(cfg: Config)
    requires |cfg.ids| >= 2 && cfg.pass == 0
    ensures (forall run :: Run(cfg, run) ==> !Last(run).suspected) <==> 2 * cfg.delay <= Q.INTERVAL
  {
    if 2 * cfg.delay <= Q.INTERVAL {
      assert cfg.Fast();
      forall run | Run(cfg, run)
        ensures !Last(run).suspected
      {
        NoFalseSuspicion(cfg, run);
      }
    } else {
      FalseSuspicion(cfg);
    }
  }
}
