/**
 * The Paranoid Pirate worker (src/ppq/worker.c): liveness counting, exponential reconnect backoff, its
 * heartbeat timer, and what it does with requests. randof is a pair of free draws, the clock an input.
 */
module PPWorker {
  import opened Frames
  import opened Channels
  import opened QueueSpec

  const INTERVAL_INIT: int := 1000
  const INTERVAL_MAX: int := 32000

  datatype WState = WState(liveness: int, interval: int, cycles: nat, heartbeatAt: int)

  /** How a poll ends: with a message (and the two draws a request may lead to), or by its timeout. */
  datatype Poll = Timeout | Got(msg: Msg, crash: bool, overload: bool)

  /** What a pass does to the outside: messages sent in order, milliseconds slept, socket replaced, loop left. */
  datatype Effect = Effect(sent: seq<Msg>, slept: int, reconnected: bool, stopped: bool)

  predicate IsBeat(p: Poll) {
    p.Got? && |p.msg| == 1 && StartsWith(p.msg[0], HEARTBEAT[0])
  }

  predicate Crashes(s: WState, p: Poll) {
    p.Got? && |p.msg| == 3 && s.cycles + 1 > 3 && p.crash
  }

  function Fresh(heartbeatAt: int): WState {
    WState(LIVENESS, INTERVAL_INIT, 0, heartbeatAt)
  }

  function AfterPoll(s: WState, p: Poll): (WState, Effect) {
    match p
    case Got(msg, crash, overload) =>
      var t := s.(interval := INTERVAL_INIT);
      if |msg| == 3 then
        var u := t.(cycles := s.cycles + 1);
        if Crashes(s, p) then (s.(cycles := s.cycles + 1), Effect([], 0, false, true))
        else if u.cycles > 3 && overload then (u, Effect([], 3000, false, false))
        else (u, Effect([msg], 1000, false, false))
      else if IsBeat(p) then (t.(liveness := LIVENESS), Effect([], 0, false, false))
      else (t, Effect([], 0, false, false))
    case Timeout =>
      if s.liveness - 1 == 0 then
        (s.(liveness := LIVENESS, interval := if s.interval < INTERVAL_MAX then 2 * s.interval else s.interval),
         Effect([[READY]], s.interval, true, false))
      else (s.(liveness := s.liveness - 1), Effect([], 0, false, false))
  }

  /** One pass: the poll, then a heartbeat if the timer has run out. A crash leaves the loop at once. */
  function WPass(s: WState, p: Poll, check: int, rearm: int): (WState, Effect) {
    var r := AfterPoll(s, p);
    if !r.1.stopped && check > s.heartbeatAt
    then (r.0.(heartbeatAt := rearm + INTERVAL), r.1.(sent := r.1.sent + [[HEARTBEAT]]))
    else r
  }

  class Worker {
    var liveness: int
    var interval: int
    var cycles: nat
    var heartbeatAt: int
    var sockets: nat            // sockets opened so far; the current one is the last

    ghost function Model(): WState
      reads this
    {
      WState(liveness, interval, cycles, heartbeatAt)
    }

    constructor (now: int)
      ensures Model() == Fresh(now + INTERVAL) && sockets == 1
    {
      liveness, interval, cycles, heartbeatAt, sockets := LIVENESS, INTERVAL_INIT, 0, now + INTERVAL, 1;
    }

    method Pass(p: Poll, check: int, rearm: int) returns (e: Effect)
      modifies this
      ensures (Model(), e) == WPass(old(Model()), p, check, rearm)
      ensures sockets == old(sockets) + if e.reconnected then 1 else 0
    {
      var sent, slept, reconnected := [], 0, false;
      if p.Got? {
        if |p.msg| == 3 {
          cycles := cycles + 1;
          if cycles > 3 && p.crash {
            return Effect([], 0, false, true);
          } else if cycles > 3 && p.overload {
            slept := 3000;
          } else {
            sent := [p.msg];
            slept := 1000;
          }
        } else if |p.msg| == 1 && StartsWith(p.msg[0], HEARTBEAT[0]) {
          liveness := LIVENESS;
        }
        interval := INTERVAL_INIT;
      } else {
        liveness := liveness - 1;
        if liveness == 0 {
          slept := interval;
          if interval < INTERVAL_MAX {
            interval := 2 * interval;
          }
          sockets, reconnected := sockets + 1, true;
          sent := [[READY]];
          liveness := LIVENESS;
        }
      }
      if check > heartbeatAt {
        heartbeatAt := rearm + INTERVAL;
        sent := sent + [[HEARTBEAT]];
      }
      e := Effect(sent, slept, reconnected, false);
    }
  }

  // ---- What a pass does, told from the message and the draws ----

  /** A request is answered unless the worker, from its fourth request on, draws a crash or an overload. */
  predicate Answers(cycles: nat, crash: bool, overload: bool) {
    cycles < 3 || (!crash && !overload)
  }

  /**
   * A request: it is sent back as it came exactly when it is answered, which takes a second; an overload
   * takes three and sends nothing; a crash ends the worker at once. A heartbeat follows when it is due.
   */
  lemma RequestRead(s: WState, msg: Msg, crash: bool, overload: bool, check: int, rearm: int)
    requires |msg| == 3
    ensures var (t, e) := WPass(s, Got(msg, crash, overload), check, rearm);
            && (e.stopped <==> s.cycles >= 3 && crash)
            && (msg in e.sent <==> Answers(s.cycles, crash, overload))
            && e.sent == (if Answers(s.cycles, crash, overload) then [msg] else [])
                         + (if check > s.heartbeatAt && !e.stopped then [[HEARTBEAT]] else [])
            && e.slept == (if e.stopped then 0 else if Answers(s.cycles, crash, overload) then 1000 else 3000)
            && !e.reconnected && t.cycles == s.cycles + 1 && t.liveness == s.liveness
  {
    assert msg != [HEARTBEAT];
    assert [msg] + [[HEARTBEAT]] == [msg, [HEARTBEAT]];
  }

  /** Any other poll: READY goes out on a new socket, after the backoff, exactly when the last life is lost. */
  lemma OtherPoll(s: WState, p: Poll, check: int, rearm: int)
    requires p.Got? ==> |p.msg| != 3
    ensures var (t, e) := WPass(s, p, check, rearm);
            && !e.stopped && t.cycles == s.cycles
            && (e.reconnected <==> p.Timeout? && s.liveness == 1)
            && e.slept == (if e.reconnected then s.interval else 0)
            && e.sent == (if e.reconnected then [[READY]] else []) + (if check > s.heartbeatAt then [[HEARTBEAT]]
                else [])
  {
  }

  /** The heartbeat timer is rearmed when a heartbeat is sent and at no other time. */
  lemma TimerRearmed(s: WState, p: Poll, check: int, rearm: int)
    ensures var (t, e) := WPass(s, p, check, rearm);
            t.heartbeatAt == if !e.stopped && check > s.heartbeatAt then rearm + 1000 else s.heartbeatAt
  {
  }

  // ---- Runs of the worker ----

  datatype WEvent = WEvent(poll: Poll, check: int, rearm: int)

  /** The state after any sequence of passes. */
  function After(s: WState, h: seq<WEvent>): WState {
    if h == [] then s else WPass(After(s, Front(h)), Last(h).poll, Last(h).check, Last(h).rearm).0
  }

  /** What the last pass of a history did. */
  function LastEffect(s: WState, h: seq<WEvent>): Effect
    requires h != []
  {
    WPass(After(s, Front(h)), Last(h).poll, Last(h).check, Last(h).rearm).1
  }

  /** Milliseconds slept before reconnecting. */
  function Backoff(s: WState, h: seq<WEvent>): int {
    if h == [] then 0 else
      var e := LastEffect(s, h);
      Backoff(s, Front(h)) + if e.reconnected then e.slept else 0
  }

  predicate NoCrash(s: WState, h: seq<WEvent>) {
    h == [] || (NoCrash(s, Front(h)) && !Crashes(After(s, Front(h)), Last(h).poll))
  }

  /** Polls that ended in silence since the last heartbeat from the queue or the last connect. */
  function SinceConnect(s: WState, h: seq<WEvent>): nat {
    if h == [] || LastEffect(s, h).reconnected || IsBeat(Last(h).poll) then 0
    else SinceConnect(s, Front(h)) + if Last(h).poll.Timeout? then 1 else 0
  }

  /** Passes that reconnected since the last message of any kind. */
  function Reconnects(s: WState, h: seq<WEvent>): nat {
    if h == [] || Last(h).poll.Got? then 0
    else Reconnects(s, Front(h)) + if LastEffect(s, h).reconnected then 1 else 0
  }

  /** Polls that ended in silence since the last heartbeat from the queue, or since the start. */
  function SinceBeat(h: seq<WEvent>): nat {
    if h == [] then 0
    else if Last(h).poll.Timeout? then SinceBeat(Front(h)) + 1
    else if IsBeat(Last(h).poll) then 0
    else SinceBeat(Front(h))
  }

  /** The same count, as it stood when the last message of any kind came. */
  function AtLastMessage(h: seq<WEvent>): nat {
    if h == [] then 0 else if Last(h).poll.Got? then SinceBeat(h) else AtLastMessage(Front(h))
  }

  /** Requests read in a history. */
  function Requests(h: seq<WEvent>): nat {
    if h == [] then 0
    else Requests(Front(h)) + if Last(h).poll.Got? && |Last(h).poll.msg| == 3 then 1 else 0
  }

  /** Over every history, cycles counts the requests read, so it decides which of them may go unanswered. */
  lemma {:induction false} CyclesCountRequests(t: int, h: seq<WEvent>)
    ensures After(Fresh(t), h).cycles == Requests(h)
  {
    if h != [] {
      CyclesCountRequests(t, Front(h));
    }
  }

  function Pow2(n: nat): nat {
    if n == 0 then 1 else 2 * Pow2(n - 1)
  }

  function Min(a: int, b: int): int {
    if a < b then a else b
  }

  /**
   * Liveness and backoff in closed form, for every run: the worker has lost one life for each silent poll
   * since the last heartbeat or connect, and the interval has doubled, up to 32 s, with each reconnect
   * since the last message.
   */
  lemma {:induction false} LivenessAndInterval(t: int, h: seq<WEvent>)
    requires NoCrash(Fresh(t), h)
    ensures var s := After(Fresh(t), h);
            && s.liveness == 3 - SinceConnect(Fresh(t), h)
            && 1 <= s.liveness <= 3
            && s.interval == 1000 * Pow2(Min(Reconnects(Fresh(t), h), 5))
  {
    if h == [] {
      assert Pow2(0) == 1;
    } else {
      hide Pow2, WPass, AfterPoll;
      LivenessAndInterval(t, Front(h));
      LifeStep(After(Fresh(t), Front(h)), Last(h), Reconnects(Fresh(t), Front(h)));
    }
  }

  /** One pass, after k reconnects since the last message. */
  lemma LifeStep(s: WState, e: WEvent, k: nat)
    requires !Crashes(s, e.poll) && 1 <= s.liveness <= 3 && s.interval == 1000 * Pow2(Min(k, 5))
    ensures var r := WPass(s, e.poll, e.check, e.rearm);
            && (r.1.reconnected <==> e.poll.Timeout? && s.liveness == 1)
            && r.0.liveness == (if r.1.reconnected || IsBeat(e.poll) then 3
                                else s.liveness - if e.poll.Timeout? then 1 else 0)
            && r.0.interval == 1000 * Pow2(Min(if e.poll.Got? then 0 else if r.1.reconnected then k + 1 else k, 5))
  {
    hide Pow2;
    Doubling(k);
  }

  /** The worker reconnects at every third silence since the last heartbeat, and only then. */
  lemma {:induction false} EveryThirdSilence(t: int, h: seq<WEvent>)
    requires NoCrash(Fresh(t), h)
    ensures SinceConnect(Fresh(t), h) == SinceBeat(h) % 3
    ensures AtLastMessage(h) <= SinceBeat(h)
    ensures Reconnects(Fresh(t), h) == SinceBeat(h) / 3 - AtLastMessage(h) / 3
  {
    if h != [] {
      hide Pow2, WPass, AfterPoll, After, NoCrash;
      assert NoCrash(Fresh(t), Front(h)) && !Crashes(After(Fresh(t), Front(h)), Last(h).poll) by {
        NotCrashed(Fresh(t), h);
      }
      EveryThirdSilence(t, Front(h));
      LivenessAndInterval(t, Front(h));
      LifeStep(After(Fresh(t), Front(h)), Last(h), Reconnects(Fresh(t), Front(h)));
      Thirds(SinceBeat(Front(h)));
    }
  }

  lemma {:induction false} NotCrashed(s: WState, h: seq<WEvent>)
    requires NoCrash(s, h) && h != []
    ensures NoCrash(s, Front(h)) && !Crashes(After(s, Front(h)), Last(h).poll)
  {
  }

  lemma Thirds(n: nat)
    ensures if n % 3 == 2 then (n + 1) % 3 == 0 && (n + 1) / 3 == n / 3 + 1
            else (n + 1) % 3 == n % 3 + 1 && (n + 1) / 3 == n / 3
  {
  }

  /** Doubling below the maximum is moving one step up the powers of two, which stop at the fifth. */
  lemma Doubling(r: nat)
    ensures var i := 1000 * Pow2(Min(r, 5));
            (if i < INTERVAL_MAX then 2 * i else i) == 1000 * Pow2(Min(r + 1, 5)) && Pow2(0) == 1
  {
    PowersOfTwo();
  }

  lemma PowersOfTwo()
    ensures Pow2(0) == 1 && Pow2(1) == 2 && Pow2(2) == 4 && Pow2(3) == 8 && Pow2(4) == 16 && Pow2(5) == 32
            && Pow2(6) == 64
  {
    assert Pow2(3) == 8 && Pow2(6) == 8 * Pow2(3);
  }

  /** What n reconnects in a row sleep in all. */
  function TotalBackoff(n: nat): int {
    if n <= 6 then 1000 * (Pow2(n) - 1) else 63000 + 32000 * (n - 6)
  }

  predicate AllSilent(h: seq<WEvent>) {
    forall i :: 0 <= i < |h| ==> h[i].poll.Timeout?
  }

  lemma {:induction false} SilentCount(h: seq<WEvent>)
    requires AllSilent(h)
    ensures SinceBeat(h) == |h| && AtLastMessage(h) == 0
  {
    if h != [] {
      SilentCount(Front(h));
    }
  }

  lemma TotalStep(n: nat)
    ensures TotalBackoff(n + 1) == TotalBackoff(n) + 1000 * Pow2(Min(n, 5)) && TotalBackoff(0) == 0
  {
    PowersOfTwo();
  }

  /** A worker that never hears anything has reconnected |h|/3 times after |h| polls, and slept this long. */
  lemma {:induction false} SilentBackoff(t: int, h: seq<WEvent>)
    requires AllSilent(h)
    ensures NoCrash(Fresh(t), h) && Reconnects(Fresh(t), h) == |h| / 3
    ensures Backoff(Fresh(t), h) == TotalBackoff(Reconnects(Fresh(t), h))
  {
    if h == [] {
      TotalStep(0);
    } else {
      hide Pow2, TotalBackoff;
      var n := |h| - 1;
      SilentBackoff(t, Front(h));
      LivenessAndInterval(t, Front(h));
      SilentCount(h);
      EveryThirdSilence(t, h);
      TotalStep(n / 3);
      Thirds(n);
    }
  }
}
