/**
 * The ROUTER-to-REQ broker of src/loadbalance/rtreq.c and its workers: each Hello is answered "ok" until
 * some time and "exit" after it, and the broker stops when it has told every worker to exit.
 */
module Rtreq {
  import opened Frames
  import opened Channels

  const HELLO: Frame := [72, 101, 108, 108, 111]
  const OK: Frame := [111, 107]
  const EXIT: Frame := [101, 120, 105, 116]

  /** The reply to one request, given whether the time is up; the envelope is sent back as it came. */
  function Reply(m: Msg, late: bool): Msg
    requires |m| > 0
  {
    [m[0], [], if late then EXIT else OK]
  }

  datatype Reading = Reading(msg: Msg, now: int)

  /** The broker's replies, and whether it has stopped: right after the exit that makes the count complete. */
  function Answers(workers: nat, endTime: int, exited: nat, h: seq<Reading>): (seq<Msg>, bool)
    requires forall i :: 0 <= i < |h| ==> |h[i].msg| > 0
    decreases |h|
  {
    if h == [] then ([], false) else
      var late := h[0].now >= endTime;
      var n := if late then exited + 1 else exited;
      if late && n == workers then ([Reply(h[0].msg, late)], true) else
        var rest := Answers(workers, endTime, n, h[1..]);
        ([Reply(h[0].msg, late)] + rest.0, rest.1)
  }

  /** The broker's loop over the messages it receives and the clock readings that go with them. */
  method Serve(workers: nat, endTime: int, h: seq<Reading>) returns (replies: seq<Msg>, stopped: bool)
    requires forall i :: 0 <= i < |h| ==> |h[i].msg| > 0
    ensures (replies, stopped) == Answers(workers, endTime, 0, h)
  {
    var exited, i := 0, 0;
    replies, stopped := [], false;
    ghost var all := Answers(workers, endTime, 0, h);
    assert h[0..] == h && replies + all.0 == all.0;
    while i < |h|
      invariant i <= |h| && !stopped
      invariant var rest := Answers(workers, endTime, exited, h[i..]); all == (replies + rest.0, rest.1)
    {
      var r := h[i];
      assert h[i..][0] == r && h[i..][1..] == h[i + 1..];
      ghost var before := replies;
      if r.now < endTime {
        replies := replies + [[r.msg[0], [], OK]];
      } else {
        replies := replies + [[r.msg[0], [], EXIT]];
        exited := exited + 1;
        if exited == workers {
          return replies, true;
        }
      }
      assert forall rest :: before + ([Reply(r.msg, r.now >= endTime)] + rest) == replies + rest;
      i := i + 1;
    }
    assert replies + [] == replies;
  }

  function CountLate(h: seq<Reading>, endTime: int): nat {
    if h == [] then 0 else (if h[0].now >= endTime then 1 else 0) + CountLate(h[1..], endTime)
  }

  /** Every message is answered in order, until the number of exits reaches the number of workers and not before. */
  lemma {:induction false} StopsAtLastExit(workers: nat, endTime: int, exited: nat, h: seq<Reading>)
    requires forall i :: 0 <= i < |h| ==> |h[i].msg| > 0
    ensures var a := Answers(workers, endTime, exited, h);
            && |a.0| <= |h| && (forall i :: 0 <= i < |a.0| ==> a.0[i] == Reply(h[i].msg, h[i].now >= endTime))
            && (a.1 <==> exited < workers <= exited + CountLate(h, endTime))
            && (a.1 ==> exited + CountLate(h[..|a.0|], endTime) == workers && |a.0| > 0 && h[|a.0| - 1].now >= endTime)
            && (!a.1 ==> |a.0| == |h|)
    decreases |h|
  {
    if h != [] {
      var n := if h[0].now >= endTime then exited + 1 else exited;
      var a := Answers(workers, endTime, exited, h);
      if n == workers && exited < workers {
        assert h[..1][1..] == [];
      } else {
        StopsAtLastExit(workers, endTime, n, h[1..]);
        assert h[..|a.0|][1..] == h[1..][..|a.0| - 1];
      }
    }
  }

  /** worker_task: count the replies until one says exit. */
  method WorkerTask(replies: seq<Frame>) returns (total: nat, finished: bool)
    ensures total <= |replies| && (forall i :: 0 <= i < total ==> replies[i] != EXIT)
    ensures finished <==> total < |replies|
    ensures finished ==> replies[total] == EXIT
  {
    total, finished := 0, false;
    while total < |replies|
      invariant total <= |replies| && !finished
      invariant forall i :: 0 <= i < total ==> replies[i] != EXIT
    {
      if replies[total] == EXIT {
        return total, true;
      }
      total := total + 1;
    }
  }

  // ---- The system ----

  /** idle workers are about to say Hello, done ones have read their exit; counted holds each worker's total. */
  datatype State = State(idle: set<Frame>, hellos: seq<Msg>, replies: seq<Parcel>, done: set<Frame>,
                         counted: multiset<Frame>, oks: multiset<Frame>, exits: multiset<Frame>, exited: nat,
                         stopped: bool)

  ghost predicate Init(workers: set<Frame>, s: State) {
    s == State(workers, [], [], {}, multiset{}, multiset{}, multiset{}, 0, false)
  }

  /** The clock is free: each answer may be early or late. */
  datatype Step = SayHello(w: Frame) | Answer(i: nat, late: bool) | Read(i: nat)

  ghost predicate Enabled(s: State, step: Step) {
    match step
    case SayHello(w) => w in s.idle
    case Answer(i, _) => !s.stopped && i < |s.hellos| && |s.hellos[i]| > 0
    case Read(i) => i < |s.replies|
  }

  ghost function Apply(workers: set<Frame>, s: State, step: Step): State
    requires Enabled(s, step)
  {
    match step
    case SayHello(w) => s.(idle := s.idle - {w}, hellos := s.hellos + [[w] + ReqOut([HELLO])])
    case Answer(i, late) =>
      var m := Reply(s.hellos[i], late);
      var t := s.(hellos := Without(s.hellos, i), replies := s.replies + [Parcel(m[0], m[1..])]);
      if late then t.(exits := s.exits + multiset{m[0]}, exited := s.exited + 1, stopped := s.exited + 1 == |workers|)
      else t.(oks := s.oks + multiset{m[0]})
    case Read(i) =>
      var p := s.replies[i];
      var t := s.(replies := Without(s.replies, i));
      if ReqIn(p.msg) == Some([EXIT]) then t.(done := s.done + {p.peer})
      else t.(idle := s.idle + {p.peer}, counted := s.counted + multiset{p.peer})
  }

  ghost predicate Next(workers: set<Frame>, s: State, t: State) {
    exists step :: Enabled(s, step) && t == Apply(workers, s, step)
  }

  ghost predicate Run(workers: set<Frame>, run: seq<State>) {
    |run| > 0
    && if |run| == 1 then Init(workers, run[0])
       else Run(workers, Front(run)) && Next(workers, Last(Front(run)), Last(run))
  }

  function HelloOf(m: Msg): multiset<Frame> {
    if |m| > 0 then multiset{m[0]} else multiset{}
  }

  function OkOf(p: Parcel): multiset<Frame> {
    if p.msg == [[], OK] then multiset{p.peer} else multiset{}
  }

  function ExitOf(p: Parcel): multiset<Frame> {
    if p.msg == [[], EXIT] then multiset{p.peer} else multiset{}
  }

  /** In how many places a worker's turn is found. */
  function Turns(s: State, w: Frame): nat {
    (if w in s.idle then 1 else 0) + Sum(HelloOf, s.hellos)[w] + Sum(OkOf, s.replies)[w] + Sum(ExitOf, s.replies)[w]
    + (if w in s.done then 1 else 0)
  }

  /**
   * It is everybody's turn exactly once; an exit sent is on its way or was read, an ok is on its way or
   * was counted.
   */
  ghost predicate Counts(workers: set<Frame>, s: State) {
    && (forall w :: Turns(s, w) == if w in workers then 1 else 0)
    && (forall w :: s.exits[w] == Sum(ExitOf, s.replies)[w] + if w in s.done then 1 else 0)
    && (forall w :: s.oks[w] == Sum(OkOf, s.replies)[w] + s.counted[w])
  }

  ghost predicate Inv(workers: set<Frame>, s: State) {
    && Counts(workers, s)
    && (forall m :: m in s.hellos ==> |m| == 3 && m[1] == [] && m[2] == HELLO)
    && (forall p :: p in s.replies ==> p.msg == [[], OK] || p.msg == [[], EXIT])
    && s.exited == |s.exits|
    && (s.stopped <==> s.exited > 0 && s.exited == |workers|)
  }

  lemma HelloKeepsInv(workers: set<Frame>, s: State, w: Frame)
    requires Inv(workers, s) && Enabled(s, SayHello(w))
    ensures Inv(workers, Apply(workers, s, SayHello(w)))
  {
    hide Sum;
    SumPush(HelloOf, s.hellos, [w] + ReqOut([HELLO]));
    var t := Apply(workers, s, SayHello(w));
    forall k
      ensures Turns(t, k) == if k in workers then 1 else 0
    {
      assert Turns(s, k) == if k in workers then 1 else 0;
    }
  }

  lemma Answered(workers: set<Frame>, s: State, t: State, i: nat, p: Parcel)
    requires Counts(workers, s) && i < |s.hellos| && |s.hellos[i]| > 0 && p.peer == s.hellos[i][0]
    requires var u := s.(hellos := Without(s.hellos, i), replies := s.replies + [p]);
             || (p.msg == [[], OK] && t == u.(oks := s.oks + multiset{p.peer}))
             || (p.msg == [[], EXIT]
                 && t == u.(exits := s.exits + multiset{p.peer}, exited := t.exited, stopped := t.stopped))
    ensures Counts(workers, t)
  {
    hide Sum, Without, OkOf, ExitOf;
    OneKind(p);
    SumPull(HelloOf, s.hellos, i);
    SumPush(OkOf, s.replies, p);
    SumPush(ExitOf, s.replies, p);
  }

  lemma OneKind(p: Parcel)
    ensures p.msg == [[], EXIT] ==>
              OkOf(p) == multiset{} && ExitOf(p) == multiset{p.peer} && ReqIn(p.msg) == Some([EXIT])
    ensures p.msg == [[], OK] ==> OkOf(p) == multiset{p.peer} && ExitOf(p) == multiset{} && ReqIn(p.msg) == Some([OK])
    ensures [OK] != [EXIT]
  {
    assert |OK| != |EXIT|;
    assert [OK][0] != [EXIT][0];
    assert [[], OK][1] != [[], EXIT][1];
  }

  lemma AnswerKeepsInv(workers: set<Frame>, s: State, i: nat, late: bool)
    requires Inv(workers, s) && Enabled(s, Answer(i, late))
    ensures Inv(workers, Apply(workers, s, Answer(i, late)))
  {
    hide Sum, Without, Turns, HelloOf, OkOf, ExitOf;
    var m := Reply(s.hellos[i], late);
    ExitsBound(workers, s, i);
    WithoutMembers(s.hellos, i);
    hide Counts;
    Answered(workers, s, Apply(workers, s, Answer(i, late)), i, Parcel(m[0], m[1..]));
  }

  /** A worker that is waiting for an answer has not been told to exit. */
  lemma ExitsBound(workers: set<Frame>, s: State, i: nat)
    requires Inv(workers, s) && i < |s.hellos|
    ensures s.exited < |workers|
  {
    hide Sum;
    var w := s.hellos[i][0];
    assert s.hellos[i] in s.hellos;
    SumPull(HelloOf, s.hellos, i);
    forall k
      ensures (s.exits + multiset{w})[k] <= multiset(workers)[k]
    {
      assert Turns(s, k) == if k in workers then 1 else 0;
    }
    SmallerBag(s.exits + multiset{w}, multiset(workers));
  }

  lemma ReplyRead(workers: set<Frame>, s: State, t: State, i: nat, p: Parcel)
    requires Counts(workers, s) && i < |s.replies| && p == s.replies[i]
    requires var u := s.(replies := Without(s.replies, i));
             || (p.msg == [[], EXIT] && t == u.(done := s.done + {p.peer}))
             || (p.msg == [[], OK]
                 && t == u.(idle := s.idle + {p.peer}, counted := s.counted + multiset{p.peer}))
    ensures Counts(workers, t)
  {
    hide Sum, Without, OkOf, ExitOf;
    OneKind(p);
    SumPull(OkOf, s.replies, i);
    SumPull(ExitOf, s.replies, i);
    assert Turns(s, p.peer) <= 1;
  }

  lemma ReadKeepsInv(workers: set<Frame>, s: State, i: nat)
    requires Inv(workers, s) && Enabled(s, Read(i))
    ensures Inv(workers, Apply(workers, s, Read(i)))
  {
    hide Sum, Without, Counts;
    var p := s.replies[i];
    assert p in s.replies;
    OneKind(p);
    ReplyRead(workers, s, Apply(workers, s, Read(i)), i, p);
    WithoutMembers(s.replies, i);
  }

  lemma {:induction false} RunKeepsInv(workers: set<Frame>, run: seq<State>)
    requires Run(workers, run)
    ensures Inv(workers, Last(run))
  {
    hide Sum, Apply, Turns;
    if |run| == 1 {
      InitInv(workers, run[0]);
    } else {
      hide Inv, Init, Enabled;
      RunKeepsInv(workers, Front(run));
      var s, t := Last(Front(run)), Last(run);
      var step :| Enabled(s, step) && t == Apply(workers, s, step);
      match step
      case SayHello(w) => HelloKeepsInv(workers, s, w);
      case Answer(i, late) => AnswerKeepsInv(workers, s, i, late);
      case Read(i) => ReadKeepsInv(workers, s, i);
    }
  }

  lemma InitInv(workers: set<Frame>, s: State)
    requires Init(workers, s)
    ensures Inv(workers, s)
  {
  }

  /**
   * Distributed shutdown, whatever the clock does: nobody is told to exit twice, and the broker stops
   * exactly when everybody has been told; then no Hello is left unanswered and none can follow.
   */
  lemma {:induction false} Shutdown(workers: set<Frame>, run: seq<State>)
    requires workers != {} && Run(workers, run)
    ensures Last(run).exits <= multiset(workers)
    ensures Last(run).stopped <==> Last(run).exits == multiset(workers)
    ensures Last(run).stopped ==> Last(run).hellos == [] && Last(run).idle == {}
  {
    hide Sum;
    RunKeepsInv(workers, run);
    var s := Last(run);
    assert forall k :: Turns(s, k) == if k in workers then 1 else 0;
    forall k
      ensures s.exits[k] <= multiset(workers)[k]
    {
      assert Turns(s, k) <= if k in workers then 1 else 0;
    }
    SmallerBag(s.exits, multiset(workers));
    if s.stopped && s.hellos != [] {
      ExitsBound(workers, s, 0);
    }
    if s.stopped {
      forall w
        ensures w !in s.idle
      {
        assert s.exits[w] == multiset(workers)[w];
        assert Turns(s, w) == if w in workers then 1 else 0;
      }
    }
  }

  /** When every worker has finished, their totals add up to the number of "ok" replies sent. */
  lemma {:induction false} TotalsAddUp(workers: set<Frame>, run: seq<State>)
    requires Run(workers, run) && Last(run).done == workers
    ensures Last(run).counted == Last(run).oks && |Last(run).counted| == |Last(run).oks|
    ensures Last(run).stopped || workers == {}
  {
    hide Sum;
    RunKeepsInv(workers, run);
    var s := Last(run);
    forall w
      ensures s.counted[w] == s.oks[w] && s.exits[w] == multiset(workers)[w]
    {
      assert Turns(s, w) == if w in workers then 1 else 0;
    }
    assert s.exits == multiset(workers);
    assert workers != {} ==> |workers| > 0;
  }
}
