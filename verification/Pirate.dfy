/**
 * The Paranoid Pirate network end to end: clients, the queue, and workers that crash, stall, reconnect
 * or disappear, over channels that may lose any message. Every request is always in exactly one place.
 */
module Pirate {
  import opened Frames
  import opened Channels
  import opened QueueSpec
  import W = PPWorker

  /** A request as its client knows it. */
  datatype Token = Token(client: Frame, body: Frame)

  datatype State = State(
    now: int, queue: QState,
    frontIn: seq<Msg>, backIn: seq<Msg>, toWorker: seq<Parcel>, toClient: seq<Parcel>,
    workers: map<Frame, W.WState>,
    sent: multiset<Token>, delivered: multiset<Token>, lost: multiset<Token>)

  ghost predicate Init(s: State) {
    s == State(s.now, QState([], s.now + INTERVAL), [], [], [], [], map[], multiset{}, multiset{}, multiset{})
  }

  // ---- Tokens carried by the messages of each channel ----

  function InFront(m: Msg): multiset<Token> {
    if |m| == 3 then multiset{Token(m[0], m[2])} else multiset{}
  }

  function InBack(m: Msg): multiset<Token> {
    if |m| == 4 then multiset{Token(m[1], m[3])} else multiset{}
  }

  function ToWorker(p: Parcel): multiset<Token> {
    InFront(p.msg)
  }

  function ToClient(p: Parcel): multiset<Token> {
    if |p.msg| == 2 then multiset{Token(p.peer, p.msg[1])} else multiset{}
  }

  /** In how many places a request is found: on its way in, held for a worker, replying, delivered, lost. */
  function Places(s: State, k: Token): nat {
    Sum(InFront, s.frontIn)[k] + Sum(ToWorker, s.toWorker)[k] + Sum(InBack, s.backIn)[k] + Sum(ToClient, s.toClient)[k]
    + s.delivered[k] + s.lost[k]
  }

  // ---- Shapes ----

  predicate FrontShape(m: Msg) {
    |m| == 3 && m[0] != [] && m[1] == []
  }

  predicate BackShape(m: Msg) {
    |m| > 1 && m[1] != [] && (|m| == 2 || (|m| == 4 && m[2] == []))
  }

  predicate WorkerShape(p: Parcel) {
    p.msg == [HEARTBEAT] || FrontShape(p.msg)
  }

  predicate ClientShape(p: Parcel) {
    |p.msg| == 2 && p.msg[0] == []
  }

  ghost predicate Shapes(s: State) {
    && (forall m :: m in s.frontIn ==> FrontShape(m))
    && (forall m :: m in s.backIn ==> BackShape(m))
    && (forall p :: p in s.toWorker ==> WorkerShape(p))
    && (forall p :: p in s.toClient ==> ClientShape(p))
  }

  ghost predicate Named(s: State) {
    forall w :: w in s.workers ==> w != []
  }

  ghost predicate Inv(s: State) {
    Shapes(s) && Named(s) && QInv(s.queue, s.now) && forall k :: Places(s, k) == s.sent[k]
  }

  // ---- Steps ----

  datatype Step =
    | Send(client: Frame, body: Frame)
    | Join(worker: Frame)                                   // start, or restart after a crash
    | QueuePass(back: Option<nat>, front: Option<nat>, c: Clocks)
    | WorkerReads(i: nat, crash: bool, overload: bool, check: int, rearm: int)
    | WorkerSilent(worker: Frame, check: int, rearm: int, next: Frame)    // next: the identity of its next socket
    | Deliver(i: nat)
    | LoseRequest(i: nat)
    | LoseWork(i: nat)
    | LoseReply(i: nat)
    | LoseAnswer(i: nat)

  ghost predicate Enabled(s: State, step: Step) {
    match step
    case Send(c, _) => c != []
    case Join(w) => w != []
    case QueuePass(b, f, c) =>
      && (b.Some? ==> b.value < |s.backIn| && |s.backIn[b.value]| > 0)
      && (f.Some? ==> f.value < |s.frontIn| && s.queue.workers != [])
      && InOrder(s.now, c)
    case WorkerReads(i, _, _, _, _) => i < |s.toWorker| && s.toWorker[i].peer in s.workers
    case WorkerSilent(w, _, _, f) => w in s.workers && f != [] && f !in s.workers
    case Deliver(i) => i < |s.toClient|
    case LoseRequest(i) => i < |s.frontIn|
    case LoseWork(i) => i < |s.toWorker|
    case LoseReply(i) => i < |s.backIn|
    case LoseAnswer(i) => i < |s.toClient|
  }

  /** A ROUTER strips the destination; whether the peer is still there is decided by a later loss or read. */
  function Routed(m: Option<Msg>): seq<Parcel> {
    if m.Some? && |m.value| > 0 then [Parcel(m.value[0], m.value[1..])] else []
  }

  function RoutedAll(ms: seq<Msg>): seq<Parcel> {
    if ms == [] then [] else RoutedAll(Front(ms)) + Routed(Some(Last(ms)))
  }

  /** What a ROUTER receives from a DEALER: the messages with the sender's identity in front. */
  function FromWorker(w: Frame, ms: seq<Msg>): seq<Msg> {
    if ms == [] then [] else FromWorker(w, Front(ms)) + [[w] + Last(ms)]
  }

  /** After a pass of worker w; a worker that reconnects goes on, and is heard, under a new identity. */
  function AfterWorker(s: State, w: Frame, next: Frame, r: (W.WState, W.Effect)): State {
    var id := if r.1.reconnected then next else w;
    s.(workers := if r.1.stopped then s.workers - {w} else (s.workers - {w})[id := r.0],
       backIn := s.backIn + FromWorker(id, r.1.sent))
  }

  ghost function Apply(s: State, step: Step): State
    requires Enabled(s, step)
  {
    match step
    case Send(c, body) =>
      s.(frontIn := s.frontIn + [[c] + ReqOut([body])], sent := s.sent + multiset{Token(c, body)})
    case Join(w) =>
      s.(backIn := s.backIn + [[w, READY]], workers := s.workers[w := W.Fresh(s.now + INTERVAL)])
    case QueuePass(b, f, c) =>
      var r := Pass(s.queue, Input(Pick(s.backIn, b), Pick(s.frontIn, f)), c);
      s.(now := c.purge, queue := r.0, backIn := Removed(s.backIn, b), frontIn := Removed(s.frontIn, f),
         toClient := s.toClient + Routed(r.1.toFront),
         toWorker := s.toWorker + Routed(r.1.toBack) + RoutedAll(r.1.beats))
    case WorkerReads(i, crash, overload, check, rearm) =>
      var p := s.toWorker[i];
      var r := W.WPass(s.workers[p.peer], W.Got(p.msg, crash, overload), check, rearm);
      var t := AfterWorker(s.(toWorker := Without(s.toWorker, i)), p.peer, p.peer, r);
      if p.msg in r.1.sent then t else t.(lost := s.lost + ToWorker(p))
    case WorkerSilent(w, check, rearm, f) => AfterWorker(s, w, f, W.WPass(s.workers[w], W.Timeout, check, rearm))
    case Deliver(i) =>
      var p := s.toClient[i];
      s.(toClient := Without(s.toClient, i),
         delivered := if ReqIn(p.msg).Some? then s.delivered + ToClient(p) else s.delivered)
    case LoseRequest(i) => s.(frontIn := Without(s.frontIn, i), lost := s.lost + InFront(s.frontIn[i]))
    case LoseWork(i) => s.(toWorker := Without(s.toWorker, i), lost := s.lost + ToWorker(s.toWorker[i]))
    case LoseReply(i) => s.(backIn := Without(s.backIn, i), lost := s.lost + InBack(s.backIn[i]))
    case LoseAnswer(i) => s.(toClient := Without(s.toClient, i), lost := s.lost + ToClient(s.toClient[i]))
  }

  ghost predicate Next(s: State, t: State) {
    exists step :: Enabled(s, step) && t == Apply(s, step)
  }

  ghost predicate Run(run: seq<State>) {
    |run| > 0 && if |run| == 1 then Init(run[0]) else Run(Front(run)) && Next(Last(Front(run)), Last(run))
  }

  // ---- Conservation ----

  /** Messages without a request do not count. */
  lemma {:induction false} BeatsCarryNothing(ms: seq<Msg>)
    requires forall m :: m in ms ==> |m| == 2 && m[1] == HEARTBEAT
    ensures Sum(ToWorker, RoutedAll(ms)) == multiset{}
    ensures forall p :: p in RoutedAll(ms) ==> WorkerShape(p)
  {
    if ms != [] {
      BeatsCarryNothing(Front(ms));
      var p := Parcel(Last(ms)[0], Last(ms)[1..]);
      assert Last(ms) in ms && p.msg == [HEARTBEAT];
      SumPush(ToWorker, RoutedAll(Front(ms)), p);
    }
  }

  lemma RequestsLost(s: State, t: State, i: nat)
    requires i < |s.frontIn| && t == s.(frontIn := Without(s.frontIn, i), lost := s.lost + InFront(s.frontIn[i]))
    ensures forall k :: Places(t, k) == Places(s, k)
  {
    hide Sum;
    SumPull(InFront, s.frontIn, i);
  }

  lemma WorkLost(s: State, t: State, i: nat)
    requires i < |s.toWorker| && t == s.(toWorker := Without(s.toWorker, i), lost := s.lost + ToWorker(s.toWorker[i]))
    ensures forall k :: Places(t, k) == Places(s, k)
  {
    hide Sum;
    SumPull(ToWorker, s.toWorker, i);
  }

  lemma RepliesLost(s: State, t: State, i: nat)
    requires i < |s.backIn| && t == s.(backIn := Without(s.backIn, i), lost := s.lost + InBack(s.backIn[i]))
    ensures forall k :: Places(t, k) == Places(s, k)
  {
    hide Sum;
    SumPull(InBack, s.backIn, i);
  }

  lemma AnswersGone(s: State, t: State, i: nat)
    requires i < |s.toClient|
    requires t == s.(toClient := Without(s.toClient, i), lost := s.lost + ToClient(s.toClient[i]))
          || t == s.(toClient := Without(s.toClient, i), delivered := s.delivered + ToClient(s.toClient[i]))
    ensures forall k :: Places(t, k) == Places(s, k)
  {
    hide Sum;
    SumPull(ToClient, s.toClient, i);
  }

  lemma LossKeepsInv(s: State, step: Step)
    requires Inv(s) && Enabled(s, step)
    requires step.LoseRequest? || step.LoseWork? || step.LoseReply? || step.LoseAnswer? || step.Deliver?
    ensures Inv(Apply(s, step))
  {
    LossCounts(s, step);
    hide Sum, Without, Places, QInv;
    match step
    case LoseRequest(i) => WithoutMembers(s.frontIn, i);
    case LoseWork(i) => WithoutMembers(s.toWorker, i);
    case LoseReply(i) => WithoutMembers(s.backIn, i);
    case LoseAnswer(i) => WithoutMembers(s.toClient, i);
    case Deliver(i) => WithoutMembers(s.toClient, i);
  }

  lemma LossCounts(s: State, step: Step)
    requires Shapes(s) && Enabled(s, step)
    requires step.LoseRequest? || step.LoseWork? || step.LoseReply? || step.LoseAnswer? || step.Deliver?
    ensures var t := Apply(s, step); forall k :: Places(t, k) == Places(s, k)
  {
    hide Sum, Without, Places;
    var t := Apply(s, step);
    match step
    case LoseRequest(i) => RequestsLost(s, t, i);
    case LoseWork(i) => WorkLost(s, t, i);
    case LoseReply(i) => RepliesLost(s, t, i);
    case LoseAnswer(i) => AnswersGone(s, t, i);
    case Deliver(i) =>
      assert ClientShape(s.toClient[i]);
      AnswersGone(s, t, i);
  }

  lemma SendKeepsInv(s: State, c: Frame, body: Frame)
    requires Inv(s) && c != []
    ensures Inv(Apply(s, Send(c, body)))
  {
    hide Sum, QInv;
    var m := [c] + ReqOut([body]);
    SumPush(InFront, s.frontIn, m);
    var t := Apply(s, Send(c, body));
    forall k
      ensures Places(t, k) == t.sent[k]
    {
      assert Places(s, k) == s.sent[k];
    }
  }

  /** A request leaves the frontend for the worker at the head of the list. */
  lemma Dispatched(s: State, t: State, i: nat, p: Parcel)
    requires i < |s.frontIn| && t == s.(frontIn := Without(s.frontIn, i), toWorker := s.toWorker + [p],
             queue := t.queue, now := t.now)
    requires p.msg == s.frontIn[i]
    ensures forall k :: Places(t, k) == Places(s, k)
  {
    hide Sum;
    SumPull(InFront, s.frontIn, i);
    SumPush(ToWorker, s.toWorker, p);
  }

  /** A reply moves on to its client; a sign of life is only read. */
  lemma Forwarded(s: State, t: State, i: nat, out: seq<Parcel>)
    requires i < |s.backIn| && BackShape(s.backIn[i])
    requires t == s.(backIn := Without(s.backIn, i), toClient := s.toClient + out)
    requires out == if |s.backIn[i]| == 4 then [Parcel(s.backIn[i][1], s.backIn[i][2..])] else []
    ensures forall k :: Places(t, k) == Places(s, k)
  {
    hide Sum;
    SumPull(InBack, s.backIn, i);
    if out != [] {
      SumPush(ToClient, s.toClient, out[0]);
    } else {
      assert t.toClient == s.toClient;
    }
  }

  lemma BackHalf(s: State, b: Option<nat>, ready: int, s1: State)
    requires Shapes(s) && (b.Some? ==> b.value < |s.backIn| && |s.backIn[b.value]| > 0)
    requires s1 == s.(backIn := Removed(s.backIn, b),
                      toClient := s.toClient + Routed(AfterBack(s.queue.workers, Pick(s.backIn, b), ready).1))
    ensures Shapes(s1) && forall k :: Places(s1, k) == Places(s, k)
  {
    hide Sum, Places, Without, Ready;
    if b.Some? {
      var m := s.backIn[b.value];
      assert BackShape(m) && Unwrapped(m) == m[1..];
      WithoutMembers(s.backIn, b.value);
      Forwarded(s, s1, b.value, Routed(AfterBack(s.queue.workers, Some(m), ready).1));
    } else {
      assert s1 == s by { assert s.toClient + [] == s.toClient; }
    }
  }

  lemma FrontHalf(s: State, f: Option<nat>, w: Frame, s1: State)
    requires Shapes(s) && (f.Some? ==> f.value < |s.frontIn|)
    requires s1 == s.(frontIn := Removed(s.frontIn, f),
                      toWorker := s.toWorker + Routed(if f.Some? then Some([w] + s.frontIn[f.value]) else None))
    ensures Shapes(s1) && forall k :: Places(s1, k) == Places(s, k)
  {
    hide Sum, Places, Without;
    if f.Some? {
      var m := s.frontIn[f.value];
      assert FrontShape(m) && ([w] + m)[1..] == m;
      WithoutMembers(s.frontIn, f.value);
      Dispatched(s, s1, f.value, Parcel(w, m));
    } else {
      assert s1 == s by { assert s.toWorker + [] == s.toWorker; }
    }
  }

  /** The worker that gets the request: whoever heads the list after the backend activity. */
  lemma DispatchTarget(s: State, b: Option<nat>, f: Option<nat>, c: Clocks) returns (w: Frame)
    requires Enabled(s, QueuePass(b, f, c)) && f.Some?
    ensures Pass(s.queue, Input(Pick(s.backIn, b), Pick(s.frontIn, f)), c).1.toBack == Some([w] + s.frontIn[f.value])
  {
    var q := AfterBack(s.queue.workers, Pick(s.backIn, b), c.ready).0;
    assert |q| > 0;
    w := q[0].id;
  }

  /** A pass of the queue, taken apart: the reply moves on, then the request, then heartbeats are added. */
  lemma QueuePassCounts(s: State, b: Option<nat>, f: Option<nat>, c: Clocks)
    requires Inv(s) && Enabled(s, QueuePass(b, f, c))
    ensures var t := Apply(s, QueuePass(b, f, c)); Shapes(t) && forall k :: Places(t, k) == Places(s, k)
  {
    hide Sum, Places, QInv, Without, RoutedAll, Ready, DropFront, Shapes, Beats;
    var t := Apply(s, QueuePass(b, f, c));
    var r := Pass(s.queue, Input(Pick(s.backIn, b), Pick(s.frontIn, f)), c);
    var s1 := s.(backIn := Removed(s.backIn, b), toClient := s.toClient + Routed(r.1.toFront));
    BackHalf(s, b, c.ready, s1);
    var s2 := s1.(frontIn := Removed(s.frontIn, f), toWorker := s.toWorker + Routed(r.1.toBack));
    var w: Frame := [];
    if f.Some? {
      w := DispatchTarget(s, b, f, c);
    }
    FrontHalf(s1, f, w, s2);
    assert forall m :: m in r.1.beats ==> |m| == 2 && m[1] == HEARTBEAT;
    BeatsAdded(s2, t, r.1.beats);
  }

  lemma BeatsAdded(s: State, t: State, beats: seq<Msg>)
    requires Shapes(s) && t == s.(toWorker := s.toWorker + RoutedAll(beats), queue := t.queue, now := t.now)
    requires forall m :: m in beats ==> |m| == 2 && m[1] == HEARTBEAT
    ensures Shapes(t) && forall k :: Places(t, k) == Places(s, k)
  {
    hide Sum, RoutedAll;
    BeatsCarryNothing(beats);
    SumAppend(ToWorker, s.toWorker, RoutedAll(beats));
  }

  /** What a worker puts on the wire is heard by the queue with the same requests in it. */
  lemma {:induction false} FromWorkerTokens(w: Frame, ms: seq<Msg>)
    requires w != [] && forall m :: m in ms ==> FrontShape(m) || m == [HEARTBEAT] || m == [READY]
    ensures Sum(InBack, FromWorker(w, ms)) == Sum(InFront, ms)
    ensures forall m :: m in FromWorker(w, ms) ==> BackShape(m)
  {
    if ms != [] {
      var m, rest := Last(ms), Front(ms);
      FromWorkerTokens(w, rest);
      OneFromWorker(w, m);
      assert FromWorker(w, ms) == FromWorker(w, rest) + [[w] + m];
      hide Sum, FromWorker, BackShape, FrontShape, InBack, InFront;
      SumPush(InBack, FromWorker(w, rest), [w] + m);
      assert rest + [m] == ms;
      SumPush(InFront, rest, m);
    }
  }

  lemma OneFromWorker(w: Frame, m: Msg)
    requires w != [] && (FrontShape(m) || m == [HEARTBEAT] || m == [READY])
    ensures InBack([w] + m) == InFront(m) && BackShape([w] + m)
  {
  }

  /** A worker answers the request it read with exactly that message, or not at all. */
  lemma ReadEffect(ws: W.WState, p: Parcel, crash: bool, overload: bool, check: int, rearm: int)
    requires WorkerShape(p)
    ensures var sent := W.WPass(ws, W.Got(p.msg, crash, overload), check, rearm).1.sent;
            && (forall m :: m in sent ==> m == p.msg || m == [HEARTBEAT])
            && Sum(InFront, sent) == if p.msg in sent then ToWorker(p) else multiset{}
  {
    var sent := W.WPass(ws, W.Got(p.msg, crash, overload), check, rearm).1.sent;
    assert sent == [] || sent == [p.msg] || sent == [p.msg, [HEARTBEAT]] || sent == [[HEARTBEAT]];
    assert [p.msg, [HEARTBEAT]] == [p.msg] + [[HEARTBEAT]];
    SumOne(InFront, p.msg);
    SumOne(InFront, [HEARTBEAT]);
    SumPush(InFront, [p.msg], [HEARTBEAT]);
  }

  lemma SilentEffect(ws: W.WState, check: int, rearm: int)
    ensures var sent := W.WPass(ws, W.Timeout, check, rearm).1.sent;
            (forall m :: m in sent ==> m == [HEARTBEAT] || m == [READY]) && Sum(InFront, sent) == multiset{}
  {
    var sent := W.WPass(ws, W.Timeout, check, rearm).1.sent;
    assert sent == [] || sent == [[READY]] || sent == [[READY], [HEARTBEAT]] || sent == [[HEARTBEAT]];
    assert [[READY], [HEARTBEAT]] == [[READY]] + [[HEARTBEAT]];
    SumOne(InFront, [READY]);
    SumOne(InFront, [HEARTBEAT]);
    SumPush(InFront, [[READY]], [HEARTBEAT]);
  }

  lemma WorkerSends(s: State, t: State, w: Frame, ms: seq<Msg>)
    requires Shapes(s) && w != [] && forall m :: m in ms ==> FrontShape(m) || m == [HEARTBEAT] || m == [READY]
    requires t == s.(workers := t.workers, backIn := s.backIn + FromWorker(w, ms))
    ensures Shapes(t) && forall k :: Places(t, k) == Places(s, k) + Sum(InFront, ms)[k]
  {
    hide Sum, FromWorker;
    FromWorkerTokens(w, ms);
    SumAppend(InBack, s.backIn, FromWorker(w, ms));
  }

  lemma ReadCounts(s: State, t: State, i: nat, p: Parcel, sent: seq<Msg>)
    requires Shapes(s) && i < |s.toWorker| && p == s.toWorker[i] && p.peer != []
    requires t == s.(toWorker := Without(s.toWorker, i), workers := t.workers,
             backIn := s.backIn + FromWorker(p.peer, sent),
                     lost := if p.msg in sent then s.lost else s.lost + ToWorker(p))
    requires (forall m :: m in sent ==> m == p.msg || m == [HEARTBEAT])
    requires Sum(InFront, sent) == if p.msg in sent then ToWorker(p) else multiset{}
    ensures Shapes(t) && forall k :: Places(t, k) == Places(s, k)
  {
    hide Sum, Without, FromWorker;
    assert WorkerShape(p);
    SumPull(ToWorker, s.toWorker, i);
    WithoutMembers(s.toWorker, i);
    FromWorkerTokens(p.peer, sent);
    SumAppend(InBack, s.backIn, FromWorker(p.peer, sent));
  }

  lemma ReadKeepsInv(s: State, i: nat, crash: bool, overload: bool, check: int, rearm: int)
    requires Inv(s) && Enabled(s, WorkerReads(i, crash, overload, check, rearm))
    ensures Inv(Apply(s, WorkerReads(i, crash, overload, check, rearm)))
  {
    hide Sum, Without, Places, QInv, W.WPass, FromWorker, WorkerShape, ToWorker;
    var p := s.toWorker[i];
    ReadEffect(s.workers[p.peer], p, crash, overload, check, rearm);
    ReadCounts(s, Apply(s, WorkerReads(i, crash, overload, check, rearm)), i, p,
               W.WPass(s.workers[p.peer], W.Got(p.msg, crash, overload), check, rearm).1.sent);
  }

  /**
   * What reading a parcel does to its request: it is replying afterwards exactly when the worker answers it,
   * and lost exactly when the worker, on its fourth request or later, crashes or is overloaded.
   */
  lemma ReadLosesIff(s: State, i: nat, crash: bool, overload: bool, check: int, rearm: int)
    requires Inv(s) && Enabled(s, WorkerReads(i, crash, overload, check, rearm))
    ensures var p := s.toWorker[i]; var t := Apply(s, WorkerReads(i, crash, overload, check, rearm));
            var answered := W.Answers(s.workers[p.peer].cycles, crash, overload);
            && t.lost == (if answered then s.lost else s.lost + ToWorker(p))
            && Sum(InBack, t.backIn) == Sum(InBack, s.backIn) + (if answered then ToWorker(p) else multiset{})
            && (|p.msg| == 3 ==> (p.peer in t.workers <==> !(s.workers[p.peer].cycles >= 3 && crash)))
  {
    hide Sum, W.WPass, FromWorker, Places, QInv, Without, W.Answers, InFront, WorkerShape;
    var p := s.toWorker[i];
    var ws := s.workers[p.peer];
    var r := W.WPass(ws, W.Got(p.msg, crash, overload), check, rearm);
    ReadVerdict(ws, p, crash, overload, check, rearm);
    ReadEffect(ws, p, crash, overload, check, rearm);
    FromWorkerTokens(p.peer, r.1.sent);
    SumAppend(InBack, s.backIn, FromWorker(p.peer, r.1.sent));
    hide ToWorker;
  }

  lemma ReadVerdict(ws: W.WState, p: Parcel, crash: bool, overload: bool, check: int, rearm: int)
    requires WorkerShape(p)
    ensures var r := W.WPass(ws, W.Got(p.msg, crash, overload), check, rearm);
            && !r.1.reconnected
            && (|p.msg| == 3 ==> (p.msg in r.1.sent <==> W.Answers(ws.cycles, crash, overload)))
            && (|p.msg| == 3 ==> (r.1.stopped <==> ws.cycles >= 3 && crash))
            && (|p.msg| != 3 ==> ToWorker(p) == multiset{})
            && forall m :: m in r.1.sent ==> FrontShape(m) || m == [HEARTBEAT]
  {
    if |p.msg| == 3 {
      W.RequestRead(ws, p.msg, crash, overload, check, rearm);
    } else {
      W.OtherPoll(ws, W.Got(p.msg, crash, overload), check, rearm);
    }
  }

  lemma SilentKeepsInv(s: State, w: Frame, check: int, rearm: int, f: Frame)
    requires Inv(s) && Enabled(s, WorkerSilent(w, check, rearm, f))
    ensures Inv(Apply(s, WorkerSilent(w, check, rearm, f)))
  {
    hide Sum, Places, QInv, W.WPass, FromWorker;
    var r := W.WPass(s.workers[w], W.Timeout, check, rearm);
    SilentEffect(s.workers[w], check, rearm);
    WorkerSends(s, Apply(s, WorkerSilent(w, check, rearm, f)), if r.1.reconnected then f else w, r.1.sent);
  }

  lemma JoinKeepsInv(s: State, w: Frame)
    requires Inv(s) && Enabled(s, Join(w))
    ensures Inv(Apply(s, Join(w)))
  {
    hide Sum, QInv;
    SumPush(InBack, s.backIn, [w, READY]);
  }

  lemma QueuePassKeepsInv(s: State, b: Option<nat>, f: Option<nat>, c: Clocks)
    requires Inv(s) && Enabled(s, QueuePass(b, f, c))
    ensures Inv(Apply(s, QueuePass(b, f, c)))
  {
    QueuePassCounts(s, b, f, c);
    PassKeepsInv(s.queue, Input(Pick(s.backIn, b), Pick(s.frontIn, f)), c, s.now);
    hide Sum, Places, QInv, Shapes, Pass;
  }

  lemma StepKeepsInv(s: State, step: Step)
    requires Inv(s) && Enabled(s, step)
    ensures Inv(Apply(s, step))
  {
    hide Inv, Apply;
    match step
    case Send(c, body) => SendKeepsInv(s, c, body);
    case Join(w) => JoinKeepsInv(s, w);
    case QueuePass(b, f, c) => QueuePassKeepsInv(s, b, f, c);
    case WorkerReads(i, crash, overload, check, rearm) => ReadKeepsInv(s, i, crash, overload, check, rearm);
    case WorkerSilent(w, check, rearm, f) => SilentKeepsInv(s, w, check, rearm, f);
    case _ => LossKeepsInv(s, step);
  }

  lemma InitInv(s: State)
    requires Init(s)
    ensures Inv(s)
  {
  }

  /**
   * Conservation over every run: each request, counted as often as it was sent, is in exactly one place:
   * on its way in, on its way to a worker, replying, delivered, or lost.
   */
  lemma {:induction false} Conservation(run: seq<State>)
    requires Run(run)
    ensures Inv(Last(run))
  {
    hide Inv, Init, Apply, Enabled;
    if |run| == 1 {
      InitInv(run[0]);
    } else {
      Conservation(Front(run));
      var s, t := Last(Front(run)), Last(run);
      var step :| Enabled(s, step) && t == Apply(s, step);
      StepKeepsInv(s, step);
    }
  }

  /** No message or parcel of the channels carries request k. */
  ghost predicate NotOnTheWay(s: State, k: Token) {
    && (forall i :: 0 <= i < |s.frontIn| ==> k !in InFront(s.frontIn[i]))
    && (forall i :: 0 <= i < |s.backIn| ==> k !in InBack(s.backIn[i]))
    && (forall i :: 0 <= i < |s.toWorker| ==> k !in ToWorker(s.toWorker[i]))
    && (forall i :: 0 <= i < |s.toClient| ==> k !in ToClient(s.toClient[i]))
  }

  lemma {:induction false} NotCarried<T>(f: T -> multiset<Token>, ch: seq<T>, k: Token)
    requires k !in Sum(f, ch)
    ensures forall i :: 0 <= i < |ch| ==> k !in f(ch[i])
  {
    hide Sum;
    forall i | 0 <= i < |ch|
      ensures k !in f(ch[i])
    {
      SumPull(f, ch, i);
    }
  }

  /**
   * So a client is only handed bodies that it sent itself, no request is answered more often than it was
   * sent, and one that was sent once and delivered is nowhere else.
   */
  lemma {:induction false} OnlyOwnRequestsAnswered(run: seq<State>)
    requires Run(run)
    ensures Last(run).delivered <= Last(run).sent
    ensures forall k :: k in Last(run).delivered && Last(run).sent[k] == 1 ==>
              Last(run).delivered[k] == 1 && Last(run).lost[k] == 0 && NotOnTheWay(Last(run), k)
  {
    hide Sum, QInv, Shapes;
    Conservation(run);
    var s := Last(run);
    assert forall k :: Places(s, k) == s.sent[k];
    forall k | k in s.delivered && s.sent[k] == 1
      ensures NotOnTheWay(s, k)
    {
      assert Places(s, k) == 1;
      NotCarried(InFront, s.frontIn, k);
      NotCarried(InBack, s.backIn, k);
      NotCarried(ToWorker, s.toWorker, k);
      NotCarried(ToClient, s.toClient, k);
    }
  }
}
