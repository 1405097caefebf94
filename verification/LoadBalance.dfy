/**
 * The load-balancing broker of lbbroker2.c together with its clients and workers, as a transition
 * system over channels of multipart messages. Channels deliver in any order, so every interleaving
 * of real deliveries is covered. The text each program uses for READY, requests and replies is a
 * parameter, which lets the array broker of lbbroker.c run in the same system.
 */
module LoadBalance {
  import opened Frames
  import opened Channels

  datatype Encoding = ByteOne | LetterW

  /** The first byte that makes a worker message a READY: "\001", or the letter w. */
  function Mark(enc: Encoding): Byte {
    if enc.ByteOne? then 1 else 119
  }

  function ReadyText(enc: Encoding, worker: Frame): Frame {
    if enc.ByteOne? then [1] else [119, 91] + worker + [93, 58, 114, 101, 97, 100, 121]
  }

  function RequestText(enc: Encoding, client: Frame): Frame {
    if enc.ByteOne? then [72, 69, 76, 76, 79] else [99, 91] + client + [93, 58, 104, 101, 108, 108, 111]
  }

  function ReplyText(enc: Encoding, worker: Frame): Frame {
    if enc.ByteOne? then [79, 75] else [119, 91] + worker + [93, 58, 111, 107]
  }

  /** What one poll hands to the broker: at most one message per socket. */
  datatype Poll = Poll(back: Option<Msg>, front: Option<Msg>)

  /** What one loop pass leaves behind: the queue, a reply for the frontend, a request for the backend. */
  datatype PassResult = PassResult(queue: seq<Frame>, toFront: Option<Msg>, toBack: Option<Msg>)

  function BackPass(enc: Encoding, queue: seq<Frame>, back: Option<Msg>): PassResult
    requires back.Some? ==> HasContent(back.value)
  {
    if back.None? then PassResult(queue, None, None)
    else
      var rest := Unwrapped(back.value);
      PassResult(queue + [back.value[0]], if StartsWith(rest[0], Mark(enc)) then None else Some(rest), None)
  }

  /** One pass of the list broker. The frontend was polled only if the queue was not empty. */
  function ListPass(enc: Encoding, queue: seq<Frame>, ev: Poll): PassResult
    requires ev.back.Some? ==> HasContent(ev.back.value)
  {
    var b := BackPass(enc, queue, ev.back);
    if ev.front.Some? && queue != []
    then PassResult(b.queue[1..], b.toFront, Some(Wrap(b.queue[0], ev.front.value)))
    else b
  }

  /** The broker of lbbroker2.c, with the list of workers it updates in place. */
  class ListBroker {
    var workers: seq<Frame>

    constructor ()
      ensures workers == []
    {
      workers := [];
    }

    method Pass(backReady: bool, back: Msg, frontReady: bool, front: Msg)
      returns (reply: Option<Msg>, request: Option<Msg>)
      requires backReady ==> HasContent(back)
      modifies this
      ensures PassResult(workers, reply, request)
           == ListPass(ByteOne, old(workers),
                       Poll(if backReady then Some(back) else None, if frontReady then Some(front) else None))
    {
      reply, request := None, None;
      var polled := if workers != [] then 2 else 1;
      if backReady {
        workers := workers + [back[0]];
        var msg := Unwrapped(back);
        if !StartsWith(msg[0], 1) {
          reply := Some(msg);
        }
      }
      if polled == 2 && frontReady {
        request := Some(Wrap(workers[0], front));
        workers := workers[1..];
      }
    }
  }

  // ---- The system ----

  datatype Config = Config(enc: Encoding, clients: set<Frame>, workers: set<Frame>) {
    /** Identities are never empty, and no client identity looks like a READY message. */
    ghost predicate Valid() {
      && (forall c :: c in clients ==> |c| > 0 && !StartsWith(c, Mark(enc)))
      && (forall w :: w in workers ==> |w| > 0)
    }
  }

  datatype State = State(
    unsent: set<Frame>,       // clients that have not sent their request
    unready: set<Frame>,      // workers that have not signalled READY
    frontIn: seq<Msg>,
    backIn: seq<Msg>,
    queue: seq<Frame>,
    toWorker: seq<Parcel>,
    atWorker: seq<Parcel>,
    toClient: seq<Parcel>,
    answered: multiset<Frame>)

  ghost predicate Init(cfg: Config, s: State) {
    s == State(cfg.clients, cfg.workers, [], [], [], [], [], [], multiset{})
  }

  /** A ROUTER takes the first frame as the destination and drops what it cannot route. */
  function Route(peers: set<Frame>, m: Option<Msg>): seq<Parcel> {
    if m.Some? && |m.value| > 0 && m.value[0] in peers then [Parcel(m.value[0], m.value[1..])] else []
  }

  datatype Step =
    | ClientSends(c: Frame)
    | WorkerSignals(w: Frame)
    | BrokerPass(back: Option<nat>, front: Option<nat>)
    | WorkerTakes(i: nat)
    | WorkerAnswers(i: nat)
    | ClientReceives(i: nat)

  ghost predicate Enabled(cfg: Config, s: State, step: Step) {
    match step
    case ClientSends(c) => c in s.unsent
    case WorkerSignals(w) => w in s.unready
    case BrokerPass(b, f) =>
      && (b.Some? || f.Some?)
      && (b.Some? ==> b.value < |s.backIn| && HasContent(s.backIn[b.value]))
      && (f.Some? ==> f.value < |s.frontIn| && s.queue != [])
    case WorkerTakes(i) => i < |s.toWorker|
    case WorkerAnswers(i) => i < |s.atWorker| && |s.atWorker[i].msg| > 0
    case ClientReceives(i) => i < |s.toClient|
  }

  function AfterPass(cfg: Config, s: State, b: Option<nat>, f: Option<nat>, r: PassResult): State
    requires b.Some? ==> b.value < |s.backIn|
    requires f.Some? ==> f.value < |s.frontIn|
  {
    s.(backIn := Removed(s.backIn, b), frontIn := Removed(s.frontIn, f), queue := r.queue,
       toClient := s.toClient + Route(cfg.clients, r.toFront), toWorker := s.toWorker + Route(cfg.workers, r.toBack))
  }

  ghost function Apply(cfg: Config, s: State, step: Step): State
    requires Enabled(cfg, s, step)
  {
    match step
    case ClientSends(c) =>
      s.(unsent := s.unsent - {c}, frontIn := s.frontIn + [[c] + ReqOut([RequestText(cfg.enc, c)])])
    case WorkerSignals(w) =>
      s.(unready := s.unready - {w}, backIn := s.backIn + [[w] + ReqOut([ReadyText(cfg.enc, w)])])
    case BrokerPass(b, f) =>
      AfterPass(cfg, s, b, f, ListPass(cfg.enc, s.queue, Poll(Pick(s.backIn, b), Pick(s.frontIn, f))))
    case WorkerTakes(i) =>
      var p := s.toWorker[i];
      var m := ReqIn(p.msg);
      s.(toWorker := Without(s.toWorker, i), atWorker := s.atWorker + if m.Some? then [Parcel(p.peer, m.value)] else [])
    case WorkerAnswers(i) =>
      var p := s.atWorker[i];
      s.(atWorker := Without(s.atWorker, i),
         backIn := s.backIn + [[p.peer] + ReqOut(ResetLast(p.msg, ReplyText(cfg.enc, p.peer)))])
    case ClientReceives(i) =>
      var p := s.toClient[i];
      s.(toClient := Without(s.toClient, i),
         answered := if ReqIn(p.msg).Some? then s.answered + multiset{p.peer} else s.answered)
  }

  ghost predicate Next(cfg: Config, s: State, t: State) {
    exists step :: Enabled(cfg, s, step) && t == Apply(cfg, s, step)
  }

  /** A run from the start. Every prefix of a run is a run, so what holds of the last state holds throughout. */
  ghost predicate Run(cfg: Config, run: seq<State>) {
    |run| > 0
    && if |run| == 1 then Init(cfg, run[0]) else Run(cfg, Front(run)) && Next(cfg, Last(Front(run)), Last(run))
  }

  // ---- Token conservation ----

  function HeadOf(m: Msg): multiset<Frame> {
    if |m| > 0 then multiset{m[0]} else multiset{}
  }

  function PeerOf(p: Parcel): multiset<Frame> {
    multiset{p.peer}
  }

  /** The client a backend message answers, if it is a reply. */
  function ClientInBack(m: Msg): multiset<Frame> {
    if |m| == 5 then multiset{m[2]} else multiset{}
  }

  function ClientToWorker(p: Parcel): multiset<Frame> {
    if |p.msg| == 4 then multiset{p.msg[1]} else multiset{}
  }

  function ClientAtWorker(p: Parcel): multiset<Frame> {
    HeadOf(p.msg)
  }

  /** In how many places worker w is found. */
  function WorkerCount(s: State, w: Frame): nat {
    (if w in s.unready then 1 else 0) + Sum(HeadOf, s.backIn)[w] + multiset(s.queue)[w]
    + Sum(PeerOf, s.toWorker)[w] + Sum(PeerOf, s.atWorker)[w]
  }

  /** In how many places the request of client c, or the reply to it, is found. */
  function ClientCount(s: State, c: Frame): nat {
    (if c in s.unsent then 1 else 0) + Sum(HeadOf, s.frontIn)[c] + Sum(ClientToWorker, s.toWorker)[c]
    + Sum(ClientAtWorker, s.atWorker)[c] + Sum(ClientInBack, s.backIn)[c] + Sum(PeerOf, s.toClient)[c] + s.answered[c]
  }

  /** A step moved tokens about without making or losing any. */
  ghost predicate SameCounts(s: State, t: State) {
    && (forall w :: WorkerCount(t, w) == WorkerCount(s, w))
    && (forall c :: ClientCount(t, c) == ClientCount(s, c))
  }

  predicate FrontShape(cfg: Config, m: Msg) {
    |m| == 3 && m[0] in cfg.clients && m[1] == [] && m[2] == RequestText(cfg.enc, m[0])
  }

  predicate BackShape(cfg: Config, m: Msg) {
    |m| > 2 && m[0] in cfg.workers && m[1] == []
    && if |m| == 3 then m[2] == ReadyText(cfg.enc, m[0])
       else |m| == 5 && m[2] in cfg.clients && m[3] == [] && m[4] == ReplyText(cfg.enc, m[0])
  }

  predicate WorkerShape(cfg: Config, p: Parcel) {
    p.peer in cfg.workers && |p.msg| == 4 && p.msg[0] == [] && FrontShape(cfg, p.msg[1..])
  }

  predicate HeldShape(cfg: Config, p: Parcel) {
    p.peer in cfg.workers && FrontShape(cfg, p.msg)
  }

  predicate ClientShape(cfg: Config, p: Parcel) {
    p.peer in cfg.clients && |p.msg| == 2 && p.msg[0] == []
  }

  ghost predicate Shapes(cfg: Config, s: State) {
    && (forall m :: m in s.frontIn ==> FrontShape(cfg, m))
    && (forall m :: m in s.backIn ==> BackShape(cfg, m))
    && (forall w :: w in s.queue ==> w in cfg.workers)
    && (forall p :: p in s.toWorker ==> WorkerShape(cfg, p))
    && (forall p :: p in s.atWorker ==> HeldShape(cfg, p))
    && (forall p :: p in s.toClient ==> ClientShape(cfg, p))
    && s.unsent <= cfg.clients && s.unready <= cfg.workers
  }

  ghost predicate Inv(cfg: Config, s: State) {
    && Shapes(cfg, s)
    && (forall w :: WorkerCount(s, w) == if w in cfg.workers then 1 else 0)
    && (forall c :: ClientCount(s, c) == if c in cfg.clients then 1 else 0)
  }

  // Each step moves tokens from one place to another and leaves both bags as they were.

  lemma BackTaken(s: State, t: State, i: nat, out: seq<Parcel>)
    requires i < |s.backIn| && |s.backIn[i]| > 2
    requires t == s.(backIn := Without(s.backIn, i), queue := s.queue + [s.backIn[i][0]], toClient := s.toClient + out)
    requires out == if |s.backIn[i]| == 5 then [Parcel(s.backIn[i][2], s.backIn[i][3..])] else []
    ensures SameCounts(s, t)
  {
    hide Sum, Without;
    SumPull(HeadOf, s.backIn, i);
    SumPull(ClientInBack, s.backIn, i);
    if out != [] {
      SumPush(PeerOf, s.toClient, out[0]);
    } else {
      assert t.toClient == s.toClient;
    }
  }

  lemma FrontTaken(s: State, t: State, i: nat, p: Parcel)
    requires i < |s.frontIn| && |s.frontIn[i]| == 3 && s.queue != []
    requires p == Parcel(s.queue[0], [[]] + s.frontIn[i])
    requires t == s.(frontIn := Without(s.frontIn, i), queue := s.queue[1..], toWorker := s.toWorker + [p])
    ensures SameCounts(s, t)
  {
    hide Sum, Without;
    assert s.queue == [s.queue[0]] + s.queue[1..];
    SumPush(PeerOf, s.toWorker, p);
    SumPull(HeadOf, s.frontIn, i);
    SumPush(ClientToWorker, s.toWorker, p);
  }

  lemma WorkTaken(s: State, t: State, i: nat, p: Parcel)
    requires i < |s.toWorker| && |s.toWorker[i].msg| == 4
    requires p == Parcel(s.toWorker[i].peer, s.toWorker[i].msg[1..])
    requires t == s.(toWorker := Without(s.toWorker, i), atWorker := s.atWorker + [p])
    ensures SameCounts(s, t)
  {
    hide Sum, Without;
    SumPull(PeerOf, s.toWorker, i);
    SumPush(PeerOf, s.atWorker, p);
    SumPull(ClientToWorker, s.toWorker, i);
    SumPush(ClientAtWorker, s.atWorker, p);
  }

  lemma WorkAnswered(s: State, t: State, i: nat, m: Msg)
    requires i < |s.atWorker| && |s.atWorker[i].msg| > 0
    requires |m| == 5 && m[0] == s.atWorker[i].peer && m[2] == s.atWorker[i].msg[0]
    requires t == s.(atWorker := Without(s.atWorker, i), backIn := s.backIn + [m])
    ensures SameCounts(s, t)
  {
    hide Sum, Without;
    SumPull(PeerOf, s.atWorker, i);
    SumPush(HeadOf, s.backIn, m);
    SumPull(ClientAtWorker, s.atWorker, i);
    SumPush(ClientInBack, s.backIn, m);
  }

  lemma Answered(s: State, t: State, i: nat)
    requires i < |s.toClient|
    requires t == s.(toClient := Without(s.toClient, i), answered := s.answered + multiset{s.toClient[i].peer})
    ensures SameCounts(s, t)
  {
    hide Sum, Without;
    SumPull(PeerOf, s.toClient, i);
  }

  lemma RequestSent(s: State, t: State, m: Msg)
    requires |m| > 0 && m[0] in s.unsent
    requires t == s.(unsent := s.unsent - {m[0]}, frontIn := s.frontIn + [m])
    ensures SameCounts(s, t)
  {
    hide Sum, Without;
    SumPush(HeadOf, s.frontIn, m);
  }

  lemma ReadySent(s: State, t: State, m: Msg)
    requires |m| == 3 && m[0] in s.unready
    requires t == s.(unready := s.unready - {m[0]}, backIn := s.backIn + [m])
    ensures SameCounts(s, t)
  {
    hide Sum, Without;
    SumPush(HeadOf, s.backIn, m);
    SumPush(ClientInBack, s.backIn, m);
  }

  // ---- Every step keeps the invariant ----

  lemma BackKeepsInv(cfg: Config, s: State, i: nat)
    requires cfg.Valid() && Inv(cfg, s) && Enabled(cfg, s, BrokerPass(Some(i), None))
    ensures Inv(cfg, Apply(cfg, s, BrokerPass(Some(i), None)))
  {
    hide Sum, Without, WorkerCount, ClientCount;
    var t := Apply(cfg, s, BrokerPass(Some(i), None));
    var m := s.backIn[i];
    assert BackShape(cfg, m);
    var out := if |m| == 5 then [Parcel(m[2], m[3..])] else [];
    assert t == s.(backIn := Without(s.backIn, i), queue := s.queue + [m[0]], toClient := s.toClient + out);
    BackTaken(s, t, i, out);
    WithoutMembers(s.backIn, i);
  }

  lemma FrontKeepsInv(cfg: Config, s: State, i: nat)
    requires cfg.Valid() && Inv(cfg, s) && Enabled(cfg, s, BrokerPass(None, Some(i)))
    ensures Inv(cfg, Apply(cfg, s, BrokerPass(None, Some(i))))
  {
    hide Sum, Without, WorkerCount, ClientCount;
    var t := Apply(cfg, s, BrokerPass(None, Some(i)));
    var m := s.frontIn[i];
    assert FrontShape(cfg, m) && s.queue[0] in s.queue;
    var p := Parcel(s.queue[0], [[]] + m);
    assert Wrap(s.queue[0], m)[1..] == p.msg && p.msg[1..] == m;
    assert t == s.(frontIn := Without(s.frontIn, i), queue := s.queue[1..], toWorker := s.toWorker + [p]) by {
      assert s.toClient + [] == s.toClient;
    }
    FrontTaken(s, t, i, p);
    WithoutMembers(s.frontIn, i);
    assert WorkerShape(cfg, p);
  }

  lemma WorkerKeepsInv(cfg: Config, s: State, step: Step)
    requires cfg.Valid() && Inv(cfg, s) && Enabled(cfg, s, step) && (step.WorkerTakes? || step.WorkerAnswers?)
    ensures Inv(cfg, Apply(cfg, s, step))
  {
    hide Sum, Without, WorkerCount, ClientCount;
    var t := Apply(cfg, s, step);
    if step.WorkerTakes? {
      var p := s.toWorker[step.i];
      assert WorkerShape(cfg, p);
      WorkTaken(s, t, step.i, Parcel(p.peer, p.msg[1..]));
      WithoutMembers(s.toWorker, step.i);
    } else {
      var p := s.atWorker[step.i];
      assert HeldShape(cfg, p);
      var m := [p.peer] + ReqOut(ResetLast(p.msg, ReplyText(cfg.enc, p.peer)));
      WorkAnswered(s, t, step.i, m);
      WithoutMembers(s.atWorker, step.i);
      assert BackShape(cfg, m);
    }
  }

  lemma EdgeKeepsInv(cfg: Config, s: State, step: Step)
    requires cfg.Valid() && Inv(cfg, s) && Enabled(cfg, s, step)
    requires step.ClientSends? || step.WorkerSignals? || step.ClientReceives?
    ensures Inv(cfg, Apply(cfg, s, step))
  {
    hide Sum, Without, WorkerCount, ClientCount;
    var t := Apply(cfg, s, step);
    match step
    case ClientSends(c) =>
      RequestSent(s, t, [c] + ReqOut([RequestText(cfg.enc, c)]));
    case WorkerSignals(w) =>
      ReadySent(s, t, [w] + ReqOut([ReadyText(cfg.enc, w)]));
    case ClientReceives(i) =>
      assert ClientShape(cfg, s.toClient[i]);
      Answered(s, t, i);
      WithoutMembers(s.toClient, i);
  }

  /** A pass that handles both sockets is a pass over the backend and then one over the frontend. */
  lemma PassSplits(cfg: Config, s: State, b: nat, f: nat)
    requires Enabled(cfg, s, BrokerPass(Some(b), Some(f)))
    ensures var mid := Apply(cfg, s, BrokerPass(Some(b), None));
            Enabled(cfg, mid, BrokerPass(None, Some(f)))
            && Apply(cfg, s, BrokerPass(Some(b), Some(f))) == Apply(cfg, mid, BrokerPass(None, Some(f)))
  {
    hide Without;
  }

  lemma StepKeepsInv(cfg: Config, s: State, step: Step)
    requires cfg.Valid() && Inv(cfg, s) && Enabled(cfg, s, step)
    ensures Inv(cfg, Apply(cfg, s, step))
  {
    hide Inv, Apply;
    match step
    case BrokerPass(b, f) =>
      if b.Some? && f.Some? {
        PassSplits(cfg, s, b.value, f.value);
        BackKeepsInv(cfg, s, b.value);
        FrontKeepsInv(cfg, Apply(cfg, s, BrokerPass(b, None)), f.value);
      } else if b.Some? {
        BackKeepsInv(cfg, s, b.value);
      } else {
        FrontKeepsInv(cfg, s, f.value);
      }
    case WorkerTakes(_) => WorkerKeepsInv(cfg, s, step);
    case WorkerAnswers(_) => WorkerKeepsInv(cfg, s, step);
    case ClientSends(_) => EdgeKeepsInv(cfg, s, step);
    case WorkerSignals(_) => EdgeKeepsInv(cfg, s, step);
    case ClientReceives(_) => EdgeKeepsInv(cfg, s, step);
  }

  lemma InitInv(cfg: Config, s: State)
    requires Init(cfg, s)
    ensures Inv(cfg, s)
  {
  }

  /**
   * Token conservation over every run: each worker is in exactly one place (not yet ready, signalling
   * or replying, queued, being sent a request, working), and so is each client's request.
   */
  lemma {:induction false} TokenConservation(cfg: Config, run: seq<State>)
    requires cfg.Valid() && Run(cfg, run)
    ensures Inv(cfg, Last(run))
  {
    hide Inv, Init, Apply, Enabled;
    if |run| == 1 {
      InitInv(cfg, run[0]);
    } else {
      var s, t := Last(Front(run)), Last(run);
      TokenConservation(cfg, Front(run));
      var step :| Enabled(cfg, s, step) && t == Apply(cfg, s, step);
      StepKeepsInv(cfg, s, step);
    }
  }

  /**
   * What a reader takes from the invariant: the queue holds known workers without duplicates, no queued
   * worker has a request, a worker holds at most one request, and a client gets at most one reply.
   */
  lemma Consequences(cfg: Config, s: State)
    requires Inv(cfg, s)
    ensures forall i, j :: 0 <= i < j < |s.queue| ==> s.queue[i] != s.queue[j]
    ensures forall w, p :: w in s.queue && (p in s.toWorker || p in s.atWorker) ==> p.peer != w
    ensures forall i, j :: 0 <= i < |s.toWorker| && 0 <= j < |s.atWorker| ==> s.toWorker[i].peer != s.atWorker[j].peer
    ensures forall i, j :: 0 <= i < j < |s.atWorker| ==> s.atWorker[i].peer != s.atWorker[j].peer
    ensures forall c :: s.answered[c] <= if c in cfg.clients then 1 else 0
  {
    hide Sum, Without;
    forall i, j | 0 <= i < j < |s.queue|
      ensures s.queue[i] != s.queue[j]
    {
      assert WorkerCount(s, s.queue[i]) <= 1;
      if s.queue[i] == s.queue[j] {
        Twice(s.queue, i, j);
      }
    }
    forall p | p in s.toWorker || p in s.atWorker
      ensures p.peer !in s.queue
    {
      assert WorkerCount(s, p.peer) <= 1;
      if p in s.toWorker {
        var k :| 0 <= k < |s.toWorker| && s.toWorker[k] == p;
        SumPull(PeerOf, s.toWorker, k);
      } else {
        var k :| 0 <= k < |s.atWorker| && s.atWorker[k] == p;
        SumPull(PeerOf, s.atWorker, k);
      }
      assert multiset(s.queue)[p.peer] == 0;
    }
    forall i, j | 0 <= i < |s.toWorker| && 0 <= j < |s.atWorker|
      ensures s.toWorker[i].peer != s.atWorker[j].peer
    {
      SumPull(PeerOf, s.toWorker, i);
      SumPull(PeerOf, s.atWorker, j);
      assert WorkerCount(s, s.toWorker[i].peer) <= 1;
    }
    forall i, j | 0 <= i < j < |s.atWorker|
      ensures s.atWorker[i].peer != s.atWorker[j].peer
    {
      SumTwo(PeerOf, s.atWorker, i, j);
      assert WorkerCount(s, s.atWorker[i].peer) <= 1;
    }
    forall c
      ensures s.answered[c] <= if c in cfg.clients then 1 else 0
    {
      assert ClientCount(s, c) <= if c in cfg.clients then 1 else 0;
    }
  }

  lemma Twice(q: seq<Frame>, i: nat, j: nat)
    requires i < j < |q| && q[i] == q[j]
    ensures multiset(q)[q[i]] >= 2
  {
    assert q == q[..j] + [q[j]] + q[j + 1..];
    assert q[i] in q[..j];
  }

  // ---- Progress ----

  /** How many steps are still to come; each place weighs more than the place its tokens move to. */
  function Measure(s: State): nat {
    6 * |s.unsent| + 5 * |s.frontIn| + 4 * |s.toWorker| + 3 * |s.atWorker| + 2 * |s.backIn| + |s.toClient|
    + 3 * |s.unready|
  }

  /** Every step of a client, a worker, a channel or the broker brings the system closer to its end. */
  lemma StepDecreases(cfg: Config, s: State, step: Step)
    requires Enabled(cfg, s, step)
    ensures Measure(Apply(cfg, s, step)) < Measure(s)
  {
  }

  /** So a run from the start has at most six steps for each client and three for each worker. */
  lemma {:induction false} RunLength(cfg: Config, run: seq<State>)
    requires Run(cfg, run)
    ensures |run| - 1 + Measure(Last(run)) <= 6 * |cfg.clients| + 3 * |cfg.workers|
  {
    hide Apply, Enabled;
    if |run| > 1 {
      var s, t := Last(Front(run)), Last(run);
      RunLength(cfg, Front(run));
      var step :| Enabled(cfg, s, step) && t == Apply(cfg, s, step);
      StepDecreases(cfg, s, step);
    }
  }

  /** Until every client has its reply some step is possible: the system never gets stuck. */
  lemma Progress(cfg: Config, s: State)
    requires cfg.Valid() && Inv(cfg, s) && cfg.workers != {}
    ensures s.answered == multiset(cfg.clients) || exists t :: Next(cfg, s, t)
  {
    hide Apply, Inv, SomeStep;
    var step := SomeStep(s);
    if Enabled(cfg, s, step) {
      assert Next(cfg, s, Apply(cfg, s, step));
    } else {
      AllQuiet(cfg, s);
    }
  }

  /** A step that can be taken, if there is one. */
  ghost function SomeStep(s: State): Step {
    if s.unsent != {} then var c :| c in s.unsent; ClientSends(c)
    else if s.unready != {} then var w :| w in s.unready; WorkerSignals(w)
    else if s.toWorker != [] then WorkerTakes(0)
    else if s.atWorker != [] then WorkerAnswers(0)
    else if s.toClient != [] then ClientReceives(0)
    else if s.backIn != [] then BrokerPass(Some(0), None)
    else BrokerPass(None, Some(0))
  }

  lemma AllQuiet(cfg: Config, s: State)
    requires cfg.Valid() && Inv(cfg, s) && cfg.workers != {} && !Enabled(cfg, s, SomeStep(s))
    ensures s.answered == multiset(cfg.clients)
  {
    hide Sum, Without, WorkerCount, ClientCount, Apply, Next;
    assert s.atWorker != [] ==> HeldShape(cfg, s.atWorker[0]);
    assert s.backIn != [] ==> BackShape(cfg, s.backIn[0]);
    assert QuietExceptFront(s);
    var w :| w in cfg.workers;
    assert WorkerCount(s, w) == 1;
    QuietCounts(s, w);
    forall c
      ensures s.answered[c] == multiset(cfg.clients)[c]
    {
      assert ClientCount(s, c) == if c in cfg.clients then 1 else 0;
      QuietCounts(s, c);
    }
  }

  ghost predicate QuietExceptFront(s: State) {
    s.unsent == {} && s.unready == {} && s.toWorker == [] && s.atWorker == [] && s.toClient == [] && s.backIn == []
  }

  lemma QuietCounts(s: State, k: Frame)
    requires QuietExceptFront(s)
    ensures WorkerCount(s, k) == multiset(s.queue)[k]
    ensures s.frontIn == [] ==> ClientCount(s, k) == s.answered[k]
  {
  }

  /** Every maximal run answers every client exactly once. */
  lemma {:induction false} MaximalRunAnswersAll(cfg: Config, run: seq<State>)
    requires cfg.Valid() && cfg.workers != {} && Run(cfg, run)
    requires forall t :: !Next(cfg, Last(run), t)
    ensures Last(run).answered == multiset(cfg.clients)
  {
    hide Inv;
    TokenConservation(cfg, run);
    Progress(cfg, Last(run));
  }

  // ---- The order of the broker ----

  predicate GoodPolls(evs: seq<Poll>) {
    forall i :: 0 <= i < |evs| ==> evs[i].back.Some? ==> HasContent(evs[i].back.value)
  }

  /** What the broker queues and what it sends to workers over any sequence of polls. */
  function ListPasses(enc: Encoding, queue: seq<Frame>, evs: seq<Poll>): (seq<Frame>, seq<Msg>)
    requires GoodPolls(evs)
    decreases |evs|
  {
    if evs == [] then (queue, []) else
      var r := ListPass(enc, queue, evs[0]);
      var rest := ListPasses(enc, r.queue, evs[1..]);
      (rest.0, (if r.toBack.Some? then [r.toBack.value] else []) + rest.1)
  }

  /** The workers that reported, in order. */
  function Reporters(evs: seq<Poll>): seq<Frame> {
    if evs == [] then [] else
      (if evs[0].back.Some? && |evs[0].back.value| > 0 then [evs[0].back.value[0]] else []) + Reporters(evs[1..])
  }

  function Heads(ms: seq<Msg>): seq<Frame> {
    if ms == [] then [] else (if |ms[0]| > 0 then [ms[0][0]] else []) + Heads(ms[1..])
  }

  /** Workers are served in the order in which they reported: those served, then those still queued. */
  lemma {:induction false} ServedInOrder(enc: Encoding, queue: seq<Frame>, evs: seq<Poll>)
    requires GoodPolls(evs)
    ensures var r := ListPasses(enc, queue, evs); Heads(r.1) + r.0 == queue + Reporters(evs)
    decreases |evs|
  {
    if evs != [] {
      var r := ListPass(enc, queue, evs[0]);
      var rest := ListPasses(enc, r.queue, evs[1..]);
      var one := if evs[0].back.Some? then [evs[0].back.value[0]] else [];
      var served := if r.toBack.Some? then [r.toBack.value[0]] else [];
      ServedInOrder(enc, r.queue, evs[1..]);
      OnePassServes(enc, queue, evs[0]);
      HeadsCons(r.toBack, rest.1);
      hide ListPass, Heads;
      Rejoined(served, r.queue, Heads(rest.1), rest.0, queue, one, Reporters(evs[1..]));
    }
  }

  lemma OnePassServes(enc: Encoding, queue: seq<Frame>, ev: Poll)
    requires ev.back.Some? ==> HasContent(ev.back.value)
    ensures var r := ListPass(enc, queue, ev);
            && (r.toBack.Some? ==> r.toBack.value != [])
            && (if r.toBack.Some? then [r.toBack.value[0]] else []) + r.queue
               == queue + if ev.back.Some? then [ev.back.value[0]] else []
  {
  }

  lemma HeadsCons(m: Option<Msg>, ms: seq<Msg>)
    requires m.Some? ==> m.value != []
    ensures Heads((if m.Some? then [m.value] else []) + ms) == (if m.Some? then [m.value[0]] else []) + Heads(ms)
  {
    if m.Some? {
      assert ([m.value] + ms)[1..] == ms;
    } else {
      assert [] + ms == ms;
    }
  }
}
