/**
 * The federated broker of src/cloud/lcflow.c: first one broker, with its two nested loops, then a network
 * of any number of brokers that lend each other their workers. Requests cross at most one link between
 * brokers, and every reply finds its way back through the envelope to the client that asked.
 */
module Federation {
  import opened Frames
  import opened Channels

  const WORKER_READY: Frame := [1]
  const OK_REPLY: Frame := [79, 75]

  datatype Socket = LocalFe | LocalBe | CloudFe | CloudBe
  datatype Send = Send(socket: Socket, msg: Msg)

  /** What the backend poll found: a worker's message first, else one from a peer. */
  datatype BackInput = FromWorker(msg: Msg) | FromPeer(msg: Msg) | NoBackend

  /** What the frontend poll found; a client's request may be sent on a detour to the peer of this number. */
  datatype FrontInput = FromCloud(msg: Msg) | FromClient(msg: Msg, detour: Option<nat>)

  predicate GoodBack(inp: BackInput) {
    !inp.NoBackend? ==> HasContent(inp.msg)
  }

  /** A reply goes to the cloud if it is addressed to a peer, and to a client otherwise. */
  function Route(peers: seq<Frame>, m: Msg): Send
    requires |m| > 0
  {
    Send(if m[0] in peers then CloudFe else LocalFe, m)
  }

  function BackStep(peers: seq<Frame>, queue: seq<Frame>, inp: BackInput): (seq<Frame>, Option<Send>)
    requires GoodBack(inp)
  {
    match inp
    case FromWorker(m) =>
      var rest := Unwrapped(m);
      (queue + [m[0]], if StartsWith(rest[0], WORKER_READY[0]) then None else Some(Route(peers, rest)))
    case FromPeer(m) => (queue, Some(Route(peers, Unwrapped(m))))
    case NoBackend => (queue, None)
  }

  /** One turn of the inner loop: only a client's request can leave for a peer, everything else gets a worker. */
  function FrontStep(peers: seq<Frame>, queue: seq<Frame>, inp: FrontInput): (seq<Frame>, Send)
    requires queue != []
  {
    if inp.FromClient? && inp.detour.Some? && inp.detour.value < |peers|
    then (queue, Send(CloudBe, [peers[inp.detour.value]] + inp.msg))
    else (queue[1..], Send(LocalBe, Wrap(queue[0], inp.msg)))
  }

  /** The inner loop: it runs while there are workers and frontend messages. */
  function FrontLoop(peers: seq<Frame>, queue: seq<Frame>, inps: seq<FrontInput>): (seq<Frame>, seq<Send>)
    decreases |inps|
  {
    if queue == [] || inps == [] then (queue, []) else
      var r := FrontStep(peers, queue, inps[0]);
      var rest := FrontLoop(peers, r.0, inps[1..]);
      (rest.0, [r.1] + rest.1)
  }

  class Broker {
    const peers: seq<Frame>
    var capacity: nat
    var workers: seq<Frame>

    ghost predicate Valid()
      reads this
    {
      capacity == |workers|
    }

    constructor (peers: seq<Frame>)
      ensures Valid() && workers == [] && this.peers == peers
    {
      this.peers := peers;
      capacity, workers := 0, [];
    }

    /** The upper half of the main loop: queue the worker, then try the peers one by one, then the clients. */
    method HandleBackend(inp: BackInput) returns (sends: seq<Send>)
      requires Valid() && GoodBack(inp)
      modifies this
      ensures Valid()
      ensures var r := BackStep(peers, old(workers), inp);
              workers == r.0 && sends == if r.1.Some? then [r.1.value] else []
    {
      var msg: Option<Msg> := None;
      sends := [];
      match inp {
        case FromWorker(m) =>
          workers := workers + [m[0]];
          capacity := capacity + 1;
          msg := Some(Unwrapped(m));
          if StartsWith(msg.value[0], WORKER_READY[0]) {
            msg := None;
          }
        case FromPeer(m) =>
          msg := Some(Unwrapped(m));
        case NoBackend =>
      }
      ghost var whole := msg;
      var argn := 0;
      while msg.Some? && argn < |peers|
        invariant argn <= |peers|
        invariant msg.Some? ==> msg == whole && sends == [] && whole.value[0] !in peers[..argn]
        invariant msg.None? ==> sends == if whole.Some? then [Send(CloudFe, whole.value)] else []
        invariant msg.None? && whole.Some? ==> whole.value[0] in peers
      {
        if msg.value[0] == peers[argn] {
          sends := sends + [Send(CloudFe, msg.value)];
          msg := None;
        }
        argn := argn + 1;
      }
      if msg.Some? {
        sends := sends + [Send(LocalFe, msg.value)];
      }
    }

    /** The inner loop. It leaves off when the workers or the messages run out. */
    method HandleFrontends(inps: seq<FrontInput>) returns (sends: seq<Send>)
      requires Valid()
      modifies this
      ensures Valid() && (workers, sends) == FrontLoop(peers, old(workers), inps)
      ensures capacity == 0 || |sends| == |inps|
    {
      sends := [];
      var i := 0;
      ghost var all := FrontLoop(peers, workers, inps);
      assert inps[0..] == inps && sends + all.1 == all.1;
      while capacity != 0 && i < |inps|
        invariant Valid() && i <= |inps| && |sends| == i
        invariant var rest := FrontLoop(peers, workers, inps[i..]); all == (rest.0, sends + rest.1)
      {
        var inp := inps[i];
        assert inps[i..][0] == inp && inps[i..][1..] == inps[i + 1..];
        ghost var r := FrontStep(peers, workers, inp);
        ghost var rest := FrontLoop(peers, r.0, inps[i + 1..]);
        assert sends + ([r.1] + rest.1) == (sends + [r.1]) + rest.1;
        if inp.FromClient? && inp.detour.Some? && inp.detour.value < |peers| {
          sends := sends + [Send(CloudBe, [peers[inp.detour.value]] + inp.msg)];
        } else {
          sends := sends + [Send(LocalBe, Wrap(workers[0], inp.msg))];
          workers := workers[1..];
          capacity := capacity - 1;
        }
        i := i + 1;
      }
      assert sends + [] == sends;
    }
  }

  // ---- The network ----

  datatype Config = Config(peers: map<Frame, seq<Frame>>, clients: map<Frame, set<Frame>>,
                           workers: map<Frame, set<Frame>>) {
    /** Links go both ways, names and client identities never look like READY, and no client is named like a peer. */
    ghost predicate Valid() {
      && peers.Keys == clients.Keys == workers.Keys
      && (forall b :: b in peers ==> b != [] && !StartsWith(b, WORKER_READY[0]))
      && (forall b, p {:trigger p in peers[b]} :: b in peers && p in peers[b] ==> p in peers && b in peers[p])
      && (forall b, c {:trigger c in clients[b]} :: b in clients && c in clients[b] ==>
            c != [] && !StartsWith(c, WORKER_READY[0]) && c !in peers[b])
    }
  }

  /** Who asked, and for the how-manieth time; packets carry it for the proofs only, routing never reads it. */
  datatype Origin = Origin(broker: Frame, client: Frame, number: nat)

  datatype Port = LocalFeIn | CloudFeIn | LocalBeIn | CloudBeIn | ToWorker(worker: Frame) | ToClient(client: Frame)

  /** A message waiting at a port of broker `at`; hops counts the links between brokers it has crossed. */
  datatype Packet = Packet(at: Frame, port: Port, msg: Msg, origin: Option<Origin>, hops: nat)

  /** A worker and the broker it serves. */
  datatype Post = Post(broker: Frame, worker: Frame)

  datatype State = State(queues: map<Frame, seq<Frame>>, soup: seq<Packet>, issued: multiset<Origin>, count: nat,
                         delivered: multiset<Origin>, signals: multiset<Post>)

  ghost predicate Init(cfg: Config, s: State) {
    s.queues == (map b | b in cfg.peers :: []) && s.soup == [] && s.issued == s.delivered == multiset{} && s.count == 0
    && s.signals == multiset{}
  }

  /** Where the sockets take a message: ROUTERs use up the first frame, and drop what they cannot route. */
  function Transport(cfg: Config, b: Frame, snd: Send, o: Option<Origin>, hops: nat): seq<Packet>
    requires b in cfg.peers && b in cfg.clients && b in cfg.workers && |snd.msg| > 0
  {
    var dest, rest := snd.msg[0], snd.msg[1..];
    match snd.socket
    case CloudBe => if dest in cfg.peers[b] then [Packet(dest, CloudFeIn, [b] + rest, o, hops + 1)] else []
    case CloudFe => if dest in cfg.peers && b in cfg.peers[dest]
        then [Packet(dest, CloudBeIn, [b] + rest, o, hops + 1)] else []
    case LocalFe => if dest in cfg.clients[b] then [Packet(b, ToClient(dest), rest, o, hops)] else []
    case LocalBe => if dest in cfg.workers[b] then [Packet(b, ToWorker(dest), rest, o, hops)] else []
  }

  datatype Step =
    | Issue(b: Frame, c: Frame, body: Frame)
    | Signal(b: Frame, w: Frame)
    | Backend(i: nat)
    | Frontend(i: nat, detour: Option<nat>)
    | Work(i: nat)
    | Receive(i: nat)

  function BackInputOf(p: Packet): BackInput {
    if p.port.LocalBeIn? then FromWorker(p.msg) else FromPeer(p.msg)
  }

  function FrontInputOf(p: Packet, detour: Option<nat>): FrontInput {
    if p.port.CloudFeIn? then FromCloud(p.msg) else FromClient(p.msg, detour)
  }

  ghost predicate Known(cfg: Config, s: State, b: Frame) {
    b in cfg.peers && b in cfg.clients && b in cfg.workers && b in s.queues
  }

  ghost predicate Enabled(cfg: Config, s: State, step: Step) {
    match step
    case Issue(b, c, _) => Known(cfg, s, b) && c in cfg.clients[b]
    case Signal(b, w) => Known(cfg, s, b) && w in cfg.workers[b]
    case Backend(i) =>
      && i < |s.soup| && Known(cfg, s, s.soup[i].at)
      && (s.soup[i].port.LocalBeIn? || s.soup[i].port.CloudBeIn?) && HasContent(s.soup[i].msg)
    case Frontend(i, _) =>
      && i < |s.soup| && Known(cfg, s, s.soup[i].at) && s.queues[s.soup[i].at] != []
      && (s.soup[i].port.LocalFeIn? || s.soup[i].port.CloudFeIn?)
    case Work(i) => i < |s.soup| && s.soup[i].port.ToWorker? && |s.soup[i].msg| > 1
    case Receive(i) => i < |s.soup| && s.soup[i].port.ToClient?
  }

  function OriginOf(p: Packet): multiset<Origin> {
    if p.origin.Some? then multiset{p.origin.value} else multiset{}
  }

  /** Packet p turns into the packets ps. */
  function Replaced(s: State, i: nat, ps: seq<Packet>): State
    requires i < |s.soup|
  {
    s.(soup := Without(s.soup, i) + ps)
  }

  ghost function Outcome(cfg: Config, s: State, step: Step): (seq<Frame>, seq<Packet>)
    requires Enabled(cfg, s, step) && (step.Backend? || step.Frontend?)
  {
    var p := s.soup[step.i];
    var b := p.at;
    match step
    case Backend(i) =>
      var r := BackStep(cfg.peers[b], s.queues[b], BackInputOf(p));
      (r.0, if r.1.Some? then Transport(cfg, b, r.1.value, p.origin, p.hops) else [])
    case Frontend(i, detour) =>
      var r := FrontStep(cfg.peers[b], s.queues[b], FrontInputOf(p, detour));
      (r.0, Transport(cfg, b, r.1, p.origin, p.hops))
  }

  ghost function Apply(cfg: Config, s: State, step: Step): State
    requires Enabled(cfg, s, step)
  {
    match step
    case Issue(b, c, body) =>
      var o := Origin(b, c, s.count);
      s.(soup := s.soup + [Packet(b, LocalFeIn, [c] + ReqOut([body]), Some(o), 0)],
         issued := s.issued + multiset{o}, count := s.count + 1)
    case Signal(b, w) =>
      s.(soup := s.soup + [Packet(b, LocalBeIn, [w] + ReqOut([WORKER_READY]), None, 0)],
         signals := s.signals + multiset{Post(b, w)})
    case Backend(i) =>
      var r := Outcome(cfg, s, step);
      Replaced(s, i, r.1).(queues := s.queues[s.soup[i].at := r.0])
    case Frontend(i, detour) =>
      var r := Outcome(cfg, s, step);
      Replaced(s, i, r.1).(queues := s.queues[s.soup[i].at := r.0])
    case Work(i) =>
      var p := s.soup[i];
      var m := ReqIn(p.msg);
      Replaced(s, i,
               if m.Some? then [p.(port := LocalBeIn, msg := [p.port.worker] + ReqOut(ResetLast(m.value, OK_REPLY)))]
               else [])
    case Receive(i) =>
      Replaced(s, i, []).(delivered := s.delivered + OriginOf(s.soup[i]))
  }

  ghost predicate Next(cfg: Config, s: State, t: State) {
    exists step :: Enabled(cfg, s, step) && t == Apply(cfg, s, step)
  }

  ghost predicate Run(cfg: Config, run: seq<State>) {
    |run| > 0
    && if |run| == 1 then Init(cfg, run[0]) else Run(cfg, Front(run)) && Next(cfg, Last(Front(run)), Last(run))
  }

  // ---- The envelope invariant ----

  /** The frames that lead a reply home: the client and, at a peer, the broker it belongs to. */
  function Envelope(o: Origin, hops: nat): Msg {
    if hops == 0 then [o.client, []] else [o.broker, o.client, []]
  }

  /** A request with its envelope at the broker where it belongs now. */
  ghost predicate AtBroker(cfg: Config, p: Packet, m: Msg) {
    p.origin.Some? && var o := p.origin.value;
    && p.hops <= 1 && p.at in cfg.peers
    && (if p.hops == 0 then p.at == o.broker else o.broker in cfg.peers[p.at])
    && |m| == |Envelope(o, p.hops)| + 1 && m[..|m| - 1] == Envelope(o, p.hops)
  }

  /** Every packet, wherever it is, is on its way from its origin to a worker or back. */
  ghost predicate OnCourse(cfg: Config, p: Packet) {
    && p.at in cfg.peers && p.at in cfg.clients && p.at in cfg.workers
    && (p.origin.Some? ==> p.origin.value.broker in cfg.peers && p.origin.value.broker in cfg.clients
                           && p.origin.value.client in cfg.clients[p.origin.value.broker])
    && match p.port
       case LocalFeIn => p.hops == 0 && AtBroker(cfg, p, p.msg)
       case CloudFeIn => p.hops == 1 && AtBroker(cfg, p, p.msg)
       case ToWorker(w) => w in cfg.workers[p.at] && |p.msg| > 1 && p.msg[0] == [] && AtBroker(cfg, p, p.msg[1..])
       case LocalBeIn =>
         && |p.msg| > 2 && p.msg[0] in cfg.workers[p.at] && p.msg[1] == []
         && if p.origin.None? then p.hops == 0 && p.msg == [p.msg[0], [], WORKER_READY]
             else AtBroker(cfg, p, p.msg[2..])
       case CloudBeIn =>
         && p.hops == 2 && p.origin.Some? && p.at == p.origin.value.broker
         && |p.msg| == 4 && p.msg[1] == p.origin.value.client && p.msg[2] == []
       case ToClient(c) =>
         && (p.hops == 0 || p.hops == 2) && p.origin.Some?
         && p.at == p.origin.value.broker && c == p.origin.value.client && |p.msg| == 2 && p.msg[0] == []
  }

  ghost predicate Inv(cfg: Config, s: State) {
    && s.queues.Keys == cfg.peers.Keys
    && (forall b, w :: b in s.queues && b in cfg.workers && w in s.queues[b] ==> w in cfg.workers[b])
    && (forall i :: 0 <= i < |s.soup| ==> OnCourse(cfg, s.soup[i]))
    && Sum(OriginOf, s.soup) + s.delivered == s.issued
    && (forall o :: s.issued[o] <= 1 && (o in s.issued ==> o.number < s.count))
  }

  /** At the backends: a reply goes home to its client, or over one link to the broker it belongs to. */
  lemma BackendOnCourse(cfg: Config, s: State, i: nat)
    requires cfg.Valid() && Inv(cfg, s) && Enabled(cfg, s, Backend(i))
    ensures var p, r := s.soup[i], Outcome(cfg, s, Backend(i));
            && (if p.origin.None? then r.1 == [] else |r.1| == 1 && OnCourse(cfg, r.1[0]) && r.1[0].origin == p.origin)
            && forall w :: w in r.0 ==> w in cfg.workers[p.at]
  {
    hide Sum, Transport;
    var p := s.soup[i];
    assert OnCourse(cfg, p);
    if p.port.LocalBeIn? {
      assert Unwrapped(p.msg) == p.msg[2..];
      if p.origin.Some? {
        ReplyRouted(cfg, p);
      }
    } else {
      PeerReplyRouted(cfg, p);
    }
  }

  /** A reply that comes from a peer is for a client of this broker. */
  lemma PeerReplyRouted(cfg: Config, p: Packet)
    requires cfg.Valid() && OnCourse(cfg, p) && p.port.CloudBeIn?
    ensures |p.msg| > 0 && Unwrapped(p.msg) == p.msg[1..] && |p.msg| > 1 && p.origin.Some?
    ensures var ps := Transport(cfg, p.at, Route(cfg.peers[p.at], p.msg[1..]), p.origin, p.hops);
            |ps| == 1 && OnCourse(cfg, ps[0]) && ps[0].origin == p.origin
  {
    var o := p.origin.value;
    assert o.broker in cfg.clients && o.client in cfg.clients[o.broker];
  }

  /** The first frame under a worker's envelope names the client, or the broker to pass the reply to. */
  lemma ReplyRouted(cfg: Config, p: Packet)
    requires cfg.Valid() && OnCourse(cfg, p) && p.port.LocalBeIn? && p.origin.Some?
    ensures var m := p.msg[2..]; var o := p.origin.value;
            && |m| > 0 && m[0] == (if p.hops == 0 then o.client else o.broker) && !StartsWith(m[0], WORKER_READY[0])
            && var ps := Transport(cfg, p.at, Route(cfg.peers[p.at], m), p.origin, p.hops);
            |ps| == 1 && OnCourse(cfg, ps[0]) && ps[0].origin == p.origin
  {
    var m, o := p.msg[2..], p.origin.value;
    assert m[..|m| - 1][0] == m[0] && m[..|m| - 1] == Envelope(o, p.hops);
    assert m[1] == Envelope(o, p.hops)[1];
    if p.hops == 1 {
      assert m[2] == Envelope(o, 1)[2];
    }
  }

  /** At the frontends: a request gets a worker here, or crosses its one link. */
  lemma FrontendOnCourse(cfg: Config, s: State, i: nat, detour: Option<nat>)
    requires cfg.Valid() && Inv(cfg, s) && Enabled(cfg, s, Frontend(i, detour))
    ensures var p, r := s.soup[i], Outcome(cfg, s, Frontend(i, detour));
            && |r.1| == 1 && OnCourse(cfg, r.1[0]) && r.1[0].origin == p.origin
            && forall w :: w in r.0 ==> w in cfg.workers[p.at]
  {
    hide Sum, Transport;
    var p := s.soup[i];
    assert OnCourse(cfg, p);
    var q := s.queues[p.at];
    assert q[0] in q;
    GivenToWorker(cfg, p, q[0]);
    if p.port.LocalFeIn? && detour.Some? && detour.value < |cfg.peers[p.at]| {
      SentToPeer(cfg, p, cfg.peers[p.at][detour.value]);
    }
  }

  lemma SentToPeer(cfg: Config, p: Packet, dest: Frame)
    requires cfg.Valid() && OnCourse(cfg, p) && p.port.LocalFeIn? && dest in cfg.peers[p.at]
    ensures var ps := Transport(cfg, p.at, Send(CloudBe, [dest] + p.msg), p.origin, p.hops);
            |ps| == 1 && OnCourse(cfg, ps[0]) && ps[0].origin == p.origin
  {
    var m, n := p.msg, [p.at] + p.msg;
    assert ([dest] + m)[1..] == m;
    assert n[..|n| - 1] == [p.at] + m[..|m| - 1];
  }

  lemma GivenToWorker(cfg: Config, p: Packet, w: Frame)
    requires OnCourse(cfg, p) && (p.port.LocalFeIn? || p.port.CloudFeIn?) && w in cfg.workers[p.at]
    ensures var ps := Transport(cfg, p.at, Send(LocalBe, Wrap(w, p.msg)), p.origin, p.hops);
            |ps| == 1 && OnCourse(cfg, ps[0]) && ps[0].origin == p.origin
  {
    var m := p.msg;
    assert Wrap(w, m)[1..] == [[]] + m && ([[]] + m)[1..] == m;
  }

  /** A worker keeps the envelope and only replaces the body. */
  lemma WorkOnCourse(cfg: Config, p: Packet)
    requires OnCourse(cfg, p) && p.port.ToWorker?
    ensures ReqIn(p.msg) == Some(p.msg[1..]) && |p.msg| > 1
    ensures var m := p.msg[1..];
            OnCourse(cfg, p.(port := LocalBeIn, msg := [p.port.worker] + ReqOut(ResetLast(m, OK_REPLY))))
  {
    var m := p.msg[1..];
    var n := [p.port.worker] + ReqOut(ResetLast(m, OK_REPLY));
    assert n[2..] == ResetLast(m, OK_REPLY);
    assert ResetLast(m, OK_REPLY)[..|m| - 1] == m[..|m| - 1];
  }

  /** Replacing a packet by ones on course that carry the same origin keeps the soup in order. */
  lemma ReplacedKeeps(cfg: Config, s: State, i: nat, ps: seq<Packet>)
    requires Inv(cfg, s) && i < |s.soup| && |ps| <= 1 && forall p :: p in ps ==> OnCourse(cfg, p)
    requires OriginOf(s.soup[i]) == if ps == [] then multiset{} else OriginOf(ps[0])
    ensures Inv(cfg, Replaced(s, i, ps))
  {
    hide Sum, OnCourse;
    var t := Replaced(s, i, ps);
    WithoutMembers(s.soup, i);
    assert forall k :: 0 <= k < |t.soup| ==> t.soup[k] in s.soup || t.soup[k] in ps;
    SumPull(OriginOf, s.soup, i);
    if ps == [] {
      assert t.soup == Without(s.soup, i);
    } else {
      assert ps == [ps[0]] && ps[0] in ps;
      SumPush(OriginOf, Without(s.soup, i), ps[0]);
    }
  }

  lemma NewPacketKeeps(cfg: Config, s: State, t: State, p: Packet)
    requires Inv(cfg, s) && OnCourse(cfg, p) && t.soup == s.soup + [p] && t.queues == s.queues
             && t.delivered == s.delivered
    requires p.origin.None? ==> t == s.(soup := t.soup, signals := t.signals)
    requires p.origin.Some? ==> p.origin.value.number == s.count
    requires p.origin.Some? ==>
               t == s.(soup := t.soup, issued := s.issued + multiset{p.origin.value}, count := s.count + 1)
    ensures Inv(cfg, t)
  {
    hide Sum, OnCourse;
    SumPush(OriginOf, s.soup, p);
  }

  lemma ReceiveKeepsInv(cfg: Config, s: State, i: nat)
    requires Inv(cfg, s) && Enabled(cfg, s, Receive(i))
    ensures Inv(cfg, Apply(cfg, s, Receive(i)))
  {
    hide Sum, OnCourse;
    var t := Apply(cfg, s, Receive(i));
    SumPull(OriginOf, s.soup, i);
    assert t.soup == Without(s.soup, i);
    WithoutMembers(s.soup, i);
    assert forall k :: 0 <= k < |t.soup| ==> t.soup[k] in s.soup;
  }

  lemma EdgeKeepsInv(cfg: Config, s: State, step: Step)
    requires Inv(cfg, s) && Enabled(cfg, s, step) && (step.Issue? || step.Signal? || step.Work?)
    ensures Inv(cfg, Apply(cfg, s, step))
  {
    hide Sum, OnCourse, Replaced, Inv;
    var t := Apply(cfg, s, step);
    match step
    case Issue(b, c, body) =>
      NewPacketOnCourse(cfg, b, c, body, s.count);
      NewPacketKeeps(cfg, s, t, Packet(b, LocalFeIn, [c] + ReqOut([body]), Some(Origin(b, c, s.count)), 0));
    case Signal(b, w) =>
      ReadyOnCourse(cfg, b, w);
      NewPacketKeeps(cfg, s, t, Packet(b, LocalBeIn, [w] + ReqOut([WORKER_READY]), None, 0));
    case Work(i) =>
      var p := s.soup[i];
      assert OnCourse(cfg, p) by { SoupOnCourse(cfg, s, i); }
      WorkOnCourse(cfg, p);
      var m := [p.port.worker] + ReqOut(ResetLast(p.msg[1..], OK_REPLY));
      ReplacedKeeps(cfg, s, i, [p.(port := LocalBeIn, msg := m)]);
  }

  lemma SoupOnCourse(cfg: Config, s: State, i: nat)
    requires Inv(cfg, s) && i < |s.soup|
    ensures OnCourse(cfg, s.soup[i])
  {
  }

  lemma QueueChange(cfg: Config, s: State, b: Frame, q: seq<Frame>)
    requires Inv(cfg, s) && b in cfg.peers && b in cfg.workers && forall w :: w in q ==> w in cfg.workers[b]
    ensures Inv(cfg, s.(queues := s.queues[b := q]))
  {
    hide Sum, OnCourse;
  }

  lemma BrokerKeepsInv(cfg: Config, s: State, step: Step)
    requires cfg.Valid() && Inv(cfg, s) && Enabled(cfg, s, step) && (step.Backend? || step.Frontend?)
    ensures Inv(cfg, Apply(cfg, s, step))
  {
    hide Sum, OnCourse, Outcome, Inv;
    var r := Outcome(cfg, s, step);
    match step {
      case Backend(i) => BackendOnCourse(cfg, s, i);
      case Frontend(i, detour) =>
        FrontendOnCourse(cfg, s, i, detour);
        SoupOnCourse(cfg, s, i);
        FrontOriginKnown(cfg, s, i);
    }
    ReplacedKeeps(cfg, s, step.i, r.1);
    QueueChange(cfg, Replaced(s, step.i, r.1), s.soup[step.i].at, r.0);
  }

  lemma StepKeepsInv(cfg: Config, s: State, step: Step)
    requires cfg.Valid() && Inv(cfg, s) && Enabled(cfg, s, step)
    ensures Inv(cfg, Apply(cfg, s, step))
  {
    hide Inv, Apply;
    if step.Backend? || step.Frontend? {
      BrokerKeepsInv(cfg, s, step);
    } else if step.Receive? {
      ReceiveKeepsInv(cfg, s, step.i);
    } else {
      EdgeKeepsInv(cfg, s, step);
    }
  }

  lemma NewPacketOnCourse(cfg: Config, b: Frame, c: Frame, body: Frame, n: nat)
    requires b in cfg.peers && b in cfg.clients && b in cfg.workers && c in cfg.clients[b]
    ensures OnCourse(cfg, Packet(b, LocalFeIn, [c] + ReqOut([body]), Some(Origin(b, c, n)), 0))
  {
    var m := [c] + ReqOut([body]);
    assert m[..2] == [c, []];
  }

  lemma ReadyOnCourse(cfg: Config, b: Frame, w: Frame)
    requires b in cfg.peers && b in cfg.clients && b in cfg.workers && w in cfg.workers[b]
    ensures OnCourse(cfg, Packet(b, LocalBeIn, [w] + ReqOut([WORKER_READY]), None, 0))
  {
  }

  lemma FrontOriginKnown(cfg: Config, s: State, i: nat)
    requires i < |s.soup| && OnCourse(cfg, s.soup[i]) && (s.soup[i].port.LocalFeIn? || s.soup[i].port.CloudFeIn?)
    ensures s.soup[i].origin.Some?
  {
  }

  lemma InitInv(cfg: Config, s: State)
    requires Init(cfg, s)
    ensures Inv(cfg, s)
  {
  }

  /** Every run keeps every packet on course. */
  lemma {:induction false} AlwaysOnCourse(cfg: Config, run: seq<State>)
    requires cfg.Valid() && Run(cfg, run)
    ensures Inv(cfg, Last(run))
  {
    hide Inv, Init, Apply, Enabled;
    if |run| == 1 {
      InitInv(cfg, run[0]);
    } else {
      AlwaysOnCourse(cfg, Front(run));
      var s, t := Last(Front(run)), Last(run);
      var step :| Enabled(cfg, s, step) && t == Apply(cfg, s, step);
      StepKeepsInv(cfg, s, step);
    }
  }

  // ---- What follows from it ----

  /** One hop: a request crosses at most one link, its reply at most one more, and no message outgrows six frames. */
  lemma {:induction false} OneHop(cfg: Config, run: seq<State>, i: nat)
    requires cfg.Valid() && Run(cfg, run) && i < |Last(run).soup|
    ensures var p := Last(run).soup[i];
            && p.hops <= 2 && |p.msg| <= 6
            && (p.port.LocalFeIn? || p.port.CloudFeIn? || p.port.ToWorker? || p.port.LocalBeIn? ==> p.hops <= 1)
  {
    hide Sum;
    AlwaysOnCourse(cfg, run);
    assert OnCourse(cfg, Last(run).soup[i]);
  }

  /**
   * The return path: what is handed to a client answers a request of that very client at that very broker,
   * no request is answered twice, and none is lost: it is delivered or still on its way.
   */
  lemma {:induction false} RepliesComeHome(cfg: Config, run: seq<State>)
    requires cfg.Valid() && Run(cfg, run)
    ensures var s := Last(run);
            && (forall i :: 0 <= i < |s.soup| && s.soup[i].port.ToClient? ==>
                  s.soup[i].origin.Some? && s.soup[i].origin.value.broker == s.soup[i].at
                  && s.soup[i].origin.value.client == s.soup[i].port.client)
            && (forall o :: o in s.issued ==> s.delivered[o] <= 1)
            && (forall o :: o in s.delivered ==> o in s.issued)
            && (forall o :: o in s.issued && o !in s.delivered ==>
                  exists i :: 0 <= i < |s.soup| && s.soup[i].origin == Some(o))
  {
    hide Sum, OnCourse;
    AlwaysOnCourse(cfg, run);
    var s := Last(run);
    forall i | 0 <= i < |s.soup| && s.soup[i].port.ToClient?
      ensures s.soup[i].origin.Some? && s.soup[i].origin.value.broker == s.soup[i].at
              && s.soup[i].origin.value.client == s.soup[i].port.client
    {
      ToClientMeansHome(cfg, s.soup[i]);
    }
    assert forall o :: s.issued[o] == Sum(OriginOf, s.soup)[o] + s.delivered[o];
    forall o | o in s.issued && o !in s.delivered
      ensures exists i :: 0 <= i < |s.soup| && s.soup[i].origin == Some(o)
    {
      CarriedBySome(s.soup, o);
    }
  }

  lemma ToClientMeansHome(cfg: Config, p: Packet)
    requires OnCourse(cfg, p) && p.port.ToClient?
    ensures p.origin.Some? && p.origin.value.broker == p.at && p.origin.value.client == p.port.client
  {
  }

  lemma {:induction false} CarriedBySome(soup: seq<Packet>, o: Origin)
    requires o in Sum(OriginOf, soup)
    ensures exists i :: 0 <= i < |soup| && soup[i].origin == Some(o)
  {
    var n := |soup| - 1;
    if o in OriginOf(soup[n]) {
      assert soup[n].origin == Some(o);
    } else {
      CarriedBySome(soup[..n], o);
      var i :| 0 <= i < n && soup[..n][i].origin == Some(o);
      assert soup[i].origin == Some(o);
    }
  }

  // ---- The workers' tokens ----

  /** The worker that a packet comes from or goes to. */
  function WorkerAt(p: Packet): multiset<Post> {
    if p.port.ToWorker? then multiset{Post(p.at, p.port.worker)}
    else if p.port.LocalBeIn? && |p.msg| > 0 then multiset{Post(p.at, p.msg[0])}
    else multiset{}
  }

  /** How often a worker stands in the queue of its broker. */
  function Idle(s: State, k: Post): nat {
    if k.broker in s.queues then multiset(s.queues[k.broker])[k.worker] else 0
  }

  /** Each worker is queued, reporting or working once for every READY it sent. */
  ghost predicate Tokens(s: State) {
    forall k :: Idle(s, k) + Sum(WorkerAt, s.soup)[k] == s.signals[k]
  }

  /** A packet turned into ps while the queue of broker b became q: no worker was lost or doubled. */
  lemma TokensMove(s: State, t: State, i: nat, ps: seq<Packet>, b: Frame, q: seq<Frame>)
    requires Tokens(s) && i < |s.soup| && |ps| <= 1 && b in s.queues
    requires t.soup == Without(s.soup, i) + ps && t.queues == s.queues[b := q] && t.signals == s.signals
    requires forall w :: multiset(q)[w] + Sum(WorkerAt, ps)[Post(b, w)]
                      == multiset(s.queues[b])[w] + WorkerAt(s.soup[i])[Post(b, w)]
    requires forall k: Post :: k.broker != b ==> Sum(WorkerAt, ps)[k] == WorkerAt(s.soup[i])[k]
    ensures Tokens(t)
  {
    hide Sum, WorkerAt;
    SumStep(WorkerAt, s.soup, i, ps);
    forall k
      ensures Idle(t, k) + Sum(WorkerAt, t.soup)[k] == t.signals[k]
    {
      assert Idle(s, k) + Sum(WorkerAt, s.soup)[k] == s.signals[k];
      var after, before := Sum(WorkerAt, t.soup) + WorkerAt(s.soup[i]), Sum(WorkerAt, s.soup) + Sum(WorkerAt, ps);
      assert after[k] == before[k];
      assert k == Post(k.broker, k.worker);
    }
  }

  lemma BackendTokens(cfg: Config, s: State, i: nat)
    requires cfg.Valid() && Inv(cfg, s) && Tokens(s) && Enabled(cfg, s, Backend(i))
    ensures Tokens(Apply(cfg, s, Backend(i)))
  {
    hide Sum, Tokens, Transport;
    var p, r := s.soup[i], Outcome(cfg, s, Backend(i));
    BackendOnCourse(cfg, s, i);
    assert OnCourse(cfg, p) by { SoupOnCourse(cfg, s, i); }
    assert Sum(WorkerAt, r.1) == multiset{} by { RepliesCarryNoWorker(cfg, s, i); }
    if p.port.LocalBeIn? {
      assert multiset(r.0) == multiset(s.queues[p.at]) + multiset{p.msg[0]};
    }
    hide Inv, OnCourse, Outcome;
    TokensMove(s, Apply(cfg, s, Backend(i)), i, r.1, p.at, r.0);
  }

  lemma RepliesCarryNoWorker(cfg: Config, s: State, i: nat)
    requires Enabled(cfg, s, Backend(i))
    ensures var r := Outcome(cfg, s, Backend(i)).1; |r| <= 1 && Sum(WorkerAt, r) == multiset{}
  {
    var r := Outcome(cfg, s, Backend(i)).1;
    if r != [] {
      assert r == [r[0]] && WorkerAt(r[0]) == multiset{};
      SumOne(WorkerAt, r[0]);
    }
  }

  /** A request either takes the first worker out of the queue with it, or leaves the queue alone. */
  lemma RequestTakesWorker(cfg: Config, s: State, i: nat, detour: Option<nat>)
    requires cfg.Valid() && Inv(cfg, s) && Enabled(cfg, s, Frontend(i, detour))
    ensures var p := s.soup[i]; var q := s.queues[p.at]; var r := Outcome(cfg, s, Frontend(i, detour));
            && |r.1| == 1 && WorkerAt(p) == multiset{}
            && ((r.0 == q && WorkerAt(r.1[0]) == multiset{})
                || (r.0 == q[1..] && WorkerAt(r.1[0]) == multiset{Post(p.at, q[0])}))
  {
    hide Sum;
    FrontendOnCourse(cfg, s, i, detour);
  }

  lemma FrontendIs(cfg: Config, s: State, i: nat, detour: Option<nat>)
    requires Enabled(cfg, s, Frontend(i, detour))
    ensures var t, r := Apply(cfg, s, Frontend(i, detour)), Outcome(cfg, s, Frontend(i, detour));
            && t.soup == Without(s.soup, i) + r.1 && t.queues == s.queues[s.soup[i].at := r.0] && t.signals == s.signals
            && s.soup[i].at in s.queues && s.queues[s.soup[i].at] != []
  {
    hide Outcome;
  }

  lemma HeadLeaves(q: seq<Frame>)
    requires q != []
    ensures multiset(q) == multiset{q[0]} + multiset(q[1..])
  {
    assert q == [q[0]] + q[1..];
  }

  lemma FrontendTokens(cfg: Config, s: State, i: nat, detour: Option<nat>)
    requires cfg.Valid() && Inv(cfg, s) && Tokens(s) && Enabled(cfg, s, Frontend(i, detour))
    ensures Tokens(Apply(cfg, s, Frontend(i, detour)))
  {
    var p, r := s.soup[i], Outcome(cfg, s, Frontend(i, detour));
    var q, t := s.queues[p.at], Apply(cfg, s, Frontend(i, detour));
    hide Sum, Tokens, Inv, Outcome, WorkerAt, Apply, Without;
    FrontendIs(cfg, s, i, detour);
    RequestTakesWorker(cfg, s, i, detour);
    hide Enabled;
    assert r.1 == [r.1[0]];
    SumOne(WorkerAt, r.1[0]);
    HeadLeaves(q);
    TokensMove(s, t, i, r.1, p.at, r.0);
  }

  lemma NewPacketTokens(s: State, t: State, p: Packet)
    requires Tokens(s) && t.soup == s.soup + [p] && t.queues == s.queues && t.signals == s.signals + WorkerAt(p)
    ensures Tokens(t)
  {
    hide Sum, WorkerAt;
    SumPush(WorkerAt, s.soup, p);
    forall k
      ensures Idle(t, k) + Sum(WorkerAt, t.soup)[k] == t.signals[k]
    {
      assert Idle(s, k) + Sum(WorkerAt, s.soup)[k] == s.signals[k];
    }
  }

  lemma OtherTokens(cfg: Config, s: State, step: Step)
    requires Inv(cfg, s) && Tokens(s) && Enabled(cfg, s, step) && (step.Receive? || step.Work?)
    ensures Tokens(Apply(cfg, s, step))
  {
    var t := Apply(cfg, s, step);
    var i := step.i;
    assert i < |s.soup|;
    var p := s.soup[i];
    hide Sum, Tokens, Inv, WorkerAt, Apply, Enabled, OnCourse, Without;
    var ps := SameToken(cfg, s, step);
    assert s.queues[p.at := s.queues[p.at]] == s.queues;
    TokensMove(s, t, i, ps, p.at, s.queues[p.at]);
  }

  lemma SameToken(cfg: Config, s: State, step: Step) returns (ps: seq<Packet>)
    requires Inv(cfg, s) && Enabled(cfg, s, step) && (step.Receive? || step.Work?)
    ensures var t := Apply(cfg, s, step);
            && t.soup == Without(s.soup, step.i) + ps && t.queues == s.queues && t.signals == s.signals
            && |ps| <= 1 && Sum(WorkerAt, ps) == WorkerAt(s.soup[step.i]) && s.soup[step.i].at in s.queues
  {
    hide Sum;
    assert OnCourse(cfg, s.soup[step.i]);
    ps := Apply(cfg, s, step).soup[|s.soup| - 1..];
    assert |Without(s.soup, step.i)| == |s.soup| - 1;
    if ps != [] {
      assert ps == [ps[0]];
      SumOne(WorkerAt, ps[0]);
    } else {
      assert Sum(WorkerAt, ps) == multiset{} by { NothingCarried(); }
    }
  }

  lemma NothingCarried()
    ensures Sum(WorkerAt, []) == multiset{}
  {
  }

  /** Over every run: a worker that reports is queued, one that is given a request leaves the queue, none is lost. */
  lemma {:induction false} WorkersConserved(cfg: Config, run: seq<State>)
    requires cfg.Valid() && Run(cfg, run)
    ensures Tokens(Last(run))
  {
    hide Inv, Apply, Enabled, Tokens, Init;
    if |run| == 1 {
      NoTokens(cfg, run[0]);
    } else {
      WorkersConserved(cfg, Front(run));
      AlwaysOnCourse(cfg, Front(run));
      var s, t := Last(Front(run)), Last(run);
      var step :| Enabled(cfg, s, step) && t == Apply(cfg, s, step);
      match step {
        case Backend(i) => BackendTokens(cfg, s, i);
        case Frontend(i, detour) => FrontendTokens(cfg, s, i, detour);
        case Issue(b, c, body) => IssueIs(cfg, s, step); NewPacketTokens(s, t, Last(t.soup));
        case Signal(b, w) => IssueIs(cfg, s, step); NewPacketTokens(s, t, Last(t.soup));
        case _ => OtherTokens(cfg, s, step);
      }
    }
  }

  lemma IssueIs(cfg: Config, s: State, step: Step)
    requires Enabled(cfg, s, step) && (step.Issue? || step.Signal?)
    ensures var t := Apply(cfg, s, step);
            t.soup != [] && t.soup == s.soup + [Last(t.soup)] && t.queues == s.queues
            && t.signals == s.signals + WorkerAt(Last(t.soup))
  {
  }

  lemma NoTokens(cfg: Config, s: State)
    requires Init(cfg, s)
    ensures Tokens(s)
  {
  }

  /** So requests never get stuck: with a worker at every broker, something can be done until all are answered. */
  lemma {:induction false} NoDeadlock(cfg: Config, run: seq<State>, o: Origin)
    requires cfg.Valid() && Run(cfg, run)
    requires forall b :: b in cfg.peers ==> exists k :: k in Last(run).signals && k.broker == b
    requires o in Last(run).issued && o !in Last(run).delivered
    ensures exists step :: Enabled(cfg, Last(run), step) && !step.Issue? && !step.Signal?
  {
    var s := Last(run);
    hide Sum, Inv, Run, Tokens, Enabled;
    RepliesComeHome(cfg, run);
    AlwaysOnCourse(cfg, run);
    WorkersConserved(cfg, run);
    var i :| 0 <= i < |s.soup| && s.soup[i].origin == Some(o);
    SoupOnCourse(cfg, s, i);
    var b := s.soup[i].at;
    var k :| k in s.signals && k.broker == b;
    StepAtPacket(cfg, s, i, k);
  }

  /** A packet can move on, unless it is a request at a broker without idle workers: then one of them can. */
  lemma StepAtPacket(cfg: Config, s: State, i: nat, k: Post)
    requires cfg.Valid() && Inv(cfg, s) && Tokens(s) && i < |s.soup| && k in s.signals && k.broker == s.soup[i].at
    ensures exists step :: Enabled(cfg, s, step) && !step.Issue? && !step.Signal?
  {
    hide Sum;
    var p := s.soup[i];
    assert OnCourse(cfg, p);
    if p.port.LocalFeIn? || p.port.CloudFeIn? {
      if s.queues[p.at] != [] {
        assert Enabled(cfg, s, Frontend(i, None));
      } else {
        assert Idle(s, k) + Sum(WorkerAt, s.soup)[k] == s.signals[k];
        BusyWorker(s.soup, k);
        var j :| 0 <= j < |s.soup| && k in WorkerAt(s.soup[j]);
        PacketMoves(cfg, s, j);
      }
    } else {
      PacketMoves(cfg, s, i);
    }
  }

  lemma PacketMoves(cfg: Config, s: State, i: nat)
    requires cfg.Valid() && Inv(cfg, s) && i < |s.soup| && !s.soup[i].port.LocalFeIn? && !s.soup[i].port.CloudFeIn?
    ensures exists step :: Enabled(cfg, s, step) && !step.Issue? && !step.Signal?
  {
    hide Sum;
    var p := s.soup[i];
    assert OnCourse(cfg, p);
    match p.port
    case ToWorker(_) => assert Enabled(cfg, s, Work(i));
    case ToClient(_) => assert Enabled(cfg, s, Receive(i));
    case LocalBeIn =>
      assert Unwrapped(p.msg) == p.msg[2..];
      assert Enabled(cfg, s, Backend(i));
    case CloudBeIn =>
      PeerReplyRouted(cfg, p);
      assert Enabled(cfg, s, Backend(i));
  }

  lemma {:induction false} BusyWorker(soup: seq<Packet>, k: Post)
    requires k in Sum(WorkerAt, soup)
    ensures exists j :: 0 <= j < |soup| && k in WorkerAt(soup[j])
  {
    var n := |soup| - 1;
    if k !in WorkerAt(soup[n]) {
      BusyWorker(soup[..n], k);
      var j :| 0 <= j < n && k in WorkerAt(soup[..n][j]);
      assert k in WorkerAt(soup[j]);
    }
  }

  // ---- The order of one broker ----

  /** One turn of the main loop: what the backend poll found, then the frontend messages of the inner loop. */
  datatype Turn = Turn(back: BackInput, fronts: seq<FrontInput>)

  predicate GoodTurns(turns: seq<Turn>) {
    forall i :: 0 <= i < |turns| ==> GoodBack(turns[i].back)
  }

  /** One turn: whom the broker has queued afterwards, and what it sends. */
  function OneTurn(peers: seq<Frame>, queue: seq<Frame>, turn: Turn): (seq<Frame>, seq<Send>)
    requires GoodBack(turn.back)
  {
    var b := BackStep(peers, queue, turn.back);
    var f := FrontLoop(peers, b.0, turn.fronts);
    (f.0, (if b.1.Some? then [b.1.value] else []) + f.1)
  }

  /** Any number of turns. */
  function Turns(peers: seq<Frame>, queue: seq<Frame>, turns: seq<Turn>): (seq<Frame>, seq<Send>)
    requires GoodTurns(turns)
    decreases |turns|
  {
    if turns == [] then (queue, []) else
      var r := OneTurn(peers, queue, turns[0]);
      var rest := Turns(peers, r.0, turns[1..]);
      (rest.0, r.1 + rest.1)
  }

  /** The workers that reported, in order. */
  function Reporters(turns: seq<Turn>): seq<Frame> {
    if turns == [] then [] else
      (if turns[0].back.FromWorker? && |turns[0].back.msg| > 0 then [turns[0].back.msg[0]]
          else []) + Reporters(turns[1..])
  }

  /** The workers that were sent a request, in order. */
  function Served(sends: seq<Send>): seq<Frame> {
    if sends == [] then [] else
      (if sends[0].socket == LocalBe && |sends[0].msg| > 0 then [sends[0].msg[0]] else []) + Served(sends[1..])
  }

  lemma {:induction false} ServedAppend(a: seq<Send>, b: seq<Send>)
    ensures Served(a + b) == Served(a) + Served(b)
  {
    if a == [] {
      assert a + b == b;
    } else {
      assert (a + b)[1..] == a[1..] + b;
      ServedAppend(a[1..], b);
    }
  }

  lemma {:induction false} LoopIsFair(peers: seq<Frame>, queue: seq<Frame>, inps: seq<FrontInput>)
    ensures var r := FrontLoop(peers, queue, inps); Served(r.1) + r.0 == queue
    decreases |inps|
  {
    if queue != [] && inps != [] {
      var r := FrontStep(peers, queue, inps[0]);
      LoopIsFair(peers, r.0, inps[1..]);
      var rest := FrontLoop(peers, r.0, inps[1..]);
      assert ([r.1] + rest.1)[1..] == rest.1;
      assert queue == [queue[0]] + queue[1..];
    }
  }

  /** Over every sequence of turns the workers are served in the order in which they reported. */
  lemma {:induction false} ServedInOrder(peers: seq<Frame>, queue: seq<Frame>, turns: seq<Turn>)
    requires GoodTurns(turns)
    ensures var r := Turns(peers, queue, turns); Served(r.1) + r.0 == queue + Reporters(turns)
    decreases |turns|
  {
    if turns != [] {
      hide OneTurn, Served;
      var r := OneTurn(peers, queue, turns[0]);
      var rest := Turns(peers, r.0, turns[1..]);
      ServedInOrder(peers, r.0, turns[1..]);
      OneTurnServes(peers, queue, turns[0]);
      ServedAppend(r.1, rest.1);
      var one := if turns[0].back.FromWorker? then [turns[0].back.msg[0]] else [];
      Rejoined(Served(r.1), r.0, Served(rest.1), rest.0, queue, one, Reporters(turns[1..]));
    } else {
      assert Served([]) == [];
    }
  }

  lemma OneTurnServes(peers: seq<Frame>, queue: seq<Frame>, turn: Turn)
    requires GoodBack(turn.back)
    ensures var r := OneTurn(peers, queue, turn);
            Served(r.1) + r.0 == queue + if turn.back.FromWorker? then [turn.back.msg[0]] else []
  {
    var b := BackStep(peers, queue, turn.back);
    var f := FrontLoop(peers, b.0, turn.fronts);
    BackServesNobody(peers, queue, turn.back);
    LoopIsFair(peers, b.0, turn.fronts);
    hide BackStep, FrontLoop, Served;
    ServedAppend(if b.1.Some? then [b.1.value] else [], f.1);
  }

  lemma BackServesNobody(peers: seq<Frame>, queue: seq<Frame>, inp: BackInput)
    requires GoodBack(inp)
    ensures var b := BackStep(peers, queue, inp);
            && b.0 == queue + (if inp.FromWorker? then [inp.msg[0]] else [])
            && Served(if b.1.Some? then [b.1.value] else []) == []
  {
    var b := BackStep(peers, queue, inp);
    assert b.1.Some? ==> [b.1.value][1..] == [];
  }

  /** How many of the first messages went to workers of this broker. */
  function ToWorkers(sends: seq<Send>): nat {
    |Served(sends)|
  }

  /**
   * What the inner loop does with the frontend messages: it takes them in order until the workers run out;
   * a client's message with a valid detour goes to that peer, every other one to the worker whose turn it
   * is, and both arrive as they came under the frames pushed on them.
   */
  lemma {:induction false} LoopSends(peers: seq<Frame>, queue: seq<Frame>, inps: seq<FrontInput>, i: nat)
    requires i < |FrontLoop(peers, queue, inps).1|
    ensures var r := FrontLoop(peers, queue, inps); var snd := r.1[i];
            && |r.1| <= |inps| && (r.0 != [] ==> |r.1| == |inps|) && ToWorkers(r.1[..i]) <= |queue|
            && if inps[i].FromClient? && inps[i].detour.Some? && inps[i].detour.value < |peers|
               then snd == Send(CloudBe, [peers[inps[i].detour.value]] + inps[i].msg)
               else ToWorkers(r.1[..i]) < |queue|
                    && snd == Send(LocalBe, [queue[ToWorkers(r.1[..i])], []] + inps[i].msg)
    decreases |inps|
  {
    var r := FrontStep(peers, queue, inps[0]);
    var all, rest := FrontLoop(peers, queue, inps), FrontLoop(peers, r.0, inps[1..]);
    LoopCounts(peers, queue, inps);
    if i > 0 {
      LoopSends(peers, r.0, inps[1..], i - 1);
      assert all.1[..i] == [r.1] + rest.1[..i - 1];
      assert all.1[..i][1..] == rest.1[..i - 1];
    } else {
      assert all.1[..0] == [];
    }
  }

  lemma {:induction false} LoopCounts(peers: seq<Frame>, queue: seq<Frame>, inps: seq<FrontInput>)
    ensures var r := FrontLoop(peers, queue, inps);
            |r.1| <= |inps| && (r.0 != [] ==> |r.1| == |inps|)
    decreases |inps|
  {
    if queue != [] && inps != [] {
      LoopCounts(peers, FrontStep(peers, queue, inps[0]).0, inps[1..]);
    }
  }

  /**
   * The conditions on names are exact. A local reply reaches the clients iff its client is named neither
   * like a peer nor like READY.
   */
  lemma LocalReplyHomeIff(peers: seq<Frame>, queue: seq<Frame>, w: Frame, client: Frame, body: Frame)
    ensures BackStep(peers, queue, FromWorker([w, [], client, [], body])).1 == Some(Send(LocalFe, [client, [], body]))
            <==> client !in peers && !StartsWith(client, WORKER_READY[0])
  {
    assert Unwrapped([w, [], client, [], body]) == [client, [], body];
  }

  /** Where a worker's message takes a broker's packets. */
  function AfterReply(cfg: Config, at: Frame, queue: seq<Frame>, m: Msg, o: Option<Origin>, hops: nat): seq<Packet>
    requires at in cfg.peers && at in cfg.clients && at in cfg.workers && HasContent(m)
  {
    var snd := BackStep(cfg.peers[at], queue, FromWorker(m)).1;
    if snd.Some? then Transport(cfg, at, snd.value, o, hops) else []
  }

  /**
   * A lent worker's reply gets back to the broker that asked iff that is not named like READY and both
   * ends know the link.
   */
  lemma RemoteReplyHomeIff(cfg: Config, at: Frame, queue: seq<Frame>, w: Frame, home: Frame, client: Frame, body: Frame,
                           o: Option<Origin>)
    requires at in cfg.peers && at in cfg.clients && at in cfg.workers
    ensures AfterReply(cfg, at, queue, [w, [], home, client, [], body], o, 1)
              == [Packet(home, CloudBeIn, [at, client, [], body], o, 2)]
            <==> !StartsWith(home, WORKER_READY[0])
                 && home in cfg.peers[at] && home in cfg.peers && at in cfg.peers[home]
  {
    assert Unwrapped([w, [], home, client, [], body]) == [home, client, [], body];
    assert [home, client, [], body][1..] == [client, [], body];
    assert [at] + [client, [], body] == [at, client, [], body];
  }
}
