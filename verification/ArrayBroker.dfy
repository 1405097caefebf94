/**
 * The array broker of lbbroker.c: workers in a fixed array that is shifted down after each dispatch,
 * a countdown of clients, and an exit after the last reply. It is proved to hold a FIFO queue, to be
 * a refinement of the list broker up to its exit, and never to fail its assertion in the system.
 */
module ArrayBroker {
  import opened Frames
  import opened Channels
  import opened LoadBalance

  const LETTER_W: Byte := 119

  datatype Status = Running | Finished | AssertFailed
  datatype ArrayResult = ArrayResult(pass: PassResult, left: int, status: Status)

  /** What worker_task sends, as the backend ROUTER delivers it: a READY, or a reply with its envelope. */
  predicate ArrayBack(m: Msg) {
    |m| > 2 && m[1] == [] && if StartsWith(m[2], LETTER_W) then |m| == 3 else |m| == 5 && m[3] == []
  }

  predicate ArrayFront(m: Msg) {
    |m| == 3 && m[1] == []
  }

  predicate GoodPoll(ev: Poll) {
    (ev.back.Some? ==> ArrayBack(ev.back.value)) && (ev.front.Some? ==> ArrayFront(ev.front.value))
  }

  /** One pass of the array broker over the queue that its array stands for. */
  function ArrayPass(limit: nat, queue: seq<Frame>, left: int, ev: Poll): ArrayResult
    requires GoodPoll(ev)
  {
    if ev.back.Some? && |queue| >= limit then ArrayResult(PassResult(queue, None, None), left, AssertFailed)
    else
      var q := if ev.back.Some? then queue + [ev.back.value[0]] else queue;
      var isReply := ev.back.Some? && !StartsWith(ev.back.value[2], LETTER_W);
      var reply := if isReply then Some([ev.back.value[2], [], ev.back.value[4]]) else None;
      var n := if isReply then left - 1 else left;
      if isReply && n == 0 then ArrayResult(PassResult(q, reply, None), n, Finished)
      else if ev.front.Some? && queue != [] then
        var f := ev.front.value;
        ArrayResult(PassResult(q[1..], reply, Some([q[0], [], f[0], [], f[2]])), n, Running)
      else ArrayResult(PassResult(q, reply, None), n, Running)
  }

  // ---- The array ----

  /** The slots hold exactly the queue: its workers in order, then nothing but NULL. */
  predicate Holds(slots: seq<Option<Frame>>, queue: seq<Frame>) {
    && |queue| <= |slots|
    && (forall i :: 0 <= i < |queue| ==> slots[i] == Some(queue[i]))
    && (forall i :: |queue| <= i < |slots| ==> slots[i] == None)
  }

  /** memmove of all slots but the first down by one: the last slot keeps its old content. */
  function Shifted<T>(s: seq<T>): seq<T>
    requires |s| > 0
  {
    s[1..] + [s[|s| - 1]]
  }

  /** DEQUEUE takes the head off the queue exactly when the array was not full. */
  lemma DequeueIsPop(slots: seq<Option<Frame>>, queue: seq<Frame>)
    requires Holds(slots, queue) && queue != []
    ensures Holds(Shifted(slots), queue[1..]) <==> |queue| < |slots|
  {
    var n := |slots| - 1;
    assert Shifted(slots)[n] == slots[n];
    if |queue| < |slots| {
      assert forall i :: 0 <= i < n ==> Shifted(slots)[i] == slots[i + 1];
    }
  }

  class Broker {
    const slots: array<Option<Frame>>
    const limit: nat            // NBR_WORKERS
    var available: nat
    var left: int               // client_nbr
    ghost var queue: seq<Frame>

    ghost predicate Valid()
      reads this, slots
    {
      available == |queue| <= limit < slots.Length && Holds(slots[..], queue)
    }

    constructor (size: nat, limit: nat, clients: nat)
      requires limit < size
      ensures Valid() && queue == [] && left == clients && this.limit == limit && fresh(slots)
    {
      var a := new Option<Frame>[size];
      for i := 0 to size
        invariant forall k :: 0 <= k < i ==> a[k] == None
      {
        a[i] := None;
      }
      slots := a;
      this.limit := limit;
      available, left, queue := 0, clients, [];
    }

    /** The DEQUEUE macro, byte for byte a shift of the slots. */
    method Dequeue()
      requires slots.Length > 0
      modifies slots
      ensures slots[..] == Shifted(old(slots[..]))
    {
      var last := slots.Length - 1;
      for i := 0 to last
        invariant forall k :: 0 <= k < i ==> slots[k] == old(slots[k + 1])
        invariant forall k :: i <= k <= last ==> slots[k] == old(slots[k])
      {
        slots[i] := slots[i + 1];
      }
    }

    method Pass(back: Option<Msg>, front: Option<Msg>)
      returns (status: Status, reply: Option<Msg>, request: Option<Msg>)
      requires Valid() && GoodPoll(Poll(back, front))
      modifies this, slots
      ensures Valid()
      ensures ArrayResult(PassResult(queue, reply, request), left, status)
           == ArrayPass(limit, old(queue), old(left), Poll(back, front))
    {
      reply, request := None, None;
      var polled := available != 0;
      if back.Some? {
        var m := back.value;
        if available >= limit {
          return AssertFailed, None, None;
        }
        slots[available] := Some(m[0]);
        available := available + 1;
        queue := queue + [m[0]];
        if !StartsWith(m[2], LETTER_W) {
          reply := Some([m[2], [], m[4]]);
          left := left - 1;
          if left == 0 {
            return Finished, reply, None;
          }
        }
      }
      if polled && front.Some? {
        var f := front.value;
        var worker := slots[0].value;
        request := Some([worker, [], f[0], [], f[2]]);
        DequeueIsPop(slots[..], queue);
        Dequeue();
        available := available - 1;
        queue := queue[1..];
      }
      status := Running;
    }
  }

  // ---- The two brokers agree ----

  /** The same poll outcome as the list broker would see it: READY is one byte instead of a text. */
  function Recoded(ev: Poll): Poll
    requires GoodPoll(ev)
  {
    if ev.back.Some? && |ev.back.value| == 3 then ev.(back := Some([ev.back.value[0], [], [1]])) else ev
  }

  /** The frame after the envelope of a reply is a client identity, and no identity looks like "\001". */
  predicate FairPoll(ev: Poll) {
    GoodPoll(ev) && (ev.back.Some? ==> !StartsWith(ev.back.value[2], 1) && |ev.back.value[2]| > 0)
  }

  /** The messages a pass sends, in order. */
  function Emitted(r: PassResult): seq<Msg> {
    (if r.toFront.Some? then [r.toFront.value] else []) + (if r.toBack.Some? then [r.toBack.value] else [])
  }

  predicate FairPolls(evs: seq<Poll>) {
    evs == [] || (FairPoll(evs[0]) && FairPolls(evs[1..]))
  }

  function ListRun(queue: seq<Frame>, evs: seq<Poll>): seq<Msg>
    requires FairPolls(evs)
    decreases |evs|
  {
    if |evs| == 0 then [] else
      var r := ListPass(ByteOne, queue, Recoded(evs[0]));
      Emitted(r) + ListRun(r.queue, evs[1..])
  }

  function ArrayRun(limit: nat, queue: seq<Frame>, left: int, evs: seq<Poll>): (seq<Msg>, Status)
    requires FairPolls(evs)
    decreases |evs|
  {
    if |evs| == 0 then ([], Running) else
      var r := ArrayPass(limit, queue, left, evs[0]);
      if !r.status.Running? then (Emitted(r.pass), r.status) else
        var rest := ArrayRun(limit, r.pass.queue, r.left, evs[1..]);
        (Emitted(r.pass) + rest.0, rest.1)
  }

  /** What the array broker misses when it leaves its loop: a request that the same poll reported. */
  predicate LeavesRequest(queue: seq<Frame>, ev: Poll, r: ArrayResult) {
    r.status.Finished? && ev.front.Some? && queue != []
  }

  /**
   * One pass: both brokers end with the same queue and the same messages if and only if the array broker's
   * assertion holds and it does not exit in front of a request. What it sends is always a prefix.
   */
  lemma PassesAgree(limit: nat, queue: seq<Frame>, left: int, ev: Poll)
    requires FairPoll(ev)
    ensures var a, l := ArrayPass(limit, queue, left, ev), ListPass(ByteOne, queue, Recoded(ev));
            && (a.status.AssertFailed? <==> ev.back.Some? && |queue| >= limit)
            && (a.pass == l <==> !a.status.AssertFailed? && !LeavesRequest(queue, ev, a))
            && Emitted(a.pass) <= Emitted(l)
            && (a.status.Finished? ==> (Emitted(a.pass) == Emitted(l) <==> !LeavesRequest(queue, ev, a)))
  {
    var a, l := ArrayPass(limit, queue, left, ev), ListPass(ByteOne, queue, Recoded(ev));
    if ev.back.Some? {
      var m := Recoded(ev).back.value;
      assert Unwrapped(m) == m[2..];
      if |m| == 5 {
        assert m[2..] == [m[2], [], m[4]];
      }
    }
    if ev.front.Some? {
      var f := ev.front.value;
      assert forall q: Frame :: Wrap(q, f) == [q, [], f[0], [], f[2]];
    }
  }

  /** For instance, a poll with the last reply and one more request: only the list broker takes the request. */
  lemma PassesDiverge()
    ensures var ev := Poll(Some([[7], [], [8], [], [5]]), Some([[9], [], [4]]));
            var a, l := ArrayPass(2, [[6]], 1, ev), ListPass(ByteOne, [[6]], Recoded(ev));
            FairPoll(ev) && a.status.Finished? && LeavesRequest([[6]], ev, a)
            && Emitted(a.pass) == [[[8], [], [5]]] && Emitted(l) == [[[8], [], [5]], [[6], [], [9], [], [4]]]
  {
    var m := [[7], [], [8], [], [5]];
    assert Unwrapped(m) == m[2..] == [[8], [], [5]];
    assert Wrap([6], [[9], [], [4]]) == [[6], [], [9], [], [4]];
    var both: seq<Frame> := [[6], [7]];
    assert [[6]] + [[7]] == both && both[1..] == [[7]];
  }

  /**
   * lbbroker2 claims "identical functionality": on every sequence of poll outcomes the array broker
   * sends what the list broker sends, message for message, for as long as it keeps running.
   */
  lemma {:induction false} TwoBrokersAgree(limit: nat, queue: seq<Frame>, left: int, evs: seq<Poll>)
    requires FairPolls(evs)
    ensures var a := ArrayRun(limit, queue, left, evs);
            && a.0 <= ListRun(queue, evs)
            && (a.1.Running? ==> a.0 == ListRun(queue, evs))
    decreases |evs|
  {
    if evs != [] {
      var r := ArrayPass(limit, queue, left, evs[0]);
      PassesAgree(limit, queue, left, evs[0]);
      if r.status.Running? {
        TwoBrokersAgree(limit, r.pass.queue, r.left, evs[1..]);
      }
    }
  }

  /** How many polls the array broker reads before it stops, the last one included. */
  function PollsRead(limit: nat, queue: seq<Frame>, left: int, evs: seq<Poll>): (n: nat)
    requires FairPolls(evs)
    ensures n <= |evs|
    decreases |evs|
  {
    if |evs| == 0 then 0 else
      var r := ArrayPass(limit, queue, left, evs[0]);
      1 + if r.status.Running? then PollsRead(limit, r.pass.queue, r.left, evs[1..]) else 0
  }

  /** The poll in which the array broker stops reports a request that it leaves unread. */
  predicate LeavesAtExit(limit: nat, queue: seq<Frame>, left: int, evs: seq<Poll>)
    requires FairPolls(evs)
    decreases |evs|
  {
    |evs| > 0 &&
    var r := ArrayPass(limit, queue, left, evs[0]);
    if r.status.Running? then LeavesAtExit(limit, r.pass.queue, r.left, evs[1..]) else LeavesRequest(queue, evs[0], r)
  }

  lemma {:induction false} SomeFairPolls(evs: seq<Poll>, n: nat)
    requires FairPolls(evs) && n <= |evs|
    ensures FairPolls(evs[..n])
  {
    if n > 0 {
      assert evs[..n][1..] == evs[1..][..n - 1];
      SomeFairPolls(evs[1..], n - 1);
    }
  }

  /**
   * Over the polls that an array broker reads up to its exit, the two send the same messages if and only if
   * the last of these polls does not come with a request that the exit leaves unread.
   */
  lemma {:induction false} AgreeUpToExitIff(limit: nat, queue: seq<Frame>, left: int, evs: seq<Poll>)
    requires FairPolls(evs) && FairPolls(evs[..PollsRead(limit, queue, left, evs)])
    requires ArrayRun(limit, queue, left, evs).1.Finished?
    ensures ArrayRun(limit, queue, left, evs).0 == ListRun(queue, evs[..PollsRead(limit, queue, left, evs)])
            <==> !LeavesAtExit(limit, queue, left, evs)
    decreases |evs|
  {
    var n := PollsRead(limit, queue, left, evs);
    var r := ArrayPass(limit, queue, left, evs[0]);
    PassesAgree(limit, queue, left, evs[0]);
    assert evs[..n][0] == evs[0] && evs[..n][1..] == evs[1..][..n - 1];
    hide ArrayPass, ListPass;
    if r.status.Running? {
      SomeFairPolls(evs[1..], n - 1);
      AgreeUpToExitIff(limit, r.pass.queue, r.left, evs[1..]);
      var e, a, l := Emitted(r.pass), ArrayRun(limit, r.pass.queue, r.left, evs[1..]).0,
          ListRun(r.pass.queue, evs[1..][..n - 1]);
      assert e + a == e + l <==> a == l by {
        assert (e + a)[|e|..] == a && (e + l)[|e|..] == l;
      }
    }
  }

  // ---- The array broker in the system ----

  datatype ArrayState = ArrayState(s: State, left: int, status: Status)

  ghost predicate ArrayInit(cfg: Config, a: ArrayState) {
    Init(cfg, a.s) && a.left == |cfg.clients| && a.status == Running
  }

  ghost predicate ArrayEnabled(cfg: Config, a: ArrayState, step: Step) {
    && Enabled(cfg, a.s, step)
    && (step.BrokerPass? ==>
          a.status == Running && GoodPoll(Poll(Pick(a.s.backIn, step.back), Pick(a.s.frontIn, step.front))))
  }

  /** The list step that an array step amounts to: when it exits, the frontend is not served. */
  ghost function ListStep(cfg: Config, a: ArrayState, step: Step): Step
    requires ArrayEnabled(cfg, a, step)
  {
    if step.BrokerPass? && PassOf(cfg, a, step).status.Finished? then BrokerPass(step.back, None) else step
  }

  ghost function PassOf(cfg: Config, a: ArrayState, step: Step): ArrayResult
    requires ArrayEnabled(cfg, a, step) && step.BrokerPass?
  {
    ArrayPass(|cfg.workers|, a.s.queue, a.left, Poll(Pick(a.s.backIn, step.back), Pick(a.s.frontIn, step.front)))
  }

  ghost function ArrayApply(cfg: Config, a: ArrayState, step: Step): ArrayState
    requires ArrayEnabled(cfg, a, step)
  {
    if !step.BrokerPass? then a.(s := Apply(cfg, a.s, step)) else
      var r := PassOf(cfg, a, step);
      if r.status.AssertFailed? then a.(status := AssertFailed)
      else
        var front := if r.status.Finished? then None else step.front;
        ArrayState(AfterPass(cfg, a.s, step.back, front, r.pass), r.left, r.status)
  }

  ghost predicate ArrayNext(cfg: Config, a: ArrayState, b: ArrayState) {
    exists step :: ArrayEnabled(cfg, a, step) && b == ArrayApply(cfg, a, step)
  }

  ghost predicate ArraySystemRun(cfg: Config, run: seq<ArrayState>) {
    |run| > 0
    && if |run| == 1 then ArrayInit(cfg, run[0])
       else ArraySystemRun(cfg, Front(run)) && ArrayNext(cfg, Last(Front(run)), Last(run))
  }

  ghost predicate Relayed(cfg: Config, a: ArrayState) {
    && a.left + |a.s.toClient| + |a.s.answered| == |cfg.clients|
    && (a.status.Finished? ==> a.left == 0)
    && (a.status.Running? ==> a.left > 0 || cfg.clients == {})
  }

  ghost predicate ArrayInv(cfg: Config, a: ArrayState) {
    Inv(cfg, a.s) && !a.status.AssertFailed? && Relayed(cfg, a)
  }

  /** The pigeonhole behind assert(available_workers<NBR_WORKERS): whoever is signalling is not queued. */
  lemma RoomForOneMore(cfg: Config, s: State, i: nat)
    requires Inv(cfg, s) && i < |s.backIn|
    ensures |s.queue| < |cfg.workers|
  {
    hide Sum, ClientCount;
    assert BackShape(cfg, s.backIn[i]);
    SumPull(HeadOf, s.backIn, i);
    var w := s.backIn[i][0];
    forall k
      ensures (multiset(s.queue) + multiset{w})[k] <= multiset(cfg.workers)[k]
    {
      assert WorkerCount(s, k) == if k in cfg.workers then 1 else 0;
    }
    SmallerBag(multiset(s.queue) + multiset{w}, multiset(cfg.workers));
  }

  lemma PassRefines(cfg: Config, a: ArrayState, step: Step)
    requires cfg.Valid() && cfg.enc == LetterW && Inv(cfg, a.s) && ArrayEnabled(cfg, a, step) && step.BrokerPass?
    ensures !PassOf(cfg, a, step).status.AssertFailed?
    ensures Enabled(cfg, a.s, ListStep(cfg, a, step))
    ensures ArrayApply(cfg, a, step).s == Apply(cfg, a.s, ListStep(cfg, a, step))
  {
    hide Sum, Without, WorkerCount, ClientCount;
    var r := PassOf(cfg, a, step);
    if step.back.Some? {
      RoomForOneMore(cfg, a.s, step.back.value);
      var m := a.s.backIn[step.back.value];
      assert BackShape(cfg, m);
      assert Unwrapped(m) == m[2..];
      if |m| == 5 {
        assert m[2..] == [m[2], [], m[4]];
      }
    }
    if step.front.Some? {
      var f := a.s.frontIn[step.front.value];
      assert forall q: Frame :: Wrap(q, f) == [q, [], f[0], [], f[2]];
    }
  }

  /** The backend and frontend messages of the system always have the frames that the array broker reads. */
  lemma GuardFollows(cfg: Config, a: ArrayState, step: Step)
    requires cfg.Valid() && cfg.enc == LetterW && Inv(cfg, a.s)
    ensures ArrayEnabled(cfg, a, step) <==> Enabled(cfg, a.s, step) && (step.BrokerPass? ==> a.status == Running)
  {
    hide Sum, WorkerCount, ClientCount;
    if Enabled(cfg, a.s, step) && step.BrokerPass? {
      if step.back.Some? {
        assert BackShape(cfg, a.s.backIn[step.back.value]);
      }
      if step.front.Some? {
        assert FrontShape(cfg, a.s.frontIn[step.front.value]);
      }
    }
  }

  /**
   * A request that waits at the frontend and a reply that waits at the backend belong to two clients not
   * yet answered.
   */
  lemma TwoUnanswered(cfg: Config, s: State, b: nat, f: nat)
    requires cfg.Valid() && Inv(cfg, s) && b < |s.backIn| && |s.backIn[b]| == 5 && f < |s.frontIn|
    ensures |s.toClient| + |s.answered| + 2 <= |cfg.clients|
  {
    hide Sum, WorkerCount;
    assert BackShape(cfg, s.backIn[b]) && FrontShape(cfg, s.frontIn[f]);
    SumPull(ClientInBack, s.backIn, b);
    SumPull(HeadOf, s.frontIn, f);
    var c, d := s.backIn[b][2], s.frontIn[f][0];
    var relayed := Sum(PeerOf, s.toClient) + s.answered;
    forall k
      ensures (relayed + multiset{c, d})[k] <= multiset(cfg.clients)[k]
    {
      assert ClientCount(s, k) == if k in cfg.clients then 1 else 0;
    }
    ParcelBagSize(s.toClient);
    SmallerBag(relayed + multiset{c, d}, multiset(cfg.clients));
  }

  /** In the system the last reply never comes together with a request: the exiting pass leaves nothing unread. */
  lemma ExitPassHasNoRequest(cfg: Config, a: ArrayState, step: Step)
    requires cfg.Valid() && cfg.enc == LetterW && ArrayInv(cfg, a) && ArrayEnabled(cfg, a, step) && step.BrokerPass?
    requires PassOf(cfg, a, step).status.Finished?
    ensures step.front.None?
  {
    if step.front.Some? {
      TwoUnanswered(cfg, a.s, step.back.value, step.front.value);
    }
  }

  /** So every pass of the array system, the exiting one included, is the list broker's own step. */
  lemma SystemPassesAgree(cfg: Config, a: ArrayState, step: Step)
    requires cfg.Valid() && cfg.enc == LetterW && ArrayInv(cfg, a) && ArrayEnabled(cfg, a, step)
    ensures ArrayApply(cfg, a, step).s == Apply(cfg, a.s, step)
  {
    hide ArrayPass, ListPass, Sum, Without;
    if step.BrokerPass? {
      PassRefines(cfg, a, step);
      if PassOf(cfg, a, step).status.Finished? {
        ExitPassHasNoRequest(cfg, a, step);
      }
    }
  }

  /** The list broker's view of a run of the array system. */
  ghost function ListView(run: seq<ArrayState>): (states: seq<State>)
    ensures |states| == |run| && forall i :: 0 <= i < |run| ==> states[i] == run[i].s
  {
    seq(|run|, i requires 0 <= i < |run| => run[i].s)
  }

  /** Over whole runs: what the array broker's system does is, state for state, a run of the list broker's. */
  lemma {:induction false} RunsAgree(cfg: Config, run: seq<ArrayState>)
    requires cfg.Valid() && cfg.enc == LetterW && ArraySystemRun(cfg, run)
    ensures Run(cfg, ListView(run))
  {
    hide ArrayInv, ArrayApply, ArrayEnabled, Apply, Enabled, Init;
    if |run| > 1 {
      RunsAgree(cfg, Front(run));
      NeverAssertFails(cfg, Front(run));
      var a, b := Last(Front(run)), Last(run);
      var step :| ArrayEnabled(cfg, a, step) && b == ArrayApply(cfg, a, step);
      SystemPassesAgree(cfg, a, step);
      assert Enabled(cfg, a.s, step) by { EnabledInList(cfg, a, step); }
      assert Front(ListView(run)) == ListView(Front(run));
      assert Next(cfg, a.s, b.s);
    } else {
      assert Init(cfg, run[0].s) by { StartsAlike(cfg, run[0]); }
    }
  }

  lemma EnabledInList(cfg: Config, a: ArrayState, step: Step)
    requires ArrayEnabled(cfg, a, step)
    ensures Enabled(cfg, a.s, step)
  {
  }

  lemma StartsAlike(cfg: Config, a: ArrayState)
    requires ArrayInit(cfg, a)
    ensures Init(cfg, a.s)
  {
  }

  /** Every step of the array system is a step of the list system, so all its invariants carry over. */
  lemma ArrayRefinesList(cfg: Config, a: ArrayState, step: Step)
    requires cfg.Valid() && cfg.enc == LetterW && Inv(cfg, a.s) && ArrayEnabled(cfg, a, step)
    ensures Next(cfg, a.s, ArrayApply(cfg, a, step).s) && Inv(cfg, ArrayApply(cfg, a, step).s)
  {
    hide Inv, Apply, Enabled;
    if step.BrokerPass? {
      PassRefines(cfg, a, step);
      StepKeepsInv(cfg, a.s, ListStep(cfg, a, step));
    } else {
      StepKeepsInv(cfg, a.s, step);
    }
  }

  /** The countdown and the exit go by the replies that a pass relays. */
  lemma PassCountsDown(cfg: Config, a: ArrayState, step: Step)
    requires cfg.Valid() && cfg.enc == LetterW && Inv(cfg, a.s) && ArrayEnabled(cfg, a, step) && step.BrokerPass?
    ensures var r := PassOf(cfg, a, step); var n := |Route(cfg.clients, r.pass.toFront)|;
            && !r.status.AssertFailed? && r.left == a.left - n
            && (r.status.Finished? <==> n > 0 && r.left == 0)
  {
    hide Sum, WorkerCount, ClientCount;
    PassRefines(cfg, a, step);
    if step.back.Some? {
      assert BackShape(cfg, a.s.backIn[step.back.value]);
    }
  }

  /** A pass counts the countdown down by the number of replies that it relays. */
  lemma PassKeepsRelayed(cfg: Config, a: ArrayState, step: Step)
    requires cfg.Valid() && cfg.enc == LetterW && ArrayInv(cfg, a) && ArrayEnabled(cfg, a, step) && step.BrokerPass?
    ensures Relayed(cfg, ArrayApply(cfg, a, step)) && !ArrayApply(cfg, a, step).status.AssertFailed?
  {
    PassCountsDown(cfg, a, step);
    hide Inv, Without, Removed, PassOf, Route, Enabled;
  }

  lemma OtherStepKeepsRelayed(cfg: Config, a: ArrayState, step: Step)
    requires cfg.Valid() && cfg.enc == LetterW && ArrayInv(cfg, a) && ArrayEnabled(cfg, a, step) && !step.BrokerPass?
    ensures Relayed(cfg, ArrayApply(cfg, a, step)) && !ArrayApply(cfg, a, step).status.AssertFailed?
  {
    if step.ClientReceives? {
      assert ClientShape(cfg, a.s.toClient[step.i]);
    }
    hide Inv;
  }

  lemma StepKeepsRelayed(cfg: Config, a: ArrayState, step: Step)
    requires cfg.Valid() && cfg.enc == LetterW && ArrayInv(cfg, a) && ArrayEnabled(cfg, a, step)
    ensures ArrayInv(cfg, ArrayApply(cfg, a, step))
  {
    ArrayRefinesList(cfg, a, step);
    if step.BrokerPass? {
      PassKeepsRelayed(cfg, a, step);
    } else {
      OtherStepKeepsRelayed(cfg, a, step);
    }
    hide Inv, Relayed, ArrayApply, ArrayEnabled;
  }

  lemma ArrayInitInv(cfg: Config, a: ArrayState)
    requires ArrayInit(cfg, a)
    ensures ArrayInv(cfg, a)
  {
    InitInv(cfg, a.s);
    assert |cfg.clients| == 0 ==> cfg.clients == {};
  }

  /** The assertion on available_workers holds in every run, and the countdown is exact. */
  lemma {:induction false} NeverAssertFails(cfg: Config, run: seq<ArrayState>)
    requires cfg.Valid() && cfg.enc == LetterW && ArraySystemRun(cfg, run)
    ensures ArrayInv(cfg, Last(run))
  {
    hide ArrayInv, ArrayApply, ArrayEnabled, Init;
    if |run| == 1 {
      ArrayInitInv(cfg, run[0]);
    } else {
      NeverAssertFails(cfg, Front(run));
      var a, b := Last(Front(run)), Last(run);
      var step :| ArrayEnabled(cfg, a, step) && b == ArrayApply(cfg, a, step);
      StepKeepsRelayed(cfg, a, step);
    }
  }

  lemma {:induction false} ParcelBagSize(s: seq<Parcel>)
    ensures |Sum(PeerOf, s)| == |s|
  {
    if s != [] {
      ParcelBagSize(s[..|s| - 1]);
    }
  }

  /** The broker exits exactly when one reply has been relayed to each client: no work is cut off. */
  lemma ExitMeansAllRelayed(cfg: Config, a: ArrayState)
    requires ArrayInv(cfg, a) && a.status.Finished?
    ensures Sum(PeerOf, a.s.toClient) + a.s.answered == multiset(cfg.clients)
  {
    hide Sum, Shapes, WorkerCount;
    var relayed := Sum(PeerOf, a.s.toClient) + a.s.answered;
    forall c
      ensures relayed[c] <= multiset(cfg.clients)[c]
    {
      assert ClientCount(a.s, c) == if c in cfg.clients then 1 else 0;
    }
    ParcelBagSize(a.s.toClient);
    SmallerBag(relayed, multiset(cfg.clients));
  }

  /** And then no request is left anywhere: none unsent, unread, at a worker, or answered but not relayed. */
  lemma ExitLeavesNothing(cfg: Config, a: ArrayState)
    requires cfg.Valid() && ArrayInv(cfg, a) && a.status.Finished?
    ensures a.s.unsent == {} && a.s.frontIn == [] && a.s.toWorker == [] && a.s.atWorker == []
    ensures forall m :: m in a.s.backIn ==> |m| == 3
  {
    hide Sum, WorkerCount;
    var s := a.s;
    ExitMeansAllRelayed(cfg, a);
    assert forall c :: (Sum(PeerOf, s.toClient) + s.answered)[c] == if c in cfg.clients then 1 else 0;
    assert forall c :: OffTheWay(s, c) by {
      forall c
        ensures OffTheWay(s, c)
      {
        assert ClientCount(s, c) == if c in cfg.clients then 1 else 0;
      }
    }
    hide ClientCount;
    NothingLeft(cfg, s);
  }

  /** Client c has neither a request nor a reply before the relay. */
  ghost predicate OffTheWay(s: State, c: Frame) {
    c !in s.unsent && Sum(HeadOf, s.frontIn)[c] == 0 && Sum(ClientToWorker, s.toWorker)[c] == 0
    && Sum(ClientAtWorker, s.atWorker)[c] == 0 && Sum(ClientInBack, s.backIn)[c] == 0
  }

  lemma {:induction false} Carried<T>(f: T -> multiset<Frame>, ch: seq<T>, i: nat, c: Frame)
    requires i < |ch| && c in f(ch[i])
    ensures Sum(f, ch)[c] > 0
  {
    SumPull(f, ch, i);
  }

  lemma NothingLeft(cfg: Config, s: State)
    requires Shapes(cfg, s) && forall c :: OffTheWay(s, c)
    ensures s.unsent == {} && s.frontIn == [] && s.toWorker == [] && s.atWorker == []
    ensures forall m :: m in s.backIn ==> |m| == 3
  {
    hide Sum;
    if s.frontIn != [] {
      assert FrontShape(cfg, s.frontIn[0]);
      var c := s.frontIn[0][0];
      assert OffTheWay(s, c);
      Carried(HeadOf, s.frontIn, 0, c);
    }
    if s.toWorker != [] {
      assert WorkerShape(cfg, s.toWorker[0]);
      var c := s.toWorker[0].msg[1];
      assert OffTheWay(s, c);
      Carried(ClientToWorker, s.toWorker, 0, c);
    }
    if s.atWorker != [] {
      assert HeldShape(cfg, s.atWorker[0]);
      var c := s.atWorker[0].msg[0];
      assert OffTheWay(s, c);
      Carried(ClientAtWorker, s.atWorker, 0, c);
    }
    forall m | m in s.backIn
      ensures |m| == 3
    {
      var i :| 0 <= i < |s.backIn| && s.backIn[i] == m;
      assert BackShape(cfg, m);
      if |m| == 5 {
        assert OffTheWay(s, m[2]);
        Carried(ClientInBack, s.backIn, i, m[2]);
      }
    }
    assert forall c :: c in s.unsent ==> !OffTheWay(s, c);
  }

  /** The countdown is exact: one for each reply relayed, and the loop is left at zero, never earlier or later. */
  lemma ExitsAfterLastReply(cfg: Config, a: ArrayState)
    requires ArrayInv(cfg, a) && cfg.clients != {}
    ensures |Sum(PeerOf, a.s.toClient) + a.s.answered| == |cfg.clients| - a.left
    ensures a.status.Finished? <==> |Sum(PeerOf, a.s.toClient) + a.s.answered| == |cfg.clients|
  {
    ParcelBagSize(a.s.toClient);
  }

  /** Although it exits, every maximal run of the array broker's system answers every client once. */
  lemma {:induction false} ArrayMaximalRunAnswersAll(cfg: Config, run: seq<ArrayState>)
    requires cfg.Valid() && cfg.enc == LetterW && cfg.workers != {} && ArraySystemRun(cfg, run)
    requires forall b :: !ArrayNext(cfg, Last(run), b)
    ensures Last(run).s.answered == multiset(cfg.clients)
  {
    hide ArrayApply, ArrayInv, Sum;
    var a := Last(run);
    NeverAssertFails(cfg, run);
    ArrayProgress(cfg, a);
  }

  lemma ArrayProgress(cfg: Config, a: ArrayState)
    requires cfg.Valid() && cfg.enc == LetterW && cfg.workers != {} && ArrayInv(cfg, a)
    ensures a.s.answered == multiset(cfg.clients) || exists b :: ArrayNext(cfg, a, b)
  {
    hide ArrayApply, Sum, Inv, SomeStep, WorkerCount, ClientCount;
    if a.status.Running? {
      var step := SomeStep(a.s);
      if Enabled(cfg, a.s, step) {
        GuardFollows(cfg, a, step);
        assert ArrayNext(cfg, a, ArrayApply(cfg, a, step));
      } else {
        AllQuiet(cfg, a.s);
      }
    } else if a.s.toClient == [] {
      ExitMeansAllRelayed(cfg, a);
      assert Sum(PeerOf, a.s.toClient) == multiset{} by { ParcelBagSize(a.s.toClient); }
    } else {
      assert ArrayEnabled(cfg, a, ClientReceives(0));
      assert ArrayNext(cfg, a, ArrayApply(cfg, a, ClientReceives(0)));
    }
  }
}
