/**
 * What one pass of the Paranoid Pirate queue (src/ppq/queue.c) computes, and what every run keeps:
 * distinct workers in order of expiry, so that purging from the front is a full purge.
 */
module QueueSpec {
  import opened Frames

  const READY: Frame := [1]
  const HEARTBEAT: Frame := [2]
  const INTERVAL: int := 1000
  const LIVENESS: int := 3

  datatype Entry = Entry(id: Frame, expiry: int)

  /**
   * The clock readings of one pass: in _worker_new, at the heartbeat test, when rearming, and the last
   * one of the purge.
   */
  datatype Clocks = Clocks(ready: int, check: int, rearm: int, purge: int)

  datatype Input = Input(back: Option<Msg>, front: Option<Msg>)
  datatype QState = QState(workers: seq<Entry>, heartbeatAt: int)
  datatype Output = Output(toFront: Option<Msg>, toBack: Option<Msg>, beats: seq<Msg>)

  // ---- The list operations ----

  function RemoveFirst(q: seq<Entry>, id: Frame): seq<Entry> {
    if q == [] then [] else if q[0].id == id then q[1..] else [q[0]] + RemoveFirst(q[1..], id)
  }

  /** _worker_ready: a worker that is already listed moves to the end with its new expiry. */
  function Ready(q: seq<Entry>, e: Entry): seq<Entry> {
    RemoveFirst(q, e.id) + [e]
  }

  /** _worker_purge stops at the first worker that is still alive at time t. */
  function DropFront(q: seq<Entry>, t: int): seq<Entry> {
    if q != [] && q[0].expiry <= t then DropFront(q[1..], t) else q
  }

  /** A purge that looks at every worker. */
  function Live(q: seq<Entry>, t: int): seq<Entry> {
    if q == [] then [] else if q[0].expiry > t then [q[0]] + Live(q[1..], t) else Live(q[1..], t)
  }

  function Beats(q: seq<Entry>): (ms: seq<Msg>)
    ensures |ms| == |q| && forall i :: 0 <= i < |q| ==> ms[i] == [q[i].id, HEARTBEAT]
  {
    if q == [] then [] else [[q[0].id, HEARTBEAT]] + Beats(q[1..])
  }

  /** The backend always hands over at least the identity frame. */
  predicate GoodInput(inp: Input) {
    inp.back.Some? ==> |inp.back.value| > 0
  }

  /** The list after backend activity, and what is forwarded: one-frame messages are only signs of life. */
  function AfterBack(q: seq<Entry>, back: Option<Msg>, ready: int): (seq<Entry>, Option<Msg>)
    requires back.Some? ==> |back.value| > 0
  {
    if back.None? then (q, None) else
      var rest := Unwrapped(back.value);
      (Ready(q, Entry(back.value[0], ready + INTERVAL * LIVENESS)), if |rest| == 1 then None else Some(rest))
  }

  /** The list at the time of the heartbeat test: backend activity, then a dispatch if the frontend was polled. */
  function AfterFront(q: seq<Entry>, inp: Input, ready: int): seq<Entry>
    requires GoodInput(inp)
  {
    var q1 := AfterBack(q, inp.back, ready).0;
    if inp.front.Some? && q != [] then (assert |q1| > 0; q1[1..]) else q1
  }

  function Pass(s: QState, inp: Input, c: Clocks): (QState, Output)
    requires GoodInput(inp)
  {
    var q := s.workers;
    var b := AfterBack(q, inp.back, c.ready);
    var dispatched := inp.front.Some? && q != [];
    var q2 := AfterFront(q, inp, c.ready);
    var fires := c.check >= s.heartbeatAt;
    (QState(DropFront(q2, c.purge), if fires then c.rearm + INTERVAL else s.heartbeatAt),
     Output(b.1, if dispatched then (assert |b.0| > 0; Some([b.0[0].id] + inp.front.value)) else None,
            if fires then Beats(q2) else []))
  }

  // ---- Invariants of the list ----

  predicate Distinct(q: seq<Entry>) {
    forall i, j :: 0 <= i < j < |q| ==> q[i].id != q[j].id
  }

  predicate Sorted(q: seq<Entry>) {
    forall i, j :: 0 <= i < j < |q| ==> q[i].expiry <= q[j].expiry
  }

  predicate AllLive(q: seq<Entry>, now: int) {
    forall i :: 0 <= i < |q| ==> now < q[i].expiry <= now + INTERVAL * LIVENESS
  }

  /** What holds between passes; now is the last reading of the clock. */
  predicate QInv(s: QState, now: int) {
    Distinct(s.workers) && Sorted(s.workers) && AllLive(s.workers, now) && s.heartbeatAt <= now + INTERVAL
  }

  /** In a list of distinct workers, RemoveFirst takes out id and nothing else. */
  lemma {:induction false} RemoveFirstMembers(q: seq<Entry>, id: Frame)
    requires Distinct(q)
    ensures forall e :: e in RemoveFirst(q, id) <==> e in q && e.id != id
  {
    if q != [] {
      assert q == [q[0]] + q[1..];
      if q[0].id == id {
        assert forall e :: e in q[1..] ==> e.id != id;
      } else {
        RemoveFirstMembers(q[1..], id);
      }
    }
  }

  /** Where id is first found decides what RemoveFirst cuts out. */
  lemma {:induction false} RemoveFirstAt(q: seq<Entry>, id: Frame, i: nat)
    requires i <= |q| && (forall k :: 0 <= k < i ==> q[k].id != id) && (i < |q| ==> q[i].id == id)
    ensures RemoveFirst(q, id) == if i < |q| then q[..i] + q[i + 1..] else q
  {
    if i > 0 {
      var rest := q[1..];
      RemoveFirstAt(rest, id, i - 1);
      assert q == [q[0]] + rest;
      hide RemoveFirst;
      assert i < |q| ==> [q[0]] + rest[..i - 1] == q[..i] && rest[i..] == q[i + 1..];
    }
  }

  function IndexOf(q: seq<Entry>, id: Frame): (i: nat)
    ensures i <= |q| && (forall k :: 0 <= k < i ==> q[k].id != id) && (i < |q| ==> q[i].id == id)
  {
    if q == [] || q[0].id == id then 0 else 1 + IndexOf(q[1..], id)
  }

  lemma RemoveFirstOrder(q: seq<Entry>, id: Frame)
    requires Distinct(q)
    ensures Distinct(RemoveFirst(q, id)) && (Sorted(q) ==> Sorted(RemoveFirst(q, id)))
  {
    hide RemoveFirst;
    var i := IndexOf(q, id);
    RemoveFirstAt(q, id, i);
    var r := RemoveFirst(q, id);
    assert forall k :: 0 <= k < |r| ==> r[k] == q[if k < i then k else k + 1];
  }

  /** After _worker_ready the worker is listed once, last, with its new expiry; the others are as before. */
  lemma ReadyKeeps(q: seq<Entry>, e: Entry)
    requires Distinct(q)
    ensures Distinct(Ready(q, e))
    ensures forall x :: x in Ready(q, e) <==> x == e || (x in q && x.id != e.id)
    ensures Sorted(q) && (forall x :: x in q ==> x.expiry <= e.expiry) ==> Sorted(Ready(q, e))
  {
    RemoveFirstMembers(q, e.id);
    RemoveFirstOrder(q, e.id);
    var r := RemoveFirst(q, e.id);
    assert forall i :: 0 <= i < |r| ==> r[i] in r;
  }

  /** The purge cuts off a front part of the list. */
  lemma {:induction false} DropFrontIsSuffix(q: seq<Entry>, t: int)
    ensures |DropFront(q, t)| <= |q| && DropFront(q, t) == q[|q| - |DropFront(q, t)|..]
    ensures DropFront(q, t) != [] ==> DropFront(q, t)[0].expiry > t
  {
    if q != [] && q[0].expiry <= t {
      DropFrontIsSuffix(q[1..], t);
    }
  }

  lemma {:induction false} DropFrontIs(q: seq<Entry>, t: int, k: nat)
    requires k <= |q| && (forall i :: 0 <= i < k ==> q[i].expiry <= t) && (k < |q| ==> q[k].expiry > t)
    ensures DropFront(q, t) == q[k..]
  {
    if k > 0 {
      DropFrontIs(q[1..], t, k - 1);
    }
  }

  lemma {:induction false} LiveMembers(q: seq<Entry>, t: int)
    ensures forall e :: e in Live(q, t) <==> e in q && e.expiry > t
  {
    if q != [] {
      LiveMembers(q[1..], t);
      assert q == [q[0]] + q[1..];
    }
  }

  lemma {:induction false} AllKept(q: seq<Entry>, t: int)
    requires forall i :: 0 <= i < |q| ==> q[i].expiry > t
    ensures Live(q, t) == q
  {
    if q != [] {
      AllKept(q[1..], t);
    }
  }

  /** The fast purge refines the full one: on a sorted list, stopping at the first live worker misses nobody. */
  lemma {:induction false} PurgeIsFilter(q: seq<Entry>, t: int)
    requires Sorted(q)
    ensures DropFront(q, t) == Live(q, t)
  {
    if q != [] && q[0].expiry <= t {
      PurgeIsFilter(q[1..], t);
    } else {
      AllKept(q, t);
    }
  }

  /** Without the order it can be wrong: an expired worker behind a live one stays. */
  lemma PurgeNeedsOrder()
    ensures var q := [Entry([1], 20), Entry([2], 10)];
            Distinct(q) && DropFront(q, 15) == q && Live(q, 15) == [Entry([1], 20)]
  {
    var q := [Entry([1], 20), Entry([2], 10)];
    assert q[1..] == [Entry([2], 10)];
    assert Live(q[1..], 15) == [];
  }

  // ---- Runs of the queue ----

  /** The readings of a pass come in order, after those of the pass before. */
  predicate InOrder(now: int, c: Clocks) {
    now <= c.ready <= c.check <= c.rearm <= c.purge
  }

  lemma BackKeeps(q: seq<Entry>, back: Option<Msg>, now: int, ready: int)
    requires back.Some? ==> |back.value| > 0
    requires Distinct(q) && Sorted(q) && AllLive(q, now) && now <= ready
    ensures var q1 := AfterBack(q, back, ready).0;
            Distinct(q1) && Sorted(q1) && (q != [] ==> q1 != [])
            && forall i :: 0 <= i < |q1| ==> now < q1[i].expiry <= ready + INTERVAL * LIVENESS
  {
    if back.Some? {
      var e := Entry(back.value[0], ready + INTERVAL * LIVENESS);
      ReadyKeeps(q, e);
      var q1 := Ready(q, e);
      assert forall i :: 0 <= i < |q1| ==> q1[i] in q1;
    }
  }

  lemma PurgeKeeps(q: seq<Entry>, t: int, bound: int)
    requires Distinct(q) && Sorted(q)
    requires forall i :: 0 <= i < |q| ==> q[i].expiry <= bound
    ensures var r := DropFront(q, t);
            Distinct(r) && Sorted(r) && forall i :: 0 <= i < |r| ==> t < r[i].expiry <= bound
  {
    DropFrontIsSuffix(q, t);
  }

  /** Every pass keeps the invariant, and leaves exactly the workers whose expiry is after its last clock reading. */
  lemma PassKeepsInv(s: QState, inp: Input, c: Clocks, now: int)
    requires GoodInput(inp) && QInv(s, now) && InOrder(now, c)
    ensures var t := Pass(s, inp, c).0;
            QInv(t, c.purge) && t.workers == Live(AfterFront(s.workers, inp, c.ready), c.purge)
  {
    var q2 := AfterFront(s.workers, inp, c.ready);
    var bound := c.ready + INTERVAL * LIVENESS;
    assert Distinct(q2) && Sorted(q2) && forall i :: 0 <= i < |q2| ==> q2[i].expiry <= bound by {
      BackKeeps(s.workers, inp.back, now, c.ready);
    }
    hide AfterFront, AfterBack, Live, DropFront, Beats;
    PurgeIsFilter(q2, c.purge);
    PurgeKeeps(q2, c.purge, bound);
  }

  datatype Event = Event(inp: Input, c: Clocks)

  predicate GoodHistory(now: int, h: seq<Event>)
    decreases |h|
  {
    h == [] || (GoodInput(h[0].inp) && InOrder(now, h[0].c) && GoodHistory(h[0].c.purge, h[1..]))
  }

  /** The state after any sequence of passes. */
  function After(s: QState, now: int, h: seq<Event>): QState
    requires GoodHistory(now, h)
    decreases |h|
  {
    if h == [] then s else After(Pass(s, h[0].inp, h[0].c).0, h[0].c.purge, h[1..])
  }

  /** What the passes of a history send. */
  function Outputs(s: QState, now: int, h: seq<Event>): seq<Output>
    requires GoodHistory(now, h)
    decreases |h|
  {
    if h == [] then [] else
      var r := Pass(s, h[0].inp, h[0].c);
      [r.1] + Outputs(r.0, h[0].c.purge, h[1..])
  }

  function EndTime(now: int, h: seq<Event>): int
    decreases |h|
  {
    if h == [] then now else EndTime(h[0].c.purge, h[1..])
  }

  lemma EmptyHistory(s: QState, now: int)
    ensures GoodHistory(now, []) && After(s, now, []) == s && EndTime(now, []) == now && Outputs(s, now, []) == []
  {
  }

  lemma {:induction false} HistorySnoc(s: QState, now: int, h: seq<Event>, e: Event)
    requires GoodHistory(now, h) && GoodInput(e.inp) && InOrder(EndTime(now, h), e.c)
    ensures GoodHistory(now, h + [e]) && EndTime(now, h + [e]) == e.c.purge
    ensures After(s, now, h + [e]) == Pass(After(s, now, h), e.inp, e.c).0
    ensures Outputs(s, now, h + [e]) == Outputs(s, now, h) + [Pass(After(s, now, h), e.inp, e.c).1]
    decreases |h|
  {
    if h == [] {
      assert h + [e] == [e];
      assert [e][1..] == [];
    } else {
      assert (h + [e])[1..] == h[1..] + [e];
      HistorySnoc(Pass(s, h[0].inp, h[0].c).0, h[0].c.purge, h[1..], e);
    }
  }

  /** Starting from an empty list, every run keeps the invariant. */
  lemma {:induction false} RunKeepsInv(s: QState, now: int, h: seq<Event>)
    requires QInv(s, now) && GoodHistory(now, h)
    ensures QInv(After(s, now, h), EndTime(now, h))
    decreases |h|
  {
    if h != [] {
      PassKeepsInv(s, h[0].inp, h[0].c, now);
      RunKeepsInv(Pass(s, h[0].inp, h[0].c).0, h[0].c.purge, h[1..]);
    }
  }

  /** At every point of a run the purge leaves exactly the workers whose expiry is after its last reading. */
  lemma {:induction false} RunPurgesAll(s: QState, now: int, h: seq<Event>, e: Event)
    requires QInv(s, now) && GoodHistory(now, h) && GoodInput(e.inp) && InOrder(EndTime(now, h), e.c)
    ensures GoodHistory(now, h + [e])
    ensures After(s, now, h + [e]).workers == Live(AfterFront(After(s, now, h).workers, e.inp, e.c.ready), e.c.purge)
  {
    hide After, GoodHistory, Pass, AfterFront, Live, QInv, Outputs, EndTime;
    RunKeepsInv(s, now, h);
    HistorySnoc(s, now, h, e);
    PassKeepsInv(After(s, now, h), e.inp, e.c, EndTime(now, h));
  }

  // ---- Who is listed, told from the messages alone ----

  /** The entries of q, in their order, that are alive at time t and whose worker is not in `out`. */
  function Kept(q: seq<Entry>, out: set<Frame>, t: int): seq<Entry> {
    if q == [] then []
    else (if q[0].id !in out && q[0].expiry > t then [q[0]] else []) + Kept(q[1..], out, t)
  }

  lemma {:induction false} KeptMembers(q: seq<Entry>, out: set<Frame>, t: int)
    ensures forall e :: e in Kept(q, out, t) <==> e in q && e.id !in out && e.expiry > t
  {
    if q != [] {
      KeptMembers(q[1..], out, t);
      assert q == [q[0]] + q[1..];
    }
  }

  lemma {:induction false} KeptAppend(q: seq<Entry>, r: seq<Entry>, out: set<Frame>, t: int)
    ensures Kept(q + r, out, t) == Kept(q, out, t) + Kept(r, out, t)
  {
    if q == [] {
      assert q + r == r;
    } else {
      assert (q + r)[1..] == q[1..] + r;
      KeptAppend(q[1..], r, out, t);
    }
  }

  lemma {:induction false} LiveIsKept(q: seq<Entry>, t: int)
    ensures Live(q, t) == Kept(q, {}, t)
  {
    if q != [] {
      LiveIsKept(q[1..], t);
    }
  }

  /** Leaving out a worker who is not there changes nothing. */
  lemma {:induction false} NobodyOut(q: seq<Entry>, out: set<Frame>, id: Frame, t: int)
    requires forall i :: 0 <= i < |q| ==> q[i].id != id
    ensures Kept(q, out + {id}, t) == Kept(q, out, t)
  {
    if q != [] {
      NobodyOut(q[1..], out, id, t);
    }
  }

  lemma {:induction false} RemovedIsKept(q: seq<Entry>, id: Frame, out: set<Frame>, t: int)
    requires Distinct(q)
    ensures Kept(RemoveFirst(q, id), out, t) == Kept(q, out + {id}, t)
  {
    if q != [] {
      if q[0].id == id {
        NobodyOut(q[1..], out, id, t);
      } else {
        RemovedIsKept(q[1..], id, out, t);
        assert ([q[0]] + RemoveFirst(q[1..], id))[1..] == RemoveFirst(q[1..], id);
      }
    }
  }

  /** The worker that an outgoing request is addressed to. */
  function Target(out: Output): set<Frame> {
    if out.toBack.Some? && |out.toBack.value| > 0 then {out.toBack.value[0]} else {}
  }

  /** The worker a backend message came from, and the entry it earns. */
  function Sender(inp: Input): set<Frame> {
    if inp.back.Some? && |inp.back.value| > 0 then {inp.back.value[0]} else {}
  }

  function NewEntry(inp: Input, ready: int): seq<Entry> {
    if inp.back.Some? && |inp.back.value| > 0 then [Entry(inp.back.value[0], ready + 3000)] else []
  }

  /**
   * The list after a pass, from the list before it and the messages of the pass: everybody keeps his place
   * but the sender, who goes last with three seconds to live, and the worker that was given the request,
   * who goes; and then those go who have expired by the last reading of the clock.
   */
  lemma ListAfterPass(s: QState, inp: Input, c: Clocks, now: int)
    requires GoodInput(inp) && QInv(s, now) && InOrder(now, c)
    ensures var r := Pass(s, inp, c);
            r.0.workers == Kept(s.workers, Sender(inp) + Target(r.1), c.purge) + Kept(NewEntry(inp, c.ready),
                Target(r.1), c.purge)
  {
    PassKeepsInv(s, inp, c, now);
    BackKeeps(s.workers, inp.back, now, c.ready);
    var r := Pass(s, inp, c);
    var q1 := AfterBack(s.workers, inp.back, c.ready).0;
    ListAfterSockets(s.workers, q1, inp, c.ready, c.purge, Target(r.1));
    LiveIsKept(AfterFront(s.workers, inp, c.ready), c.purge);
    if inp.front.Some? && s.workers != [] {
      assert Target(r.1) == {q1[0].id};
      assert RemoveFirst(q1, q1[0].id) == q1[1..];
      RemovedIsKept(q1, q1[0].id, {}, c.purge);
      assert {} + {q1[0].id} == {q1[0].id};
    } else {
      assert Target(r.1) == {};
    }
  }

  lemma ListAfterSockets(q: seq<Entry>, q1: seq<Entry>, inp: Input, ready: int, t: int, out: set<Frame>)
    requires GoodInput(inp) && Distinct(q) && q1 == AfterBack(q, inp.back, ready).0
    ensures Kept(q1, out, t) == Kept(q, Sender(inp) + out, t) + Kept(NewEntry(inp, ready), out, t)
  {
    if inp.back.Some? {
      var id := inp.back.value[0];
      KeptAppend(RemoveFirst(q, id), NewEntry(inp, ready), out, t);
      RemovedIsKept(q, id, out, t);
      assert out + {id} == Sender(inp) + out;
    } else {
      assert Sender(inp) + out == out;
    }
  }

  /** The same as a statement about each entry: who is listed after a pass. */
  lemma ListedAfterPassIff(s: QState, inp: Input, c: Clocks, now: int, e: Entry)
    requires GoodInput(inp) && QInv(s, now) && InOrder(now, c)
    ensures var r := Pass(s, inp, c);
            e in r.0.workers
            <==> && e.expiry > c.purge
                 && (r.1.toBack.Some? ==> r.1.toBack.value != [] && e.id != r.1.toBack.value[0])
                 && (if inp.back.Some? && e.id == inp.back.value[0] then e.expiry == c.ready + 3000 else e in s.workers)
  {
    var r := Pass(s, inp, c);
    ListAfterPass(s, inp, c, now);
    KeptMembers(s.workers, Sender(inp) + Target(r.1), c.purge);
    KeptMembers(NewEntry(inp, c.ready), Target(r.1), c.purge);
  }

  /**
   * What a pass sends: a backend message is forwarded without its envelope unless one frame is left of it; a
   * request goes, unchanged, to the first listed worker other than the sender, or to the sender if there is
   * no other; heartbeats and a new deadline exactly when the old one has come.
   */
  lemma PassSends(s: QState, inp: Input, c: Clocks, now: int)
    requires GoodInput(inp) && QInv(s, now) && InOrder(now, c)
    ensures var r := Pass(s, inp, c); var q := s.workers;
            && (r.1.toFront.Some? <==> inp.back.Some? && |Unwrapped(inp.back.value)| != 1)
            && (r.1.toFront.Some? ==> r.1.toFront.value == Unwrapped(inp.back.value))
            && (r.1.toBack.Some? <==> inp.front.Some? && q != [])
            && (r.1.toBack.Some? ==>
                  var d := if !(inp.back.Some? && inp.back.value[0] == q[0].id) then q[0].id
                           else if |q| > 1 then q[1].id else inp.back.value[0];
                  r.1.toBack.value == [d] + inp.front.value)
            && (c.check < s.heartbeatAt ==> r.1.beats == [] && r.0.heartbeatAt == s.heartbeatAt)
            && (c.check >= s.heartbeatAt ==> r.0.heartbeatAt == c.rearm + 1000)
  {
    if inp.back.Some? && inp.front.Some? && s.workers != [] {
      var q, id := s.workers, inp.back.value[0];
      if q[0].id == id {
        assert RemoveFirst(q, id) == q[1..];
      } else {
        assert RemoveFirst(q, id)[0] == q[0];
      }
    }
  }

  /** When worker x last reported, unless it has been given a request since. */
  function LastHeard(h: seq<Event>, outs: seq<Output>, x: Frame): Option<int>
    requires |h| == |outs|
  {
    if h == [] then None else
      var n := |h| - 1;
      if x in Target(outs[n]) then None
      else if x in Sender(h[n].inp) then Some(h[n].c.ready)
      else LastHeard(h[..n], outs[..n], x)
  }

  lemma {:induction false} AsManyOutputs(s: QState, now: int, h: seq<Event>)
    requires GoodHistory(now, h)
    ensures |Outputs(s, now, h)| == |h|
    decreases |h|
  {
    if h != [] {
      AsManyOutputs(Pass(s, h[0].inp, h[0].c).0, h[0].c.purge, h[1..]);
    }
  }

  lemma {:induction false} GoodFront(now: int, h: seq<Event>)
    requires GoodHistory(now, h) && h != []
    ensures var n := |h| - 1;
            GoodHistory(now, h[..n]) && GoodInput(h[n].inp) && InOrder(EndTime(now, h[..n]), h[n].c)
    decreases |h|
  {
    if |h| > 1 {
      GoodFront(h[0].c.purge, h[1..]);
      assert h[1..][..|h| - 2] == h[..|h| - 1][1..];
    } else {
      assert h[..0] == [];
    }
  }

  /** A history that is not empty ends with a pass from where the rest of it led. */
  lemma LastPass(s: QState, now: int, h: seq<Event>)
    requires h != [] && GoodHistory(now, h)
    ensures var n := |h| - 1;
            && GoodHistory(now, h[..n]) && GoodInput(h[n].inp) && InOrder(EndTime(now, h[..n]), h[n].c)
            && After(s, now, h) == Pass(After(s, now, h[..n]), h[n].inp, h[n].c).0
            && EndTime(now, h) == h[n].c.purge
            && Outputs(s, now, h) == Outputs(s, now, h[..n]) + [Pass(After(s, now, h[..n]), h[n].inp, h[n].c).1]
  {
    var n := |h| - 1;
    hide After, GoodHistory, Pass, Outputs, EndTime;
    GoodFront(now, h);
    assert h[..n] + [h[n]] == h;
    HistorySnoc(s, now, h[..n], h[n]);
  }

  /**
   * Over every history from an empty list: a worker is listed if and only if it has reported and was not
   * given a request since, and the three seconds after its last report are not over.
   */
  lemma {:induction false} ListedIff(s: QState, now: int, h: seq<Event>, e: Entry)
    requires s.workers == [] && s.heartbeatAt <= now + INTERVAL && GoodHistory(now, h)
    requires |Outputs(s, now, h)| == |h|
    ensures e in After(s, now, h).workers
            <==> LastHeard(h, Outputs(s, now, h), e.id) == Some(e.expiry - 3000) && e.expiry > EndTime(now, h)
    decreases |h|
  {
    if h == [] {
      EmptyHistory(s, now);
    } else {
      hide After, GoodHistory, Pass, QInv, Outputs, EndTime;
      var n := |h| - 1;
      var g := h[..n];
      LastPass(s, now, h);
      var t := After(s, now, g);
      assert QInv(t, EndTime(now, g)) by {
        assert QInv(s, now) by { EmptyQInv(s, now); }
        RunKeepsInv(s, now, g);
      }
      AsManyOutputs(s, now, g);
      ListedIff(s, now, g, e);
      ListedAfterPassIff(t, h[n].inp, h[n].c, EndTime(now, g), e);
      HeardLast(h, Outputs(s, now, g), Pass(t, h[n].inp, h[n].c).1, e.id);
      hide LastHeard, InOrder;
      assert h[n].c.purge >= EndTime(now, g) by { Later(EndTime(now, g), h[n].c); }
    }
  }

  lemma Later(now: int, c: Clocks)
    requires InOrder(now, c)
    ensures now <= c.purge
  {
  }

  lemma HeardLast(h: seq<Event>, outs: seq<Output>, out: Output, x: Frame)
    requires |h| == |outs| + 1
    ensures var n := |h| - 1;
            LastHeard(h, outs + [out], x)
            == if x in Target(out) then None
               else if x in Sender(h[n].inp) then Some(h[n].c.ready) else LastHeard(h[..n], outs, x)
  {
    assert (outs + [out])[..|h| - 1] == outs;
  }

  lemma EmptyQInv(s: QState, now: int)
    requires s.workers == [] && s.heartbeatAt <= now + INTERVAL
    ensures QInv(s, now)
  {
  }

  // ---- Timing of a run whose passes are short ----

  /** The poll returns within its timeout, and the rest of the pass takes at most delta. */
  predicate TimelyPass(now: int, c: Clocks, delta: nat) {
    InOrder(now, c) && c.ready <= now + INTERVAL && c.purge <= c.ready + delta
  }

  predicate TimelyHistory(now: int, h: seq<Event>, delta: nat)
    decreases |h|
  {
    h == [] || (GoodInput(h[0].inp) && TimelyPass(now, h[0].c, delta) && TimelyHistory(h[0].c.purge, h[1..], delta))
  }

  /** In no pass of the history is the heartbeat due. */
  predicate NoRound(heartbeatAt: int, h: seq<Event>)
    decreases |h|
  {
    h == [] || (h[0].c.check < heartbeatAt && NoRound(heartbeatAt, h[1..]))
  }

  /**
   * After a round that rearmed at t, with passes h without a round in between, the next round comes no
   * earlier than 1000 ms and no later than 2000 ms plus twice the pass time.
   */
  lemma {:induction false} RoundGap(s: QState, t: int, now: int, h: seq<Event>, last: Event, delta: nat)
    requires s.heartbeatAt == t + INTERVAL && now <= t + INTERVAL + delta
    requires GoodHistory(now, h) && TimelyHistory(now, h, delta) && NoRound(s.heartbeatAt, h)
    requires TimelyPass(EndTime(now, h), last.c, delta) && last.c.check >= After(s, now, h).heartbeatAt
    ensures t + INTERVAL <= last.c.check <= t + 2 * INTERVAL + 2 * delta
    decreases |h|
  {
    if h != [] {
      RoundGap(Pass(s, h[0].inp, h[0].c).0, t, h[0].c.purge, h[1..], last, delta);
    }
  }

  /** A round sends one heartbeat to each listed worker, in list order, and to nobody twice. */
  lemma RoundReachesEachOnce(s: QState, inp: Input, c: Clocks, now: int)
    requires GoodInput(inp) && QInv(s, now) && InOrder(now, c) && c.check >= s.heartbeatAt
    ensures var q := AfterFront(s.workers, inp, c.ready); var beats := Pass(s, inp, c).1.beats;
            && |beats| == |q|
            && (forall i :: 0 <= i < |q| ==> beats[i] == [q[i].id, HEARTBEAT])
            && (forall i, j :: 0 <= i < j < |q| ==> beats[i] != beats[j])
  {
    BackKeeps(s.workers, inp.back, now, c.ready);
    var q := AfterFront(s.workers, inp, c.ready);
    assert Distinct(q);
    forall i, j | 0 <= i < j < |q|
      ensures [q[i].id, HEARTBEAT] != [q[j].id, HEARTBEAT]
    {
      assert [q[i].id, HEARTBEAT][0] != [q[j].id, HEARTBEAT][0];
    }
  }

  /** The worker that gets the request of a pass; the pass sends it that request. */
  function Dispatched(s: QState, inp: Input, c: Clocks): (e: Entry)
    requires GoodInput(inp) && s.workers != [] && inp.front.Some?
    ensures Pass(s, inp, c).1.toBack == Some([e.id] + inp.front.value)
  {
    var q := AfterBack(s.workers, inp.back, c.ready).0;
    assert |q| > 0;
    q[0]
  }

  lemma {:induction false} TimelyIsGood(now: int, h: seq<Event>, delta: nat)
    requires TimelyHistory(now, h, delta)
    ensures GoodHistory(now, h)
    decreases |h|
  {
    if h != [] {
      TimelyIsGood(h[0].c.purge, h[1..], delta);
    }
  }

  lemma PassStaleness(s: QState, inp: Input, c: Clocks, now: int, delta: nat)
    requires GoodInput(inp) && QInv(s, now) && TimelyPass(now, c, delta)
    requires inp.front.Some? && s.workers != []
    ensures c.check < Dispatched(s, inp, c).expiry - INTERVAL * LIVENESS + 4 * INTERVAL + delta
  {
    BackKeeps(s.workers, inp.back, now, c.ready);
  }

  /**
   * In every run of short passes, a worker that is given a request was heard from less than 4000 ms plus the
   * pass time ago; its expiry says when it was heard.
   */
  lemma {:induction false} DispatchStaleness(s: QState, now: int, h: seq<Event>, e: Event, delta: nat)
    requires QInv(s, now) && TimelyHistory(now, h, delta)
    requires GoodInput(e.inp) && TimelyPass(EndTime(now, h), e.c, delta)
    requires GoodHistory(now, h) && e.inp.front.Some? && After(s, now, h).workers != []
    ensures var heard := Dispatched(After(s, now, h), e.inp, e.c).expiry - INTERVAL * LIVENESS;
            e.c.check < heard + 4 * INTERVAL + delta
  {
    RunKeepsInv(s, now, h);
    PassStaleness(After(s, now, h), e.inp, e.c, EndTime(now, h), delta);
  }

  /**
   * When a request goes to a worker that has expired: exactly when the first worker of the list that does
   * not report in this very pass had expired by the time of the pass.
   */
  lemma ExpiredDispatchIff(s: QState, inp: Input, c: Clocks, now: int)
    requires GoodInput(inp) && QInv(s, now) && InOrder(now, c) && inp.front.Some? && s.workers != []
    ensures var q := s.workers;
            Dispatched(s, inp, c).expiry <= c.ready
            <==> if inp.back.Some? && inp.back.value[0] == q[0].id then |q| > 1 && q[1].expiry <= c.ready
                 else q[0].expiry <= c.ready
  {
    var q := s.workers;
    if inp.back.Some? {
      var e := Entry(inp.back.value[0], c.ready + INTERVAL * LIVENESS);
      if q[0].id == e.id {
        assert RemoveFirst(q, e.id) == q[1..];
      } else {
        assert RemoveFirst(q, e.id)[0] == q[0];
      }
      assert Dispatched(s, inp, c) == Ready(q, e)[0];
    }
  }

  const NEWS: Input := Input(Some([[7], READY]), None)
  const WORK: Input := Input(None, Some([[9], [], [5]]))
  const NOTHING: Input := Input(None, None)

  function At(t: int): Clocks {
    Clocks(t, t, t, t)
  }

  /** A worker reports at 500, two polls time out, and a request comes just before the third would. */
  const QUIET: seq<Event> := [Event(NEWS, At(500)), Event(NOTHING, At(1500)),
      Event(NOTHING, Clocks(2500, 2500, 2500, 2510))]

  lemma QuietRun()
    ensures TimelyHistory(0, QUIET, 10) && GoodHistory(0, QUIET) && EndTime(0, QUIET) == 2510
    ensures After(QState([], 1000), 0, QUIET) == QState([Entry([7], 3500)], 3500)
  {
    var s0, s1, s2 := QState([], 1000), QState([Entry([7], 3500)], 1000), QState([Entry([7], 3500)], 2500);
    var one, two := [Event(NOTHING, At(1500)), QUIET[2]], [QUIET[2]];
    assert QUIET[1..] == one && one[1..] == two && two[1..] == [];
    assert TimelyHistory(1500, two, 10) && TimelyHistory(500, one, 10);
    TimelyIsGood(0, QUIET, 10);
    assert EndTime(1500, two) == 2510 && EndTime(500, one) == 2510;
    assert Unwrapped([[7], READY]) == [READY] && Ready([], Entry([7], 3500)) == [Entry([7], 3500)];
    assert Pass(s0, NEWS, At(500)).0 == s1 && Pass(s1, NOTHING, At(1500)).0 == s2;
    assert Pass(s2, NOTHING, QUIET[2].c).0 == s2.(heartbeatAt := 3500);
    assert GoodHistory(1500, two) && GoodHistory(500, one);
    assert After(s2, 1500, two) == s2.(heartbeatAt := 3500) && After(s1, 500, one) == s2.(heartbeatAt := 3500);
  }

  /**
   * So "never dispatch to an expired worker" is false of the code, which serves the frontend before it
   * purges: in a run from the start, with passes of at most 10 ms, the request read at 3505 goes to the
   * worker that expired at 3500.
   */
  lemma ExpiredDispatch()
    ensures TimelyHistory(0, QUIET, 10) && GoodHistory(0, QUIET) && TimelyPass(EndTime(0, QUIET), At(3505), 10)
    ensures var s := After(QState([], 1000), 0, QUIET);
            s.workers == [Entry([7], 3500)] && Dispatched(s, WORK, At(3505)).expiry < At(3505).ready
            && Pass(s, WORK, At(3505)).1.toBack == Some([[7], [9], [], [5]])
  {
    QuietRun();
    assert [[7]] + [[9], [], [5]] == [[7], [9], [], [5]];
  }
}
