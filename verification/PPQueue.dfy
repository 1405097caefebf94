/**
 * The Paranoid Pirate queue as the program keeps it: a list of worker records on the heap, each owning
 * an identity frame. Every method is proved against QueueSpec, and against an ownership discipline:
 * the records that are alive are exactly the listed ones, and a frame is owned by one listed record,
 * or was sent in one message, or was destroyed once.
 */
module PPQueue {
  import opened Frames
  import opened QueueSpec

  /** zclock_time: readings never go back. */
  class Clock {
    var now: int

    constructor ()
    {
      now := 0;
    }

    method Time() returns (t: int)
      modifies this
      ensures t == now && old(now) <= now
    {
      var later: int := *;
      if later > now {
        now := later;
      }
      t := now;
    }
  }

  // ---- zframe_strhex ----

  function HexDigit(n: nat): Byte
    requires n < 16
  {
    if n < 10 then 48 + n else 55 + n
  }

  function Hex(f: Frame): Frame {
    if f == [] then [] else [HexDigit(f[0] / 16), HexDigit(f[0] % 16)] + Hex(f[1..])
  }

  /** Comparing the hexadecimal strings of two identities is comparing the identities. */
  lemma {:induction false} HexInjective(a: Frame, b: Frame)
    ensures Hex(a) == Hex(b) <==> a == b
  {
    if a != [] && b != [] {
      HexInjective(a[1..], b[1..]);
      var ha, hb := Hex(a), Hex(b);
      assert ha[0] == HexDigit(a[0] / 16) && ha[1] == HexDigit(a[0] % 16) && ha[2..] == Hex(a[1..]);
      assert hb[0] == HexDigit(b[0] / 16) && hb[1] == HexDigit(b[0] % 16) && hb[2..] == Hex(b[1..]);
      hide Hex;
      if ha == hb {
        DigitInjective(a[0], b[0]);
        assert a == [a[0]] + a[1..] && b == [b[0]] + b[1..];
      }
    }
  }

  lemma DigitInjective(x: Byte, y: Byte)
    requires HexDigit(x / 16) == HexDigit(y / 16) && HexDigit(x % 16) == HexDigit(y % 16)
    ensures x == y
  {
  }

  // ---- Heap objects ----

  datatype Fate = Owned | Sent | Destroyed

  class ZFrame {
    const data: Frame
    ghost var fate: Fate
    ghost var owner: WorkerRecord?

    constructor (data: Frame)
      ensures this.data == data && fate == Owned && owner == null
    {
      this.data := data;
      fate, owner := Owned, null;
    }

    /** zframe_destroy: only a frame that is still owned may be destroyed. */
    method Destroy()
      requires fate == Owned
      modifies this`fate
      ensures fate == Destroyed
    {
      fate := Destroyed;
    }
  }

  class WorkerRecord {
    var identity: ZFrame?
    const idString: Frame
    const expiry: int
    ghost var live: bool

    constructor (identity: ZFrame, now: int)
      modifies identity`owner
      ensures this.identity == identity && idString == Hex(identity.data) && identity.owner == this
      ensures expiry == now + INTERVAL * LIVENESS && live
    {
      this.identity := identity;
      idString := Hex(identity.data);
      expiry := now + INTERVAL * LIVENESS;
      live := true;
      new;
      identity.owner := this;
    }

    /** _worker_destroy: frees the record once, and its identity unless that was handed on. */
    method Destroy()
      requires live && (identity != null ==> identity.fate == Owned)
      modifies this`live, (if identity == null then {} else {identity})`fate
      ensures !live
      ensures identity != null ==> identity.fate == Destroyed
    {
      if identity != null {
        identity.Destroy();
      }
      live := false;
    }
  }

  function EntryOf(r: WorkerRecord): Entry
    reads r`identity
  {
    Entry(if r.identity == null then [] else r.identity.data, r.expiry)
  }

  function ModelOf(list: seq<WorkerRecord>): (q: seq<Entry>)
    reads list`identity
    ensures |q| == |list| && forall i :: 0 <= i < |list| ==> q[i] == EntryOf(list[i])
  {
    if list == [] then [] else [EntryOf(list[0])] + ModelOf(list[1..])
  }

  function DataOf(list: seq<ZFrame>): (ds: seq<Frame>)
    ensures |ds| == |list| && forall i :: 0 <= i < |list| ==> ds[i] == list[i].data
  {
    seq(|list|, i requires 0 <= i < |list| => list[i].data)
  }

  /** The workers that requests were sent to. */
  function Destinations(outs: seq<Output>): seq<Frame> {
    if outs == [] then [] else
      var m := outs[|outs| - 1].toBack;
      Destinations(outs[..|outs| - 1]) + if m.Some? && |m.value| > 0 then [m.value[0]] else []
  }

  /** A pass adds to the frames handed on what it adds to the requests sent. */
  lemma {:induction false} OneMoreOutput(before: seq<ZFrame>, after: seq<ZFrame>, outs: seq<Output>, out: Output)
    requires DataOf(before) == Destinations(outs)
    requires if out.toBack.None? then after == before
             else |out.toBack.value| > 0 && |after| == |before| + 1 && after[..|before|] == before
                  && after[|before|].data == out.toBack.value[0]
    ensures DataOf(after) == Destinations(outs + [out])
  {
    assert (outs + [out])[..|outs|] == outs;
  }

  class Queue {
    const clock: Clock
    var workers: seq<WorkerRecord>
    var heartbeatAt: int
    ghost var records: set<WorkerRecord>   // every record ever allocated
    ghost var frames: set<ZFrame>          // every identity frame ever received
    ghost var sent: seq<ZFrame>            // the frames handed to outgoing messages, in order

    /** r is alive and owns its identity frame. */
    ghost predicate OwnsIdentity(r: WorkerRecord)
      reads this`frames, r, frames
    {
      r.live && r.identity != null && r.identity in frames && r.identity.owner == r && r.identity.fate == Owned
      && r.idString == Hex(r.identity.data)
    }

    /** The records of list, and no others, are alive, and they own all the frames that are still owned. */
    ghost predicate Owns(list: seq<WorkerRecord>)
      reads this`records, this`frames, records, frames
    {
      && (forall r :: r in list ==> r in records && OwnsIdentity(r))
      && (forall i, j :: 0 <= i < j < |list| ==> list[i] != list[j])
      && (forall r :: r in records && r.live ==> r in list)
      && (forall f :: f in frames && f.fate == Owned ==> f.owner != null && f.owner in list && f.owner.identity == f)
    }

    ghost predicate Valid()
      reads this`workers, this`records, this`frames, records, frames
    {
      Owns(workers)
    }

    /** The frames that were sent are exactly those handed to a message, and none was handed on twice. */
    ghost predicate Accounted()
      reads this`frames, this`sent, frames
    {
      && (forall f :: f in frames ==> (f.fate == Sent <==> f in sent))
      && (forall f :: f in sent ==> f in frames)
      && (forall i, j :: 0 <= i < j < |sent| ==> sent[i] != sent[j])
    }

    /** One more frame than before was handed on, the first frame of message m. */
    ghost predicate HandsOn(before: seq<ZFrame>, m: Msg)
      reads this`sent
    {
      |m| > 0 && |sent| == |before| + 1 && sent[..|before|] == before && sent[|before|].data == m[0]
    }

    /** Purging and replacing destroy frames and send none. */
    twostate lemma NothingSent()
      requires old(Accounted()) && sent == old(sent) && frames >= old(frames)
      requires forall f :: f in old(frames) && f.fate != old(f.fate) ==> old(f.fate) == Owned && f.fate == Destroyed
      requires forall f :: f in frames && f !in old(frames) ==> f.fate != Sent
      ensures Accounted()
    {
      assert forall f :: f in old(frames) ==> f in frames;
    }

    ghost function Model(): QState
      requires Valid()
      reads this, records, frames
    {
      QState(ModelOf(workers), heartbeatAt)
    }

    constructor (clock: Clock)
      modifies clock
      ensures Valid() && this.clock == clock && Model() == QState([], clock.now + INTERVAL) && records == {}
              && frames == {}
      ensures Accounted() && sent == []
    {
      this.clock := clock;
      workers, records, frames, sent := [], {}, {}, [];
      new;
      var now := clock.Time();
      heartbeatAt := now + INTERVAL;
    }

    /** zlist_remove and _worker_destroy of the record at position i. */
    method Discard(i: nat, worker: WorkerRecord, ghost extra: seq<WorkerRecord>)
      requires i < |workers| && worker == workers[i] && Owns(workers + extra)
      modifies this`workers, worker`live, frames`fate
      ensures worker.identity != null && worker.identity.fate == Destroyed
      ensures forall f :: f in frames && f != worker.identity ==> f.fate == old(f.fate)
      ensures workers == old(workers[..i] + workers[i + 1..]) && Owns(workers + extra)
      ensures ModelOf(workers) == old(ModelOf(workers)[..i] + ModelOf(workers)[i + 1..])
    {
      hide Hex, ModelOf;
      ghost var all := workers + extra;
      assert worker == all[i] && worker in all;
      workers := workers[..i] + workers[i + 1..];
      worker.Destroy();
      CutOne(all, i, workers + extra);
    }

    /** The search of _worker_ready, which compares hexadecimal strings. */
    method Find(worker: WorkerRecord) returns (i: nat)
      requires Owns(workers + [worker])
      ensures i == IndexOf(ModelOf(workers), EntryOf(worker).id)
    {
      hide Hex, IndexOf, ModelOf;
      ghost var q := ModelOf(workers);
      i := 0;
      assert worker in workers + [worker] && OwnsIdentity(worker);
      while i < |workers|
        invariant i <= |workers|
        invariant forall k :: 0 <= k < i ==> q[k].id != EntryOf(worker).id
      {
        assert workers[i] in workers + [worker] && OwnsIdentity(workers[i]);
        HexInjective(worker.identity.data, workers[i].identity.data);
        if worker.idString == workers[i].idString {
          break;
        }
        i := i + 1;
      }
    }

    /** _worker_ready: a listed record with the same identity is destroyed, the new one goes last. */
    method WorkerReady(worker: WorkerRecord)
      requires Owns(workers + [worker])
      modifies this`workers, records`live, frames`fate
      ensures Valid()
      ensures ModelOf(workers) == Ready(old(ModelOf(workers)), EntryOf(worker))
      ensures forall f :: f in old(frames) && f.fate != old(f.fate) ==> old(f.fate) == Owned && f.fate == Destroyed
    {
      hide Hex, ModelOf, IndexOf, RemoveFirst, EntryOf;
      var i := Find(worker);
      RemoveFirstAt(ModelOf(workers), EntryOf(worker).id, i);
      if i < |workers| {
        assert (workers + [worker])[|workers|] == worker && (workers + [worker])[i] == workers[i];
        assert workers[i] in workers + [worker];
        Discard(i, workers[i], [worker]);
      }
      Append(worker);
    }

    /** zlist_append. */
    method Append(worker: WorkerRecord)
      requires Owns(workers + [worker])
      modifies this`workers
      ensures Valid() && workers == old(workers) + [worker]
      ensures ModelOf(workers) == old(ModelOf(workers)) + [EntryOf(worker)]
    {
      workers := workers + [worker];
    }

    /** _worker_next: the identity of the first worker goes into the outgoing message, its record is freed. */
    method WorkerNext() returns (frame: ZFrame)
      requires Valid() && workers != []
      modifies this`workers, this`sent, records`live, records`identity, frames`fate
      ensures Valid()
      ensures ModelOf(workers) == old(ModelOf(workers))[1..] && frame.data == old(ModelOf(workers))[0].id
      ensures frame == old(workers[0].identity) && old(frame.fate) == Owned && frame.fate == Sent
      ensures sent == old(sent) + [frame] && frame in frames && (old(Accounted()) ==> Accounted())
      ensures forall f :: f in frames && f != frame ==> f.fate == old(f.fate)
    {
      hide Hex, ModelOf, Owns;
      var worker := PopRecord();
      frame := HandOn(worker);
      sent := sent + [frame];
    }

    /** zlist_pop. */
    method PopRecord() returns (worker: WorkerRecord)
      requires Valid() && workers != []
      modifies this`workers
      ensures worker == old(workers[0]) && workers == old(workers)[1..] && worker in records && Owns([worker] + workers)
      ensures ModelOf(workers) == old(ModelOf(workers))[1..]
      ensures EntryOf(worker) == old(ModelOf(workers))[0]
    {
      hide Hex, ModelOf, OwnsIdentity, EntryOf;
      worker := workers[0];
      assert worker in workers;
      assert [worker] + workers[1..] == workers;
      workers := workers[1..];
    }

    /** The identity leaves its record for the message being sent, and the record is destroyed without it. */
    method HandOn(worker: WorkerRecord) returns (frame: ZFrame)
      requires Owns([worker] + workers)
      modifies worker`live, worker`identity, frames`fate
      ensures Valid() && worker !in workers
      ensures frame == old(worker.identity) && frame in frames && old(frame.fate) == Owned && frame.fate == Sent
      ensures forall f :: f in frames && f != frame ==> f.fate == old(f.fate)
    {
      hide Hex, ModelOf;
      ghost var all := [worker] + workers;
      assert worker == all[0] && OwnsIdentity(worker);
      frame := worker.identity;
      OthersOwnTheirs(worker, frame);
      hide Owns;
      frame.fate := Sent;
      worker.identity := null;
      worker.Destroy();
      assert forall r :: r in workers ==> r != worker && r in records && OwnsIdentity(r);
      TheyOwn();
    }

    /** What the other listed records are and own, when worker heads the list. */
    lemma OthersOwnTheirs(worker: WorkerRecord, frame: ZFrame)
      requires Owns([worker] + workers) && worker.identity == frame
      ensures forall r :: r in workers ==> r != worker && r in records && OwnsIdentity(r) && r.identity != frame
      ensures forall i, j :: 0 <= i < j < |workers| ==> workers[i] != workers[j]
      ensures forall r :: r in records && r.live && r != worker ==> r in workers
      ensures forall f :: f in frames && f.fate == Owned && f != frame ==>
                f.owner != null && f.owner in workers && f.owner.identity == f
    {
      hide Hex;
      ghost var all := [worker] + workers;
      assert forall i :: 0 <= i < |workers| ==> workers[i] == all[i + 1];
      assert worker == all[0] && forall r :: r in all <==> r == worker || r in workers;
      assert forall i :: 0 < i < |all| ==> all[i] != worker;
      assert OwnsIdentity(worker);
    }

    lemma TheyOwn()
      requires forall r :: r in workers ==> r in records && OwnsIdentity(r)
      requires forall i, j :: 0 <= i < j < |workers| ==> workers[i] != workers[j]
      requires forall r :: r in records && r.live ==> r in workers
      requires forall f :: f in frames && f.fate == Owned ==>
                 f.owner != null && f.owner in workers && f.owner.identity == f
      ensures Valid()
    {
    }

    /** _worker_purge, with the clock read anew for every worker it looks at. */
    method Purge()
      requires Valid()
      modifies this`workers, records`live, frames`fate, clock
      ensures Valid() && old(clock.now) <= clock.now
      ensures ModelOf(workers) == DropFront(old(ModelOf(workers)), clock.now)
      ensures forall f :: f in old(frames) && f.fate != old(f.fate) ==> old(f.fate) == Owned && f.fate == Destroyed
    {
      hide Hex, ModelOf, RemoveFirst, DropFront;
      ghost var q, k := ModelOf(workers), 0;
      while workers != []
        invariant Valid() && old(clock.now) <= clock.now
        invariant forall f :: f in frames && f.fate != old(f.fate) ==> old(f.fate) == Owned && f.fate == Destroyed
        invariant k <= |q| && ModelOf(workers) == q[k..]
        invariant forall i :: 0 <= i < k ==> q[i].expiry <= clock.now
        decreases |workers|
      {
        var now := clock.Time();
        if now < workers[0].expiry {
          assert EntryOf(workers[0]) == q[k];
          break;
        }
        DiscardFirst();
        k := k + 1;
      }
      DropFrontIs(q, clock.now, k);
    }

    method DiscardFirst()
      requires Valid() && workers != []
      modifies this`workers, records`live, frames`fate
      ensures Valid() && workers == old(workers)[1..]
      ensures ModelOf(workers) == old(ModelOf(workers))[1..]
      ensures forall f :: f in old(frames) && f.fate != old(f.fate) ==> old(f.fate) == Owned && f.fate == Destroyed
    {
      hide Hex, ModelOf;
      ghost var q := ModelOf(workers);
      assert workers + [] == workers && workers[0] in workers;
      Discard(0, workers[0], []);
      assert workers + [] == workers && q[..0] + q[1..] == q[1..];
    }

    /** The loop that sends one heartbeat to every listed worker. */
    method HeartbeatRound() returns (beats: seq<Msg>)
      requires Valid()
      ensures beats == QueueSpec.Beats(ModelOf(workers))
    {
      hide Hex, ModelOf, QueueSpec.Beats;
      beats := [];
      var i := 0;
      while i < |workers|
        invariant i <= |workers| && |beats| == i
        invariant forall k :: 0 <= k < i ==> beats[k] == [ModelOf(workers)[k].id, HEARTBEAT]
      {
        assert workers[i] in workers;
        beats := beats + [[workers[i].identity.data, HEARTBEAT]];
        i := i + 1;
      }
    }

    /** Takes a record that nobody knows yet, and the frame it owns, into the books. */
    ghost method Adopt(worker: WorkerRecord, identity: ZFrame)
      requires Valid() && worker !in records && identity !in frames
      requires worker.live && worker.identity == identity && identity.owner == worker && identity.fate == Owned
      requires worker.idString == Hex(identity.data)
      modifies this`records, this`frames
      ensures Owns(workers + [worker]) && records == old(records) + {worker} && frames == old(frames) + {identity}
    {
      hide Hex;
      records, frames := records + {worker}, frames + {identity};
      ghost var all := workers + [worker];
      assert forall r :: r in all <==> r in workers || r == worker;
    }

    /** zmsg_unwrap hands over an identity frame, and _worker_new makes a record that owns it. */
    method NewWorker(id: Frame) returns (worker: WorkerRecord, ready: int)
      requires Valid()
      modifies this`records, this`frames, clock
      ensures old(clock.now) <= ready == clock.now && fresh(worker) && Owns(workers + [worker])
      ensures EntryOf(worker) == Entry(id, ready + INTERVAL * LIVENESS) && ModelOf(workers) == old(ModelOf(workers))
      ensures fresh(records - old(records)) && fresh(frames - old(frames)) && records >= old(records)
              && frames >= old(frames)
      ensures forall f :: f in frames && f !in old(frames) ==> f.fate == Owned
    {
      hide Hex, ModelOf;
      var identity := new ZFrame(id);
      ready := clock.Time();
      worker := new WorkerRecord(identity, ready);
      assert forall f :: f in frames ==> f != identity;
      Adopt(worker, identity);
    }

    /** Backend activity: whatever came, its sender is alive. Returns what is forwarded to the frontend. */
    method HandleBackend(msg: Msg) returns (toFront: Option<Msg>, ready: int)
      requires Valid() && Accounted() && |msg| > 0
      modifies this`workers, this`records, this`frames, records`live, frames`fate, clock
      ensures Valid() && Accounted() && old(clock.now) <= ready == clock.now
      ensures fresh(records - old(records)) && fresh(frames - old(frames)) && records >= old(records)
              && frames >= old(frames)
      ensures (ModelOf(workers), toFront) == AfterBack(old(ModelOf(workers)), Some(msg), ready)
      ensures forall f :: f in old(frames) && f.fate != old(f.fate) ==> old(f.fate) == Owned && f.fate == Destroyed
    {
      hide Hex, ModelOf, Owns, EntryOf, RemoveFirst;
      var worker;
      worker, ready := NewWorker(msg[0]);
      WorkerReady(worker);
      NothingSent();
      var rest := Unwrapped(msg);
      toFront := if |rest| == 1 then None else Some(rest);
    }

    /** The two sockets: backend activity, then a dispatch if there was a worker at the time of the poll. */
    method HandleSockets(inp: Input) returns (toFront: Option<Msg>, toBack: Option<Msg>, ready: int)
      requires Valid() && Accounted() && GoodInput(inp)
      modifies this`workers, this`sent, this`records, this`frames, records`live, records`identity, frames`fate, clock
      ensures Valid() && Accounted() && old(clock.now) <= ready == clock.now
      ensures ModelOf(workers) == AfterFront(old(ModelOf(workers)), inp, ready)
      ensures var q := old(ModelOf(workers)); var b := AfterBack(q, inp.back, ready);
              && toFront == b.1
              && toBack == if inp.front.Some? && q != [] then Some([b.0[0].id] + inp.front.value) else None
      ensures fresh(records - old(records)) && fresh(frames - old(frames)) && records >= old(records)
              && frames >= old(frames)
      ensures forall f :: f in old(frames) && old(f.fate) != Owned ==> f.fate == old(f.fate)
      ensures if toBack.Some? then HandsOn(old(sent), toBack.value) else sent == old(sent)
      ensures forall f :: f in old(frames) && f.fate == Sent && old(f.fate) != Sent ==>
                old(f.fate) == Owned && toBack.Some? && f == sent[|sent| - 1]
    {
      hide Hex, ModelOf, Owns, RemoveFirst, Unwrapped;
      var polled := if workers != [] then 2 else 1;
      toFront, toBack, ready := None, None, clock.now;
      if inp.back.Some? {
        toFront, ready := HandleBackend(inp.back.value);
      }
      if polled == 2 && inp.front.Some? {
        var frame := WorkerNext();
        toBack := Some([frame.data] + inp.front.value);
      }
    }

    /** The heartbeat round, if one is due, and the purge. */
    method HandleTimers() returns (beats: seq<Msg>, check: int, rearm: int)
      requires Valid() && Accounted()
      modifies this`workers, this`heartbeatAt, records`live, frames`fate, clock
      ensures Valid() && Accounted() && old(clock.now) <= check <= rearm <= clock.now
      ensures heartbeatAt == if check >= old(heartbeatAt) then rearm + INTERVAL else old(heartbeatAt)
      ensures beats == if check >= old(heartbeatAt) then QueueSpec.Beats(old(ModelOf(workers))) else []
      ensures ModelOf(workers) == DropFront(old(ModelOf(workers)), clock.now)
      ensures forall f :: f in old(frames) && f.fate != old(f.fate) ==> old(f.fate) == Owned && f.fate == Destroyed
    {
      hide Hex, ModelOf, Owns, DropFront, Beats;
      check := clock.Time();
      beats, rearm := [], check;
      if check >= heartbeatAt {
        beats := HeartbeatRound();
        rearm := clock.Time();
        heartbeatAt := rearm + INTERVAL;
      }
      Purge();
      NothingSent();
    }

    /** One pass of the loop in main. A frame that was sent or destroyed before stays so. */
    method Pass(inp: Input) returns (out: Output, c: Clocks)
      requires Valid() && Accounted() && GoodInput(inp)
      modifies this`workers, this`sent, this`heartbeatAt, this`records, this`frames
      modifies records`live, records`identity, frames`fate, clock
      ensures Valid() && Accounted() && InOrder(old(clock.now), c) && c.purge == clock.now
      ensures (Model(), out) == QueueSpec.Pass(old(Model()), inp, c)
      ensures fresh(records - old(records)) && fresh(frames - old(frames)) && records >= old(records)
              && frames >= old(frames)
      ensures forall f :: f in old(frames) && old(f.fate) != Owned ==> f.fate == old(f.fate)
      ensures if out.toBack.Some? then HandsOn(old(sent), out.toBack.value) else sent == old(sent)
      ensures forall f :: f in old(frames) && f.fate == Sent && old(f.fate) != Sent ==>
                old(f.fate) == Owned && out.toBack.Some? && f == sent[|sent| - 1]
    {
      hide Hex, ModelOf, Owns, RemoveFirst, DropFront, Beats, Unwrapped, AfterFront, AfterBack;
      var toFront, toBack, ready := HandleSockets(inp);
      var beats, check, rearm := HandleTimers();
      out, c := Output(toFront, toBack, beats), Clocks(ready, check, rearm, clock.now);
    }

    /**
     * main: any number of passes, then the drain. At the end nothing is owned: each frame was destroyed, or
     * handed to one message, and the frames handed on are those the outgoing requests begin with, in order.
     */
    method Serve(inputs: seq<Input>) returns (h: seq<Event>, outs: seq<Output>)
      requires Valid() && Accounted() && workers == [] && sent == []
      requires forall i :: 0 <= i < |inputs| ==> GoodInput(inputs[i])
      modifies this`workers, this`sent, this`heartbeatAt, this`records, this`frames
      modifies records`live, records`identity, frames`fate, clock
      ensures |h| == |inputs| && (forall i :: 0 <= i < |h| ==> h[i].inp == inputs[i])
      ensures GoodHistory(old(clock.now), h) && outs == Outputs(old(Model()), old(clock.now), h)
      ensures workers == [] && (forall r :: r in records ==> !r.live)
      ensures Accounted() && DataOf(sent) == Destinations(outs)
      ensures forall f :: f in frames ==> f.fate == if f in sent then Sent else Destroyed
    {
      hide Hex, ModelOf, Owns, QueueSpec.Pass, GoodHistory, After, EndTime, Outputs;
      h, outs := [], [];
      ghost var s0 := Model();
      assert GoodHistory(clock.now, h) && EndTime(clock.now, h) == clock.now && After(s0, clock.now, h) == s0
          && Outputs(s0, clock.now, h) == [] by {
        EmptyHistory(s0, clock.now);
      }
      for i := 0 to |inputs|
        invariant Valid() && |h| == i && (forall k :: 0 <= k < i ==> h[k].inp == inputs[k])
        invariant fresh(records - old(records)) && fresh(frames - old(frames)) && records >= old(records)
                  && frames >= old(frames)
        invariant GoodHistory(old(clock.now), h) && EndTime(old(clock.now), h) == clock.now
        invariant Accounted() && DataOf(sent) == Destinations(outs)
        invariant Model() == After(s0, old(clock.now), h) && outs == Outputs(s0, old(clock.now), h)
      {
        ghost var before := sent;
        var out, c := Pass(inputs[i]);
        OneMoreOutput(before, sent, outs, out);
        HistorySnoc(s0, old(clock.now), h, Event(inputs[i], c));
        h, outs := h + [Event(inputs[i], c)], outs + [out];
      }
      Drain();
    }

    /** The drain at the end of main. */
    method Drain()
      requires Valid() && Accounted()
      modifies this`workers, records`live, frames`fate
      ensures Valid() && Accounted() && workers == []
      ensures (forall r :: r in records ==> !r.live)
              && (forall f :: f in frames ==> f.fate == if f in sent then Sent else Destroyed)
      ensures forall f :: f in old(frames) && f.fate != old(f.fate) ==> old(f.fate) == Owned && f.fate == Destroyed
    {
      while workers != []
        invariant Valid()
        invariant forall f :: f in frames && f.fate != old(f.fate) ==> old(f.fate) == Owned && f.fate == Destroyed
        decreases |workers|
      {
        DiscardFirst();
      }
      NothingSent();
    }
  }

  /** Cutting one element out of a sequence without repetitions leaves all the others. */
  lemma CutOne<T>(s: seq<T>, i: nat, t: seq<T>)
    requires i < |s| && t == s[..i] + s[i + 1..]
    requires forall i, j :: 0 <= i < j < |s| ==> s[i] != s[j]
    ensures forall x :: x in t <==> x in s && x != s[i]
    ensures forall i, j :: 0 <= i < j < |t| ==> t[i] != t[j]
  {
    assert forall k :: 0 <= k < |t| ==> t[k] == s[if k < i then k else k + 1];
    forall x | x in s && x != s[i]
      ensures x in t
    {
      var k :| 0 <= k < |s| && s[k] == x;
      assert t[if k < i then k else k - 1] == x;
    }
  }
}
