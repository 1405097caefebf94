/**
 * The Lazy Pirate client (src/lpp/client.c): one request at a time over a REQ socket, resent on a fresh
 * socket after each silent poll, given up after three. The outcomes of the polls are an input script.
 */
module LazyPirate {
  import opened Frames
  import opened Decimal
  import opened Sockets

  const RETRIES: nat := 3

  /** How a poll ends. An interrupted poll may also have raised the flag that ends the program. */
  datatype Outcome = Silence | Reply(text: Frame) | Interrupt(fatal: bool)

  /** What the client does: send request n (legally, or against the state of the socket), accept or reject a reply. */
  datatype Event = Sent(n: nat, text: Frame, legal: bool) | Accepted(n: nat) | Rejected

  /** awaiting is the state of the REQ socket: a request is out and its reply has not been read. */
  datatype State = State(sequence: nat, retries: nat, expecting: bool, awaiting: bool, stopped: bool)

  const START: State := State(0, RETRIES, false, false, false)

  /** The head of the outer loop: the next request goes out on the current socket. */
  function Begin(s: State): (State, Event) {
    (s.(sequence := s.sequence + 1, expecting := true, awaiting := true),
     Sent(s.sequence + 1, Print(s.sequence + 1), !s.awaiting))
  }

  /** One pass of the inner loop. A socket that awaits nothing cannot become readable. */
  function OnPoll(s: State, o: Outcome): (State, seq<Event>) {
    if o.Interrupt? then (s.(expecting := false, stopped := o.fatal), [])
    else if o.Reply? && s.awaiting then
      if Atoi(o.text) == s.sequence
      then (s.(awaiting := false, retries := RETRIES, expecting := false), [Accepted(s.sequence)])
      else (s.(awaiting := false), [Rejected])
    else if s.retries <= 1 then (s.(retries := 0, expecting := false), [])
    else (s.(retries := s.retries - 1, awaiting := true), [Sent(s.sequence, Print(s.sequence), true)])
  }

  /** All that the client does, from any point, for a script of poll outcomes. */
  function Run(s: State, script: seq<Outcome>): seq<Event>
    decreases |script|, if s.expecting then 0 else 1
  {
    if s.expecting then
      if script == [] then [] else
        var r := OnPoll(s, script[0]);
        r.1 + Run(r.0, script[1..])
    else if s.retries == 0 || s.stopped then []
    else
      var r := Begin(s);
      [r.1] + Run(r.0, script)
  }

  /** One pass of the inner loop: returns the socket to go on with and what became of the loop's variables. */
  method PollOnce(client: ReqSocket, sequence: nat, request: Frame, retries: nat, o: Outcome)
    returns (next: ReqSocket, retriesLeft: nat, expectReply: bool, interrupted: bool, events: seq<Event>)
    requires retries > 0 && request == Print(sequence)
    modifies client
    ensures (next == client || fresh(next)) && (expectReply ==> retriesLeft > 0 && !interrupted)
    ensures (State(sequence, retriesLeft, expectReply, next.awaiting, interrupted), events)
         == OnPoll(State(sequence, retries, true, old(client.awaiting), false), o)
  {
    next, retriesLeft, expectReply, interrupted, events := client, retries, true, false, [];
    if o.Interrupt? {
      interrupted := o.fatal;
      expectReply := false;
    } else if o.Reply? && client.awaiting {
      client.Recv();
      if Atoi(o.text) == sequence {
        events := [Accepted(sequence)];
        retriesLeft := RETRIES;
        expectReply := false;
      } else {
        events := [Rejected];
      }
    } else {
      retriesLeft := retriesLeft - 1;
      if retriesLeft == 0 {
        expectReply := false;
      } else {
        next := new ReqSocket();
        var legal := next.Send();
        events := [Sent(sequence, request, legal)];
      }
    }
  }

  /** main, over a script of poll outcomes; it ends when the script does, if not before. */
  method Client(script: seq<Outcome>) returns (log: seq<Event>)
    ensures log == Run(START, script)
  {
    hide OnPoll, Atoi, Print;
    var client := new ReqSocket();
    var sequence, retriesLeft, interrupted, i := 0, RETRIES, false, 0;
    log := [];
    ghost var all := Run(START, script);
    assert script[0..] == script && log + all == all;
    while retriesLeft != 0 && !interrupted
      invariant i <= |script| && fresh(client)
      invariant log + Run(State(sequence, retriesLeft, false, client.awaiting, interrupted), script[i..]) == all
      decreases |script| - i
    {
      ghost var first, before := i, log;
      sequence := sequence + 1;
      var request := Print(sequence);
      var legal := client.Send();
      log := log + [Sent(sequence, request, legal)];
      var expectReply := true;
      assert forall rest :: before + ([Sent(sequence, request, legal)] + rest) == log + rest;
      while expectReply
        invariant first <= i <= |script| && fresh(client)
        invariant expectReply ==> retriesLeft > 0 && !interrupted
        invariant !expectReply ==> first < i
        invariant log + Run(State(sequence, retriesLeft, expectReply, client.awaiting, interrupted), script[i..]) == all
        decreases |script| - i
      {
        if i == |script| {
          assert log + [] == log;
          return;
        }
        assert script[i..][0] == script[i] && script[i..][1..] == script[i + 1..];
        before := log;
        var events;
        client, retriesLeft, expectReply, interrupted, events :=
          PollOnce(client, sequence, request, retriesLeft, script[i]);
        log := log + events;
        assert forall rest :: before + (events + rest) == log + rest;
        i := i + 1;
      }
    }
    assert log + [] == log;
  }

  // ---- Lockstep ----

  predicate NoInterrupts(script: seq<Outcome>) {
    forall i :: 0 <= i < |script| ==> !script[i].Interrupt?
  }

  /** Without interrupts, between two requests nothing is outstanding unless the client has given up. */
  predicate InStep(s: State) {
    s.retries <= RETRIES && (!s.expecting && s.retries != 0 && !s.stopped ==> !s.awaiting)
  }

  /**
   * Every send finds the socket ready, every text names its number, and fits the request buffer as long
   * as the number does.
   */
  lemma {:induction false} SendsAreLegal(s: State, script: seq<Outcome>)
    requires InStep(s) && NoInterrupts(script)
    ensures forall e :: e in Run(s, script) && e.Sent? ==> e.legal && Atoi(e.text) == e.n
    decreases |script|, if s.expecting then 0 else 1
  {
    RoundTrip(s.sequence);
    RoundTrip(s.sequence + 1);
    if s.expecting {
      if script != [] {
        SendsAreLegal(OnPoll(s, script[0]).0, script[1..]);
      }
    } else if s.retries != 0 && !s.stopped {
      SendsAreLegal(Begin(s).0, script);
    }
  }

  /** How often request n was sent. */
  function SentCount(log: seq<Event>, n: nat): nat {
    if log == [] then 0 else (if log[0].Sent? && log[0].n == n then 1 else 0) + SentCount(log[1..], n)
  }

  /** How often request n may still be sent from state s. */
  function Allowance(s: State, n: nat): nat {
    if n > s.sequence then RETRIES
    else if n == s.sequence && s.expecting && s.retries > 0 then s.retries - 1
    else 0
  }

  lemma CountCons(e: Event, rest: seq<Event>, n: nat)
    ensures SentCount([e] + rest, n) == (if e.Sent? && e.n == n then 1 else 0) + SentCount(rest, n)
  {
    assert ([e] + rest)[1..] == rest;
  }

  /** No request is sent more often than there are retries, interrupted or not. */
  lemma {:induction false} SentAtMostThrice(s: State, script: seq<Outcome>, n: nat)
    requires s.retries <= RETRIES && (s.expecting ==> s.retries > 0)
    ensures SentCount(Run(s, script), n) <= Allowance(s, n)
    decreases |script|, if s.expecting then 0 else 1
  {
    hide Atoi, Print;
    if s.expecting {
      if script != [] {
        var r := OnPoll(s, script[0]);
        var rest := Run(r.0, script[1..]);
        SentAtMostThrice(r.0, script[1..], n);
        hide SentCount;
        if r.1 == [] {
          assert r.1 + rest == rest;
        } else {
          CountCons(r.1[0], rest, n);
        }
      }
    } else if s.retries != 0 && !s.stopped {
      SentAtMostThrice(Begin(s).0, script, n);
      hide SentCount;
      CountCons(Begin(s).1, Run(Begin(s).0, script), n);
    }
  }

  function Acceptances(log: seq<Event>): seq<nat> {
    if log == [] then []
    else if log[0].Accepted? then [log[0].n] + Acceptances(log[1..])
    else Acceptances(log[1..])
  }

  predicate CountsFrom(ns: seq<nat>, first: nat) {
    forall i :: 0 <= i < |ns| ==> ns[i] == first + i
  }

  /** Accepted replies are for the requests in order, none skipped and none accepted twice. */
  lemma {:induction false} AcceptedInOrder(s: State, script: seq<Outcome>)
    requires NoInterrupts(script)
    ensures CountsFrom(Acceptances(Run(s, script)), if s.expecting then s.sequence else s.sequence + 1)
    decreases |script|, if s.expecting then 0 else 1
  {
    var log := Run(s, script);
    if s.expecting {
      if script != [] {
        var r := OnPoll(s, script[0]);
        var rest := Run(r.0, script[1..]);
        AcceptedInOrder(r.0, script[1..]);
        if r.1 == [] {
          assert log == rest;
          if !r.0.expecting { GivenUp(r.0, script[1..]); }
        } else {
          assert log[1..] == rest;
        }
      }
    } else if s.retries != 0 && !s.stopped {
      AcceptedInOrder(Begin(s).0, script);
      assert log[1..] == Run(Begin(s).0, script);
    }
  }

  lemma {:induction false} GivenUp(s: State, script: seq<Outcome>)
    requires !s.expecting && s.retries == 0
    ensures Run(s, script) == []
  {
  }

  /**
   * From the start: replies 1, 2, 3, ... are accepted in order, each request is sent at most three
   * times, every send is legal.
   */
  lemma {:induction false} Lockstep(script: seq<Outcome>, n: nat)
    requires NoInterrupts(script)
    ensures CountsFrom(Acceptances(Run(START, script)), 1)
    ensures SentCount(Run(START, script), n) <= 3
    ensures forall e :: e in Run(START, script) && e.Sent? ==> e.legal && Atoi(e.text) == e.n
  {
    AcceptedInOrder(START, script);
    SentAtMostThrice(START, script, n);
    SendsAreLegal(START, script);
  }

  // ---- Which replies are accepted, and when the client gives up ----

  /** Where the client is after reading a script, with its next request sent if there is one. */
  function After(s: State, script: seq<Outcome>): State
    decreases |script|, if s.expecting then 0 else 1
  {
    if s.expecting then
      if script == [] then s else After(OnPoll(s, script[0]).0, script[1..])
    else if s.retries == 0 || s.stopped then s
    else After(Begin(s).0, script)
  }

  /** The last thing the log knows of is request n, sent and not yet replied to. */
  predicate Outstanding(log: seq<Event>, n: nat) {
    log != [] && log[|log| - 1].Sent? && log[|log| - 1].n == n
  }

  /** Reading the first outcome of a script. */
  lemma ReadFirst(s: State, script: seq<Outcome>)
    requires s.expecting && script != []
    ensures var r := OnPoll(s, script[0]);
            Run(s, script) == r.1 + Run(r.0, script[1..]) && After(s, script) == After(r.0, script[1..])
  {
  }

  /** One more outcome: what has been logged stays, and the client goes on from where it was. */
  lemma {:induction false} OneMore(s: State, script: seq<Outcome>, o: Outcome)
    ensures After(s, script + [o]) == After(After(s, script), [o])
    ensures Run(s, script + [o]) == Run(s, script) + if After(s, script).expecting then Run(After(s, script), [o])
            else []
    decreases |script|, if s.expecting then 0 else 1
  {
    hide Atoi, Print;
    var more := script + [o];
    if s.expecting {
      if script == [] {
        assert more == [o] && Run(s, []) == [];
      } else {
        var r := OnPoll(s, script[0]);
        assert more[0] == script[0] && more[1..] == script[1..] + [o];
        ReadFirst(s, script);
        ReadFirst(s, more);
        OneMore(r.0, script[1..], o);
        hide Run, After, OnPoll;
        var added := if After(s, script).expecting then Run(After(s, script), [o]) else [];
        assert r.1 + (Run(r.0, script[1..]) + added) == (r.1 + Run(r.0, script[1..])) + added;
      }
    } else if s.retries != 0 && !s.stopped {
      OneMore(Begin(s).0, script, o);
    }
  }

  /** What the log says about the state: a reply is outstanding exactly when a request was the last thing logged. */
  predicate Told(st: State, log: seq<Event>) {
    && (if st.expecting then st.retries > 0 && !st.stopped else st.retries == 0 || st.stopped)
    && (st.expecting ==> (st.awaiting <==> Outstanding(log, st.sequence)))
    && (st.expecting && log != [] && log[|log| - 1].Sent? ==> log[|log| - 1].n == st.sequence)
  }

  /** Reading one outcome: what it logs itself, and the next request if one is sent. */
  lemma ReadOne(st: State, o: Outcome)
    requires st.expecting
    ensures var r := OnPoll(st, o);
            if !r.0.expecting && r.0.retries != 0 && !r.0.stopped
            then Run(st, [o]) == r.1 + [Begin(r.0).1] && After(st, [o]) == Begin(r.0).0
            else Run(st, [o]) == r.1 && After(st, [o]) == r.0
  {
    hide Atoi, Print;
    assert [o][1..] == [];
    var r := OnPoll(st, o);
    assert Run(st, [o]) == r.1 + Run(r.0, []) && After(st, [o]) == After(r.0, []);
    if !r.0.expecting && r.0.retries != 0 && !r.0.stopped {
      assert Run(Begin(r.0).0, []) == [] && After(Begin(r.0).0, []) == Begin(r.0).0;
      assert Run(r.0, []) == [Begin(r.0).1] && After(r.0, []) == Begin(r.0).0;
    } else {
      assert Run(r.0, []) == [] && After(r.0, []) == r.0;
    }
  }

  lemma StepTells(st: State, log: seq<Event>, o: Outcome)
    requires Told(st, log) && st.expecting
    ensures Told(After(st, [o]), log + Run(st, [o]))
  {
    ReadOne(st, o);
    hide Atoi, Print, Run, After;
    var r := OnPoll(st, o);
    if r.1 == [] {
      assert log + r.1 == log;
      assert log + (r.1 + [Begin(r.0).1]) == log + [Begin(r.0).1];
    }
  }

  lemma {:induction false} LogTellsState(script: seq<Outcome>)
    ensures Told(After(START, script), Run(START, script))
  {
    if script == [] {
      hide Print;
      assert Run(START, []) == [Begin(START).1];
    } else {
      hide Run, After, Told;
      var n := |script| - 1;
      var before, o := script[..n], script[n];
      assert before + [o] == script;
      LogTellsState(before);
      OneMore(START, before, o);
      if After(START, before).expecting {
        StepTells(After(START, before), Run(START, before), o);
      } else {
        Ended(START, before, o);
        assert Run(START, before) + [] == Run(START, before);
      }
    }
  }

  /** A client that has ended stays so. */
  lemma Ended(s: State, script: seq<Outcome>, o: Outcome)
    requires !After(s, script).expecting
    ensures After(After(s, script), [o]) == After(s, script)
  {
    NotExpecting(s, script);
  }

  lemma {:induction false} NotExpecting(s: State, script: seq<Outcome>)
    ensures var st := After(s, script); !st.expecting ==> st.retries == 0 || st.stopped
    decreases |script|, if s.expecting then 0 else 1
  {
    hide Atoi, Print;
    if s.expecting {
      if script != [] {
        NotExpecting(OnPoll(s, script[0]).0, script[1..]);
      }
    } else if s.retries != 0 && !s.stopped {
      NotExpecting(Begin(s).0, script);
    }
  }

  /**
   * Over every run, interrupted or not: reading outcome o logs that request n was answered if and only if
   * the client is still polling, n was the last thing sent, and o is a reply whose text reads n; it logs a
   * malformed reply if and only if the text reads something else.
   */
  lemma {:induction false} AcceptedIff(script: seq<Outcome>, o: Outcome, n: nat)
    ensures var log, more := Run(START, script), Run(START, script + [o]);
            var polling := After(START, script).expecting;
            && log <= more
            && (Accepted(n) in more[|log|..] <==>
                  polling && Outstanding(log, n) && o.Reply? && Atoi(o.text) == n)
            && (Rejected in more[|log|..] <==>
                  polling && exists k :: Outstanding(log, k) && o.Reply? && Atoi(o.text) != k)
  {
    OneMore(START, script, o);
    LogTellsState(script);
    var st, log := After(START, script), Run(START, script);
    if st.expecting {
      ReadOne(st, o);
      hide Run, After, Atoi, Print;
      assert Run(START, script + [o])[|log|..] == Run(st, [o]);
      assert st.awaiting ==> Outstanding(log, st.sequence);
    } else {
      assert Run(START, script + [o])[|log|..] == [];
    }
  }

  function Silences(k: nat): seq<Outcome> {
    seq(k, i => Silence)
  }

  function Copies(n: nat, k: nat): seq<Event> {
    seq(k, i => Sent(n, Print(n), true))
  }

  /** Where the client is after sending request n with so many retries left. */
  function Asking(n: nat, retries: nat): State {
    State(n, retries, true, true, false)
  }

  /** Each of k silences but the last retry is met with another copy of the request. */
  lemma {:induction false} SilencesResend(n: nat, retries: nat, k: nat, rest: seq<Outcome>)
    requires k < retries
    ensures Run(Asking(n, retries), Silences(k) + rest) == Copies(n, k) + Run(Asking(n, retries - k), rest)
    decreases k
  {
    hide Print, Atoi;
    var script := Silences(k) + rest;
    if k == 0 {
      assert script == rest && Copies(n, 0) + Run(Asking(n, retries), rest) == Run(Asking(n, retries), rest);
    } else {
      assert script[0] == Silence && script[1..] == Silences(k - 1) + rest;
      SilencesResend(n, retries - 1, k - 1, rest);
      ReadFirst(Asking(n, retries), script);
      assert OnPoll(Asking(n, retries), Silence) == (Asking(n, retries - 1), [Sent(n, Print(n), true)]);
      hide Run, OnPoll;
      var last := Run(Asking(n, retries - k), rest);
      assert [Sent(n, Print(n), true)] + Copies(n, k - 1) == Copies(n, k);
      assert [Sent(n, Print(n), true)] + (Copies(n, k - 1) + last) == ([Sent(n, Print(n), true)] + Copies(n,
          k - 1)) + last;
    }
  }

  /**
   * A request answered after k <= 2 silences: sent k + 1 times, accepted, and the next one has all its
   * retries again, whatever follows.
   */
  lemma AnsweredRequest(n: nat, k: nat, rest: seq<Outcome>)
    requires k <= 2
    ensures Run(Asking(n, 3), Silences(k) + [Reply(Print(n))] + rest)
            == Copies(n, k) + [Accepted(n)] + [Sent(n + 1, Print(n + 1), true)] + Run(Asking(n + 1, 3), rest)
  {
    RoundTrip(n);
    hide Print, Atoi;
    var tail := [Reply(Print(n))] + rest;
    assert Silences(k) + [Reply(Print(n))] + rest == Silences(k) + tail;
    SilencesResend(n, 3, k, tail);
    assert tail[0] == Reply(Print(n)) && tail[1..] == rest;
    var done := State(n, 3, false, false, false);
    assert OnPoll(Asking(n, 3 - k), tail[0]) == (done, [Accepted(n)]);
    assert Begin(done) == (Asking(n + 1, 3), Sent(n + 1, Print(n + 1), true));
    assert Run(done, rest) == [Sent(n + 1, Print(n + 1), true)] + Run(Asking(n + 1, 3), rest);
  }

  /** The third silence in a row ends the client, whatever would follow. */
  lemma ThreeSilencesEnd(n: nat, rest: seq<Outcome>)
    ensures Run(Asking(n, 3), Silences(3) + rest) == Copies(n, 2)
  {
    hide Print, Atoi;
    var tail := [Silence] + rest;
    assert Silences(3) + rest == Silences(2) + tail;
    SilencesResend(n, 3, 2, tail);
    assert tail[0] == Silence && tail[1..] == rest;
    var done := OnPoll(Asking(n, 1), Silence).0;
    assert !done.expecting && done.retries == 0;
    assert Run(Asking(n, 1), tail) == [] + Run(done, rest) == [];
    assert Copies(n, 2) + [] == Copies(n, 2);
  }

  /** The scripts of whole sessions: delays[i] silences before the answer to request i + 1, then silence. */
  function Session(first: nat, delays: seq<nat>): seq<Outcome>
    decreases |delays|
  {
    if delays == [] then Silences(3)
    else Silences(delays[0]) + [Reply(Print(first))] + Session(first + 1, delays[1..])
  }

  /** What the client is to do in them. */
  function SessionLog(first: nat, delays: seq<nat>): seq<Event>
    decreases |delays|
  {
    if delays == [] then Copies(first, 3)
    else Copies(first, delays[0] + 1) + [Accepted(first)] + SessionLog(first + 1, delays[1..])
  }

  /**
   * The client's whole run against a server that answers each request after at most two silences and then
   * falls silent: every request once and again for each silence, every answer accepted, three last tries.
   */
  lemma {:induction false} WholeSession(delays: seq<nat>)
    requires forall i :: 0 <= i < |delays| ==> delays[i] <= 2
    ensures Run(START, Session(1, delays)) == SessionLog(1, delays)
  {
    SessionFrom(1, delays);
    assert Begin(START) == (Asking(1, 3), Sent(1, Print(1), true));
  }

  lemma {:induction false} SessionFrom(n: nat, delays: seq<nat>)
    requires forall i :: 0 <= i < |delays| ==> delays[i] <= 2
    ensures [Sent(n, Print(n), true)] + Run(Asking(n, 3), Session(n, delays)) == SessionLog(n, delays)
    decreases |delays|
  {
    hide Run, Print;
    var sent := Sent(n, Print(n), true);
    if delays == [] {
      ThreeSilencesEnd(n, []);
      assert Silences(3) + [] == Silences(3);
      assert [sent] + Copies(n, 2) == Copies(n, 3);
    } else {
      var rest := Session(n + 1, delays[1..]);
      AnsweredRequest(n, delays[0], rest);
      SessionFrom(n + 1, delays[1..]);
      assert [sent] + Copies(n, delays[0]) == Copies(n, delays[0] + 1);
      var more := [Sent(n + 1, Print(n + 1), true)] + Run(Asking(n + 1, 3), rest);
      assert [sent] + (Copies(n, delays[0]) + [Accepted(n)] + more) == Copies(n, delays[0] + 1) + [Accepted(n)] + more;
    }
  }

  /** What the inner loop can still go through: twice the retries left, and one more while a reply is outstanding. */
  function Patience(s: State): nat {
    2 * s.retries + if s.awaiting then 1 else 0
  }

  /** The inner loop ends, even when the server keeps sending rubbish: each pass leaves it or uses up patience. */
  lemma InnerLoopEnds(s: State, o: Outcome)
    requires s.expecting && s.retries > 0
    ensures !OnPoll(s, o).0.expecting || Patience(OnPoll(s, o).0) < Patience(s)
  {
  }

  /** Somewhere in the run a poll is interrupted, without ending the program, while a reply is outstanding. */
  predicate Disturbed(s: State, script: seq<Outcome>)
    decreases |script|, if s.expecting then 0 else 1
  {
    if s.expecting then
      script != [] && ((script[0] == Interrupt(false) && s.awaiting) || Disturbed(OnPoll(s, script[0]).0, script[1..]))
    else s.retries != 0 && !s.stopped && Disturbed(Begin(s).0, script)
  }

  predicate AllLegal(log: seq<Event>) {
    forall i :: 0 <= i < |log| && log[i].Sent? ==> log[i].legal
  }

  lemma LegalAppend(a: seq<Event>, b: seq<Event>)
    ensures AllLegal(a + b) <==> AllLegal(a) && AllLegal(b)
  {
    var c := a + b;
    assert forall i :: 0 <= i < |a| ==> c[i] == a[i];
    assert forall i :: 0 <= i < |b| ==> b[i] == c[|a| + i];
  }

  /**
   * With interrupts the lockstep fails exactly then: every send is legal if and only if the run is never
   * disturbed.
   */
  lemma {:induction false} LegalIff(s: State, script: seq<Outcome>)
    requires InStep(s) && (s.expecting ==> s.retries > 0)
    ensures AllLegal(Run(s, script)) <==> !Disturbed(s, script)
    decreases |script|, if s.expecting then 0 else 1
  {
    hide Atoi, Print;
    if s.expecting {
      if script != [] {
        var r := OnPoll(s, script[0]);
        LegalAppend(r.1, Run(r.0, script[1..]));
        if script[0] == Interrupt(false) && s.awaiting {
          IllegalBegin(r.0, script[1..]);
        } else {
          LegalIff(r.0, script[1..]);
        }
      }
    } else if s.retries != 0 && !s.stopped {
      var r := Begin(s);
      LegalAppend([r.1], Run(r.0, script));
      LegalIff(r.0, script);
    }
  }

  lemma {:induction false} IllegalBegin(s: State, script: seq<Outcome>)
    requires !s.expecting && s.retries != 0 && !s.stopped && s.awaiting
    ensures !AllLegal(Run(s, script))
  {
    assert Run(s, script)[0] == Begin(s).1;
  }

  /** For instance, if the very first poll is interrupted the second request is sent against the socket's state. */
  lemma InterruptBreaksLockstep()
    ensures Run(START, [Interrupt(false)]) == [Sent(1, Print(1), true), Sent(2, Print(2), false)]
  {
    var s1 := Begin(START).0;
    var s2 := OnPoll(s1, Interrupt(false)).0;
    assert [Interrupt(false)][1..] == [];
    assert Run(s2, []) == [Begin(s2).1];
    assert Run(s1, [Interrupt(false)]) == Run(s2, []);
  }
}
