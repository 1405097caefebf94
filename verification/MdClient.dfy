/**
 * The Majordomo client API (api/MDP/mdcliapi.c): mdcli_send frames a request, sends a copy, waits, and
 * retries on a fresh socket. The outcomes of the polls are an input script.
 */
module MdClient {
  import opened Frames
  import opened Sockets

  const MDPC01: Frame := [77, 68, 80, 67, 48, 49]

  datatype Outcome = Silence | Reply(msg: Msg) | Interrupted

  /** How mdcli_send ends: with the reply's body, with NULL, in a failed assertion, or not before the script does. */
  datatype Result = Delivered(body: Msg) | Failed | AssertionFailed | StillWaiting

  datatype Sent = Sent(msg: Msg, legal: bool)

  /** What a call does: its sends in order, its result, and whether the socket is left waiting for a reply. */
  datatype Call = Call(sends: seq<Sent>, result: Result, awaiting: bool)

  /** The three assertions on a reply. */
  predicate Matches(service: Frame, m: Msg) {
    |m| >= 3 && m[0] == MDPC01 && m[1] == service
  }

  function Framed(service: Frame, request: Msg): Msg {
    [MDPC01, service] + request
  }

  function SendLoop(awaiting: bool, left: int, service: Frame, msg: Msg, script: seq<Outcome>): Call
    decreases |script|
  {
    if left == 0 then Call([], Failed, awaiting)
    else if script == [] then Call([Sent(msg, !awaiting)], StillWaiting, true)
    else
      match script[0]
      case Interrupted => Call([Sent(msg, !awaiting)], Failed, true)
      case Reply(m) =>
        Call([Sent(msg, !awaiting)], if Matches(service, m) then Delivered(m[2..]) else AssertionFailed, false)
      case Silence =>
        if left - 1 == 0 then Call([Sent(msg, !awaiting)], Failed, true)
        else
          var rest := SendLoop(false, left - 1, service, msg, script[1..]);
          rest.(sends := [Sent(msg, !awaiting)] + rest.sends)
  }

  /** A request frame by frame: the six bytes "MDPC01", the service, and the body as it was handed over. */
  predicate OnTheWire(service: Frame, request: Msg, m: Msg) {
    && |m| == |request| + 2
    && m[0] == [77, 68, 80, 67, 48, 49] && m[1] == service
    && forall i :: 0 <= i < |request| ==> m[i + 2] == request[i]
  }

  class Mdcli {
    var client: ReqSocket
    var retries: int

    constructor ()
      ensures fresh(client) && !client.awaiting && retries == 3
    {
      client := new ReqSocket();
      retries := 3;
    }

    method SetRetries(retries: int)
      modifies this`retries
      ensures this.retries == retries
    {
      this.retries := retries;
    }

    /** _mdcli_connect_to_broker: the old socket is destroyed, a fresh one takes its place. */
    method Connect()
      modifies this`client
      ensures fresh(client) && !client.awaiting
    {
      client := new ReqSocket();
    }

    /** mdcli_send. */
    method SendRequest(service: Frame, request: Msg, script: seq<Outcome>) returns (sends: seq<Sent>, result: Result)
      modifies this`client, client
      ensures Call(sends, result, client.awaiting)
           == SendLoop(old(client.awaiting), retries, service, Framed(service, request), script)
      ensures forall x :: x in sends ==> OnTheWire(service, request, x.msg)
    {
      var msg := [service] + request;
      msg := [MDPC01] + msg;
      assert msg == Framed(service, request) && OnTheWire(service, request, msg);
      SendsOnly(client.awaiting, retries, service, msg, script);
      hide OnTheWire, Framed, SendLoop;
      sends, result := Retry(service, msg, script);
    }

    /** Its loop: a copy of the message, a poll, and another try on a fresh socket if the poll was silent. */
    method Retry(service: Frame, msg: Msg, script: seq<Outcome>) returns (sends: seq<Sent>, result: Result)
      modifies this`client, client
      ensures Call(sends, result, client.awaiting) == SendLoop(old(client.awaiting), retries, service, msg, script)
    {
      var left, i := retries, 0;
      sends, result := [], Failed;
      ghost var all := SendLoop(client.awaiting, left, service, msg, script);
      assert script[0..] == script && sends + all.sends == all.sends;
      while left != 0
        invariant i <= |script| && (client == old(client) || fresh(client))
        invariant result == Failed
        invariant var c := SendLoop(client.awaiting, left, service, msg, script[i..]);
                  all == Call(sends + c.sends, c.result, c.awaiting)
        decreases |script| - i
      {
        var legal := client.Send();
        ghost var before := sends;
        sends := sends + [Sent(msg, legal)];
        assert before + [Sent(msg, legal)] == sends;
        if i == |script| {
          return sends, StillWaiting;
        }
        var o := script[i];
        assert script[i..][0] == o && script[i..][1..] == script[i + 1..];
        i := i + 1;
        match o {
          case Interrupted =>
            break;
          case Reply(m) =>
            client.Recv();
            if !Matches(service, m) {
              return sends, AssertionFailed;
            }
            return sends, Delivered(m[2..]);
          case Silence =>
            left := left - 1;
            if left == 0 {
              break;
            }
            Connect();
            assert forall rest :: before + ([Sent(msg, legal)] + rest) == sends + rest;
        }
      }
      assert sends + [] == sends;
    }
  }

  /** What the loop sends is what it was given. */
  lemma {:induction false} SendsOnly(awaiting: bool, left: int, service: Frame, msg: Msg, script: seq<Outcome>)
    ensures forall x :: x in SendLoop(awaiting, left, service, msg, script).sends ==> x.msg == msg
    decreases |script|
  {
    if left != 0 && script != [] && script[0].Silence? && left - 1 != 0 {
      SendsOnly(false, left - 1, service, msg, script[1..]);
    }
  }

  /** The number of polls that end in silence before anything else happens. */
  function Silences(script: seq<Outcome>): nat {
    if script != [] && script[0].Silence? then 1 + Silences(script[1..]) else 0
  }

  /**
   * With retries n >= 0: one identical copy for each silent poll and one more, at most n in all; only the
   * first can be against the state of the socket, and it is so exactly when a reply was still outstanding.
   */
  lemma {:induction false} BoundedIdenticalCopies(awaiting: bool, n: nat, service: Frame, msg: Msg,
      script: seq<Outcome>)
    ensures var c := SendLoop(awaiting, n, service, msg, script);
            && |c.sends| == (if n <= Silences(script) then n else Silences(script) + 1)
            && |c.sends| <= n
            && (forall i :: 0 <= i < |c.sends| ==> c.sends[i] == Sent(msg, i > 0 || !awaiting))
  {
    if n > 0 && script != [] && script[0].Silence? && n - 1 > 0 {
      BoundedIdenticalCopies(false, n - 1, service, msg, script[1..]);
    }
  }

  /** A body is returned exactly when, within the retries, the first answer matches; it is that answer's body. */
  lemma {:induction false} DeliveredIff(awaiting: bool, n: nat, service: Frame, msg: Msg, script: seq<Outcome>,
      body: Msg)
    ensures SendLoop(awaiting, n, service, msg, script).result == Delivered(body)
        <==> Silences(script) < n && Silences(script) < |script| && |body| > 0
             && script[Silences(script)] == Reply([MDPC01, service] + body)
  {
    if script != [] && n > 0 {
      if script[0].Silence? {
        if n > 1 {
          DeliveredIff(false, n - 1, service, msg, script[1..], body);
        }
      } else if script[0].Reply? {
        var m := script[0].msg;
        assert Matches(service, m) ==> m == [MDPC01, service] + m[2..];
        assert ([MDPC01, service] + body)[2..] == body;
      }
    }
  }

  /** A server that frames its answer as requests are framed gets its body through. */
  lemma FramedReplyDelivered(awaiting: bool, n: nat, service: Frame, request: Msg, body: Msg, script: seq<Outcome>)
    requires body != [] && Silences(script) < n && Silences(script) < |script|
    requires script[Silences(script)] == Reply(Framed(service, body))
    ensures SendLoop(awaiting, n, service, Framed(service, request), script).result == Delivered(body)
    ensures OnTheWire(service, body, Framed(service, body))
  {
    DeliveredIff(awaiting, n, service, Framed(service, request), script, body);
  }

  /**
   * How a call ends, from the first outcome that is not a silence: with NULL exactly when the retries are
   * used up in silence or an interrupt comes first; in an assertion exactly when that outcome is a reply
   * with another header, another service or no body; and it is still waiting only while the script goes on.
   */
  lemma {:induction false} EndsIff(awaiting: bool, n: nat, service: Frame, msg: Msg, script: seq<Outcome>)
    ensures var r := SendLoop(awaiting, n, service, msg, script).result; var k := Silences(script);
            && (r == Failed <==> n <= k || (k < |script| && script[k].Interrupted?))
            && (r == AssertionFailed <==>
                  k < n && k < |script| && script[k].Reply?
                  && !exists body: Msg :: body != [] && script[k].msg == [MDPC01, service] + body)
            && (r == StillWaiting <==> k < n && k == |script|)
  {
    if script != [] && n > 0 {
      if script[0].Silence? {
        if n > 1 {
          EndsIff(false, n - 1, service, msg, script[1..]);
        }
      } else if script[0].Reply? {
        var m := script[0].msg;
        if Matches(service, m) {
          assert m == [MDPC01, service] + m[2..];
        }
      }
    }
  }

  /** Giving up leaves the socket waiting, so the next call on it starts with a send the socket refuses. */
  lemma {:induction false} GivingUpSpoilsNextCall(awaiting: bool, n: nat, service: Frame, msg: Msg,
                                                  script: seq<Outcome>, n2: nat, msg2: Msg, script2: seq<Outcome>)
    requires n > 0 && n2 > 0
    ensures var c := SendLoop(awaiting, n, service, msg, script);
            && (c.awaiting <==> c.result == Failed || c.result == StillWaiting)
            && (SendLoop(c.awaiting, n2, service, msg2, script2).sends[0].legal
                <==> c.result.Delivered? || c.result.AssertionFailed?)
  {
    if script != [] && script[0].Silence? && n > 1 {
      GivingUpSpoilsNextCall(false, n - 1, service, msg, script[1..], n2, msg2, script2);
    }
  }
}
