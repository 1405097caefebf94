/** The lockstep of a REQ socket: send and receive alternate. */
module Sockets {
  class ReqSocket {
    var awaiting: bool   // a request is out and its reply has not been read

    constructor ()
      ensures !awaiting
    {
      awaiting := false;
    }

    /** Sending again before the reply was read is refused, and leaves the socket as it was. */
    method Send() returns (legal: bool)
      modifies this
      ensures legal == !old(awaiting) && awaiting
    {
      legal := !awaiting;
      awaiting := true;
    }

    method Recv()
      modifies this
      ensures !awaiting
    {
      awaiting := false;
    }
  }
}
