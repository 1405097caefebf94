/** Frames, multipart messages and the socket envelope rules that all the programs share. */
module Frames {
  type Byte = b: int | 0 <= b < 256
  type Frame = seq<Byte>
  type Msg = seq<Frame>

  datatype Option<+T> = None | Some(value: T)

  /** A message on its way to, or held by, one peer of a ROUTER socket. */
  datatype Parcel = Parcel(peer: Frame, msg: Msg)

  /** The one-byte comparison the programs make with memcmp; an empty frame matches nothing. */
  predicate StartsWith(f: Frame, b: Byte) {
    |f| > 0 && f[0] == b
  }

  /** zmsg_wrap: push an empty frame, then the identity. */
  function Wrap(id: Frame, m: Msg): Msg {
    [id, []] + m
  }

  /** What zmsg_unwrap leaves behind: the identity goes, and so does an empty frame right after it. */
  function Unwrapped(m: Msg): Msg
    requires |m| > 0
  {
    if |m| > 1 && m[1] == [] then m[2..] else m[1..]
  }

  /** A message that still has a frame after its envelope is removed. */
  predicate HasContent(m: Msg) {
    |m| > 0 && |Unwrapped(m)| > 0
  }

  /** A REQ socket puts an empty delimiter in front of what it sends. */
  function ReqOut(m: Msg): Msg {
    [[]] + m
  }

  /** A REQ socket delivers only messages that start with the delimiter, and strips it. */
  function ReqIn(m: Msg): Option<Msg> {
    if |m| > 0 && m[0] == [] then Some(m[1..]) else None
  }

  /** zframe_reset on the last frame of a message. */
  function ResetLast(m: Msg, f: Frame): Msg
    requires |m| > 0
  {
    m[..|m| - 1] + [f]
  }
}
