/** The byte sink and source that serialization talks to: an io.Writer and an
    io.Reader, each reduced to the bytes it accepts or delivers before it fails,
    and binary.Write / binary.Read of one big-endian 64-bit word on top of them. */
module Streams {
  import opened Words

  /** An io.Writer that accepts `room` more bytes. A write that does not fit
      keeps the bytes that fit and reports failure, as io.Writer allows a short
      write together with an error. */
  class Writer {
    var written: seq<byte>
    var room: nat

    constructor (room: nat)
      ensures written == [] && this.room == room
    {
      written := [];
      this.room := room;
    }

    /** binary.Write(w, binary.BigEndian, v) for a 64-bit value v. */
    method WriteUint64(v: u64) returns (ok: bool)
      modifies this
      ensures ok == (old(room) >= 8)
      ensures ok ==> written == old(written) + BigEndian(v) && room == old(room) - 8
      ensures !ok ==> written == old(written) + BigEndian(v)[..old(room)] && room == 0
    {
      var b := BigEndian(v);
      ok := room >= 8;
      var k := if ok then 8 else room;
      written := written + b[..k];
      room := room - k;
    }
  }

  /** An io.Reader holding the bytes it has still to deliver; once they run
      out every read fails. */
  class Reader {
    var unread: seq<byte>

    constructor (data: seq<byte>)
      ensures unread == data
    {
      unread := data;
    }

    /** binary.Read(r, binary.BigEndian, &v) for a 64-bit v: io.ReadFull of
        eight bytes. A short read consumes what was there and fails. */
    method ReadUint64() returns (v: u64, ok: bool)
      modifies this
      ensures ok == (|old(unread)| >= 8)
      ensures ok ==> v == Uint64(old(unread)[..8]) && unread == old(unread)[8..]
      ensures !ok ==> v == 0 && unread == []
    {
      if |unread| >= 8 {
        v, ok := Uint64(unread[..8]), true;
        unread := unread[8..];
      } else {
        v, ok := 0, false;
        unread := [];
      }
    }
  }
}
