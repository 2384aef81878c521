/** SocketStream's ByteArray overloads: the socket reads into and writes from
    the blocks themselves. */
module SocketStreams {
  import opened Bytes
  import opened Options
  import opened Tapes
  import opened ByteArrays

  /** What a socket call did: moved some bytes, or returned `code` <= 0. */
  datatype Transfer = Moved(data: seq<Byte>) | Refused(code: int)

  /** SocketStream::read(ba, length). What the socket received is in `incoming`.
      None: the null block was dereferenced. Receiving into the blocks and
      moving the cursor leaves the same data and cursor as writing the received
      bytes would. */
  method Read(connected: bool, ba: ByteArray, length: nat, incoming: Transfer) returns (rt: Option<int>)
    requires ba.Valid()
    requires incoming.Moved? ==> 0 < |incoming.data| <= length
    requires incoming.Refused? ==> incoming.code <= 0
    modifies ba.Repr
    ensures rt == None <==> connected && !Fits(ba.baseSize, old(ba.capacity - ba.position), length)
    ensures rt.Some? ==> ba.Valid() && fresh(ba.Repr - old(ba.Repr))
    ensures !connected ==> rt == Some(-1)
    ensures rt.Some? && connected ==>
      rt.value == if incoming.Moved? then |incoming.data| else incoming.code
    ensures rt.Some? && connected && incoming.Moved? ==>
      && ba.Data() == Overwrite(old(ba.Data()), old(ba.position), incoming.data)
      && ba.position == old(ba.position) + |incoming.data|
    ensures rt.Some? && !(connected && incoming.Moved?) ==>
      ba.Data() == old(ba.Data()) && ba.position == old(ba.position)
  {
    hide Spine, Holds, Span, Flatten, Total, ByteArray.Tiles, Fits, Overwrite, Splice;
    if !connected {
      return Some(-1);
    }
    var segs, ok := ba.GetWriteBuffers(length);
    if !ok {
      return None;
    }
    match incoming
    case Refused(code) =>
      assert ba.Data() == old(ba.Data());
      return Some(code);
    case Moved(data) =>
      OverwriteGrown(old(ba.Contents()), ba.Contents(), ba.size, ba.position, data);
      ba.FillSegments(segs, data);
      var moved := ba.SetPosition(ba.position + |data|);
      return Some(|data|);
  }

  /** SocketStream::write(ba, length). The socket takes the first `taken` bytes
      of the segments, or returns a code <= 0. What it is given are exactly the
      bytes that read would have returned. */
  method Write(connected: bool, ba: ByteArray, length: nat, taken: int)
    returns (rt: int, ghost offered: seq<Byte>)
    requires ba.Valid()
    requires taken <= length && taken <= ba.size - ba.position
    modifies ba.Repr
    ensures ba.Valid() && ba.Repr == old(ba.Repr) && ba.Data() == old(ba.Data())
    ensures rt == if connected then taken else -1
    ensures connected ==>
      offered == ba.Data()[old(ba.position)..old(ba.position) + if length < ba.size - old(ba.position) then length
                                                               else ba.size - old(ba.position)]
    ensures ba.position == if connected && taken > 0 then old(ba.position) + taken else old(ba.position)
  {
    hide Spine, Holds, Span, Flatten, Total, Gather, ByteArray.Tiles;
    offered := [];
    if !connected {
      return -1, offered;
    }
    var segs, total := ba.GetReadBuffers(length);
    offered := Gather(segs);
    if taken > 0 {
      var moved := ba.SetPosition(ba.position + taken);
    }
    return taken, offered;
  }
}
