/** The growing byte buffer: a linked list of equal blocks with a cursor. */
module ByteArrays {
  import opened Bytes
  import opened Codec
  import opened Options
  import opened Tapes

  class Node {
    const ptr: array<Byte>
    const size: nat
    var next: Node?

    constructor (s: nat)
      ensures ptr.Length == size == s && next == null && fresh(ptr)
    {
      ptr := new Byte[s];
      size := s;
      next := null;
    }
  }

  ghost function NodeAt(nodes: seq<Node>, i: nat): Node? {
    if i < |nodes| then nodes[i] else null
  }

  /** The nodes are linked in this order and have a block of `n` bytes each,
      no two sharing one. */
  ghost predicate Spine(nodes: seq<Node>, n: nat)
    reads nodes
  {
    && (forall i :: 0 <= i < |nodes| ==> nodes[i].size == nodes[i].ptr.Length == n)
    && (forall i {:trigger nodes[i].next} :: 0 <= i < |nodes| ==> nodes[i].next == NodeAt(nodes, i + 1))
    && (forall i, j :: 0 <= i < j < |nodes| ==> nodes[i] != nodes[j] && nodes[i].ptr != nodes[j].ptr)
  }

  ghost predicate Holds(nodes: seq<Node>, blocks: seq<seq<Byte>>)
    reads set n | n in nodes :: n.ptr
  {
    |blocks| == |nodes| && forall i :: 0 <= i < |nodes| ==> blocks[i] == nodes[i].ptr[..]
  }

  method Memcpy(p: array<Byte>, off: nat, src: seq<Byte>)
    requires off + |src| <= p.Length
    modifies p
    ensures p[..] == Splice(old(p[..]), off, src)
  {
    forall k | 0 <= k < |src| {
      p[off + k] := src[k];
    }
  }

  /** An iovec: `len` bytes of the block `base`, from `off` on. */
  datatype Segment = Segment(base: array<Byte>, off: nat, len: nat)

  /** The number of bytes a list of segments has. */
  function Total(segs: seq<Segment>): nat {
    if segs == [] then 0 else Total(segs[..|segs| - 1]) + segs[|segs| - 1].len
  }

  lemma TotalSnoc(segs: seq<Segment>, seg: Segment)
    ensures Total(segs + [seg]) == Total(segs) + seg.len
    ensures forall i :: 0 <= i <= |segs| ==> (segs + [seg])[..i] == segs[..i]
  {
    assert (segs + [seg])[..|segs|] == segs;
  }

  lemma {:induction false} TotalPrefix(segs: seq<Segment>, i: nat)
    requires i <= |segs|
    ensures Total(segs[..i]) <= Total(segs)
    ensures i < |segs| ==> Total(segs[..i + 1]) == Total(segs[..i]) + segs[i].len
  {
    if i < |segs| {
      assert segs[..i + 1][..i] == segs[..i];
    }
    if i == |segs| {
      assert segs[..i] == segs;
    } else {
      assert segs[..|segs| - 1][..i] == segs[..i];
      TotalPrefix(segs[..|segs| - 1], i);
    }
  }

  /** The bytes the segments hold, one after the other. */
  ghost function Gather(segs: seq<Segment>): (s: seq<Byte>)
    requires forall seg <- segs :: seg.off + seg.len <= seg.base.Length
    reads set seg | seg in segs :: seg.base
    ensures |s| == Total(segs)
  {
    if segs == [] then []
    else
      var last := segs[|segs| - 1];
      Gather(segs[..|segs| - 1]) + last.base[last.off..last.off + last.len]
  }

  lemma GatherNone()
    ensures Total([]) == 0 && Gather([]) == []
  {
  }

  lemma GatherSnoc(segs: seq<Segment>)
    requires segs != []
    requires forall seg <- segs[..|segs| - 1] :: seg.off + seg.len <= seg.base.Length
    requires var last := segs[|segs| - 1]; last.off + last.len <= last.base.Length
    ensures var front, last := segs[..|segs| - 1], segs[|segs| - 1];
            && (forall seg <- segs :: seg.off + seg.len <= seg.base.Length)
            && Total(segs) == Total(front) + last.len
            && Gather(segs) == Gather(front) + last.base[last.off..last.off + last.len]
  {
    assert segs == segs[..|segs| - 1] + [segs[|segs| - 1]];
  }

  /** The encoding loop of writeUint32/64: the scratch buffer of five or ten
      bytes is never overrun. */
  method EncodeVarint(bits: nat, u: nat) returns (s: seq<Byte>)
    requires bits > 0 && u < Pow2(bits)
    ensures s == Leb(u)
  {
    VarintRoundTrip(bits, u, []);
    var tmp := new Byte[(bits + 6) / 7];
    var i, value: nat := 0, u;
    while value >= 0x80
      invariant 0 <= i < tmp.Length && |Leb(u)| <= tmp.Length && Leb(u) == tmp[..i] + Leb(value)
      decreases value
    {
      ghost var before := tmp[..i];
      tmp[i] := value % 0x80 + 0x80;
      assert tmp[..i + 1] == before + [value % 0x80 + 0x80];
      i, value := i + 1, value / 0x80;
    }
    tmp[i] := value;
    s := tmp[..i + 1];
  }

  class ByteArray {
    const host: Order
    const baseSize: nat
    var position: nat
    var capacity: nat
    var size: nat
    var endian: Order
    var root: Node
    var cur: Node?
    ghost var nodes: seq<Node>
    ghost var block: nat  // position / baseSize
    ghost var blocks: seq<seq<Byte>>  // the bytes of each node
    ghost var Repr: set<object>

    /** The list from `root`: disjoint blocks of the base size. */
    ghost predicate Listed()
      reads this, Repr
    {
      && this in Repr
      && baseSize > 0 && |nodes| > 0 && root == nodes[0]
      && (forall i :: 0 <= i < |nodes| ==> nodes[i] in Repr && nodes[i].ptr in Repr)
      && Spine(nodes, baseSize) && Holds(nodes, blocks)
      && position <= capacity && size <= capacity == Span(|nodes|, baseSize)
    }

    /** `block` is the number of the block the cursor is in. */
    ghost predicate Linked()
      reads this, Repr
    {
      Listed() && Span(block, baseSize) <= position < Span(block, baseSize) + baseSize
    }

    /** The cached block is the one the cursor is in, null at the end, and the
        cursor has not passed the data. */
    ghost predicate Valid()
      reads this, Repr
      ensures Valid() ==> this in Repr
    {
      Linked() && cur == NodeAt(nodes, block) && position <= size
    }

    /** The heap invariant in the source's terms: m_cur is block
        m_position / m_baseSize, null exactly at the end of the capacity, which
        is the blocks' size together. */
    lemma CursorIsBlock()
      requires Valid()
      ensures cur == NodeAt(nodes, position / baseSize) && (cur == null <==> position == capacity)
      ensures position <= size <= capacity == |nodes| * baseSize
    {
      Offset(block, baseSize, position);
      CursorBlock(block, |nodes|, baseSize, position);
      SpanIsProduct(|nodes|, baseSize);
    }

    ghost function Cursor(): (nat, nat, nat, Node?, Order)
      reads this
    {
      (position, size, block, cur, endian)
    }

    /** Every byte of the capacity. */
    ghost function Contents(): (s: seq<Byte>)
      requires Listed()
      reads this, Repr
      ensures |s| == capacity
    {
      assert Uniform(blocks, baseSize);
      FlattenLength(blocks, baseSize);
      Flatten(blocks)
    }

    /** The bytes written so far: the flat sequence the array stands for. */
    ghost function Data(): (s: seq<Byte>)
      requires Listed()
      reads this, Repr
      ensures |s| == size
    {
      Contents()[..size]
    }

    ghost function AsTape(): (t: Tape)
      requires Valid()
      reads this, Repr
      ensures t.Valid()
    {
      Tape(baseSize, Data(), position, capacity - position)
    }

    constructor (host: Order, baseSize: nat)
      requires baseSize > 0
      ensures Valid() && fresh(Repr)
      ensures Data() == [] && position == 0 && capacity == baseSize
      ensures endian == BigEndian && this.host == host && this.baseSize == baseSize
    {
      this.host := host;
      this.baseSize := baseSize;
      var first := new Node(baseSize);
      position, capacity, size := 0, baseSize, 0;
      endian := BigEndian;
      root, cur := first, first;
      nodes, block := [first], 0;
      blocks := [first.ptr[..]];
      Repr := {this, first, first.ptr};
    }

    method SetIsLittleEndian(val: bool)
      requires Valid()
      modifies this`endian
      ensures Valid() && Contents() == old(Contents())
      ensures endian == if val then LittleEndian else BigEndian
    {
      endian := if val then LittleEndian else BigEndian;
    }

    method Clear()
      requires Valid()
      modifies Repr
      ensures Valid() && Repr == old(Repr)
      ensures Data() == [] && position == 0 && capacity == baseSize && endian == old(endian)
    {
      position, size := 0, 0;
      capacity := baseSize;
      cur := root;
      root.next := null;
      nodes, blocks, block := nodes[..1], blocks[..1], 0;
    }

    /** Hangs `node` behind the last one. */
    method Link(last: Node, node: Node)
      requires Listed() && last == nodes[|nodes| - 1]
      requires node !in Repr && node.ptr !in Repr && node.next == null && node.size == node.ptr.Length == baseSize
      modifies this`nodes, this`blocks, last`next
      ensures nodes == old(nodes) + [node] && blocks == old(blocks) + [node.ptr[..]]
      ensures Spine(nodes, baseSize) && Holds(nodes, blocks)
    {
      last.next := node;
      nodes := nodes + [node];
      blocks := blocks + [node.ptr[..]];
    }

    /** One more block at the end of the list. */
    method Extend(last: Node) returns (node: Node)
      requires Linked() && last == nodes[|nodes| - 1]
      modifies this`nodes, this`blocks, this`capacity, this`Repr, last
      ensures Linked() && fresh(Repr - old(Repr)) && old(Repr) <= Repr
      ensures nodes == old(nodes) + [node] && node !in old(nodes)
      ensures old(blocks) <= blocks
    {
      hide Span, Spine, Holds;
      SpanAdd(|nodes|, 1, baseSize);
      SpanOne(baseSize);
      node := new Node(baseSize);
      Link(last, node);
      Repr := Repr + {node, node.ptr};
      capacity := capacity + baseSize;
    }

    /** The last node of the list. */
    method Last() returns (last: Node)
      requires Linked()
      ensures last == nodes[|nodes| - 1]
    {
      last := root;
      ghost var k := 0;
      while last.next != null
        invariant 0 <= k < |nodes| && last == nodes[k]
        decreases |nodes| - k
      {
        last := last.next;
        k := k + 1;
      }
    }

    /** `count` more blocks; `first` is the first of them. */
    method Append(count: nat) returns (first: Node?)
      requires Linked()
      modifies Repr
      ensures Linked() && fresh(Repr - old(Repr)) && old(Repr) <= Repr
      ensures Cursor() == old(Cursor())
      ensures |nodes| == |old(nodes)| + count && old(nodes) <= nodes
      ensures first == if count == 0 then null else nodes[|old(nodes)|]
      ensures capacity == old(capacity) + Span(count, baseSize)
      ensures old(blocks) <= blocks
    {
      hide Spine, Holds, Flatten;
      var tmp := Last();
      first := null;
      ghost var k := |nodes|;
      for i := 0 to count
        invariant Linked() && fresh(Repr - old(Repr)) && old(Repr) <= Repr
        invariant |nodes| == k + i && old(nodes) <= nodes
        invariant capacity == old(capacity) + Span(i, baseSize)
        invariant tmp == nodes[k + i - 1]
        invariant first == if i == 0 then null else nodes[k]
        invariant Cursor() == old(Cursor())
        invariant old(blocks) <= blocks
      {
        tmp := Extend(tmp);
        if first == null {
          first := tmp;
        }
      }
    }

    /** Appends `GrowBlocks` blocks of unspecified bytes; nothing else moves. */
    method AddCapacity(want: nat)
      requires Valid()
      modifies Repr
      ensures Valid() && fresh(Repr - old(Repr)) && old(Repr) <= Repr
      ensures capacity - position == Grown(baseSize, old(capacity - position), want)
      ensures old(Contents()) <= Contents()
      ensures position == old(position) && size == old(size) && endian == old(endian)
      ensures want > 0 ==> cur != null
    {
      hide Flatten, Spine, Holds, Fits, Span;
      var room := capacity - position;
      CursorBlock(block, |nodes|, baseSize, position);
      if want == 0 || room >= want {
        NoGrowth(baseSize, room, want);
        return;
      }
      var more := want - room;
      var count := more / baseSize + if more % baseSize > room then 1 else 0;
      assert count == GrowBlocks(baseSize, room, want);
      var first := Append(count);
      FlattenPrefix(old(blocks), blocks);
      CursorBlock(block, |nodes|, baseSize, position);
      GrowthSuffices(baseSize, room, want);
      if room == 0 {
        cur := first;
      }
    }

    /** memcpy into block `b`. */
    method Store(ghost b: nat, p: array<Byte>, off: nat, src: seq<Byte>)
      requires Linked() && b < |nodes| && p == nodes[b].ptr && off + |src| <= baseSize
      modifies this`blocks, p
      ensures Linked() && Span(b, baseSize) + off + |src| <= capacity
      ensures Contents() == Splice(old(Contents()), Span(b, baseSize) + off, src)
    {
      hide Splice, Flatten, Span;
      SpanMonotone(b + 1, |nodes|, baseSize);
      SpanAdd(b, 1, baseSize);
      SpanOne(baseSize);
      FlattenSplice(blocks, baseSize, b, off, src);
      Memcpy(p, off, src);
      blocks := blocks[b := p[..]];
    }

    /** memcpy into the current block at the cursor, which moves on, to the
        next block when this one is full. */
    method Put(npos: nat, src: seq<Byte>)
      requires Linked() && cur == NodeAt(nodes, block) && cur != null && src != []
      requires position == Span(block, baseSize) + npos && npos + |src| <= baseSize
      modifies this`blocks, this`position, this`cur, this`block, cur.ptr
      ensures Linked() && cur == NodeAt(nodes, block)
      ensures position == old(position) + |src| <= capacity
      ensures npos + |src| == baseSize ==> position == Span(block, baseSize)
      ensures Contents() == Splice(old(Contents()), old(position), src)
      ensures block == if npos + |src| == baseSize then old(block) + 1 else old(block)
    {
      hide Splice, Flatten, Holds, Span;
      SpanAdd(block, 1, baseSize);
      SpanOne(baseSize);
      Store(block, cur.ptr, npos, src);
      if cur.size == npos + |src| {
        cur := cur.next;
        block := block + 1;
      }
      position := position + |src|;
    }

    lemma BlockSize()
      requires Linked() && cur == NodeAt(nodes, block) && cur != null
      ensures cur.size == baseSize && block < |nodes|
    {
    }

    /** The copying loop of write and the size update behind it: it meets the
        null block exactly when the bytes do not fit behind the cursor. */
    method Fill(buf: seq<Byte>) returns (ok: bool)
      requires Valid() && cur != null && buf != []
      modifies this`blocks, this`position, this`size, this`cur, this`block, set n | n in nodes :: n.ptr
      ensures ok <==> old(position) + |buf| <= capacity
      ensures ok ==> Valid() && position == old(position) + |buf|
      ensures ok ==> size == if position > old(size) then position else old(size)
      ensures ok ==> Contents() == Splice(old(Contents()), old(position), buf)
    {
      hide Splice, Flatten, Span, Holds, Spine;
      assert buf[..0] == [];
      BlockSize();
      Offset(block, baseSize, position);
      var npos := position % baseSize;
      var ncap := cur.size - npos;
      var bpos, left := 0, |buf|;
      ghost var p0 := position;
      ghost var before := Contents();
      SpliceNothing(before, p0);
      while left > 0
        invariant Linked() && cur == NodeAt(nodes, block) && size == old(size)
        invariant 0 <= bpos <= bpos + left == |buf| && position == p0 + bpos <= capacity == |before|
        invariant left > 0 ==> cur != null && position == Span(block, baseSize) + npos && ncap == baseSize - npos
        invariant Contents() == Splice(before, p0, buf[..bpos])
      {
        if ncap >= left {
          Put(npos, buf[bpos..bpos + left]);
          SpliceNext(before, p0, buf, bpos, left);
          bpos, left := bpos + left, 0;
        } else {
          Put(npos, buf[bpos..bpos + ncap]);
          SpliceNext(before, p0, buf, bpos, ncap);
          bpos, left := bpos + ncap, left - ncap;
          if cur == null {
            return false;
          }
          BlockSize();
          ncap, npos := cur.size, 0;
        }
      }
      assert buf[..bpos] == buf;
      if position > size {
        size := position;
      }
      return true;
    }

    /** Overwrites the `|buf|` bytes at the cursor and moves it behind them,
        growing as needed. `ok` is false when the growth fell short and the
        null block behind the last one is dereferenced. */
    method Write(buf: seq<Byte>) returns (ok: bool)
      requires Valid()
      modifies Repr
      ensures ok == old(AsTape()).Write(buf).Some?
      ensures ok ==> Valid() && fresh(Repr - old(Repr)) && AsTape() == old(AsTape()).Write(buf).value
      ensures ok ==> Overwrite(old(Contents()), old(position), buf) <= Contents()
      ensures endian == old(endian)
    {
      hide Splice, Overwrite, Flatten, Span, GrowBlocks, Grown, Fits, Spine, Holds;
      if |buf| == 0 {
        WriteNothing(AsTape());
        OverwriteNothing(Contents(), position);
        return true;
      }
      GrowthSuffices(baseSize, capacity - position, |buf|);
      AddCapacity(|buf|);
      OverwriteGrown(old(Contents()), Contents(), size, position, buf);
      ok := Fill(buf);
    }

    /** Hands out the next `n` bytes of the current block. */
    method Get(npos: nat, n: nat) returns (s: seq<Byte>)
      requires Linked() && cur == NodeAt(nodes, block) && cur != null && n > 0
      requires position == Span(block, baseSize) + npos && npos + n <= baseSize
      modifies this`position, this`cur, this`block
      ensures Linked() && cur == NodeAt(nodes, block)
      ensures Contents() == old(Contents())
      ensures npos + n == baseSize ==> position == Span(block, baseSize)
      ensures position == old(position) + n <= capacity && s == Contents()[old(position)..position]
      ensures block == if npos + n == baseSize then old(block) + 1 else old(block)
    {
      hide Flatten;
      SpanMonotone(block + 1, |nodes|, baseSize);
      FlattenSlice(blocks, baseSize, block, npos, n);
      s := cur.ptr[npos..npos + n];
      if cur.size == npos + n {
        cur := cur.next;
        block := block + 1;
      }
      position := position + n;
    }

    /** The copying loop of read. */
    method Collect(n: nat) returns (buf: seq<Byte>)
      requires Valid() && cur != null && n <= size - position
      modifies this`position, this`cur, this`block
      ensures Valid() && Contents() == old(Contents())
      ensures position == old(position) + n && buf == Contents()[old(position)..position]
    {
      hide Flatten, Span, Holds;
      Offset(block, baseSize, position);
      var npos := position % baseSize;
      var ncap := cur.size - npos;
      var left := n;
      buf := [];
      ghost var p0 := position;
      while left > 0
        invariant Linked() && cur == NodeAt(nodes, block) && Contents() == old(Contents())
        invariant 0 <= left && position == p0 + n - left
        invariant left > 0 ==> position == Span(block, baseSize) + npos && ncap == baseSize - npos
        invariant buf == Contents()[p0..position]
      {
        CursorBlock(block, |nodes|, baseSize, position);
        ghost var p := position;
        if ncap >= left {
          var part := Get(npos, left);
          buf, left := buf + part, 0;
        } else {
          var part := Get(npos, ncap);
          buf, left := buf + part, left - ncap;
          CursorBlock(block, |nodes|, baseSize, position);
          ncap, npos := cur.size, 0;
        }
        SliceJoin(Contents(), p0, p, position);
      }
    }

    /** Reads the next `n` bytes and moves the cursor behind them. Reading
        nothing at the end of the capacity dereferences the null block. */
    method Read(n: nat) returns (r: ReadOutcome<seq<Byte>>)
      requires Valid()
      modifies this`position, this`cur, this`block
      ensures Valid() && Contents() == old(Contents())
      ensures r == old(AsTape()).Read(n)
      ensures AsTape() == if r.Got? then old(AsTape()).Skip(n) else old(AsTape())
    {
      hide Flatten, Span, Holds, Spine;
      if n > size - position {
        return OutOfRange;
      }
      CursorBlock(block, |nodes|, baseSize, position);
      if cur == null {
        return NullBlock;
      }
      var buf := Collect(n);
      assert buf == Data()[old(position)..position];
      return Got(buf);
    }

    /** Walks the list to the block of position `v`. */
    method Locate(v: nat)
      requires Listed() && v <= capacity
      modifies this`cur, this`block
      ensures Listed() && Span(block, baseSize) <= v < Span(block, baseSize) + baseSize
      ensures cur == NodeAt(nodes, block)
    {
      hide Flatten, Holds;
      cur, block := root, 0;
      var rest := v;
      while rest > cur.size
        invariant block < |nodes| && cur == nodes[block] && rest >= 0
        invariant v == Span(block, baseSize) + rest
        decreases rest
      {
        rest := rest - cur.size;
        cur := cur.next;
        block := block + 1;
      }
      if rest == cur.size {
        cur := cur.next;
        block := block + 1;
      }
    }

    /** Moves the cursor to `v`; `ok` is false when out_of_range is thrown. A
        cursor behind the data makes the bytes up to it part of the data. */
    method SetPosition(v: nat) returns (ok: bool)
      requires Valid()
      modifies this`position, this`size, this`cur, this`block
      ensures Valid() && Contents() == old(Contents())
      ensures ok <==> v <= capacity
      ensures ok ==> position == v && size == if v > old(size) then v else old(size)
      ensures !ok ==> AsTape() == old(AsTape())
      ensures v <= old(size) ==> AsTape() == old(AsTape()).Seek(v)
    {
      hide Flatten, Holds, Spine, Span;
      if v > capacity {
        return false;
      }
      position := v;
      if position > size {
        size := position;
      }
      Locate(v);
      return true;
    }

    // ---- scatter and gather --------------------------------------------

    /** The segment lies in one block and starts at position `at`. */
    ghost predicate InBlock(seg: Segment, at: nat)
      reads this
    {
      exists b :: 0 <= b < |nodes| && seg.base == nodes[b].ptr && seg.off + seg.len <= baseSize
        && at == Span(b, baseSize) + seg.off
    }

    /** Non-empty segments, each in one block, that cover the positions from
        `from` on without gap or overlap. */
    ghost predicate Tiles(segs: seq<Segment>, from: nat)
      reads this
    {
      forall i :: 0 <= i < |segs| ==> segs[i].len > 0 && InBlock(segs[i], from + Total(segs[..i]))
    }

    lemma TilesNone(from: nat)
      ensures Tiles([], from) && Total([]) == 0 && Gather([]) == []
    {
    }

    lemma TilesSnoc(segs: seq<Segment>, seg: Segment, from: nat)
      requires Tiles(segs, from) && seg.len > 0 && InBlock(seg, from + Total(segs))
      ensures Tiles(segs + [seg], from) && Total(segs + [seg]) == Total(segs) + seg.len
    {
      hide InBlock, Total;
      TotalSnoc(segs, seg);
      var more := segs + [seg];
      assert more[..|segs|] == segs;
      assert forall j :: 0 <= j <= |segs| ==> more[..j] == segs[..j];
    }

    lemma TilesPrefix(segs: seq<Segment>, i: nat, from: nat)
      requires Tiles(segs, from) && i <= |segs|
      ensures Tiles(segs[..i], from)
    {
      hide InBlock;
      assert forall j :: 0 <= j < i ==> segs[..i][..j] == segs[..j];
    }

    lemma BlockSegment(b: nat, off: nat, len: nat)
      requires Listed() && b < |nodes| && off + len <= baseSize
      ensures InBlock(Segment(nodes[b].ptr, off, len), Span(b, baseSize) + off)
    {
    }

    /** The loop of the three buffer getters: `len` bytes from the cursor on.
        `ok` is false when it runs into the null block. */
    method Segments(len: nat) returns (segs: seq<Segment>, ok: bool)
      requires Valid() && cur != null && len > 0
      ensures ok <==> position + len <= capacity
      ensures ok ==> Tiles(segs, position) && Total(segs) == len
    {
      hide Holds, Tiles, InBlock, Total, Flatten;
      segs := [];
      TilesNone(position);
      Offset(block, baseSize, position);
      var npos: nat := position % baseSize;
      var ncap: nat := cur.size - npos;
      var c, left := cur, len;
      ghost var b: nat := block;
      while left > 0
        invariant 0 <= left <= len && Total(segs) == len - left
        invariant left > 0 ==> b < |nodes| && c == nodes[b] && ncap == baseSize - npos > 0
        invariant left > 0 ==> position + len - left == Span(b, baseSize) + npos
        invariant position + len - left <= capacity
        invariant Tiles(segs, position)
      {
        SpanMonotone(b + 1, |nodes|, baseSize);
        var n := if ncap >= left then left else ncap;
        var seg := Segment(c.ptr, npos, n);
        BlockSegment(b, npos, n);
        TilesSnoc(segs, seg, position);
        left := left - n;
        if left > 0 {
          if c.next == null {
            return segs, false;
          }
          c, b := c.next, b + 1;
          ncap, npos := c.size, 0;
        }
        segs := segs + [seg];
      }
      return segs, true;
    }

    /** A segment in a block holds the bytes the array has there. */
    lemma SegmentBytes(seg: Segment, at: nat)
      requires Linked() && InBlock(seg, at)
      ensures seg.off + seg.len <= seg.base.Length && at + seg.len <= capacity
      ensures seg.base[seg.off..seg.off + seg.len] == Contents()[at..at + seg.len]
    {
      hide Flatten;
      var b :| 0 <= b < |nodes| && seg.base == nodes[b].ptr && seg.off + seg.len <= baseSize
        && at == Span(b, baseSize) + seg.off;
      SpanMonotone(b + 1, |nodes|, baseSize);
      FlattenSlice(blocks, baseSize, b, seg.off, seg.len);
    }

    /** What the segments hold is what the array holds there. */
    lemma {:induction false} GatherTiles(segs: seq<Segment>, from: nat)
      requires Linked() && Tiles(segs, from) && from <= capacity
      ensures forall seg <- segs :: seg.off + seg.len <= seg.base.Length
      ensures from + Total(segs) <= capacity && Gather(segs) == Contents()[from..from + Total(segs)]
    {
      hide Listed, InBlock, Flatten, Span, Gather, Total, Tiles;
      if segs == [] {
        GatherNone();
      } else {
        var k := |segs| - 1;
        TilesLast(segs, from);
        TilesPrefix(segs, k, from);
        GatherTiles(segs[..k], from);
        var last, at := segs[k], from + Total(segs[..k]);
        SegmentBytes(last, at);
        GatherSnoc(segs);
        SliceJoin(Contents(), from, at, at + last.len);
      }
    }

    lemma TilesLast(segs: seq<Segment>, from: nat)
      requires Tiles(segs, from) && segs != []
      ensures InBlock(segs[|segs| - 1], from + Total(segs[..|segs| - 1]))
    {
      hide InBlock, Total;
    }

    /** The segments of the next `len` bytes of data, as far as there are any:
        together they hold exactly what read would return. */
    method GetReadBuffers(len: nat) returns (segs: seq<Segment>, total: nat)
      requires Valid()
      ensures total == if len > size - position then size - position else len
      ensures Tiles(segs, position) && Total(segs) == total
      ensures forall seg <- segs :: seg.off + seg.len <= seg.base.Length
      ensures Gather(segs) == Data()[position..position + total]
    {
      hide Holds, Spine, Tiles, InBlock, Total, Flatten, Gather, Span;
      total := if len > size - position then size - position else len;
      if total == 0 {
        TilesNone(position);
        return [], 0;
      }
      CursorBlock(block, |nodes|, baseSize, position);
      var ok;
      segs, ok := Segments(total);
      GatherTiles(segs, position);
      PrefixSlice(Contents(), size, position, position + total);
    }

    /** The segments of the `len` bytes from the cursor on, which become part of
        the capacity but not of the data. */
    method GetWriteBuffers(len: nat) returns (segs: seq<Segment>, ok: bool)
      requires Valid()
      modifies Repr
      ensures ok <==> Fits(baseSize, old(capacity - position), len)
      ensures ok ==> Valid() && fresh(Repr - old(Repr))
      ensures endian == old(endian)
      ensures ok ==> position == old(position) && size == old(size) && old(Contents()) <= Contents()
      ensures ok ==> capacity - position == Grown(baseSize, old(capacity - position), len)
      ensures ok ==> Tiles(segs, position) && Total(segs) == len
    {
      hide Holds, Spine, Tiles, InBlock, Total, Flatten, Grown, Fits, Span;
      if len == 0 {
        TilesNone(position);
        NoGrowth(baseSize, capacity - position, len);
        return [], true;
      }
      GrowthSuffices(baseSize, capacity - position, len);
      AddCapacity(len);
      segs, ok := Segments(len);
    }

    /** Copies `src` to the beginning of one segment. */
    method FillSegment(seg: Segment, at: nat, src: seq<Byte>)
      requires Valid() && InBlock(seg, at) && |src| <= seg.len
      modifies this`blocks, seg.base
      ensures Valid() && at + |src| <= capacity
      ensures Contents() == Splice(old(Contents()), at, src)
    {
      hide Splice, Flatten, Holds, Spine, Span;
      ghost var b :| 0 <= b < |nodes| && seg.base == nodes[b].ptr && seg.off + seg.len <= baseSize
        && at == Span(b, baseSize) + seg.off;
      Store(b, seg.base, seg.off, src);
    }

    /** What recv does with write segments: it fills them in order. */
    method FillSegments(segs: seq<Segment>, data: seq<Byte>)
      requires Valid() && Tiles(segs, position) && |data| <= Total(segs)
      modifies this`blocks, set n | n in nodes :: n.ptr
      ensures Valid() && position + |data| <= capacity
      ensures Contents() == Splice(old(Contents()), position, data)
    {
      hide Splice, Flatten, Holds, Spine, Span, Total;
      var i, done := 0, 0;
      ghost var before := Contents();
      TotalPrefix(segs, 0);
      assert Total(segs[..0]) == 0 by {
        TilesNone(position);
        assert segs[..0] == [];
      }
      assert data[..0] == [];
      SpliceNothing(before, position);
      while done < |data|
        invariant 0 <= i <= |segs| && 0 <= done <= |data|
        invariant done < |data| ==> done == Total(segs[..i])
        invariant Valid() && position + done <= capacity == |before|
        invariant Contents() == Splice(before, position, data[..done])
      {
        assert segs[..|segs|] == segs;
        TotalPrefix(segs, i);
        var seg := segs[i];
        var n := if seg.len < |data| - done then seg.len else |data| - done;
        FillSegment(seg, position + done, data[done..done + n]);
        SpliceNext(before, position, data, done, n);
        i, done := i + 1, done + n;
      }
      assert data[..done] == data;
    }

    // ---- typed values --------------------------------------------------

    /** writeFuint8/16/32/64. */
    method WriteFuint(w: nat, u: nat) returns (ok: bool)
      requires Valid() && w > 0 && u < Pow2(8 * w)
      modifies Repr
      ensures ok == old(AsTape()).Write(PutUint(endian, Fixed(w), u)).Some?
      ensures ok ==> Valid() && fresh(Repr - old(Repr))
      ensures endian == old(endian)
      ensures ok ==> AsTape() == old(AsTape()).Write(PutUint(endian, Fixed(w), u)).value
    {
      hide Memory, Byteswap;
      QuotientUnique(u, Pow2(8 * w), 0, u);
      MemoryOfSwapped(host, w, u);
      var v := if endian != host then Byteswap(w, u) else u;
      ok := Write(Memory(host, w, v));
    }

    /** writeUint32/64. */
    method WriteUvar(bits: nat, u: nat) returns (ok: bool)
      requires Valid() && bits > 0 && u < Pow2(bits)
      modifies Repr
      ensures ok == old(AsTape()).Write(PutUint(endian, Var(bits), u)).Some?
      ensures ok ==> Valid() && fresh(Repr - old(Repr))
      ensures endian == old(endian)
      ensures ok ==> AsTape() == old(AsTape()).Write(PutUint(endian, Var(bits), u)).value
    {
      QuotientUnique(u, Pow2(bits), 0, u);
      var s := EncodeVarint(bits, u);
      ok := Write(s);
    }

    /** readFuint8/16/32/64. */
    method ReadFuint(w: nat) returns (r: ReadOutcome<nat>)
      requires Valid() && w > 0
      modifies this`position, this`cur, this`block
      ensures Valid() && Contents() == old(Contents())
      ensures (r, AsTape()) == GetUint(endian, Fixed(w), old(AsTape()))
    {
      hide Load, Byteswap, Linked;
      var s := Read(w);
      if !s.Got? {
        return OutOfRange;
      }
      SwappedLoad(host, s.value);
      var v := Load(host, s.value);
      return Got(if endian == host then v else Byteswap(w, v));
    }

    /** readUint32/64. */
    method ReadUvar(bits: nat) returns (r: ReadOutcome<nat>)
      requires Valid() && bits > 0
      modifies this`position, this`cur, this`block
      ensures Valid() && Contents() == old(Contents())
      ensures (r, AsTape()) == GetUint(endian, Var(bits), old(AsTape()))
    {
      hide Spine, Holds, Span, NodeAt, Flatten, Pow2, Chunk, UnLeb, Later, Load;
      ghost var t := AsTape();
      ghost var s := t.data[t.pos..];
      ghost var k: nat := 0;
      var result: nat, i: nat := 0, 0;
      UvarStep(bits, 0, 0, s, 0);
      assert s[0..] == s;
      while i < bits
        invariant k <= |s| && Valid() && Contents() == old(Contents())
        invariant AsTape() == t.Skip(k)
        invariant UnLeb(bits, 0, 0, s) == Later(UnLeb(bits, i, result, s[k..]), k)
      {
        UvarStep(bits, i, result, s, k);
        ByteAhead(endian, t.Skip(k), s[k..]);
        var b := ReadFuint(1);
        if !b.Got? {
          return OutOfRange;
        }
        k := k + 1;
        result := result + Chunk(bits, i, b.value);
        if b.value < 0x80 {
          return Got(result);
        }
        i := i + 7;
      }
      UvarStep(bits, i, result, s, k);
      return Got(result);
    }

    /** An unsigned number: writeFuint8/16/32/64 or writeUint32/64. */
    method WriteUint(c: Code, u: nat) returns (ok: bool)
      requires Valid() && Sized(c) && u < Pow2(Bits(c))
      modifies Repr
      ensures ok == old(AsTape()).Write(PutUint(endian, c, u)).Some?
      ensures ok ==> Valid() && fresh(Repr - old(Repr))
      ensures endian == old(endian)
      ensures ok ==> AsTape() == old(AsTape()).Write(PutUint(endian, c, u)).value
    {
      hide PutUint;
      match c
      case Fixed(w) => ok := WriteFuint(w, u);
      case Var(bits) => ok := WriteUvar(bits, u);
    }

    method ReadUint(c: Code) returns (r: ReadOutcome<nat>)
      requires Valid() && Sized(c)
      modifies this`position, this`cur, this`block
      ensures Valid() && Contents() == old(Contents())
      ensures (r, AsTape()) == GetUint(endian, c, old(AsTape()))
    {
      hide GetUint;
      match c
      case Fixed(w) => r := ReadFuint(w);
      case Var(bits) => r := ReadUvar(bits);
    }

    /** One typed write: a number, or a string with its length before it. */
    method WriteItem(i: Item) returns (ok: bool)
      requires Valid() && Sized(i.code) && Typed(i)
      modifies Repr
      ensures ok == WriteChunks(old(AsTape()), Chunks(endian, i)).Some?
      ensures ok ==> Valid() && fresh(Repr - old(Repr))
      ensures endian == old(endian)
      ensures ok ==> AsTape() == WriteChunks(old(AsTape()), Chunks(endian, i)).value
    {
      hide PutUint, ToUint, WriteChunks, Chunks, Spine, Holds, Span, Flatten;
      WriteItemChunks(endian, i, AsTape());
      match i
      case Unsigned(c, u) =>
        ok := WriteUint(c, u);
      case Signed(c, n) =>
        SignedRoundTrip(c, n);
        ok := WriteUint(c, ToUint(c, n));
      case Text(c, s) =>
        PutConverted(endian, c, |s|);
        ok := WriteUint(c, |s| % Pow2(Bits(c)));
        if ok {
          ok := Write(s);
        }
    }

    method ReadItem(k: Kind) returns (r: ReadOutcome<Item>)
      requires Valid() && Sized(k.code)
      modifies this`position, this`cur, this`block
      ensures Valid() && Contents() == old(Contents())
      ensures (r, AsTape()) == Tapes.ReadItem(endian, k, old(AsTape()))
    {
      hide GetUint, ToSigned, Spine, Holds, Span, Flatten;
      GetUintInRange(endian, k.code, AsTape());
      var u := ReadUint(k.code);
      match u
      case OutOfRange => return OutOfRange;
      case NullBlock => return NullBlock;
      case Got(n) =>
        match k
        case UnsignedKind(c) => return Got(Unsigned(c, n));
        case SignedKind(c) => return Got(Signed(c, ToSigned(c, n)));
        case TextKind(c) =>
          var s := Read(n);
          match s
          case OutOfRange => return OutOfRange;
          case NullBlock => return NullBlock;
          case Got(text) => return Got(Text(c, text));
    }

    /** Reads by a script, up to the first failure. */
    method ReadItems(ks: seq<Kind>) returns (r: ReadOutcome<seq<Item>>)
      requires Valid() && forall k <- ks :: Sized(k.code)
      modifies this`position, this`cur, this`block
      ensures Valid() && Contents() == old(Contents())
      ensures (r, AsTape()) == ReadScript(endian, ks, old(AsTape()))
    {
      hide Tapes.ReadItem, ReadScript, Behind, Spine, Holds, Span, Flatten, Sized;
      var items := [];
      var n := 0;
      ghost var t := AsTape();
      ReadStep(endian, ks, t, []);
      assert ks[0..] == ks;
      while n < |ks|
        invariant 0 <= n <= |ks| && Valid() && Contents() == old(Contents())
        invariant ReadScript(endian, ks, t) == Behind(items, ReadScript(endian, ks[n..], AsTape()))
      {
        ReadStep(endian, ks[n..], AsTape(), items);
        var i := ReadItem(ks[n]);
        match i
        case OutOfRange => return OutOfRange;
        case NullBlock => return NullBlock;
        case Got(item) => items, n := items + [item], n + 1;
      }
      ReadStep(endian, ks[n..], AsTape(), items);
      return Got(items);
    }
  }

  method WriteAll(ba: ByteArray, items: seq<Item>) returns (ok: bool)
    requires ba.Valid() && forall i <- items :: Sized(i.code) && Typed(i)
    modifies ba.Repr
    ensures ba.endian == old(ba.endian)
    ensures ok == WriteChunks(old(ba.AsTape()), AllChunks(ba.endian, items)).Some?
    ensures ok ==> ba.Valid() && fresh(ba.Repr - old(ba.Repr))
    ensures ok ==> ba.AsTape() == WriteChunks(old(ba.AsTape()), AllChunks(ba.endian, items)).value
  {
    hide Spine, Holds, Span, Flatten, WriteChunks, AllChunks, Sized, Typed;
    var n := 0;
    ghost var t := ba.AsTape();
    assert items[0..] == items;
    while n < |items|
      invariant 0 <= n <= |items| && ba.Valid() && fresh(ba.Repr - old(ba.Repr)) && ba.endian == old(ba.endian)
      invariant WriteChunks(t, AllChunks(ba.endian, items))
                == WriteChunks(ba.AsTape(), AllChunks(ba.endian, items[n..]))
    {
      WriteStep(ba.AsTape(), ba.endian, items[n..]);
      ok := ba.WriteItem(items[n]);
      if !ok {
        return false;
      }
      n := n + 1;
    }
    WriteNone(ba.AsTape(), ba.endian);
    return true;
  }

  /** Rewinds to the beginning and reads the mirrored script; `left` is what the
      cursor has before it then. */
  method Rewound(ba: ByteArray, items: seq<Item>) returns (out: ReadOutcome<seq<Item>>, left: nat)
    requires ba.Valid() && forall i <- items :: Sized(i.code)
    modifies ba.Repr
    ensures var r := ReadScript(old(ba.endian), Kinds(items), old(ba.AsTape()).Seek(0));
            out == r.0 && left == |r.1.data| - r.1.pos
  {
    hide Spine, Holds, Span, Flatten, ReadScript, Sized;
    var ok := ba.SetPosition(0);
    out := ba.ReadItems(Kinds(items));
    return out, ba.size - ba.position;
  }

  /** What tests/test_bytearray.cc does with every type: write values one after
      the other into a fresh array, rewind and read them back. The values come
      back and nothing is left exactly when the growth never falls short at the
      lengths that are written, every string fits its prefix and the script does
      not end with an empty string at the end of the capacity. */
  method RoundTrip(host: Order, baseSize: nat, little: bool, items: seq<Item>)
    returns (r: Option<ReadOutcome<seq<Item>>>, left: nat)
    requires baseSize > 0 && forall i <- items :: Sized(i.code) && Typed(i)
    ensures var room := RoomLeft(baseSize, baseSize, ItemLengths(items));
            && (r == None <==> room == None)
            && (r == Some(Got(items)) && left == 0 <==>
                room.Some? && (forall i <- items :: Intact(i)) && !EndsAtCapacity(items, room.value, 0))
  {
    hide ByteArray.Valid, WriteChunks, AllChunks, ReadScript, Intact, Typed, Sized, EndsAtCapacity, RoomLeft, Lengths;
    var ba := new ByteArray(host, baseSize);
    ba.SetIsLittleEndian(little);
    ghost var t := Tape(baseSize, [], 0, baseSize);
    ghost var order := if little then LittleEndian else BigEndian;
    assert ba.AsTape() == t;
    LengthsOf(order, items);
    WriteChunksRoom(t, AllChunks(order, items));
    var ok := WriteAll(ba, items);
    if !ok {
      return None, 0;
    }
    EverythingBack(order, items, t);
    assert ba.endian == order && ba.AsTape() == WriteChunks(t, AllChunks(order, items)).value;
    var out;
    out, left := Rewound(ba, items);
    return Some(out), left;
  }

  /** The flat round trip, and that nothing is left then. */
  lemma EverythingBack(order: Order, items: seq<Item>, t: Tape)
    requires t.Valid() && t.data == [] && t.pos == 0 && forall i <- items :: Sized(i.code) && Typed(i)
    requires WriteChunks(t, AllChunks(order, items)).Some?
    ensures var w := WriteChunks(t, AllChunks(order, items)).value;
            var r := ReadScript(order, Kinds(items), w.Seek(0));
            r.0 == Got(items) && |r.1.data| == r.1.pos <==>
            (forall i <- items :: Intact(i)) && !EndsAtCapacity(items, w.room, 0)
  {
    hide WriteChunks, AllChunks, ReadScript, Intact, Typed, Sized, EndsAtCapacity;
    ScriptRoundTrip(order, items, t);
    WriteChunksJoins(t, AllChunks(order, items));
    var w := WriteChunks(t, AllChunks(order, items)).value;
    AtEnd(w, ReadScript(order, Kinds(items), w.Seek(0)).1);
  }

  /** A tape is told by its data and its cursor. */
  lemma AtEnd(w: Tape, r: Tape)
    requires w.Valid() && r.Valid() && r.base == w.base && r.data == w.data && r.pos + r.room == w.pos + w.room
    ensures w.pos == |w.data| ==> (r == w <==> |r.data| == r.pos)
  {
  }

  /** A decoding result seen from `k` bytes earlier. */
  function Later(r: LebRead, k: nat): LebRead {
    match r
    case Done(v, n) => Done(v, n + k)
    case Starved(n) => Starved(n + k)
  }

  /** One turn of the decoding loop after `k` bytes of `s`. */
  lemma UvarStep(bits: nat, i: nat, acc: nat, s: seq<Byte>, k: nat)
    requires k <= |s|
    ensures var r := Later(UnLeb(bits, i, acc, s[k..]), k);
            && (i >= bits ==> r == Done(acc, k))
            && (i < bits && k == |s| ==> r == Starved(k))
            && (i < bits && k < |s| && s[k] < 128 ==> r == Done(acc + Chunk(bits, i, s[k]), k + 1))
            && (i < bits && k < |s| && s[k] >= 128 ==>
                r == Later(UnLeb(bits, i + 7, acc + Chunk(bits, i, s[k]), s[k + 1..]), k + 1))
    ensures Later(UnLeb(bits, i, acc, s), 0) == UnLeb(bits, i, acc, s)
  {
    hide Chunk;
    if i < bits && k < |s| {
      assert s[k..][0] == s[k] && s[k..][1..] == s[k + 1..];
    }
  }

  /** Reading one byte gives the first byte ahead. */
  lemma ByteAhead(order: Order, t: Tape, s: seq<Byte>)
    requires t.Valid() && s == t.data[t.pos..]
    ensures GetUint(order, Fixed(1), t) == if s == [] then (OutOfRange, t) else (Got(s[0]), t.Skip(1))
  {
    if s != [] {
      var b := t.data[t.pos..t.pos + 1];
      assert b == [s[0]] && Reverse(b) == [s[0]];
      assert FromLittle(b[1..]) == 0;
    }
  }

  lemma Offset(b: nat, base: nat, position: nat)
    requires base > 0 && Span(b, base) <= position < Span(b, base) + base
    ensures position % base == position - Span(b, base) && position / base == b
  {
    SpanIsProduct(b, base);
    QuotientUnique(position, base, b, position - Span(b, base));
  }

  /** The cursor is inside block `b` of `k`, or at the end of the last one. */
  lemma {:induction false} CursorBlock(b: nat, k: nat, base: nat, position: nat)
    requires base > 0 && Span(b, base) <= position < Span(b, base) + base
    requires position <= Span(k, base)
    ensures b <= k && (b == k <==> position == Span(k, base))
  {
    if b <= k {
      SpanAdd(b, k - b, base);
      SpanIsProduct(k - b, base);
      MulMonotone(if k == b then 0 else 1, k - b, base);
    } else {
      SpanAdd(k, b - k, base);
      SpanIsProduct(b - k, base);
      MulMonotone(1, b - k, base);
    }
  }

  lemma PrefixSlice(s: seq<Byte>, size: nat, a: nat, b: nat)
    requires a <= b <= size <= |s|
    ensures s[..size][a..b] == s[a..b]
  {
  }

  lemma SliceJoin(s: seq<Byte>, a: nat, b: nat, c: nat)
    requires a <= b <= c <= |s|
    ensures s[a..b] + s[b..c] == s[a..c]
  {
  }
}
