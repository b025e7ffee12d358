/** Reactors/net/buffer.h: a vector of bytes with a read and a write index, which makes
    room by moving the readable bytes to the front or by growing. */
module Buffer {

  const INITIAL_SIZE := 1024
  const EXTRA_SIZE := 65536

  type Bytes = seq<char>

  /** The value of a Buffer object. */
  datatype Indexed = Indexed(data: Bytes, readIndex: nat, writeIndex: nat) {
    ghost predicate Valid() {
      readIndex <= writeIndex <= |data|
    }

    function Readable(): Bytes
      requires Valid()
    {
      data[readIndex..writeIndex]
    }

    function Writeable(): nat
      requires Valid()
    {
      |data| - writeIndex
    }
  }

  function Blank(size: nat): Bytes {
    seq(size, _ => '\0')
  }

  function Empty(size: nat): Indexed {
    Indexed(Blank(size), 0, 0)
  }

  // ---------- The operations ----------

  function Retrieve(b: Indexed, len: nat): Indexed
    requires b.Valid()
  {
    if len < |b.Readable()| then b.(readIndex := b.readIndex + len)
    else b.(readIndex := 0, writeIndex := 0)
  }

  predicate Compacts(b: Indexed, len: nat)
    requires b.Valid()
  {
    len > b.Writeable() && b.readIndex + b.Writeable() >= len
  }

  /** EnsureWritableBytes and MakeSpace. */
  function WithRoom(b: Indexed, len: nat): Indexed
    requires b.Valid()
  {
    if len <= b.Writeable() then b
    else if b.readIndex + b.Writeable() < len then b.(data := b.data[..b.writeIndex] + Grown(b, len))
    else
      var kept := |b.Readable()|;
      Indexed(b.Readable() + b.data[kept..], 0, kept)
  }

  /** What resize leaves after the write index: the old tail, then zeros. */
  function Grown(b: Indexed, len: nat): Bytes
    requires b.Valid() && len > b.Writeable()
  {
    b.data[b.writeIndex..] + Blank(len - b.Writeable())
  }

  function CopyIn(b: Indexed, bytes: Bytes): Indexed
    requires b.Valid() && |bytes| <= b.Writeable()
  {
    Indexed(b.data[..b.writeIndex] + bytes + b.data[b.writeIndex + |bytes|..], b.readIndex, b.writeIndex + |bytes|)
  }

  function Append(b: Indexed, bytes: Bytes): Indexed
    requires b.Valid()
  {
    RoomIsMade(b, |bytes|);
    CopyIn(WithRoom(b, |bytes|), bytes)
  }

  /** The most one readv call can deliver. */
  function ReadLimit(b: Indexed): nat
    requires b.Valid()
  {
    b.Writeable() + if b.Writeable() < EXTRA_SIZE then EXTRA_SIZE else 0
  }

  /** A readv that delivered `got`: first into the buffer, the overflow through extrabuf. */
  function ReadIn(b: Indexed, got: Bytes): Indexed
    requires b.Valid() && |got| <= ReadLimit(b)
  {
    if |got| <= b.Writeable() then CopyIn(b, got)
    else
      var full := CopyIn(b, got[..b.Writeable()]);
      CopyInExtends(b, got[..b.Writeable()]);
      Append(full, got[b.Writeable()..])
  }

  // ---------- Lemmas ----------

  lemma RoomIsMade(b: Indexed, len: nat)
    requires b.Valid()
    ensures var r := WithRoom(b, len);
            r.Valid() && r.Writeable() >= len && r.Readable() == b.Readable()
  {
    var r := WithRoom(b, len);
    if len > b.Writeable() && b.readIndex + b.Writeable() < len {
      assert r.data[b.readIndex..b.writeIndex] == b.data[b.readIndex..b.writeIndex];
    } else if len > b.Writeable() {
      assert r.data[..r.writeIndex] == b.Readable();
    }
  }

  /** Compaction happens only behind consumed bytes, and never changes the vector's size. */
  lemma CompactionIsJustified(b: Indexed, len: nat)
    requires b.Valid() && Compacts(b, len)
    ensures b.readIndex > 0
    ensures |WithRoom(b, len).data| == |b.data| && WithRoom(b, len).readIndex == 0
  {
  }

  /** append grows the vector if and only if the bytes would not fit into it behind the readable ones,
      and then to just what is behind the write index; where they fit as it is, nothing moves. */
  lemma VectorSize(b: Indexed, bytes: Bytes)
    requires b.Valid()
    ensures |Append(b, bytes).data| ==
            if |b.Readable()| + |bytes| <= |b.data| then |b.data| else b.writeIndex + |bytes|
    ensures |bytes| <= b.Writeable() ==>
              Append(b, bytes).readIndex == b.readIndex && Append(b, bytes).data[..b.writeIndex] == b.data[..b.writeIndex]
  {
    RoomIsMade(b, |bytes|);
  }

  /** A drained buffer starts again at the front of its vector; otherwise only the bytes read go. */
  lemma RetrieveFrees(b: Indexed, len: nat)
    requires b.Valid()
    ensures Retrieve(b, len).data == b.data && Retrieve(b, len).Valid()
    ensures Retrieve(b, len).Writeable() == if len < |b.Readable()| then b.Writeable() else |b.data|
  {
  }

  lemma CopyInExtends(b: Indexed, bytes: Bytes)
    requires b.Valid() && |bytes| <= b.Writeable()
    ensures CopyIn(b, bytes).Valid() && CopyIn(b, bytes).Readable() == b.Readable() + bytes
    ensures CopyIn(b, bytes).Writeable() == b.Writeable() - |bytes|
  {
    var r := CopyIn(b, bytes);
    assert r.data[r.readIndex..r.writeIndex] == b.data[b.readIndex..b.writeIndex] + bytes;
  }

  lemma AppendExtends(b: Indexed, bytes: Bytes)
    requires b.Valid()
    ensures Append(b, bytes).Valid() && Append(b, bytes).Readable() == b.Readable() + bytes
  {
    hide WithRoom, CopyIn;
    RoomIsMade(b, |bytes|);
    CopyInExtends(WithRoom(b, |bytes|), bytes);
  }

  lemma RetrieveDropsPrefix(b: Indexed, len: nat)
    requires b.Valid()
    ensures Retrieve(b, len).Valid()
    ensures Retrieve(b, len).Readable() == if len < |b.Readable()| then b.Readable()[len..] else []
  {
  }

  lemma ReadInExtends(b: Indexed, got: Bytes)
    requires b.Valid() && |got| <= ReadLimit(b)
    ensures ReadIn(b, got).Valid() && ReadIn(b, got).Readable() == b.Readable() + got
  {
    hide CopyIn, Append;
    if |got| <= b.Writeable() {
      CopyInExtends(b, got);
    } else {
      var first, rest := got[..b.Writeable()], got[b.Writeable()..];
      CopyInExtends(b, first);
      AppendExtends(CopyIn(b, first), rest);
      assert b.Readable() + first + rest == b.Readable() + got by { assert first + rest == got; }
    }
  }

  // ---------- Any sequence of operations refines a queue of bytes ----------

  datatype Op = DoAppend(bytes: Bytes) | DoRetrieve(len: nat) | DoRead(got: Bytes)

  function QueueStep(q: Bytes, op: Op): Bytes {
    match op
    case DoAppend(bytes) => q + bytes
    case DoRetrieve(len) => if len < |q| then q[len..] else []
    case DoRead(got) => q + got
  }

  function QueueRun(q: Bytes, ops: seq<Op>): Bytes {
    if ops == [] then q else QueueStep(QueueRun(q, ops[..|ops| - 1]), ops[|ops| - 1])
  }

  function OpStep(b: Indexed, op: Op): (r: Indexed)
    requires b.Valid() && (op.DoRead? ==> |op.got| <= ReadLimit(b))
    ensures r.Valid()
    ensures r.Readable() == QueueStep(b.Readable(), op)
  {
    match op
    case DoAppend(bytes) => AppendExtends(b, bytes); Append(b, bytes)
    case DoRetrieve(len) => RetrieveDropsPrefix(b, len); Retrieve(b, len)
    case DoRead(got) => ReadInExtends(b, got); ReadIn(b, got)
  }

  /** The buffer states a sequence of operations passes through. */
  ghost predicate Behaviour(states: seq<Indexed>, ops: seq<Op>) {
    && |states| == |ops| + 1
    && states[0].Valid()
    && forall i :: 0 <= i < |ops| ==>
         && states[i].Valid()
         && (ops[i].DoRead? ==> |ops[i].got| <= ReadLimit(states[i]))
         && states[i + 1] == OpStep(states[i], ops[i])
  }

  lemma {:induction false} RefinesByteQueue(states: seq<Indexed>, ops: seq<Op>, n: nat)
    requires Behaviour(states, ops) && n <= |ops|
    ensures states[n].Valid()
    ensures states[n].Readable() == QueueRun(states[0].Readable(), ops[..n])
  {
    hide OpStep;
    if n > 0 {
      RefinesByteQueue(states, ops, n - 1);
      assert states[n - 1 + 1] == OpStep(states[n - 1], ops[n - 1]);
      assert ops[..n][..n - 1] == ops[..n - 1];
    }
  }

  // ---------- The object ----------

  class ByteBuffer {
    var data: Bytes
    var readIndex: nat
    var writeIndex: nat

    ghost function Model(): Indexed
      reads this
    {
      Indexed(data, readIndex, writeIndex)
    }

    ghost predicate Valid()
      reads this
    {
      Model().Valid()
    }

    constructor (initialSize: nat)
      ensures Valid() && Model() == Empty(initialSize) && Model().Readable() == []
    {
      data, readIndex, writeIndex := Blank(initialSize), 0, 0;
    }

    function ReadableBytes(): (n: nat)
      requires Valid()
      reads this
      ensures n == |Model().Readable()|
    {
      writeIndex - readIndex
    }

    function WriteableBytes(): (n: nat)
      requires Valid()
      reads this
      ensures n == Model().Writeable()
    {
      |data| - writeIndex
    }

    function Peek(): (bytes: Bytes)
      requires Valid()
      reads this
      ensures bytes == Model().Readable()
    {
      data[readIndex..writeIndex]
    }

    method RetrieveBytes(len: nat)
      requires Valid()
      modifies this
      ensures Valid() && Model() == Retrieve(old(Model()), len)
    {
      if len < ReadableBytes() {
        readIndex := readIndex + len;
      } else {
        readIndex, writeIndex := 0, 0;
      }
    }

    method MakeSpace(len: nat)
      requires Valid() && len > WriteableBytes()
      modifies this
      ensures Valid() && Model() == WithRoom(old(Model()), len)
    {
      if readIndex + WriteableBytes() < len {
        ghost var tail := data[writeIndex..];
        data := data + Blank(writeIndex + len - |data|);
        assert data == data[..writeIndex] + (tail + Blank(len - |tail|));
      } else {
        var kept := ReadableBytes();
        data := data[readIndex..writeIndex] + data[kept..];
        readIndex, writeIndex := 0, kept;
      }
    }

    method AppendBytes(bytes: Bytes)
      requires Valid()
      modifies this
      ensures Valid() && Model() == Append(old(Model()), bytes)
      ensures Model().Readable() == old(Model().Readable()) + bytes
    {
      AppendExtends(Model(), bytes);
      RoomIsMade(Model(), |bytes|);
      if |bytes| > WriteableBytes() {
        MakeSpace(|bytes|);
      }
      data := data[..writeIndex] + bytes + data[writeIndex + |bytes|..];
      writeIndex := writeIndex + |bytes|;
    }

    /** readv's outcome is an input: an error, or the bytes it delivered. */
    method ReadFromSocket(failed: bool, got: Bytes) returns (n: int)
      requires Valid() && |got| <= ReadLimit(Model())
      modifies this
      ensures Valid() && n == if failed then -1 else |got|
      ensures Model() == if failed then old(Model()) else ReadIn(old(Model()), got)
      ensures Model().Readable() == old(Model().Readable()) + if failed then [] else got
    {
      hide Append, WithRoom;
      if failed { return -1; }
      ReadInExtends(Model(), got);
      ghost var m := Model();
      var writable := WriteableBytes();
      if |got| <= writable {
        data := data[..writeIndex] + got + data[writeIndex + |got|..];
        writeIndex := writeIndex + |got|;
        assert Model() == CopyIn(m, got);
      } else {
        data := data[..writeIndex] + got[..writable] + data[writeIndex + writable..];
        writeIndex := |data|;
        assert Model() == CopyIn(m, got[..writable]);
        AppendBytes(got[writable..]);
      }
      return |got|;
    }
  }
}
