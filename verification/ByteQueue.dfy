/** The buffer of the Cbor middleware's streams, and the decoding loop over it. */
module ByteQueue {
  import opened Sequences

  type Byte = b: int | 0 <= b < 256

  function Max(a: nat, b: nat): nat {
    if a >= b then a else b
  }

  /** A byte buffer that grows on demand and moves its content to the front when it does. */
  class Queue {
    var bytes: array<Byte>
    var readOffset: nat
    var writeOffset: nat
    /** Bytes appended, and bytes copied by growing, since the start. */
    ghost var appended: nat
    ghost var copied: nat

    ghost predicate Valid()
      reads this
    {
      && readOffset <= writeOffset <= bytes.Length
      && copied <= bytes.Length <= Max(2 * appended, 16)
      && writeOffset <= appended
    }

    /** What has been appended and not yet consumed. */
    ghost function Contents(): seq<Byte>
      requires Valid()
      reads this, bytes
    {
      bytes[readOffset..writeOffset]
    }

    constructor ()
      ensures Valid() && fresh(bytes) && Contents() == [] && appended == 0 && copied == 0
    {
      bytes := new Byte[0](_ => 0);
      readOffset, writeOffset, appended, copied := 0, 0, 0, 0;
    }

    function Length(): nat
      requires Valid()
      reads this
    {
      writeOffset - readOffset
    }

    method Append(chunk: seq<Byte>)
      requires Valid()
      modifies this, bytes
      ensures Valid() && (bytes == old(bytes) || fresh(bytes))
      ensures Contents() == old(Contents()) + chunk
      ensures bytes == old(bytes) <==> old(writeOffset) + |chunk| <= old(bytes.Length)
      // A larger buffer is filled with the old content, and copying stays linear in what has been appended.
      ensures copied == old(copied) + if bytes == old(bytes) then 0 else |old(Contents())|
      ensures appended == old(appended) + |chunk| && copied <= Max(2 * appended, 16)
    {
      var required := writeOffset + |chunk|;
      if required > bytes.Length {
        Grow(Max(Max(required, bytes.Length * 2), 16), |chunk|);
      }
      Fill(chunk);
      appended := appended + |chunk|;
    }

    /** Puts the chunk behind the content. */
    method Fill(chunk: seq<Byte>)
      requires readOffset <= writeOffset && writeOffset + |chunk| <= bytes.Length
      modifies this`writeOffset, bytes
      ensures writeOffset == old(writeOffset) + |chunk| && bytes[readOffset..writeOffset] == old(bytes[readOffset..writeOffset]) + chunk
    {
      forall i | 0 <= i < |chunk| { bytes[writeOffset + i] := chunk[i]; }
      writeOffset := writeOffset + |chunk|;
    }

    /** Moves the content to the front of a larger buffer. */
    method Grow(capacity: nat, coming: nat)
      requires Valid() && bytes.Length < writeOffset + coming && capacity == Max(Max(writeOffset + coming, bytes.Length * 2), 16)
      modifies this
      ensures fresh(bytes) && bytes.Length == capacity && readOffset == 0 && writeOffset == |old(Contents())|
      ensures bytes[..writeOffset] == old(Contents()) && appended == old(appended) && copied == old(copied) + |old(Contents())|
      ensures copied <= bytes.Length <= Max(2 * (appended + coming), 16) && writeOffset + coming <= bytes.Length && writeOffset <= appended
    {
      var larger := new Byte[capacity](_ => 0);
      var length := writeOffset - readOffset;
      forall i | 0 <= i < length { larger[i] := bytes[readOffset + i]; }
      copied := copied + length;
      bytes, writeOffset, readOffset := larger, length, 0;
    }

    method View() returns (view: seq<Byte>)
      requires Valid()
      ensures view == Contents()
    {
      view := bytes[readOffset..writeOffset];
    }

    method Consume(length: nat)
      requires Valid() && length <= Length()
      modifies this
      ensures Valid() && bytes == old(bytes) && Contents() == old(Contents())[length..]
      // Once everything is consumed, the whole buffer is free again.
      ensures Contents() == [] ==> writeOffset == 0
      ensures appended == old(appended) && copied == old(copied)
    {
      readOffset := readOffset + length;
      if readOffset == writeOffset {
        readOffset, writeOffset := 0, 0;
      }
    }
  }

  type Value(==, !new)

  /** What the decoder finds at the front of some bytes: a complete item and its length, the beginning of one, or neither. */
  datatype Item = Complete(value: Value, length: nat) | Incomplete | Invalid

  type Decoder = seq<Byte> -> Item

  /** Items tell their own length: what follows one does not change it, and what is invalid stays so. */
  ghost predicate SelfDelimiting(d: Decoder) {
    && (forall x :: d(x).Complete? ==> 0 < d(x).length <= |x|)
    && (forall x, y :: d(x).Complete? ==> d(x + y) == d(x))
    && (forall x, y :: d(x).Invalid? ==> d(x + y).Invalid?)
  }

  datatype Status = Ended | CutOff | Broken

  /** `decodeMultiple`: the complete items at the front, how many bytes they take, and what stopped it. */
  datatype Parsed = Parsed(values: seq<Value>, consumed: nat, status: Status)

  function Parse(d: Decoder, bytes: seq<Byte>): Parsed
    decreases |bytes|
  {
    if bytes == [] then Parsed([], 0, Ended)
    else
      match d(bytes)
      case Incomplete => Parsed([], 0, CutOff)
      case Invalid => Parsed([], 0, Broken)
      case Complete(v, n) =>
        if 0 < n <= |bytes| then
          var rest := Parse(d, bytes[n..]);
          Parsed([v] + rest.values, n + rest.consumed, rest.status)
        else Parsed([], 0, Broken)
  }

  lemma {:induction false} ConsumedInRange(d: Decoder, bytes: seq<Byte>)
    ensures Parse(d, bytes).consumed <= |bytes|
    ensures Parse(d, bytes).status.Ended? ==> Parse(d, bytes).consumed == |bytes|
    decreases |bytes|
  {
    if bytes != [] && d(bytes).Complete? && 0 < d(bytes).length <= |bytes| {
      ConsumedInRange(d, bytes[d(bytes).length..]);
    }
  }

  lemma ItemExtends(d: Decoder, x: seq<Byte>, y: seq<Byte>)
    requires SelfDelimiting(d)
    ensures d(x).Complete? ==> d(x + y) == d(x) && 0 < d(x).length <= |x|
    ensures d(x).Invalid? ==> d(x + y).Invalid?
  {
  }

  /** One complete item in front. */
  lemma ParseItem(d: Decoder, x: seq<Byte>, y: seq<Byte>)
    requires x != [] && d(x).Complete? && d(x + y) == d(x) && 0 < d(x).length <= |x|
    requires Parse(d, x[d(x).length..]).consumed <= |x| - d(x).length
    ensures var p, q := Parse(d, x[d(x).length..]), Parse(d, x[d(x).length..] + y);
            && Parse(d, x) == Parsed([d(x).value] + p.values, d(x).length + p.consumed, p.status)
            && Parse(d, x + y) == Parsed([d(x).value] + q.values, d(x).length + q.consumed, q.status)
            && x[Parse(d, x).consumed..] == x[d(x).length..][p.consumed..]
  {
    assert (x + y)[d(x).length..] == x[d(x).length..] + y;
  }

  /** Parsing may stop where the first bytes end, and go on later with what was left of them. */
  lemma {:induction false} ParseOn(d: Decoder, x: seq<Byte>, y: seq<Byte>)
    requires SelfDelimiting(d)
    ensures Parse(d, x).consumed <= |x|
    ensures Parse(d, x).status.Broken? ==> Parse(d, x + y).status.Broken?
    ensures !Parse(d, x).status.Broken? ==>
              var rest := Parse(d, x[Parse(d, x).consumed..] + y);
              Parse(d, x + y).values == Parse(d, x).values + rest.values && Parse(d, x + y).status == rest.status
    decreases |x|
  {
    hide SelfDelimiting;
    ConsumedInRange(d, x);
    ItemExtends(d, x, y);
    if x == [] {
      assert x + y == y && x[0..] + y == y;
    } else if d(x).Complete? {
      ParseOn(d, x[d(x).length..], y);
      ParseItem(d, x, y);
      Regroup([d(x).value], Parse(d, x[d(x).length..]).values, Parse(d, x[d(x).length..][Parse(d, x[d(x).length..]).consumed..] + y).values);
    } else if d(x).Incomplete? {
      assert x[0..] + y == x + y;
    }
  }

  datatype Drained = Flowing | DecodeError

  /** `drain`: hands on the complete values and keeps an incomplete rest, unless the stream ends with it. */
  method Drain(d: Decoder, queue: Queue, isFinal: bool) returns (r: Drained, enqueued: seq<Value>)
    requires queue.Valid() && SelfDelimiting(d)
    modifies queue
    ensures queue.Valid() && queue.bytes == old(queue.bytes) && queue.appended == old(queue.appended)
    ensures var p := Parse(d, old(queue.Contents()));
            && p.consumed <= |old(queue.Contents())|
            && (r.DecodeError? <==> p.status.Broken? || (isFinal && p.status.CutOff?))
            && (r.Flowing? ==> enqueued == p.values && queue.Contents() == old(queue.Contents())[p.consumed..])
  {
    hide SelfDelimiting;
    if queue.Length() == 0 {
      assert queue.Contents() == [];
      return Flowing, [];
    }
    var view := queue.View();
    ConsumedInRange(d, view);
    var parsed := Parse(d, view);
    if parsed.status.Ended? {
      enqueued := parsed.values;
      queue.Consume(|view|);
      return Flowing, enqueued;
    }
    if isFinal { return DecodeError, parsed.values; }
    if parsed.status.Broken? { return DecodeError, []; }
    enqueued := parsed.values;
    queue.Consume(parsed.consumed);
    r := Flowing;
  }

  /** However the bytes are cut into chunks, the stream succeeds exactly when the whole is a sequence of complete items, and hands on
      exactly their values; and the buffer never copies more than linearly much. */
  method DecodeChunks(d: Decoder, chunks: seq<seq<Byte>>) returns (r: Drained, values: seq<Value>, ghost copied: nat)
    requires SelfDelimiting(d)
    ensures r.Flowing? <==> Parse(d, Flatten(chunks)).status.Ended?
    ensures r.Flowing? ==> values == Parse(d, Flatten(chunks)).values
    ensures copied <= Max(2 * |Flatten(chunks)|, 16)
  {
    hide SelfDelimiting, Parse;
    var queue := new Queue();
    values := [];
    ParseNothing(d);
    for i := 0 to |chunks|
      invariant fresh(queue) && fresh(queue.bytes) && queue.Valid() && queue.appended == |Flatten(chunks[..i])|
      invariant Follows(d, Flatten(chunks[..i]), values, queue.Contents())
    {
      assert chunks[..i + 1][..i] == chunks[..i];
      if chunks[i] == [] {
        assert Flatten(chunks[..i + 1]) == Flatten(chunks[..i]) + [] == Flatten(chunks[..i]);
        continue;
      }
      ghost var left, read := queue.Contents(), Flatten(chunks[..i]);
      FlattenGrows(chunks, i);
      queue.Append(chunks[i]);
      var enqueued;
      r, enqueued := Drain(d, queue, false);
      OneChunk(d, read, values, left, chunks[i], Flatten(chunks[i + 1..]));
      values := values + enqueued;
      if r.DecodeError? {
        copied := queue.copied;
        return;
      }
    }
    assert chunks[..|chunks|] == chunks;
    var enqueued;
    Follow(d, Flatten(chunks), values, queue.Contents());
    r, enqueued := Drain(d, queue, true);
    values := values + enqueued;
    copied := queue.copied;
  }

  /** After reading `read`, the values handed on and the bytes left are as good as all of it. */
  ghost predicate Follows(d: Decoder, read: seq<Byte>, values: seq<Value>, left: seq<Byte>) {
    forall y ::
      Parse(d, read + y).values == values + Parse(d, left + y).values && Parse(d, read + y).status == Parse(d, left + y).status
  }

  lemma ParseNothing(d: Decoder)
    ensures Follows(d, [], [], [])
  {
    forall y: seq<Byte> ensures [] + y == y { }
  }

  lemma Follow(d: Decoder, read: seq<Byte>, values: seq<Value>, left: seq<Byte>)
    requires Follows(d, read, values, left)
    ensures Parse(d, read).values == values + Parse(d, left).values && Parse(d, read).status == Parse(d, left).status
  {
    assert read + [] == read && left + [] == left;
  }

  lemma OneChunk(d: Decoder, read: seq<Byte>, values: seq<Value>, left: seq<Byte>, chunk: seq<Byte>, later: seq<Byte>)
    requires SelfDelimiting(d) && Follows(d, read, values, left)
    ensures var p := Parse(d, left + chunk);
            && p.consumed <= |left + chunk|
            && (p.status.Broken? ==> Parse(d, read + chunk + later).status.Broken?)
            && (!p.status.Broken? ==> Follows(d, read + chunk, values + p.values, (left + chunk)[p.consumed..]))
  {
    hide SelfDelimiting, Parse;
    var p := Parse(d, left + chunk);
    ParseOn(d, left + chunk, later);
    assert read + chunk + later == read + (chunk + later) && left + (chunk + later) == left + chunk + later;
    if !p.status.Broken? {
      forall y
        ensures Parse(d, read + chunk + y).values == values + p.values + Parse(d, (left + chunk)[p.consumed..] + y).values
        ensures Parse(d, read + chunk + y).status == Parse(d, (left + chunk)[p.consumed..] + y).status
      {
        ParseOn(d, left + chunk, y);
        assert read + chunk + y == read + (chunk + y) && left + (chunk + y) == left + chunk + y;
      }
    }
  }

  lemma FlattenGrows(chunks: seq<seq<Byte>>, i: nat)
    requires i < |chunks|
    ensures Flatten(chunks[..i + 1]) == Flatten(chunks[..i]) + chunks[i]
    ensures Flatten(chunks) == Flatten(chunks[..i]) + chunks[i] + Flatten(chunks[i + 1..])
  {
    assert chunks[..i + 1][..i] == chunks[..i];
    FlattenSplit(chunks, i + 1);
  }
}