/**
 The circular byte buffer of base/Buffer.h as a value: the vector of cells, the two
 wrap-around indices and the full flag. Every operation is a function on that value, and
 `Buffer` (in Buffer.dfy) is the object whose methods are proved against these functions.

 Two lines of the header do not do what the rest of the class relies on: the end of the
 wrapped copy (line 158) and the condition that clears the full flag (line 92). Each
 operation takes a `Code`, which says whether those two lines are read as written or as
 the rest of the class needs them.
*/
module Ring {
  import opened Prelude

  datatype Code = AsWritten | Repaired

  const INITIAL_SIZE: nat := 10

  datatype Ring = Ring(cells: Bytes, start: nat, end: nat, full: bool) {

    /** What every operation keeps under either reading: the indices stay inside the cells. */
    predicate Shaped() {
      start < |cells| && end < |cells|
    }

    /** The full flag is only meaningful where the indices meet. */
    predicate Coherent() {
      Shaped() && (full ==> start == end)
    }

    function Readable(): nat
      requires Shaped()
    {
      if full then |cells|
      else if start <= end then end - start
      else |cells| - (start - end)
    }

    function Writable(): nat
      requires Shaped()
    {
      |cells| - Readable()
    }

    function BytesAfterEnd(): nat
      requires Shaped()
    {
      if full then 0
      else if end < start then start - end
      else |cells| - end
    }

    predicate IsEmpty() {
      start == end && !full
    }

    /** The bytes held between the two indices, oldest first. */
    function Content(): Bytes
      requires Shaped()
    {
      if start < end then cells[start..end]
      else if start > end || full then cells[start..] + cells[..end]
      else []
    }
  }

  const EMPTY_RING: Ring := Ring(Zeros(INITIAL_SIZE), 0, 0, false)

  /** `std::copy` of `data` over the cells from `at` on. */
  function Splice(cells: Bytes, at: nat, data: Bytes): (r: Bytes)
    requires at + |data| <= |cells|
    ensures |r| == |cells|
  {
    cells[..at] + data + cells[at + |data|..]
  }

  lemma SpliceByte(cells: Bytes, at: nat, data: Bytes, i: nat)
    requires at + |data| <= |cells| && i < |data|
    ensures Splice(cells, at, data[..i + 1]) == Splice(cells, at, data[..i])[at + i := data[i]]
  {
  }

  // ----- operations -----

  function Retrieve(code: Code, r: Ring, len: nat): (r': Ring)
    requires r.Shaped() && len <= r.Readable()
    ensures r'.Shaped()
  {
    var moved := r.start + len;
    var start := if moved < |r.cells| then moved else moved - |r.cells|;
    var clears := match code
      case AsWritten => start == r.end
      case Repaired => true;
    r.(start := start, full := r.full && !(len > 0 && clears))
  }

  function RetrieveAll(r: Ring): Ring {
    r.(start := 0, end := 0, full := false)
  }

  /** The drained string; nothing when line 110 would read past the last cell. */
  function RetrieveAsString(r: Ring): (res: Option<Bytes>)
    requires r.Shaped()
    ensures res.Some? ==> |res.value| <= |r.cells|
  {
    if r.start < r.end then
      if r.start + r.Readable() <= |r.cells| then Some(r.cells[r.start..r.start + r.Readable()]) else None
    else if r.start > r.end || r.full then Some(r.cells[r.start..] + r.cells[..r.end])
    else Some([])
  }

  /** Nothing stops a caller from going past the room; up to one whole vector the indices stay inside it. */
  function HasWritten(r: Ring, len: nat): (r': Ring)
    requires r.Shaped()
    ensures len <= |r.cells| ==> r'.Shaped()
  {
    var moved := r.end + len;
    var end := if moved < |r.cells| then moved else moved - |r.cells|;
    r.(end := end, full := r.full || (len > 0 && end == r.start))
  }

  /** Nothing when line 158 is handed a range whose end lies before its beginning. */
  function WriteAfterEnd(code: Code, r: Ring, data: Bytes): (res: Option<Ring>)
    requires r.Shaped() && |data| <= r.Writable()
    ensures res.Some? ==> res.value.Shaped() && |res.value.cells| == |r.cells|
  {
    if r.end + |data| <= |r.cells| then
      Some(HasWritten(r.(cells := Splice(r.cells, r.end, data)), |data|))
    else
      var firstPart := |r.cells| - r.end;
      var secondPart := |data| - firstPart;
      var stop := match code
        case AsWritten => secondPart
        case Repaired => |data|;
      if stop < firstPart then None
      else
        var cells := Splice(r.cells, r.end, data[..firstPart]);
        Some(HasWritten(r.(cells := Splice(cells, 0, data[firstPart..stop])), |data|))
  }

  function Resize(cells: Bytes, size: nat): (r: Bytes)
    ensures |r| == size
  {
    if |cells| <= size then cells + Zeros(size - |cells|) else cells[..size]
  }

  /**
   Re-linearise into a vector with room for `len` bytes, larger or, when there is more room
   already, smaller; nothing when the assertion on line 148 fails.
  */
  function MakeSpace(code: Code, r: Ring, len: nat): (res: Option<Ring>)
    requires r.Shaped() && r.Readable() + len > 0
    ensures res.Some? ==> res.value.Shaped()
    ensures res.Some? ==> res.value.Writable() == len
    decreases 1
  {
    var size := r.Readable() + len;
    match RetrieveAsString(r)
    case None => None
    case Some(data) =>
      match Append(code, Ring(Resize(r.cells, size), 0, 0, false), data)
      case None => None
      case Some(moved) => if moved.Readable() == r.Readable() then Some(moved) else None
  }

  function Append(code: Code, r: Ring, data: Bytes): (res: Option<Ring>)
    requires r.Shaped()
    ensures res.Some? ==> res.value.Shaped()
    ensures res.Some? && |data| <= r.Writable() ==> |res.value.cells| == |r.cells|
    decreases if r.Writable() < |data| then 2 else 0
  {
    if r.Writable() < |data| then
      match MakeSpace(code, r, |data|)
      case None => None
      case Some(roomy) => WriteAfterEnd(code, roomy, data)
    else
      WriteAfterEnd(code, r, data)
  }

  // ----- one operation against the FIFO queue -----

  function Max(a: nat, b: nat): nat {
    if a < b then b else a
  }

  /** The byte `i` places behind the oldest one. */
  function At(r: Ring, i: nat): byte
    requires r.Coherent() && i < |r.cells|
  {
    if r.start + i < |r.cells| then r.cells[r.start + i] else r.cells[r.start + i - |r.cells|]
  }

  lemma ContentAt(r: Ring)
    requires r.Coherent()
    ensures |r.Content()| == r.Readable()
    ensures forall i :: 0 <= i < r.Readable() ==> r.Content()[i] == At(r, i)
  {
  }

  /** With line 92 repaired, `retrieve` drops exactly the oldest `len` bytes. */
  lemma RetrieveDropsOldest(r: Ring, len: nat)
    requires r.Coherent() && len <= r.Readable()
    ensures Retrieve(Repaired, r, len).Coherent()
    ensures Retrieve(Repaired, r, len).Content() == r.Content()[len..]
  {
    var r' := Retrieve(Repaired, r, len);
    assert r'.Readable() == r.Readable() - len;
    ContentAt(r);
    ContentAt(r');
    forall i: nat | i < r'.Readable() ensures r'.Content()[i] == r.Content()[len..][i] {
      assert At(r', i) == At(r, len + i);
    }
  }

  /** A write moves the end index on and leaves the bytes in use where they are. */
  lemma WriteShape(r: Ring, data: Bytes)
    requires r.Coherent() && |data| <= r.Writable()
    ensures var res := WriteAfterEnd(Repaired, r, data);
            && res.Some? && res.value.Coherent()
            && res.value.start == r.start && |res.value.cells| == |r.cells|
            && res.value.Readable() == r.Readable() + |data|
  {
  }

  lemma WriteKeepsOld(r: Ring, data: Bytes, i: nat)
    requires r.Coherent() && |data| <= r.Writable() && i < r.Readable()
    ensures (WriteShape(r, data); At(WriteAfterEnd(Repaired, r, data).value, i) == At(r, i))
  {
  }

  lemma WriteStoresNew(r: Ring, data: Bytes, k: nat)
    requires r.Coherent() && |data| <= r.Writable() && k < |data|
    ensures (WriteShape(r, data); At(WriteAfterEnd(Repaired, r, data).value, r.Readable() + k) == data[k])
  {
  }

  /** A write that fits appends its bytes, wrapped or not, once line 158 copies to the end of `data`. */
  lemma WriteAppends(r: Ring, data: Bytes)
    requires r.Coherent() && |data| <= r.Writable()
    ensures var res := WriteAfterEnd(Repaired, r, data);
            && res.Some? && res.value.Coherent()
            && res.value.Content() == r.Content() + data
  {
    WriteShape(r, data);
    var r' := WriteAfterEnd(Repaired, r, data).value;
    var n := r.Readable();
    ContentAt(r);
    ContentAt(r');
    forall i: nat | i < n + |data| ensures r'.Content()[i] == (r.Content() + data)[i] {
      if i < n {
        WriteKeepsOld(r, data, i);
      } else {
        WriteStoresNew(r, data, i - n);
      }
    }
  }

  lemma RetrieveAsStringIsContent(r: Ring)
    requires r.Coherent()
    ensures RetrieveAsString(r) == Some(r.Content())
  {
  }

  /** Growing or shrinking keeps the content, moves it to the front and leaves room for exactly `len` bytes. */
  lemma MakeSpaceKeepsContent(r: Ring, len: nat)
    requires r.Coherent() && r.Readable() + len > 0
    ensures var res := MakeSpace(Repaired, r, len);
            && res.Some? && res.value.Coherent()
            && res.value.Content() == r.Content()
            && res.value.start == 0
            && |res.value.cells| == r.Readable() + len
  {
    RetrieveAsStringIsContent(r);
    WriteAppends(Ring(Resize(r.cells, r.Readable() + len), 0, 0, false), r.Content());
  }

  /** `append` never aborts, adds exactly `data`, and grows to the stored length only when it must. */
  lemma AppendAddsNewest(r: Ring, data: Bytes)
    requires r.Coherent()
    ensures var res := Append(Repaired, r, data);
            && res.Some? && res.value.Coherent()
            && res.value.Content() == r.Content() + data
            && |res.value.cells| == Max(|r.cells|, |r.Content() + data|)
  {
    if r.Writable() < |data| {
      MakeSpaceKeepsContent(r, |data|);
      WriteAppends(MakeSpace(Repaired, r, |data|).value, data);
    } else {
      WriteAppends(r, data);
    }
  }

  // ----- the two lines as written -----

  /** Line 92 as written leaves the full flag stale exactly when a full buffer is drained in part. */
  lemma RetrieveAsWrittenExactlyWhen(r: Ring, len: nat)
    requires r.Coherent() && len <= r.Readable()
    ensures Retrieve(AsWritten, r, len).Content() == r.Content()[len..]
    ensures Retrieve(AsWritten, r, len).Readable() == |r.Content()[len..]|
            <==> !(r.full && 0 < len < |r.cells|)
    ensures Retrieve(AsWritten, r, len) == Retrieve(Repaired, r, len)
            <==> !(r.full && 0 < len < |r.cells|)
  {
    RetrieveDropsOldest(r, len);
  }

  predicate Appends(r: Ring, data: Bytes)
    requires r.Shaped()
  {
    var res := Append(AsWritten, r, data);
    res.Some? && res.value.Content() == r.Content() + data
  }

  /** What decides whether `append` as written can be trusted; it looks at the indices only. */
  predicate AppendIsSound(r: Ring, len: nat)
    requires r.Shaped()
  {
    len == 0 || if r.full then r.start == r.end else r.Writable() < len || r.end + len <= |r.cells|
  }

  /** A write that stays before the last cell does not reach line 158. */
  lemma UnwrappedWritesAgree(r: Ring, data: Bytes)
    requires r.Shaped() && |data| <= r.Writable() && r.end + |data| <= |r.cells|
    ensures WriteAfterEnd(AsWritten, r, data) == WriteAfterEnd(Repaired, r, data)
  {
  }

  lemma MakeSpacesAgree(r: Ring, len: nat)
    requires r.Coherent() && r.Readable() + len > 0
    ensures MakeSpace(AsWritten, r, len) == MakeSpace(Repaired, r, len)
  {
    RetrieveAsStringIsContent(r);
    ContentAt(r);
    UnwrappedWritesAgree(Ring(Resize(r.cells, r.Readable() + len), 0, 0, false), r.Content());
  }

  /** After growing, the end index stands at the stored length, so the new bytes do not wrap either. */
  lemma RoomAfterGrowing(r: Ring, len: nat)
    requires r.Coherent() && r.Writable() < len
    ensures (MakeSpaceKeepsContent(r, len);
             var roomy := MakeSpace(Repaired, r, len).value;
             roomy.end + len <= |roomy.cells|)
  {
    MakeSpaceKeepsContent(r, len);
    ContentAt(r);
    ContentAt(MakeSpace(Repaired, r, len).value);
  }

  /** Under the guard the two readings are the same function. */
  lemma SoundAppendsAgree(r: Ring, data: Bytes)
    requires r.Coherent() && AppendIsSound(r, |data|)
    ensures Append(AsWritten, r, data) == Append(Repaired, r, data)
  {
    if r.Writable() < |data| {
      MakeSpacesAgree(r, |data|);
      MakeSpaceKeepsContent(r, |data|);
      RoomAfterGrowing(r, |data|);
      UnwrappedWritesAgree(MakeSpace(Repaired, r, |data|).value, data);
    } else {
      UnwrappedWritesAgree(r, data);
    }
  }

  /** A stale full flag makes `append` grow, and line 148 or a wrong length gives it away. */
  lemma StaleAppendFails(r: Ring, data: Bytes)
    requires r.Shaped() && r.full && r.start != r.end && data != []
    ensures !Appends(r, data)
  {
    var res := MakeSpace(AsWritten, r, |data|);
    if res.Some? && Append(AsWritten, r, data).Some? {
      var r' := Append(AsWritten, r, data).value;
      assert r'.Coherent();
      ContentAt(r');
      assert |r'.Content()| == |r.cells| + |data|;
    }
  }

  /** Where the stale data wraps, it is the assertion on line 148 that fails. */
  lemma StaleAppendAborts(r: Ring, data: Bytes)
    requires r.Shaped() && r.full && r.start > r.end && data != []
    ensures Append(AsWritten, r, data) == None
  {
    var held := r.cells[r.start..] + r.cells[..r.end];
    var emptied := Ring(Resize(r.cells, |r.cells| + |data|), 0, 0, false);
    var moved := Append(AsWritten, emptied, held).value;
    assert moved.Readable() == |held| < r.Readable();
  }

  /** A wrapped copy leaves as many bytes unwritten as were written before the wrap. */
  lemma WrappedAppendFails(r: Ring, data: Bytes)
    requires r.Coherent() && !r.full && |data| <= r.Writable() && r.end + |data| > |r.cells|
    requires r.cells == Zeros(|r.cells|) && data == seq(|data|, i => 1)
    ensures !Appends(r, data)
  {
    var firstPart := |r.cells| - r.end;
    var secondPart := |data| - firstPart;
    if secondPart >= firstPart {
      var r' := WriteAfterEnd(AsWritten, r, data).value;
      var cell := secondPart - firstPart;
      assert r'.cells[cell] == 0;
      ContentAt(r);
      ContentAt(r');
      var k := |r.cells| - r.start + cell;
      assert At(r', k) == r'.cells[cell];
      assert (r.Content() + data)[k] == 1;
    }
  }

  /**
   `append` as written adds its bytes whatever the cells hold and whatever the data is, exactly
   when it either writes nothing, or grows a buffer whose full flag is right, or does not wrap.
  */
  lemma AppendAsWrittenExactlyWhen(r: Ring, len: nat)
    requires r.Shaped()
    ensures AppendIsSound(r, len)
            <==> forall cells: Bytes, data: Bytes | |cells| == |r.cells| && |data| == len :: Appends(r.(cells := cells), data)
  {
    if AppendIsSound(r, len) {
      forall cells: Bytes, data: Bytes | |cells| == |r.cells| && |data| == len ensures Appends(r.(cells := cells), data) {
        var r1 := r.(cells := cells);
        if r1.Coherent() {
          SoundAppendsAgree(r1, data);
          AppendAddsNewest(r1, data);
        } else {
          assert r1.Content() + data == r1.Content();
        }
      }
    } else {
      var zeroed := r.(cells := Zeros(|r.cells|));
      var ones: Bytes := seq(len, i => 1);
      if r.full {
        StaleAppendFails(zeroed, ones);
      } else {
        WrappedAppendFails(zeroed, ones);
      }
      assert !Appends(r.(cells := Zeros(|r.cells|)), ones);
    }
  }
}
