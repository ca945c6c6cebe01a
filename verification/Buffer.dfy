/** The buffer object of base/Buffer.h; its methods are proved against the functions of `Ring`. */
module BufferObject {
  import opened Prelude
  import opened R = Ring

  class Buffer {
    const code: Code
    var cells: array<byte>
    var start: nat
    var end: nat
    var full: bool

    ghost predicate Valid()
      reads this
    {
      start < cells.Length && end < cells.Length
    }

    function View(): (r: Ring)
      requires Valid()
      reads this, cells
      ensures r.Shaped()
    {
      Ring(cells[..], start, end, full)
    }

    constructor (code: Code)
      ensures Valid() && fresh(cells) && this.code == code
      ensures View() == EMPTY_RING
    {
      this.code := code;
      cells := new byte[INITIAL_SIZE](_ => 0);
      start, end, full := 0, 0, false;
      new;
      assert cells[..] == Zeros(INITIAL_SIZE);
    }

    method ReadableBytes() returns (n: nat)
      requires Valid()
      ensures n == View().Readable()
      ensures View().Coherent() ==> n == |View().Content()|
    {
      if full { return cells.Length; }
      if start <= end { return end - start; }
      return cells.Length - (start - end);
    }

    method WritableBytes() returns (n: nat)
      requires Valid()
      ensures n == View().Writable()
      ensures View().Coherent() ==> n == cells.Length - |View().Content()|
    {
      var readable := ReadableBytes();
      return cells.Length - readable;
    }

    method IsEmpty() returns (empty: bool)
      requires Valid()
      ensures empty == View().IsEmpty()
      ensures View().Coherent() ==> (empty <==> View().Content() == [])
    {
      return start == end && !full;
    }

    method Retrieve(len: nat)
      requires Valid() && len <= View().Readable()
      modifies this
      ensures Valid() && cells == old(cells)
      ensures View() == R.Retrieve(code, old(View()), len)
      ensures code == Repaired && old(View()).Coherent()
              ==> View().Coherent() && View().Content() == old(View()).Content()[len..]
    {
      ghost var was := View();
      if start + len < cells.Length {
        start := start + len;
      } else {
        start := start + len - cells.Length;
      }
      if len > 0 && (code == Repaired || start == end) {
        full := false;
      }
      if code == Repaired && was.Coherent() { RetrieveDropsOldest(was, len); }
    }

    method RetrieveAll()
      requires Valid()
      modifies this
      ensures Valid() && cells == old(cells)
      ensures View() == R.RetrieveAll(old(View())) && View().Content() == []
    {
      start, end, full := 0, 0, false;
    }

    /** Drain the buffer; `ok` is false when line 110 would read past the vector. */
    method RetrieveAsString() returns (ok: bool, str: Bytes)
      requires Valid()
      modifies this
      ensures Valid() && cells == old(cells)
      ensures ok <==> R.RetrieveAsString(old(View())).Some?
      ensures ok ==> R.RetrieveAsString(old(View())) == Some(str) && View() == R.RetrieveAll(old(View()))
      ensures !ok ==> View() == old(View())
      ensures old(View()).Coherent() ==> ok && str == old(View()).Content()
    {
      str := [];
      ghost var held := cells[..];
      assert held[start..] == cells[start..] && held[..end] == cells[..end];
      if start < end {
        var readable := ReadableBytes();
        if start + readable > cells.Length { return false, []; }
        str := str + cells[start..start + readable];
        assert str == held[start..start + readable];
      } else if start > end {
        str := str + cells[start..];
        str := str + cells[..end];
        assert str == held[start..] + held[..end];
      } else if full {
        str := str + cells[start..];
        str := str + cells[..end];
        assert str == held[start..] + held[..end];
      }
      assert R.RetrieveAsString(View()) == Some(str);
      RetrieveAll();
      ok := true;
    }

    /** `std::copy`, one byte at a time. */
    method Copy(data: Bytes, at: nat)
      requires at + |data| <= cells.Length
      modifies cells
      ensures cells[..] == Splice(old(cells[..]), at, data)
    {
      var i := 0;
      while i < |data|
        invariant 0 <= i <= |data|
        invariant cells[..] == Splice(old(cells[..]), at, data[..i])
      {
        SpliceByte(old(cells[..]), at, data, i);
        cells[at + i] := data[i];
        i := i + 1;
      }
      assert data[..i] == data;
    }

    method HasWritten(len: nat)
      requires Valid()
      modifies this
      ensures cells == old(cells) && (len <= cells.Length ==> Valid())
      ensures Ring(cells[..], start, end, full) == R.HasWritten(old(View()), len)
    {
      if end + len < cells.Length {
        end := end + len;
      } else {
        end := end + len - cells.Length;
      }
      if len > 0 && end == start {
        full := true;
      }
    }

    method WriteAfterEnd(data: Bytes) returns (ok: bool)
      requires Valid() && |data| <= View().Writable()
      modifies this, cells
      ensures Valid() && cells == old(cells)
      ensures ok <==> R.WriteAfterEnd(code, old(View()), data).Some?
      ensures ok ==> R.WriteAfterEnd(code, old(View()), data) == Some(View())
    {
      if end + |data| <= cells.Length {
        Copy(data, end);
      } else {
        var firstPart := cells.Length - end;
        var secondPart := |data| - firstPart;
        var stop := if code == AsWritten then secondPart else |data|;
        if stop < firstPart { return false; }
        Copy(data[..firstPart], end);
        Copy(data[firstPart..stop], 0);
      }
      HasWritten(|data|);
      ok := true;
    }

    method Resize(size: nat)
      requires start < size && end < size
      modifies this
      ensures Valid() && fresh(cells)
      ensures start == old(start) && end == old(end) && full == old(full)
      ensures cells[..] == R.Resize(old(cells[..]), size)
    {
      var larger := new byte[size](_ => 0);
      var i := 0;
      while i < cells.Length && i < size
        modifies larger
        invariant 0 <= i <= cells.Length && i <= size
        invariant larger[..] == cells[..i] + Zeros(size - i)
      {
        larger[i] := cells[i];
        i := i + 1;
      }
      cells := larger;
    }

    /** The termination measures say that `append` and `makeSpace` nest one level deep and no deeper. */
    method MakeSpace(len: nat) returns (ok: bool)
      requires Valid() && View().Readable() + len > 0
      modifies this, cells
      ensures Valid() && (cells == old(cells) || fresh(cells))
      ensures ok <==> R.MakeSpace(code, old(View()), len).Some?
      ensures ok ==> R.MakeSpace(code, old(View()), len) == Some(View())
      decreases 1
    {
      hide R.WriteAfterEnd, R.Append, R.RetrieveAsString, R.Resize;
      var readable := ReadableBytes();
      var writable := WritableBytes();
      var size := cells.Length + len - writable;  // the unsigned sum, whichever of the two is larger
      var data;
      ok, data := RetrieveAsString();
      if !ok { return; }
      Resize(size);
      assert View() == Ring(R.Resize(old(View()).cells, size), 0, 0, false);
      ok := Append(data);
      if !ok { return; }
      var moved := ReadableBytes();
      ok := readable == moved;
    }

    method Append(data: Bytes) returns (ok: bool)
      requires Valid()
      modifies this, cells
      ensures Valid() && (cells == old(cells) || fresh(cells))
      ensures ok <==> R.Append(code, old(View()), data).Some?
      ensures ok ==> R.Append(code, old(View()), data) == Some(View())
      ensures code == Repaired && old(View()).Coherent()
              ==> ok && View().Coherent() && View().Content() == old(View()).Content() + data
      decreases if View().Writable() < |data| then 2 else 0
    {
      ghost var was := View();
      if code == Repaired && was.Coherent() { AppendAddsNewest(was, data); }
      var writable := WritableBytes();
      if writable < |data| {
        ok := MakeSpace(|data|);
        if !ok { return; }
      }
      ok := WriteAfterEnd(data);
    }
  }
}
