/** Binary data that is portable between machines of either byte order. */
module PortableBinary {
  import opened Basics

  // ---------- reversing the bytes of every element

  function Reverse(s: seq<byte>): (r: seq<byte>)
    ensures |r| == |s| && forall i :: 0 <= i < |s| ==> r[i] == s[|s| - 1 - i]
  {
    if s == [] then [] else Reverse(s[1..]) + [s[0]]
  }

  /** Whether size bytes are a whole number of elements of size n. */
  predicate Whole(n: nat, size: nat)
    decreases size
  {
    n > 0 && (size == 0 || (size >= n && Whole(n, size - n)))
  }

  /** Elements of size n with their bytes in the opposite order. */
  function Swapped(n: nat, data: seq<byte>): (r: seq<byte>)
    requires Whole(n, |data|)
    ensures |r| == |data|
  {
    if data == [] then [] else Reverse(data[..n]) + Swapped(n, data[n..])
  }

  lemma ReverseTwice(s: seq<byte>)
    ensures Reverse(Reverse(s)) == s
  {
    assert forall i :: 0 <= i < |s| ==> Reverse(Reverse(s))[i] == s[i];
  }

  lemma SwappedParts(n: nat, data: seq<byte>)
    requires Whole(n, |data|) && data != []
    ensures Swapped(n, data) == Reverse(data[..n]) + Swapped(n, data[n..])
    ensures Swapped(n, data)[..n] == Reverse(data[..n])
    ensures Swapped(n, data)[n..] == Swapped(n, data[n..])
  {
    hide Reverse;
    var first := Reverse(data[..n]);
    assert (first + Swapped(n, data[n..]))[..n] == first;
  }

  /** Swapping is its own inverse. */
  lemma {:induction false} SwappedTwice(n: nat, data: seq<byte>)
    requires Whole(n, |data|)
    ensures Swapped(n, Swapped(n, data)) == data
    decreases |data|
  {
    hide Reverse, Swapped;
    if data == [] {
      assert Swapped(n, data) == [];
    } else {
      SwappedParts(n, data);
      SwappedParts(n, Swapped(n, data));
      ReverseTwice(data[..n]);
      SwappedTwice(n, data[n..]);
      assert data == data[..n] + data[n..];
    }
  }

  // ---------- the numbers in memory

  /** The number whose bytes are given from the lowest to the highest. */
  function Number(s: seq<byte>): nat {
    if s == [] then 0 else s[0] + 256 * Number(s[1..])
  }

  /** The number a machine reads from the bytes of one element. */
  function Reading(little: bool, s: seq<byte>): nat {
    Number(if little then s else Reverse(s))
  }

  /** The numbers a machine reads from elements of size n. */
  function Readings(little: bool, n: nat, data: seq<byte>): seq<nat>
    requires Whole(n, |data|)
    decreases |data|
  {
    if data == [] then [] else
      [Reading(little, data[..n])] + Readings(little, n, data[n..])
  }

  lemma {:induction false} SwappedReadings(little: bool, n: nat, data: seq<byte>)
    requires Whole(n, |data|)
    ensures Readings(!little, n, Swapped(n, data)) == Readings(little, n, data)
    decreases |data|
  {
    if data != [] {
      SwappedParts(n, data);
      ReverseTwice(data[..n]);
      SwappedReadings(little, n, data[n..]);
    }
  }

  // ---------- what is written and read

  function Saved(convert: bool, n: nat, data: seq<byte>): (r: seq<byte>)
    requires Whole(n, |data|)
    ensures |r| == |data|
  {
    if convert then Swapped(n, data) else data
  }

  /** Data with the size of its elements. */
  datatype Block = Block(n: nat, data: seq<byte>) {
    predicate Ok() { Whole(n, |data|) }
  }

  predicate AllOk(blocks: seq<Block>) { forall i :: 0 <= i < |blocks| ==> blocks[i].Ok() }

  function SavedAll(convert: bool, blocks: seq<Block>): seq<byte>
    requires AllOk(blocks)
  {
    if blocks == [] then [] else Saved(convert, blocks[0].n, blocks[0].data) + SavedAll(convert, blocks[1..])
  }

  /** Loading blocks of the same shapes; what is left of the stream, or nothing when it ends
      too early. */
  datatype LoadedBlocks = Threw | LoadedBlocks(blocks: seq<Block>, rest: seq<byte>)

  function LoadedAll(convert: bool, shapes: seq<Block>, stream: seq<byte>): LoadedBlocks
    requires AllOk(shapes)
  {
    if shapes == [] then LoadedBlocks([], stream)
    else
      var size := |shapes[0].data|;
      if |stream| < size then Threw else
        match LoadedAll(convert, shapes[1..], stream[size..])
        case Threw => Threw
        case LoadedBlocks(blocks, rest) =>
          LoadedBlocks([Block(shapes[0].n, Saved(convert, shapes[0].n, stream[..size]))] + blocks, rest)
  }

  /** The header byte a writer with the given output order emits. */
  function Header(outLittle: bool): byte { if outLittle then 1 else 0 }

  predicate SameNumbers(writerLittle: bool, readerLittle: bool, saved: seq<Block>, loaded: seq<Block>) {
    AllOk(saved) && |loaded| == |saved| &&
    forall i :: 0 <= i < |saved| ==>
      && loaded[i].n == saved[i].n && |loaded[i].data| == |saved[i].data|
      && Readings(readerLittle, saved[i].n, loaded[i].data) == Readings(writerLittle, saved[i].n, saved[i].data)
  }

  lemma {:induction false} BlocksLoad(machine: bool, out: bool, reader: bool, blocks: seq<Block>, rest: seq<byte>)
    requires AllOk(blocks)
    ensures var r := LoadedAll(reader != out, blocks, SavedAll(machine != out, blocks) + rest);
            r.LoadedBlocks? && r.rest == rest && SameNumbers(machine, reader, blocks, r.blocks)
    decreases |blocks|
  {
    var stream := SavedAll(machine != out, blocks) + rest;
    if blocks == [] {
      assert stream == rest;
    } else {
      hide Saved, Readings, Whole, SameNumbers;
      var b := blocks[0];
      var saved := Saved(machine != out, b.n, b.data);
      var tail := SavedAll(machine != out, blocks[1..]) + rest;
      assert stream == saved + tail;
      assert stream[..|b.data|] == saved && stream[|b.data|..] == tail;
      BlocksLoad(machine, out, reader, blocks[1..], rest);
      OneBlock(machine, out, reader, b);
      var r := LoadedAll(reader != out, blocks[1..], tail);
      MoreNumbers(machine, reader, b, Block(b.n, Saved(reader != out, b.n, saved)), blocks[1..], r.blocks);
      assert [b] + blocks[1..] == blocks;
    }
  }

  lemma {:induction false} MoreNumbers(writer: bool, reader: bool, b: Block, l: Block, bs: seq<Block>, ls: seq<Block>)
    requires SameNumbers(writer, reader, bs, ls) && b.Ok() && l.n == b.n && |l.data| == |b.data|
    requires Readings(reader, b.n, l.data) == Readings(writer, b.n, b.data)
    ensures SameNumbers(writer, reader, [b] + bs, [l] + ls)
  {
    hide Readings, Whole;
  }

  lemma {:induction false} OneBlock(machine: bool, out: bool, reader: bool, b: Block)
    requires b.Ok()
    ensures Readings(reader, b.n, Saved(reader != out, b.n, Saved(machine != out, b.n, b.data)))
            == Readings(machine, b.n, b.data)
  {
    SwappedTwice(b.n, b.data);
    SwappedReadings(machine, b.n, b.data);
  }

  /** Whatever the byte order of the writing machine, the order chosen for the stream and the
      order wanted by the reader, which is that of its machine by default, the loaded memory
      denotes the numbers that were saved. */
  lemma {:induction false} Portable(machine: bool, out: bool, reader: bool, blocks: seq<Block>)
    requires AllOk(blocks)
    ensures var stream := [Header(out)] + SavedAll(machine != out, blocks);
            var convert := Header(reader) != stream[0];
            var r := LoadedAll(convert, blocks, stream[1..]);
            && r.LoadedBlocks? && r.rest == [] && SameNumbers(machine, reader, blocks, r.blocks)
            && (stream[0] == 1 <==> out) && (stream[0] == 0 <==> !out)
  {
    var body := SavedAll(machine != out, blocks);
    assert ([Header(out)] + body)[1..] == body + [];
    BlocksLoad(machine, out, reader, blocks, []);
  }

  // ---------- the archives

  class PortableBinaryOutputArchive {
    const convertEndianness: bool
    var stream: seq<byte>

    /** Starts the stream with the chosen byte order. */
    constructor (machineLittle: bool, outLittle: bool)
      ensures convertEndianness == (machineLittle != outLittle) && stream == [if outLittle then 1 else 0]
    {
      convertEndianness := machineLittle != outLittle;
      stream := [];
      new;
      SaveBinary(1, [Header(outLittle)]);
      assert Reverse([Header(outLittle)]) == [Header(outLittle)];
      assert Swapped(1, [Header(outLittle)]) == [Header(outLittle)];
    }

    method SaveBinary(n: nat, data: seq<byte>)
      requires Whole(n, |data|)
      modifies this`stream
      ensures stream == old(stream) + Saved(convertEndianness, n, data)
    {
      hide Reverse, Swapped;
      if convertEndianness {
        ghost var goal := stream + Swapped(n, data);
        var i := 0;
        assert data[0..] == data;
        while i < |data|
          invariant 0 <= i <= |data| && Whole(n, |data| - i)
          invariant stream + Swapped(n, data[i..]) == goal
          decreases |data| - i
        {
          SwappedStep(n, data, i);
          ghost var before, element, rest := stream, Reverse(data[i..i + n]), Swapped(n, data[i + n..]);
          EmitReversed(n, data, i);
          Regroup(stream, before, element, rest);
          i := i + n;
        }
        assert data[i..] == [] && Swapped(n, data[i..]) == [];
      } else {
        stream := stream + data;
      }
    }

    method EmitReversed(n: nat, data: seq<byte>, i: nat)
      requires i + n <= |data|
      modifies this`stream
      ensures stream == old(stream) + Reverse(data[i..i + n])
    {
      ghost var reversed := Reverse(data[i..i + n]);
      for j := 0 to n
        invariant stream == old(stream) + reversed[..j]
      {
        assert reversed[j] == data[n - j - 1 + i];
        assert reversed[..j + 1] == reversed[..j] + [reversed[j]];
        stream := stream + [data[n - j - 1 + i]];
      }
      assert reversed[..n] == reversed;
    }
  }

  lemma SwappedStep(n: nat, data: seq<byte>, i: nat)
    requires i < |data| && Whole(n, |data| - i)
    ensures i + n <= |data| && Whole(n, |data| - (i + n))
    ensures Swapped(n, data[i..]) == Reverse(data[i..i + n]) + Swapped(n, data[i + n..])
  {
    assert data[i..][..n] == data[i..i + n] && data[i..][n..] == data[i + n..];
  }

  lemma Regroup(all: seq<byte>, a: seq<byte>, b: seq<byte>, rest: seq<byte>)
    requires all == a + b
    ensures all + rest == a + (b + rest)
  {
  }

  /** Swaps the bytes of one element in place. */
  method SwapBytes(data: array<byte>, offset: nat, n: nat)
    requires offset + n <= data.Length
    modifies data
    ensures data[offset..offset + n] == Reverse(old(data[offset..offset + n]))
    ensures data[..offset] == old(data[..offset]) && data[offset + n..] == old(data[offset + n..])
  {
    hide Reverse;
    ghost var mirror := 2 * offset + n - 1;
    var end := n / 2;
    for i := 0 to end
      invariant forall k :: offset <= k < offset + i || offset + n - i <= k < offset + n ==>
        data[k] == old(data[mirror - k])
      invariant forall k :: offset + i <= k < offset + n - i ==> data[k] == old(data[k])
      invariant forall k :: 0 <= k < offset || offset + n <= k < data.Length ==> data[k] == old(data[k])
    {
      data[offset + i], data[offset + n - 1 - i] := data[offset + n - 1 - i], data[offset + i];
    }
    ghost var chunk := old(data[offset..offset + n]);
    forall j | 0 <= j < n
      ensures data[offset..offset + n][j] == Reverse(chunk)[j]
    {
      assert data[offset + j] == old(data[mirror - (offset + j)]) == chunk[n - 1 - j];
    }
    assert data[..offset] == old(data[..offset]);
    assert data[offset + n..] == old(data[offset + n..]);
  }

  class PortableBinaryInputArchive {
    var convertEndianness: bool
    var stream: seq<byte>

    /** Opens a stream, which throws when it is empty. */
    static method Open(stream: seq<byte>, inLittle: bool) returns (archive: PortableBinaryInputArchive?)
      ensures archive == null <==> stream == []
      ensures archive != null ==> fresh(archive) && archive.stream == stream[1..]
      ensures archive != null ==> archive.convertEndianness == (stream[0] != if inLittle then 1 else 0)
    {
      archive := null;
      if stream != [] {
        archive := new PortableBinaryInputArchive(stream, inLittle);
      }
    }

    /** Takes the byte order of the stream from its first byte. */
    constructor (stream: seq<byte>, inLittle: bool)
      requires stream != []
      ensures convertEndianness == (stream[0] != if inLittle then 1 else 0) && this.stream == stream[1..]
    {
      convertEndianness := Header(inLittle) != stream[0];
      this.stream := stream[1..];
    }

    /** Fills the buffer from the stream; throws when the stream is too short. */
    method LoadBinary(n: nat, data: array<byte>) returns (ok: bool)
      requires Whole(n, data.Length)
      modifies this`stream, data
      ensures ok <==> |old(stream)| >= data.Length
      ensures ok ==> stream == old(stream)[data.Length..]
      ensures ok ==> data[..] == Saved(convertEndianness, n, old(stream)[..data.Length])
    {
      var size := data.Length;
      if |stream| < size {
        forall i | 0 <= i < |stream| {
          data[i] := stream[i];
        }
        stream := [];
        return false;
      }
      forall i | 0 <= i < size {
        data[i] := stream[i];
      }
      ghost var loaded := stream[..size];
      assert data[..] == loaded;
      stream := stream[size..];
      if convertEndianness {
        FlipElements(n, data);
      }
      ok := true;
    }

    static method FlipElements(n: nat, data: array<byte>)
      requires Whole(n, data.Length)
      modifies data
      ensures data[..] == Swapped(n, old(data[..]))
    {
      hide Reverse, Swapped;
      ghost var loaded := data[..];
      ghost var goal := Swapped(n, loaded);
      assert data[..0] + Swapped(n, loaded[0..]) == goal by {
        assert loaded[0..] == loaded;
      }
      var i := 0;
      while i < data.Length
        invariant 0 <= i <= data.Length && Whole(n, data.Length - i)
        invariant data[i..] == loaded[i..]
        invariant data[..i] + Swapped(n, loaded[i..]) == goal
        decreases data.Length - i
      {
        ghost var before, rest := data[..i], Swapped(n, loaded[i + n..]);
        SwappedStep(n, loaded, i);
        assert data[i..i + n] == loaded[i..i + n];
        SwapBytes(data, i, n);
        Regroup(data[..i + n], before, data[i..i + n], rest);
        i := i + n;
      }
      assert loaded[i..] == [] && Swapped(n, loaded[i..]) == [];
      assert data[..i] == data[..];
    }
  }
}
