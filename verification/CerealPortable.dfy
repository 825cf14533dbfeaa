/** Object graphs as bytes, which machines of either byte order read alike. */
module CerealPortable {
  import opened Basics
  import opened CerealArchive
  import opened CerealRoundTrip
  import opened PortableBinary

  // ---------- numbers as bytes

  function Power(n: nat): nat { if n == 0 then 1 else 256 * Power(n - 1) }

  /** The bytes of a number from the lowest to the highest. */
  function Digits(n: nat, x: nat): (s: seq<byte>)
    ensures |s| == n
  {
    if n == 0 then [] else [x % 256] + Digits(n - 1, x / 256)
  }

  lemma {:induction false} DigitsNumber(n: nat, x: nat)
    requires x < Power(n)
    ensures Number(Digits(n, x)) == x
  {
    if n > 0 {
      DigitsNumber(n - 1, x / 256);
      assert Digits(n, x)[1..] == Digits(n - 1, x / 256);
    }
  }

  /** The bytes of a number in the memory of a machine. */
  function Memory(little: bool, n: nat, x: nat): (s: seq<byte>)
    ensures |s| == n
  {
    if little then Digits(n, x) else Reverse(Digits(n, x))
  }

  lemma MemoryReads(little: bool, n: nat, x: nat)
    requires x < Power(n)
    ensures Reading(little, Memory(little, n, x)) == x
  {
    DigitsNumber(n, x);
    ReverseTwice(Digits(n, x));
  }

  // ---------- items as blocks

  /** The size of a number and of the length of a text. */
  const WIDTH: nat := 8

  predicate Fits(item: Item) {
    match item
    case Word(n) => n < Power(WIDTH)
    case Text(s) => |s| < Power(WIDTH) && forall i :: 0 <= i < |s| ==> s[i] as int < 256
  }

  predicate AllFit(items: seq<Item>) { forall i :: 0 <= i < |items| ==> Fits(items[i]) }

  function Bytes(s: string): (r: seq<byte>)
    requires forall i :: 0 <= i < |s| ==> s[i] as int < 256
    ensures |r| == |s|
  {
    if s == "" then [] else [s[0] as int] + Bytes(s[1..])
  }

  /** A number is one element; a text is its length, followed by its characters. */
  function BlocksOf(little: bool, items: seq<Item>): seq<Block>
    requires AllFit(items)
  {
    if items == [] then [] else
      (match items[0]
       case Word(n) => [Block(WIDTH, Memory(little, WIDTH, n))]
       case Text(s) => [Block(WIDTH, Memory(little, WIDTH, |s|)), Block(1, Bytes(s))])
      + BlocksOf(little, items[1..])
  }

  function Chars(ns: seq<nat>): string {
    if ns == [] then "" else [(ns[0] % 256) as char] + Chars(ns[1..])
  }

  /** What a machine takes the blocks for. */
  function ItemsOf(little: bool, blocks: seq<Block>): seq<Item>
    requires AllOk(blocks)
    decreases |blocks|
  {
    if blocks == [] then []
    else if |blocks| > 1 && blocks[1].n == 1 then
      [Text(Chars(Readings(little, 1, blocks[1].data)))] + ItemsOf(little, blocks[2..])
    else
      var ns := Readings(little, blocks[0].n, blocks[0].data);
      [Word(if ns == [] then 0 else ns[0])] + ItemsOf(little, blocks[1..])
  }

  lemma {:induction false} WholeBytes(n: nat)
    ensures Whole(1, n)
  {
    if n > 0 {
      WholeBytes(n - 1);
    }
  }

  lemma {:induction false} BytesRead(little: bool, s: string)
    requires forall i :: 0 <= i < |s| ==> s[i] as int < 256
    ensures Whole(1, |s|) && Chars(Readings(little, 1, Bytes(s))) == s
  {
    WholeBytes(|s|);
    if s != "" {
      BytesRead(little, s[1..]);
      WholeBytes(|s| - 1);
      var b := Bytes(s);
      assert b[..1] == [b[0]] && b[1..] == Bytes(s[1..]);
      ByteReads(little, b[0]);
    }
  }

  lemma ByteReads(little: bool, b: byte)
    ensures Reading(little, [b]) == b
  {
    var none: seq<byte> := [];
    assert [b][1..] == none && Number(none) == 0;
    assert Reverse([b]) == [b];
  }

  lemma MemoryIsOne(little: bool, x: nat)
    requires x < Power(WIDTH)
    ensures Whole(WIDTH, WIDTH) && Readings(little, WIDTH, Memory(little, WIDTH, x)) == [x]
  {
    var s := Memory(little, WIDTH, x);
    MemoryReads(little, WIDTH, x);
    assert Whole(WIDTH, 0);
    assert s[..WIDTH] == s && s[WIDTH..] == [];
    assert Readings(little, WIDTH, s[WIDTH..]) == [];
  }

  lemma {:induction false} BlocksOk(little: bool, items: seq<Item>)
    requires AllFit(items)
    ensures AllOk(BlocksOf(little, items))
    ensures items != [] ==> BlocksOf(little, items) != [] && BlocksOf(little, items)[0].n == WIDTH
  {
    hide Power, Memory;
    if items != [] {
      BlocksOk(little, items[1..]);
      match items[0]
      case Word(n) => MemoryIsOne(little, n);
      case Text(s) =>
        MemoryIsOne(little, |s|);
        WholeBytes(|s|);
    }
  }

  /** The blocks of some items are taken for these items. */
  lemma {:induction false} BlocksRead(little: bool, items: seq<Item>)
    requires AllFit(items)
    ensures AllOk(BlocksOf(little, items)) && ItemsOf(little, BlocksOf(little, items)) == items
  {
    hide Power, Memory, Readings, Bytes, Chars, Whole;
    BlocksOk(little, items);
    if items != [] {
      var rest := BlocksOf(little, items[1..]);
      BlocksOk(little, items[1..]);
      BlocksRead(little, items[1..]);
      match items[0]
      case Word(n) =>
        MemoryIsOne(little, n);
        assert BlocksOf(little, items)[1..] == rest;
      case Text(s) =>
        BytesRead(little, s);
        assert BlocksOf(little, items)[2..] == rest;
      assert items == [items[0]] + items[1..];
    }
  }

  lemma {:induction false} SameItems(writer: bool, reader: bool, saved: seq<Block>, loaded: seq<Block>)
    requires SameNumbers(writer, reader, saved, loaded)
    ensures AllOk(loaded) && ItemsOf(reader, loaded) == ItemsOf(writer, saved)
    decreases |saved|
  {
    hide Readings, Whole, Chars;
    assert forall i :: 0 <= i < |loaded| ==> saved[i].Ok() && loaded[i].Ok();
    if saved != [] {
      var k := if |saved| > 1 && saved[1].n == 1 then 2 else 1;
      assert SameNumbers(writer, reader, saved[k..], loaded[k..]);
      SameItems(writer, reader, saved[k..], loaded[k..]);
    }
  }

  /** A graph that was saved on a machine of one byte order, into a stream of another, is loaded on
      a machine of a third as an isomorphic graph. */
  lemma {:induction false} GraphIsPortable(machine: bool, out: bool, reader: bool, sch: Schema, h: Heap,
                                           table: map<nat, nat>, ds: seq<Decl>, cs: seq<Content>, depth: nat)
    requires FitsHeap(sch, h) && |h| < MSB && |sch| < MSB2 && FitsAll(sch, h, ds, cs) && Below(sch, ds, depth)
    requires AllFit(SaveContents(sch, h, NewOut(table), ds, cs).0)
    ensures var (items, w) := SaveContents(sch, h, NewOut(table), ds, cs);
      var blocks := BlocksOf(machine, items);
      && AllOk(blocks)
      && var stream := [Header(out)] + SavedAll(machine != out, blocks);
      && var bytes := LoadedAll(Header(reader) != stream[0], blocks, stream[1..]);
      && bytes.LoadedBlocks? && bytes.rest == [] && AllOk(bytes.blocks)
      && var result := LoadContents(sch, NewIn(ItemsOf(reader, bytes.blocks)), ds, depth);
      && result.Some? && result.value.1.items == []
      && KnownAll(sch, w, cs) && result.value.0 == Images(sch, w, cs) && Isomorphic(sch, h, w, result.value.1.heap)
  {
    hide SaveContents, LoadContents, FitsAll, Below, KnownAll, Images, FitsHeap, Isomorphic, BlocksOf, ItemsOf;
    hide SavedAll, LoadedAll, SameNumbers, AllFit, AllOk;
    GraphRoundTrip(sch, h, table, ds, cs, depth);
    var items := SaveContents(sch, h, NewOut(table), ds, cs).0;
    BlocksRead(machine, items);
    var blocks := BlocksOf(machine, items);
    Portable(machine, out, reader, blocks);
    var stream := [Header(out)] + SavedAll(machine != out, blocks);
    SameItems(machine, reader, blocks, LoadedAll(Header(reader) != stream[0], blocks, stream[1..]).blocks);
  }
}
