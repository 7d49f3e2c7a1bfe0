/**
  The streams that carry stored items, and the recursive procedures that write an item
  tree to one and read it back.  Each is proved against `ItemFormat`.
 */
module ItemStream {
  import opened Basics
  import opened ItemFormat

  /** A byte buffer that grows by doubling. */
  class PropWriteStream {
    var buffer: array<Byte>
    var size: nat

    ghost predicate Valid()
      reads this
    {
      0 < buffer.Length && size <= buffer.Length
    }

    ghost function Written(): seq<Byte>
      requires Valid()
      reads this, buffer
    {
      buffer[..size]
    }

    constructor ()
      ensures Valid() && fresh(buffer) && Written() == []
    {
      buffer := new Byte[32](_ => 0);
      size := 0;
    }

    /** Makes room for `length` more bytes, keeping what is written. */
    method Reserve(length: nat)
      requires Valid()
      modifies this`buffer
      ensures Valid() && (buffer == old(buffer) || fresh(buffer))
      ensures buffer.Length - size >= length && Written() == old(Written())
    {
      if buffer.Length - size >= length {
        return;
      }
      var bufferSize := buffer.Length * 2;
      while bufferSize - size < length
        invariant bufferSize >= buffer.Length
        decreases length + size - bufferSize
      {
        bufferSize := bufferSize * 2;
      }
      var newBuffer := new Byte[bufferSize](_ => 0);
      forall i | 0 <= i < size {
        newBuffer[i] := buffer[i];
      }
      buffer := newBuffer;
    }

    /** Appends the bytes of a value. */
    method Write(bytes: seq<Byte>)
      requires Valid()
      modifies this, buffer
      ensures Valid() && (buffer == old(buffer) || fresh(buffer))
      ensures Written() == old(Written()) + bytes
    {
      Reserve(|bytes|);
      forall i | 0 <= i < |bytes| {
        buffer[size + i] := bytes[i];
      }
      size := size + |bytes|;
    }

    method WriteString(s: seq<Byte>)
      requires Valid()
      modifies this, buffer
      ensures Valid() && (buffer == old(buffer) || fresh(buffer))
      ensures Written() == old(Written()) + PayloadBytes(Text_, S(s))
    {
      hide Le;
      if |s| > 65535 {
        Write(Le(0, 2));
        return;
      }
      Write(Le(|s|, 2));
      Write(s);
      assert old(Written()) + Le(|s|, 2) + s == old(Written()) + (Le(|s|, 2) + s);
    }
  }

  /** A cursor over bytes. */
  class PropStream {
    const data: seq<Byte>
    var p: nat

    ghost predicate Valid()
      reads this
    {
      p <= |data|
    }

    ghost function Rest(): seq<Byte>
      requires Valid()
      reads this
    {
      data[p..]
    }

    constructor (data: seq<Byte>)
      ensures Valid() && Rest() == data
    {
      this.data := data;
      p := 0;
    }

    /** Reads n bytes, or fails and stays where it is. */
    method Read(n: nat) returns (ok: bool, bytes: seq<Byte>)
      requires Valid()
      modifies this
      ensures Valid()
      ensures ok <==> |old(Rest())| >= n
      ensures ok ==> bytes == old(Rest())[..n] && Rest() == old(Rest())[n..]
      ensures !ok ==> Rest() == old(Rest())
    {
      bytes := [];
      if |data| - p < n {
        return false, bytes;
      }
      bytes := data[p..p + n];
      assert data[p..][..n] == data[p..p + n] && data[p..][n..] == data[p + n..];
      p := p + n;
      ok := true;
    }

    /** Reads what follows a tag. */
    method ReadPayload(kind: Kind) returns (ok: bool, value: Payload)
      requires Valid()
      modifies this
      ensures Valid()
      ensures ok <==> ItemFormat.ReadPayload(kind, old(Rest())).Some?
      ensures ok ==> ItemFormat.ReadPayload(kind, old(Rest())) == Some((value, Rest()))
    {
      value := N(0);
      var bytes;
      match kind
      case Num(w) =>
        ok, bytes := Read(w);
        if ok {
          value := N(FromLe(bytes));
        }
      case Skip(n) =>
        ok, bytes := Read(n);
      case Text_ =>
        ghost var s := Rest();
        ok, bytes := Read(2);
        if ok {
          var len := FromLe(bytes);
          hide FromLe;
          ok, bytes := Read(len);
          if ok {
            value := S(bytes);
            assert s[2..][..len] == s[2..2 + len] && s[2..][len..] == s[2 + len..];
          }
        }
    }
  }

  // ---------- saving ----------

  method SerializeAttr(stream: PropWriteStream, t: ItemType, it: Item)
    requires stream.Valid()
    modifies stream, stream.buffer
    ensures stream.Valid() && (stream.buffer == old(stream.buffer) || fresh(stream.buffer))
    ensures stream.Written() == old(stream.Written()) + AttrBytes(t, it, WRITTEN)
  {
    hide Written, KindOf, PayloadBytes, AttrBytes, Tag, OneAttr, WRITTEN;
    WrittenAreTags();
    ghost var before := stream.Written();
    assert WRITTEN[0..] == WRITTEN;
    for i := 0 to |WRITTEN|
      invariant stream.Valid() && (stream.buffer == old(stream.buffer) || fresh(stream.buffer))
      invariant before + AttrBytes(t, it, WRITTEN) == stream.Written() + AttrBytes(t, it, WRITTEN[i..])
    {
      AttrBytesUnfold(t, it, WRITTEN[i..]);
      assert WRITTEN[i..][1..] == WRITTEN[i + 1..];
      Regroup(stream.Written(), OneAttr(t, it, WRITTEN[i]), AttrBytes(t, it, WRITTEN[i + 1..]));
      WriteAttr(stream, t, it, WRITTEN[i]);
    }
    AttrBytesOfNone(t, it);
    assert WRITTEN[|WRITTEN|..] == [];
  }

  method WritePayload(stream: PropWriteStream, kind: Kind, p: Payload)
    requires stream.Valid() && Fits(kind, p)
    modifies stream, stream.buffer
    ensures stream.Valid() && (stream.buffer == old(stream.buffer) || fresh(stream.buffer))
    ensures stream.Written() == old(stream.Written()) + PayloadBytes(kind, p)
  {
    hide Le;
    if kind.Text_? {
      stream.WriteString(p.s);
    } else {
      stream.Write(Le(p.n, kind.width));
    }
  }

  lemma {:induction false} AttrBytesOfNone(t: ItemType, it: Item)
    ensures AttrBytes(t, it, []) == []
  {
  }

  /** The bytes of one attribute, if it is written. */
  function OneAttr(t: ItemType, it: Item, tag: int): seq<Byte>
    requires Tag(tag) && 0 < tag < 256
  {
    var p := Written(t, it, tag);
    if p.None? then []
    else
      WrittenFits(t, it, tag);
      [tag as Byte] + PayloadBytes(KindOf(tag).value, p.value)
  }

  method WriteAttr(stream: PropWriteStream, t: ItemType, it: Item, tag: int)
    requires stream.Valid() && Tag(tag) && 0 < tag < 256
    modifies stream, stream.buffer
    ensures stream.Valid() && (stream.buffer == old(stream.buffer) || fresh(stream.buffer))
    ensures stream.Written() == old(stream.Written()) + OneAttr(t, it, tag)
  {
    hide Written, KindOf, PayloadBytes, Tag;
    var p := ItemFormat.Written(t, it, tag);
    if p.Some? {
      WrittenFits(t, it, tag);
      stream.Write([tag as Byte]);
      WritePayload(stream, KindOf(tag).value, p.value);
    }
  }

  lemma {:induction false} AttrBytesUnfold(t: ItemType, it: Item, tags: seq<int>)
    requires tags != [] && forall i :: 0 <= i < |tags| ==> Tag(tags[i])
    ensures Tag(tags[0]) && 0 < tags[0] < 256
    ensures AttrBytes(t, it, tags) == OneAttr(t, it, tags[0]) + AttrBytes(t, it, tags[1..])
  {
    hide Written, PayloadBytes, KindOf;
    assert Tag(tags[0]);
  }

  method SaveItem(stream: PropWriteStream, types: Types, it: Item)
    requires stream.Valid()
    modifies stream, stream.buffer
    ensures stream.Valid() && (stream.buffer == old(stream.buffer) || fresh(stream.buffer))
    ensures stream.Written() == old(stream.Written()) + ItemBytes(types, it)
    decreases it, 1
  {
    hide Le, AttrBytes, AllBytes, PropWriteStream.Written;
    var t := types(it.id);
    ghost var before, a, b := stream.Written(), Le(it.id, 2), AttrBytes(t, it, WRITTEN);
    stream.Write(Le(it.id, 2));
    SerializeAttr(stream, t, it);
    if t.container {
      ghost var size, all := Le(|it.contents|, 4), AllBytes(types, it.contents);
      stream.Write([ATTR_CONTAINER_ITEMS]);
      stream.Write(Le(|it.contents|, 4));
      SaveContents(stream, types, it);
      stream.Write([0]);
      assert before + a + b + [ATTR_CONTAINER_ITEMS] + size + all + [0]
          == before + (a + b + ([ATTR_CONTAINER_ITEMS] + size + all) + [0]);
    } else {
      stream.Write([0]);
      assert before + a + b + [0] == before + (a + b + [] + [0]);
    }
  }

  /** Writes the contents of a container, from the last to the first. */
  method SaveContents(stream: PropWriteStream, types: Types, it: Item)
    requires stream.Valid()
    modifies stream, stream.buffer
    ensures stream.Valid() && (stream.buffer == old(stream.buffer) || fresh(stream.buffer))
    ensures stream.Written() == old(stream.Written()) + AllBytes(types, it.contents)
    decreases it, 0
  {
    hide ItemBytes, AllBytes;
    AllBytesOfNone(types);
    assert it.contents[|it.contents|..] == [];
    ghost var before := stream.Written();
    var k := |it.contents|;
    while k > 0
      invariant 0 <= k <= |it.contents|
      invariant stream.Valid() && (stream.buffer == old(stream.buffer) || fresh(stream.buffer))
      invariant stream.Written() == before + AllBytes(types, it.contents[k..])
    {
      k := k - 1;
      AllBytesUnfold(types, it.contents[k..]);
      assert it.contents[k..][1..] == it.contents[k + 1..];
      SaveItem(stream, types, it.contents[k]);
    }
    assert it.contents[0..] == it.contents;
  }

  lemma {:induction false} AllBytesOfNone(types: Types)
    ensures AllBytes(types, []) == []
  {
  }

  lemma {:induction false} AllBytesUnfold(types: Types, items: seq<Item>)
    requires items != []
    ensures AllBytes(types, items) == AllBytes(types, items[1..]) + ItemBytes(types, items[0])
  {
  }

  // ---------- loading ----------

  /** How reading an item's attributes ended. */
  datatype AttrEnd = Failed | Ended | AtContents(size: nat)

  method UnserializeAttr(stream: PropStream, t: ItemType, container: bool, it0: Item)
    returns (end: AttrEnd, it: Item)
    requires stream.Valid()
    modifies stream
    ensures stream.Valid()
    ensures match ReadAttrs(t, container, it0, old(stream.Rest()))
            case Error => end == Failed
            case End(i, rest) => end == Ended && it == i && stream.Rest() == rest
            case Contents(i, size, rest) => end == AtContents(size) && it == i && stream.Rest() == rest
  {
    hide Store, KindOf, ReadPayload, FromLe, ReadAttrs;
    it := it0;
    while true
      invariant stream.Valid()
      invariant ReadAttrs(t, container, it0, old(stream.Rest())) == ReadAttrs(t, container, it, stream.Rest())
      decreases |stream.Rest()|
    {
      ReadAttrsUnfold(t, container, it, stream.Rest());
      var more, tag := stream.Read(1);
      if !more || tag[0] == 0 {
        return Ended, it;
      }
      if container && tag[0] == ATTR_CONTAINER_ITEMS {
        var ok, size := stream.Read(4);
        if !ok {
          return Failed, it;
        }
        return AtContents(FromLe(size)), it;
      }
      var kind := KindOf(tag[0]);
      if kind.None? {
        return Failed, it;
      }
      var ok, p := stream.ReadPayload(kind.value);
      if !ok {
        return Failed, it;
      }
      it := Store(t, it, tag[0], p);
    }
  }

  lemma {:induction false} ReadAttrsUnfold(t: ItemType, container: bool, it: Item, s: seq<Byte>)
    ensures ReadAttrs(t, container, it, s) ==
              if s == [] then End(it, s)
              else if s[0] == 0 then End(it, s[1..])
              else if container && s[0] == ATTR_CONTAINER_ITEMS then
                if |s[1..]| < 4 then Error else Contents(it, FromLe(s[1..][..4]), s[1..][4..])
              else if KindOf(s[0]).None? then Error
              else
                var p := ReadPayload(KindOf(s[0]).value, s[1..]);
                if p.None? then Error else ReadAttrs(t, container, Store(t, it, s[0], p.value.0), p.value.1)
    ensures forall k: Kind, s': seq<Byte> ::
              ReadPayload(k, s').Some? ==> |ReadPayload(k, s').value.1| <= |s'|
  {
    hide Store, KindOf, ReadPayload, FromLe;
    if |s| >= 5 {
      assert s[1..][..4] == s[1..5] && s[1..][4..] == s[5..];
    }
  }

  method LoadItem(stream: PropStream, types: Types) returns (ok: bool, items: seq<Item>)
    requires stream.Valid()
    modifies stream
    ensures stream.Valid()
    ensures ok <==> ItemFormat.LoadItem(types, old(stream.Rest())).Some?
    ensures ok ==> ItemFormat.LoadItem(types, old(stream.Rest())) == Some((items, stream.Rest()))
    decreases |stream.Rest()|, 0
  {
    hide ReadAttrs, ItemFormat.LoadContents, FromLe, NewItem;
    items := [];
    var bytes;
    ok, bytes := stream.Read(2);
    if !ok {
      return;
    }
    var id := FromLe(bytes);
    var made := Create(types, id);
    if made.None? {
      return;
    }
    var end, it := UnserializeAttr(stream, types(made.value.id), types(id).container, made.value);
    if end.Failed? {
      return false, items;
    }
    if types(id).container {
      ok, items := LoadContainer(stream, types, it, if end.AtContents? then end.size else 0);
    } else {
      items := [it];
    }
  }

  method LoadContainer(stream: PropStream, types: Types, it0: Item, size: nat) returns (ok: bool, items: seq<Item>)
    requires stream.Valid()
    modifies stream
    ensures stream.Valid()
    ensures ok <==> LoadContents(types, it0, size, old(stream.Rest())).Some?
    ensures ok ==> LoadContents(types, it0, size, old(stream.Rest())) == Some((items, stream.Rest()))
    decreases |stream.Rest()|, 1
  {
    hide ItemFormat.LoadItem, LoadContents;
    var it, count := it0, size;
    items := [];
    while count > 0
      invariant stream.Valid() && |stream.Rest()| <= |old(stream.Rest())|
      invariant LoadContents(types, it0, size, old(stream.Rest())) == LoadContents(types, it, count, stream.Rest())
      decreases count
    {
      LoadContentsUnfold(types, it, count, stream.Rest());
      var loaded;
      ok, loaded := LoadItem(stream, types);
      if !ok {
        return;
      }
      it := it.(contents := loaded + it.contents);
      count := count - 1;
    }
    LoadContentsUnfold(types, it, count, stream.Rest());
    var endAttr;
    ok, endAttr := stream.Read(1);
    if !ok || endAttr[0] != 0 {
      return false, items;
    }
    items := [it];
  }

  lemma {:induction false} LoadContentsUnfold(types: Types, it: Item, size: nat, s: seq<Byte>)
    ensures size == 0 ==>
              LoadContents(types, it, size, s) == if s == [] || s[0] != 0 then None else Some(([it], s[1..]))
    ensures size > 0 ==>
              var first := ItemFormat.LoadItem(types, s);
              && (first.Some? ==> |first.value.1| < |s|)
              && LoadContents(types, it, size, s) ==
                   if first.None? then None
                   else LoadContents(types, it.(contents := first.value.0 + it.contents), size - 1, first.value.1)
  {
    hide ItemFormat.LoadItem;
  }

  /** Writing a tree to one stream and reading it from another gives it back: the same
      tree with decay states pending, if and only if each of its items survives. */
  method SaveThenLoad(types: Types, it: Item) returns (ok: bool, items: seq<Item>)
    requires Known(types, it) && TypedTree(it)
    ensures ok && (items == [Pending(it)] <==> SurvivesTree(types, it))
  {
    hide ItemFormat.LoadItem, ItemBytes, Known, TypedTree, Pending, SurvivesTree, Back;
    var out := new PropWriteStream();
    SaveItem(out, types, it);
    var bytes := out.buffer[..out.size];
    var in_ := new PropStream(bytes);
    assert bytes == ItemBytes(types, it) + [];
    ItemRoundTrip(types, it, []);
    LoadAfterSave(types, it, []);
    ok, items := LoadItem(in_, types);
  }
}
