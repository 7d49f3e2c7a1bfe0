/**
  The byte format in which house items are stored: an item is its id, a list of tagged
  attributes and, for a container, its contents.  Values only; the streams that carry the
  bytes are in `ItemStream`.
 */
module ItemFormat {

  import opened Basics

  type Byte = b: int | 0 <= b < 256
  type Word = w: int | 0 <= w < 0x1_0000

  // ---------- numbers ----------

  function Pow256(k: nat): (r: nat)
    ensures r > 0
  {
    if k == 0 then 1 else 256 * Pow256(k - 1)
  }

  /** The low k bytes of n, least significant first. */
  function Le(n: nat, k: nat): (s: seq<Byte>)
    ensures |s| == k
  {
    if k == 0 then [] else [n % 256] + Le(n / 256, k - 1)
  }

  function FromLe(s: seq<Byte>): (n: nat) {
    if s == [] then 0 else s[0] + 256 * FromLe(s[1..])
  }

  lemma {:induction false} LeRoundTrip(n: nat, k: nat)
    requires n < Pow256(k)
    ensures FromLe(Le(n, k)) == n
    decreases k
  {
    if k > 0 {
      LeRoundTrip(n / 256, k - 1);
      assert Le(n, k)[1..] == Le(n / 256, k - 1);
    }
  }

  const U8 := 0x100
  const U16 := 0x1_0000
  const U32 := 0x1_0000_0000

  lemma {:induction false} Widths()
    ensures Pow256(1) == U8 && Pow256(2) == U16 && Pow256(4) == U32
  {
    assert Pow256(2) == 256 * Pow256(1);
    assert Pow256(3) == 256 * Pow256(2);
  }

  predicate IsInt32(v: int) { -0x8000_0000 <= v < 0x8000_0000 }

  /** The unsigned number with the same bits. */
  function Unsigned(v: int, width: nat): (n: nat)
    requires width > 0
    ensures n < width
  {
    v % width
  }

  /** The signed number with the same bits. */
  function Signed(n: nat, width: nat): int {
    if n >= width / 2 then n - width else n
  }

  // ---------- items ----------

  datatype Key =
    | ActionId | UniqueId | Description | Text | Date | Writer | Name | Article | PluralName
    | Weight | Attack | Defense | ExtraDefense | Armor | HitChance | ShootRange | Owner
    | Duration | DecayState | CorpseOwner | Charges | FluidType

  datatype Value = Int(n: int) | Str(s: seq<Byte>)

  /** `known` is false for ids that no item can be made of. */
  datatype ItemType = ItemType(
    known: bool, container: bool, stackable: bool, fluid: bool, charges: Word,
    moveable: bool, decayTime: nat)

  datatype Item = Item(id: nat, count: Byte, attrs: map<Key, Value>, contents: seq<Item>)

  type Types = nat -> ItemType

  const DECAYING_PENDING := 2

  function GetInt(it: Item, k: Key): int {
    if k in it.attrs && it.attrs[k].Int? then it.attrs[k].n else 0
  }

  function GetStr(it: Item, k: Key): seq<Byte> {
    if k in it.attrs && it.attrs[k].Str? then it.attrs[k].s else []
  }

  function SetInt(it: Item, k: Key, n: int): Item {
    it.(attrs := it.attrs[k := Int(n)])
  }

  /** Setting an empty string does nothing. */
  function SetStr(it: Item, k: Key, s: seq<Byte>): Item {
    if s == [] then it else it.(attrs := it.attrs[k := Str(s)])
  }

  function GetSubType(t: ItemType, it: Item): nat {
    if t.fluid then Unsigned(GetInt(it, FluidType), U16)
    else if t.stackable then it.count
    else if t.charges != 0 then Unsigned(GetInt(it, Charges), U16)
    else it.count
  }

  function SetSubType(t: ItemType, it: Item, n: nat): Item {
    if t.fluid then SetInt(it, FluidType, n)
    else if t.stackable then it.(count := n % U8)
    else if t.charges != 0 then SetInt(it, Charges, n)
    else it.(count := n % U8)
  }

  /** The id that an item made from this type gets: some are replaced by another. */
  function CreatedId(t: ItemType, id: nat): nat {
    if t.container then id
    else if 2210 <= id <= 2212 then id - 3
    else if id == 2215 || id == 2216 then id - 2
    else if 2202 <= id <= 2206 then id - 37
    else id
  }

  /** A new item of this type. */
  function Create(types: Types, id: nat): Option<Item> {
    var t := types(id);
    if !t.known then None
    else
      var made := CreatedId(t, id);
      Some(NewItem(types(made), made, if t.stackable && !t.container then 1 else 0))
  }

  function NewItem(t: ItemType, id: nat, count: nat): Item {
    var it := Item(id, 1, map[], []);
    var it :=
      if t.fluid then SetInt(it, FluidType, count)
      else if !t.stackable && t.charges != 0 then SetInt(it, Charges, t.charges)
      else it;
    if t.decayTime != 0 then SetInt(it, Duration, Signed(Unsigned(t.decayTime * 1000, U32), U32)) else it
  }

  // ---------- attributes on the wire ----------

  /** How a tagged attribute is laid out: a number of some width, a string, or bytes that
      are skipped. */
  datatype Kind = Num(width: nat) | Text_ | Skip(n: nat)

  datatype Payload = N(n: nat) | S(s: seq<Byte>)

  const ATTR_ACTION_ID := 4
  const ATTR_UNIQUE_ID := 5
  const ATTR_TEXT := 6
  const ATTR_DESC := 7
  const ATTR_TELE_DEST := 8
  const ATTR_DEPOT_ID := 10
  const ATTR_RUNE_CHARGES := 12
  const ATTR_HOUSEDOORID := 14
  const ATTR_COUNT := 15
  const ATTR_DURATION := 16
  const ATTR_DECAYING_STATE := 17
  const ATTR_WRITTENDATE := 18
  const ATTR_WRITTENBY := 19
  const ATTR_SLEEPERGUID := 20
  const ATTR_SLEEPSTART := 21
  const ATTR_CHARGES := 22
  const ATTR_CONTAINER_ITEMS := 23
  const ATTR_NAME := 24
  const ATTR_ARTICLE := 25
  const ATTR_PLURALNAME := 26
  const ATTR_WEIGHT := 27
  const ATTR_ATTACK := 28
  const ATTR_DEFENSE := 29
  const ATTR_EXTRADEFENSE := 30
  const ATTR_ARMOR := 31
  const ATTR_HITCHANCE := 32
  const ATTR_SHOOTRANGE := 33

  /** What follows each tag; None for a tag that is an error. */
  function KindOf(tag: int): Option<Kind> {
    if tag in {ATTR_COUNT, ATTR_RUNE_CHARGES, ATTR_DECAYING_STATE, ATTR_HITCHANCE, ATTR_SHOOTRANGE} then Some(Num(1))
    else if tag in {ATTR_ACTION_ID, ATTR_UNIQUE_ID, ATTR_CHARGES} then Some(Num(2))
    else if tag in {ATTR_WRITTENDATE, ATTR_DURATION, ATTR_WEIGHT, ATTR_ATTACK, ATTR_DEFENSE,
                    ATTR_EXTRADEFENSE, ATTR_ARMOR} then Some(Num(4))
    else if tag in {ATTR_TEXT, ATTR_WRITTENBY, ATTR_DESC, ATTR_NAME, ATTR_ARTICLE, ATTR_PLURALNAME} then Some(Text_)
    else if tag == ATTR_DEPOT_ID then Some(Skip(2))
    else if tag == ATTR_HOUSEDOORID then Some(Skip(1))
    else if tag in {ATTR_SLEEPERGUID, ATTR_SLEEPSTART} then Some(Skip(4))
    else if tag == ATTR_TELE_DEST then Some(Skip(5))
    else None
  }

  /** A string longer than 65535 bytes is written as an empty one. */
  function PayloadBytes(kind: Kind, p: Payload): seq<Byte> {
    match (kind, p)
    case (Num(w), N(n)) => Le(n, w)
    case (Text_, S(s)) => if |s| < U16 then Le(|s|, 2) + s else Le(0, 2)
    case (Skip(n), _) => seq(n, _ => 0)
    case (_, _) => []
  }

  /** Reads what follows a tag. */
  function ReadPayload(kind: Kind, s: seq<Byte>): (r: Option<(Payload, seq<Byte>)>)
    ensures r.Some? ==> |r.value.1| <= |s|
  {
    match kind
    case Num(w) => if |s| < w then None else Some((N(FromLe(s[..w])), s[w..]))
    case Skip(n) => if |s| < n then None else Some((N(0), s[n..]))
    case Text_ =>
      if |s| < 2 then None
      else
        var len := FromLe(s[..2]);
        if |s| - 2 < len then None else Some((S(s[2..2 + len]), s[2 + len..]))
  }

  /** What a string is once it has been written and read. */
  function Carried(p: Payload): Payload {
    if p.S? && |p.s| >= U16 then S([]) else p
  }

  predicate Fits(kind: Kind, p: Payload) {
    match kind
    case Num(w) => p.N? && p.n < Pow256(w)
    case Text_ => p.S?
    case Skip(_) => false
  }

  lemma {:induction false} PayloadRoundTrip(kind: Kind, p: Payload, rest: seq<Byte>)
    requires Fits(kind, p)
    ensures ReadPayload(kind, PayloadBytes(kind, p) + rest) == Some((Carried(p), rest))
  {
    var b := PayloadBytes(kind, p);
    var s := b + rest;
    if kind.Num? {
      assert s[..kind.width] == b && s[kind.width..] == rest;
      LeRoundTrip(p.n, kind.width);
    } else {
      Widths();
      var str := Carried(p).s;
      LeRoundTrip(|str|, 2);
      assert b == Le(|str|, 2) + str;
      assert s[..2] == Le(|str|, 2);
      assert s[2..2 + |str|] == str && s[2 + |str|..] == rest;
    }
  }

  /** The attribute that a tag of its own carries. */
  function KeyOf(tag: int): Key {
    if tag == ATTR_ACTION_ID then ActionId
    else if tag == ATTR_UNIQUE_ID then UniqueId
    else if tag == ATTR_TEXT then Text
    else if tag == ATTR_WRITTENBY then Writer
    else if tag == ATTR_DESC then Description
    else if tag == ATTR_NAME then Name
    else if tag == ATTR_ARTICLE then Article
    else if tag == ATTR_PLURALNAME then PluralName
    else if tag == ATTR_WRITTENDATE then Date
    else if tag == ATTR_DURATION then Duration
    else if tag == ATTR_DECAYING_STATE then DecayState
    else if tag == ATTR_WEIGHT then Weight
    else if tag == ATTR_ATTACK then Attack
    else if tag == ATTR_DEFENSE then Defense
    else if tag == ATTR_EXTRADEFENSE then ExtraDefense
    else if tag == ATTR_ARMOR then Armor
    else if tag == ATTR_HITCHANCE then HitChance
    else if tag == ATTR_SHOOTRANGE then ShootRange
    else Charges
  }

  predicate IsSubTypeTag(tag: int) { tag == ATTR_COUNT || tag == ATTR_RUNE_CHARGES || tag == ATTR_CHARGES }

  predicate IsString(k: Key) { k in {Text, Writer, Description, Name, Article, PluralName} }

  predicate IsInt32Key(k: Key) { k in {Date, Weight, Attack, Defense, ExtraDefense, Armor} }

  /** The effect of one attribute on the item being read. */
  function Store(t: ItemType, it: Item, tag: int, p: Payload): Item {
    var n := if p.N? then p.n else 0;
    var s := if p.S? then p.s else [];
    var k := KeyOf(tag);
    if IsSubTypeTag(tag) then SetSubType(t, it, n)
    else if KindOf(tag).None? || KindOf(tag).value.Skip? then it
    else if IsString(k) then SetStr(it, k, s)
    else if IsInt32Key(k) then SetInt(it, k, Signed(n, U32))
    else if k == ActionId then SetInt(it, k, AtLeast(n, 100))
    else if k == UniqueId then (if k in it.attrs then it else SetInt(it, k, n))
    else if k == Duration then SetInt(it, k, AtLeast(Signed(n, U32), 0))
    else if k == DecayState then (if n != 0 then SetInt(it, k, DECAYING_PENDING) else it)
    else if k == HitChance then SetInt(it, k, Signed(n, U8))
    else SetInt(it, k, n)
  }

  function AtLeast(a: int, b: int): int { if a < b then b else a }

  // ---------- writing an item ----------

  /** The attributes an item may be written with, in the order they are written. */
  const WRITTEN: seq<int> := [
    ATTR_COUNT, ATTR_CHARGES, ATTR_ACTION_ID, ATTR_TEXT, ATTR_WRITTENDATE, ATTR_WRITTENBY, ATTR_DESC,
    ATTR_DURATION, ATTR_DECAYING_STATE, ATTR_NAME, ATTR_ARTICLE, ATTR_PLURALNAME, ATTR_WEIGHT,
    ATTR_ATTACK, ATTR_DEFENSE, ATTR_EXTRADEFENSE, ATTR_ARMOR, ATTR_HITCHANCE, ATTR_SHOOTRANGE]

  function When(b: bool, p: Payload): Option<Payload> { if b then Some(p) else None }

  /** Whether the attribute is written, and with what. */
  function Written(t: ItemType, it: Item, tag: int): Option<Payload> {
    var k := KeyOf(tag);
    var v := GetInt(it, k);
    if tag == ATTR_COUNT then When(t.stackable || t.fluid, N(GetSubType(t, it) % U8))
    else if tag == ATTR_CHARGES then When(ChargesOf(it) != 0, N(ChargesOf(it)))
    else if !Tag(tag) then None
    else if IsString(k) then
      When(if k in {Text, Writer, Description} then GetStr(it, k) != [] else k in it.attrs, S(GetStr(it, k)))
    else if k == ActionId then When(t.moveable && Unsigned(v, U16) != 0, N(Unsigned(v, U16)))
    else if k == Date then When(v != 0, N(Unsigned(v, U32)))
    else if k == DecayState then When(Unsigned(v, U8) == 1 || Unsigned(v, U8) == 2, N(Unsigned(v, U8)))
    else if k == HitChance || k == ShootRange then When(k in it.attrs, N(Unsigned(v, U8)))
    else When(k in it.attrs, N(Unsigned(v, U32)))
  }

  /** The charges that are written, as a 16-bit number. */
  function ChargesOf(it: Item): nat { Unsigned(GetInt(it, Charges), U16) }

  predicate Tag(tag: int) { tag in WRITTEN }

  /** The attributes in this order, as bytes. */
  function AttrBytes(t: ItemType, it: Item, tags: seq<int>): seq<Byte>
    requires forall i :: 0 <= i < |tags| ==> Tag(tags[i])
  {
    if tags == [] then []
    else
      var p := Written(t, it, tags[0]);
      (if p.None? then [] else [tags[0] as Byte] + PayloadBytes(KindOf(tags[0]).value, p.value))
      + AttrBytes(t, it, tags[1..])
  }

  /** Children are written from the last to the first, since reading puts each in front. */
  function ItemBytes(types: Types, it: Item): seq<Byte>
    decreases it, 1
  {
    var t := types(it.id);
    Le(it.id, 2) + AttrBytes(t, it, WRITTEN)
    + (if t.container then [ATTR_CONTAINER_ITEMS] + Le(|it.contents|, 4) + AllBytes(types, it.contents) else [])
    + [0]
  }

  function AllBytes(types: Types, items: seq<Item>): seq<Byte>
    decreases items, 0
  {
    if items == [] then []
    else AllBytes(types, items[1..]) + ItemBytes(types, items[0])
  }

  // ---------- reading an item ----------

  /** How reading attributes ends: with an error, with the end of the item, or in front of
      a container's contents. */
  datatype Read = Error | End(item: Item, rest: seq<Byte>) | Contents(item: Item, size: nat, rest: seq<Byte>)

  function ReadAttrs(t: ItemType, container: bool, it: Item, s: seq<Byte>): (r: Read)
    ensures r.End? ==> |r.rest| <= |s|
    ensures r.Contents? ==> container && |r.rest| < |s|
    decreases |s|
  {
    if s == [] then End(it, s)
    else if s[0] == 0 then End(it, s[1..])
    else if container && s[0] == ATTR_CONTAINER_ITEMS then
      if |s| < 5 then Error else Contents(it, FromLe(s[1..5]), s[5..])
    else if KindOf(s[0]).None? then Error
    else
      var p := ReadPayload(KindOf(s[0]).value, s[1..]);
      if p.None? then Error else ReadAttrs(t, container, Store(t, it, s[0], p.value.0), p.value.1)
  }

  /** Reads one item; an id without a type is dropped and nothing else consumed. */
  function LoadItem(types: Types, s: seq<Byte>): (r: Option<(seq<Item>, seq<Byte>)>)
    ensures r.Some? ==> |r.value.1| < |s|
    decreases |s|, 0
  {
    if |s| < 2 then None
    else
      var id := FromLe(s[..2]);
      var made := Create(types, id);
      if made.None? then Some(([], s[2..]))
      else
        match ReadAttrs(types(made.value.id), types(id).container, made.value, s[2..])
        case Error => None
        case End(it, rest) => if types(id).container then LoadContents(types, it, 0, rest) else Some(([it], rest))
        case Contents(it, size, rest) => LoadContents(types, it, size, rest)
  }

  /** Reads `size` items into the front of the container, then its end mark. */
  function LoadContents(types: Types, it: Item, size: nat, s: seq<Byte>): (r: Option<(seq<Item>, seq<Byte>)>)
    ensures r.Some? ==> |r.value.1| < |s|
    decreases |s|, size
  {
    if size == 0 then
      if s == [] || s[0] != 0 then None else Some(([it], s[1..]))
    else
      var first := LoadItem(types, s);
      if first.None? then None
      else LoadContents(types, it.(contents := first.value.0 + it.contents), size - 1, first.value.1)
  }

  // ---------- the round trip ----------

  /** What writing and reading one attribute does to the item being read. */
  function Step(t: ItemType, acc: Item, it: Item, tag: int): Item {
    var p := Written(t, it, tag);
    if p.None? then acc else Store(t, acc, tag, Carried(p.value))
  }

  /** What reading the written attributes back does to a fresh item. */
  function StoreAll(t: ItemType, acc: Item, it: Item, tags: seq<int>): Item
    requires forall i :: 0 <= i < |tags| ==> Tag(tags[i])
    decreases |tags|
  {
    if tags == [] then acc
    else
      StoreAll(t, Step(t, acc, it, tags[0]), it, tags[1..])
  }

  lemma {:induction false} WrittenFits(t: ItemType, it: Item, tag: int)
    requires Tag(tag) && Written(t, it, tag).Some?
    ensures 0 < tag < 256
    ensures KindOf(tag).Some? && Fits(KindOf(tag).value, Written(t, it, tag).value)
  {
    TagKinds(tag);
    Widths();
    hide Tag, KindOf, KeyOf;
    WrittenWidth(t, it, tag);
  }

  /** Which kind of value follows the tag of which attribute. */
  lemma {:induction false} TagKinds(tag: int)
    requires Tag(tag)
    ensures 0 < tag < 256 && KindOf(tag) == Some(WrittenKind(tag))
  {
  }

  /** The kind of a value, from the attribute it belongs to. */
  function WrittenKind(tag: int): Kind {
    if tag == ATTR_COUNT then Num(1)
    else if tag == ATTR_CHARGES then Num(2)
    else if IsString(KeyOf(tag)) then Text_
    else if KeyOf(tag) == ActionId then Num(2)
    else if KeyOf(tag) in {DecayState, HitChance, ShootRange} then Num(1)
    else Num(4)
  }

  lemma {:induction false} WrittenWidth(t: ItemType, it: Item, tag: int)
    requires Tag(tag) && Written(t, it, tag).Some?
    ensures match WrittenKind(tag)
            case Num(w) => Written(t, it, tag).value.N? && Written(t, it, tag).value.n < (if w == 1 then U8 else if w == 2 then U16 else U32)
            case _ => Written(t, it, tag).value.S?
  {
    hide Tag, KeyOf;
  }

  lemma {:induction false} AttrsRoundTrip(t: ItemType, container: bool, acc: Item, it: Item, tags: seq<int>, tail: seq<Byte>)
    requires forall i :: 0 <= i < |tags| ==> Tag(tags[i])
    ensures ReadAttrs(t, container, acc, AttrBytes(t, it, tags) + tail)
         == ReadAttrs(t, container, StoreAll(t, acc, it, tags), tail)
    decreases |tags|
  {
    hide Written, Store, KindOf, ReadAttrs, PayloadBytes, Carried, Tag, Fits;
    if tags == [] {
      assert AttrBytes(t, it, tags) + tail == tail;
    } else {
      var p, more := Written(t, it, tags[0]), AttrBytes(t, it, tags[1..]);
      if p.None? {
        assert AttrBytes(t, it, tags) == more;
        AttrsRoundTrip(t, container, acc, it, tags[1..], tail);
      } else {
        WrittenFits(t, it, tags[0]);
        ReadOne(t, container, acc, tags[0], p.value, more + tail);
        var b := PayloadBytes(KindOf(tags[0]).value, p.value);
        assert AttrBytes(t, it, tags) + tail == [tags[0] as Byte] + b + (more + tail);
        AttrsRoundTrip(t, container, Store(t, acc, tags[0], Carried(p.value)), it, tags[1..], tail);
      }
    }
  }

  lemma {:induction false} ReadOne(t: ItemType, container: bool, acc: Item, tag: int, p: Payload, tail: seq<Byte>)
    requires Tag(tag) && KindOf(tag).Some? && Fits(KindOf(tag).value, p)
    ensures ReadAttrs(t, container, acc, [tag as Byte] + PayloadBytes(KindOf(tag).value, p) + tail)
         == ReadAttrs(t, container, Store(t, acc, tag, Carried(p)), tail)
  {
    var b := PayloadBytes(KindOf(tag).value, p);
    var s := [tag as Byte] + b + tail;
    assert s[1..] == b + tail;
    PayloadRoundTrip(KindOf(tag).value, p, tail);
    assert tag != 0 && tag != ATTR_CONTAINER_ITEMS;
    hide Store;
    assert s[0] == tag;
  }

  /** The tree's types exist, keep their ids, and only containers hold items. */
  predicate Known(types: Types, it: Item)
    decreases it, 1
  {
    && it.id < U16 && types(it.id).known && CreatedId(types(it.id), it.id) == it.id
    && |it.contents| < U32
    && (it.contents != [] ==> types(it.id).container)
    && AllKnown(types, it.contents)
  }

  predicate AllKnown(types: Types, items: seq<Item>)
    decreases items, 0
  {
    items == [] || (Known(types, items[0]) && AllKnown(types, items[1..]))
  }

  /** What one item, its contents left aside, is after it has been written and read. */
  function Flat(t: ItemType, it: Item): Item {
    StoreAll(t, Fresh(t, it), it, WRITTEN)
  }

  function Fresh(t: ItemType, it: Item): Item {
    NewItem(t, it.id, if t.stackable && !t.container then 1 else 0)
  }

  /** What a tree is after it has been written and read. */
  function Back(types: Types, it: Item): Item
    decreases it, 1
  {
    Flat(types(it.id), it).(contents := Backs(types, it.contents))
  }

  function Backs(types: Types, items: seq<Item>): seq<Item>
    decreases items, 0
  {
    if items == [] then [] else [Back(types, items[0])] + Backs(types, items[1..])
  }

  lemma {:induction false} StoreKeepsContents(t: ItemType, acc: Item, it: Item, tags: seq<int>)
    requires forall i :: 0 <= i < |tags| ==> Tag(tags[i])
    ensures StoreAll(t, acc, it, tags).contents == acc.contents
    ensures StoreAll(t, acc, it, tags).id == acc.id
    decreases |tags|
  {
    hide Written, Carried, KindOf;
    if tags != [] {
      StoreKeepsContents(t, Step(t, acc, it, tags[0]), it, tags[1..]);
    }
  }

  /** Reading what was written, with anything behind it, consumes exactly that and gives
      the whole tree back, as `Back` describes it. */
  lemma {:induction false} ItemRoundTrip(types: Types, it: Item, rest: seq<Byte>)
    requires Known(types, it)
    ensures LoadItem(types, ItemBytes(types, it) + rest) == Some(([Back(types, it)], rest))
    decreases it, 1
  {
    hide StoreAll, NewItem, AttrBytes, ReadAttrs, LoadContents, AllBytes, Le, FromLe, Backs;
    var t, all := types(it.id), AllBytes(types, it.contents);
    var new_ := NewItem(t, it.id, if t.stackable && !t.container then 1 else 0);
    var flat := Flat(t, it);
    FlatIsEmpty(t, it);
    assert new_.id == it.id by { NewItemId(t, it.id, if t.stackable && !t.container then 1 else 0); }
    assert Create(types, it.id) == Some(new_);
    var body := AttrBytes(t, it, WRITTEN);
    var tail := (if t.container then [ATTR_CONTAINER_ITEMS] + Le(|it.contents|, 4) + all else []) + [0] + rest;
    var s := ItemBytes(types, it) + rest;
    assert s == Le(it.id, 2) + (body + tail);
    assert s[..2] == Le(it.id, 2) && s[2..] == body + tail;
    NumberRoundTrip(it.id, 2);
    AttrsRoundTrip(t, t.container, new_, it, WRITTEN, tail);
    if t.container {
      assert tail == [ATTR_CONTAINER_ITEMS] + Le(|it.contents|, 4) + (all + ([0] + rest));
      ReadsContents(t, flat, |it.contents|, all + ([0] + rest));
      ContentsRoundTrip(types, it.contents, flat, 0, [0] + rest);
      EndOfContents(types, flat.(contents := Backs(types, it.contents) + []), rest);
      assert Backs(types, it.contents) + [] == Backs(types, it.contents);
    } else {
      assert tail == [0] + rest;
      ReadsEnd(t, flat, rest);
      BacksOfNone(types);
      assert it.contents == [];
      assert Back(types, it) == flat;
    }
  }

  lemma {:induction false} NewItemId(t: ItemType, id: nat, count: nat)
    ensures NewItem(t, id, count).id == id
  {
  }

  lemma {:induction false} BacksOfNone(types: Types)
    ensures Backs(types, []) == []
  {
  }

  lemma {:induction false} FlatIsEmpty(t: ItemType, it: Item)
    ensures Flat(t, it).contents == [] && Flat(t, it).id == it.id
  {
    hide Written, Store, Carried;
    StoreKeepsContents(t, NewItem(t, it.id, if t.stackable && !t.container then 1 else 0), it, WRITTEN);
  }

  lemma {:induction false} NumberRoundTrip(n: nat, k: nat)
    requires (k == 2 && n < U16) || (k == 4 && n < U32)
    ensures FromLe(Le(n, k)) == n
  {
    Widths();
    LeRoundTrip(n, k);
  }

  lemma {:induction false} ReadsEnd(t: ItemType, it: Item, rest: seq<Byte>)
    ensures ReadAttrs(t, false, it, [0] + rest) == End(it, rest)
  {
  }

  lemma {:induction false} ReadsContents(t: ItemType, it: Item, size: nat, rest: seq<Byte>)
    requires size < U32
    ensures ReadAttrs(t, true, it, [ATTR_CONTAINER_ITEMS] + Le(size, 4) + rest) == Contents(it, size, rest)
  {
    var s := [ATTR_CONTAINER_ITEMS] + Le(size, 4) + rest;
    assert s[1..5] == Le(size, 4) && s[5..] == rest;
    NumberRoundTrip(size, 4);
  }

  lemma {:induction false} EndOfContents(types: Types, it: Item, rest: seq<Byte>)
    ensures LoadContents(types, it, 0, [0] + rest) == Some(([it], rest))
  {
  }

  lemma {:induction false} OneMore(types: Types, it: Item, size: nat, item: Item, s: seq<Byte>, rest: seq<Byte>)
    requires size > 0 && LoadItem(types, s) == Some(([item], rest))
    ensures LoadContents(types, it, size, s) == LoadContents(types, it.(contents := [item] + it.contents), size - 1, rest)
  {
    hide LoadItem;
  }

  /** Items written last to first and each put in front come out in their old order. */
  lemma {:induction false} ContentsRoundTrip(types: Types, items: seq<Item>, acc: Item, more: nat, tail: seq<Byte>)
    requires AllKnown(types, items)
    ensures LoadContents(types, acc, |items| + more, AllBytes(types, items) + tail)
         == LoadContents(types, acc.(contents := Backs(types, items) + acc.contents), more, tail)
    decreases items, 0
  {
    hide LoadItem, LoadContents, ItemBytes, Back, Known;
    if items == [] {
      assert AllBytes(types, items) + tail == tail && [] + acc.contents == acc.contents;
    } else {
      var first := ItemBytes(types, items[0]);
      assert AllBytes(types, items) + tail == AllBytes(types, items[1..]) + (first + tail);
      ContentsRoundTrip(types, items[1..], acc, 1 + more, first + tail);
      ItemRoundTrip(types, items[0], tail);
      var acc' := acc.(contents := Backs(types, items[1..]) + acc.contents);
      OneMore(types, acc', 1 + more, Back(types, items[0]), first + tail, tail);
      assert [Back(types, items[0])] + acc'.contents == Backs(types, items) + acc.contents;
    }
  }

  // ---------- what the round trip means for one item ----------

  function Lookup(it: Item, k: Key): Option<Value> {
    if k in it.attrs then Some(it.attrs[k]) else None
  }

  /** Attributes that travel under a tag of their own. */
  predicate HasTag(k: Key) {
    k !in {UniqueId, Owner, CorpseOwner, Charges, FluidType}
  }

  /** What such an attribute carries over, if it is written. */
  function Carries(t: ItemType, it: Item, k: Key): Option<Value> {
    var v := GetInt(it, k);
    if IsString(k) then
      if 0 < |GetStr(it, k)| < U16 then Some(Str(GetStr(it, k))) else None
    else if k == ActionId then
      if t.moveable && Unsigned(v, U16) != 0 then Some(Int(AtLeast(Unsigned(v, U16), 100))) else None
    else if k == DecayState then
      if Unsigned(v, U8) == 1 || Unsigned(v, U8) == 2 then Some(Int(DECAYING_PENDING)) else None
    else if k == Date then
      if v != 0 then Some(Int(Signed(Unsigned(v, U32), U32))) else None
    else if k !in it.attrs then None
    else if k == Duration then Some(Int(AtLeast(Signed(Unsigned(v, U32), U32), 0)))
    else if k == HitChance then Some(Int(Signed(Unsigned(v, U8), U8)))
    else if k == ShootRange then Some(Int(Unsigned(v, U8)))
    else Some(Int(Signed(Unsigned(v, U32), U32)))
  }

  predicate OwnTag(tag: int) { Tag(tag) && tag != ATTR_COUNT && tag != ATTR_CHARGES }

  lemma {:induction false} OwnTagFacts(tag: int)
    requires OwnTag(tag)
    ensures !IsSubTypeTag(tag) && KindOf(tag).Some? && !KindOf(tag).value.Skip? && HasTag(KeyOf(tag))
  {
    OwnKind(tag);
    OwnKey(tag);
    hide KindOf, KeyOf, Tag, HasTag;
  }

  lemma {:induction false} OwnKind(tag: int)
    requires OwnTag(tag)
    ensures !IsSubTypeTag(tag) && KindOf(tag).Some? && !KindOf(tag).value.Skip?
  {
  }

  lemma {:induction false} OwnKey(tag: int)
    requires OwnTag(tag)
    ensures HasTag(KeyOf(tag))
  {
  }

  lemma {:induction false} StepSets(t: ItemType, acc: Item, it: Item, tag: int)
    requires OwnTag(tag)
    ensures var k := KeyOf(tag);
            Step(t, acc, it, tag) ==
              if Carries(t, it, k).None? then acc else acc.(attrs := acc.attrs[k := Carries(t, it, k).value])
  {
    OwnTagFacts(tag);
    hide KindOf, KeyOf, Signed, Unsigned, Tag, HasTag;
    var k := KeyOf(tag);
    if IsString(k) {
    } else if IsInt32Key(k) {
    } else {
    }
  }

  lemma {:induction false} StepOne(t: ItemType, acc: Item, it: Item, tag: int, k: Key)
    requires OwnTag(tag)
    ensures var r := Step(t, acc, it, tag);
            && r.count == acc.count
            && Lookup(r, k) == if KeyOf(tag) == k && Carries(t, it, k).Some? then Carries(t, it, k)
                               else Lookup(acc, k)
  {
    StepSets(t, acc, it, tag);
    hide Step, Carries, KeyOf;
  }

  lemma {:induction false} StoreRest(t: ItemType, acc: Item, it: Item, tags: seq<int>, k: Key)
    requires forall i :: 0 <= i < |tags| ==> OwnTag(tags[i])
    ensures forall i :: 0 <= i < |tags| ==> Tag(tags[i])
    ensures var r := StoreAll(t, acc, it, tags);
            && r.count == acc.count
            && Lookup(r, k) ==
                 if (exists i :: 0 <= i < |tags| && KeyOf(tags[i]) == k) && Carries(t, it, k).Some?
                 then Carries(t, it, k) else Lookup(acc, k)
    decreases |tags|
  {
    hide Step, Carries, Lookup, Tag, KeyOf;
    if tags != [] {
      StepOne(t, acc, it, tags[0], k);
      StoreRest(t, Step(t, acc, it, tags[0]), it, tags[1..], k);
      assert tags == [tags[0]] + tags[1..];
    }
  }

  /** The value of an attribute after writing and reading. */
  function Kept(t: ItemType, it: Item, k: Key): Option<Value> {
    match k
    case Charges =>
      if t.fluid || t.stackable || t.charges == 0 then None
      else Some(Int(if ChargesOf(it) != 0 then ChargesOf(it) else t.charges))
    case FluidType =>
      if !t.fluid then None
      else Some(Int(if ChargesOf(it) != 0 then ChargesOf(it) else Unsigned(GetInt(it, FluidType), U16) % U8))
    case Duration =>
      if Duration in it.attrs then Carries(t, it, k)
      else if t.decayTime != 0 then Some(Int(Signed(Unsigned(t.decayTime * 1000, U32), U32)))
      else None
    case _ => if HasTag(k) then Carries(t, it, k) else None
  }

  /** The count after writing and reading. */
  function KeptCount(t: ItemType, it: Item): Byte {
    if t.fluid then 1
    else if t.stackable then (if ChargesOf(it) != 0 then ChargesOf(it) % U8 else it.count)
    else if t.charges != 0 || ChargesOf(it) == 0 then 1
    else ChargesOf(it) % U8
  }

  /** After the count and the charges. */
  function Begun(t: ItemType, it: Item): Item {
    Step(t, Step(t, Fresh(t, it), it, ATTR_COUNT), it, ATTR_CHARGES)
  }

  lemma {:induction false} BegunCount(t: ItemType, it: Item)
    ensures Begun(t, it).count == KeptCount(t, it)
  {
    hide KindOf, Signed, Unsigned, Carries, Tag, KeyOf;
    CountStep(t, Fresh(t, it), it);
    ChargesStep(t, Step(t, Fresh(t, it), it, ATTR_COUNT), it);
    hide Step;
  }

  lemma {:induction false} BegunOwn(t: ItemType, it: Item, k: Key)
    requires HasTag(k)
    ensures Lookup(Begun(t, it), k) == if k == Duration && Duration !in it.attrs then Kept(t, it, k)
                                       else if k == Duration && t.decayTime != 0 then Lookup(Fresh(t, it), k)
                                       else None
  {
    hide KindOf, Signed, Unsigned, Carries, Tag, KeyOf;
    CountStep(t, Fresh(t, it), it);
    ChargesStep(t, Step(t, Fresh(t, it), it, ATTR_COUNT), it);
    hide Step;
  }

  lemma {:induction false} BegunSubType(t: ItemType, it: Item, k: Key)
    requires !HasTag(k)
    ensures Lookup(Begun(t, it), k) == Kept(t, it, k)
  {
    hide KindOf, Signed, Unsigned, Carries, Tag, KeyOf;
    CountStep(t, Fresh(t, it), it);
    ChargesStep(t, Step(t, Fresh(t, it), it, ATTR_COUNT), it);
    hide Step;
  }

  lemma {:induction false} CountStep(t: ItemType, acc: Item, it: Item)
    ensures Step(t, acc, it, ATTR_COUNT) ==
              if t.stackable || t.fluid then SetSubType(t, acc, GetSubType(t, it) % U8) else acc
  {
    hide KindOf, KeyOf, Tag;
  }

  lemma {:induction false} ChargesStep(t: ItemType, acc: Item, it: Item)
    ensures Step(t, acc, it, ATTR_CHARGES) ==
              if ChargesOf(it) != 0 then SetSubType(t, acc, ChargesOf(it)) else acc
  {
    hide KindOf, KeyOf, Tag;
  }

  lemma {:induction false} FlatBegins(t: ItemType, it: Item)
    ensures forall i :: 0 <= i < |WRITTEN[2..]| ==> Tag(WRITTEN[2..][i])
    ensures Flat(t, it) == StoreAll(t, Begun(t, it), it, WRITTEN[2..])
  {
    hide Step, NewItem, Tag;
    WrittenAreTags();
    StoreUnfolds(t, Fresh(t, it), it, WRITTEN);
    StoreUnfolds(t, Step(t, Fresh(t, it), it, ATTR_COUNT), it, WRITTEN[1..]);
    assert WRITTEN[1..][1..] == WRITTEN[2..];
    assert WRITTEN[0] == ATTR_COUNT && WRITTEN[1..][0] == ATTR_CHARGES;
  }

  lemma {:induction false} StoreUnfolds(t: ItemType, acc: Item, it: Item, tags: seq<int>)
    requires tags != [] && forall i :: 0 <= i < |tags| ==> Tag(tags[i])
    ensures StoreAll(t, acc, it, tags) == StoreAll(t, Step(t, acc, it, tags[0]), it, tags[1..])
  {
    hide Step, Tag;
  }

  lemma {:induction false} WrittenAreTags()
    ensures forall i :: 0 <= i < |WRITTEN| ==> Tag(WRITTEN[i])
  {
  }

  lemma {:induction false} EveryTagIsWritten(k: Key)
    requires HasTag(k)
    ensures exists i :: 0 <= i < |WRITTEN[2..]| && KeyOf(WRITTEN[2..][i]) == k
  {
    var i := match k
      case ActionId => 0 case Text => 1 case Date => 2 case Writer => 3 case Description => 4
      case Duration => 5 case DecayState => 6 case Name => 7 case Article => 8 case PluralName => 9
      case Weight => 10 case Attack => 11 case Defense => 12 case ExtraDefense => 13 case Armor => 14
      case HitChance => 15 case _ => 16;
    assert KeyOf(WRITTEN[2..][i]) == k;
  }

  lemma {:induction false} OnlyOwnTags()
    ensures forall i :: 0 <= i < |WRITTEN[2..]| ==> OwnTag(WRITTEN[2..][i]) && HasTag(KeyOf(WRITTEN[2..][i]))
  {
    forall i | 0 <= i < |WRITTEN[2..]|
      ensures OwnTag(WRITTEN[2..][i]) && HasTag(KeyOf(WRITTEN[2..][i]))
    {
      assert WRITTEN[2..][i] == WRITTEN[i + 2] && WRITTEN[i + 2] in WRITTEN;
      OwnTagFacts(WRITTEN[2..][i]);
    }
  }

  /** Attribute by attribute, what comes back. */
  lemma {:induction false} FlatMeans(t: ItemType, it: Item, k: Key)
    ensures Flat(t, it).id == it.id && Flat(t, it).contents == []
    ensures Flat(t, it).count == KeptCount(t, it)
    ensures Lookup(Flat(t, it), k) == Kept(t, it, k)
  {
    FlatIsEmpty(t, it);
    FlatBegins(t, it);
    OnlyOwnTags();
    hide Flat, StoreAll, Begun, KeptCount, KeyOf, OwnTag, Tag, Lookup;
    StoreRest(t, Begun(t, it), it, WRITTEN[2..], k);
    BegunCount(t, it);
    if !HasTag(k) {
      BegunSubType(t, it, k);
    } else {
      BegunOwn(t, it, k);
      EveryTagIsWritten(k);
    }
  }

  // ---------- exactly which items survive ----------

  /** The item with its decay state as reading leaves it. */
  function Pending(it: Item): Item
    decreases it, 1
  {
    it.(attrs := PendingAttrs(it.attrs), contents := Pendings(it.contents))
  }

  function PendingAttrs(m: map<Key, Value>): map<Key, Value> {
    if DecayState in m then m[DecayState := Int(DECAYING_PENDING)] else m
  }

  function Pendings(items: seq<Item>): seq<Item>
    decreases items, 0
  {
    if items == [] then [] else [Pending(items[0])] + Pendings(items[1..])
  }

  /** What the code's own types guarantee: integers of 32 bits, strings where strings belong. */
  predicate Typed(it: Item) {
    forall k :: k in it.attrs ==>
      if IsString(k) then it.attrs[k].Str? else it.attrs[k].Int? && IsInt32(it.attrs[k].n)
  }

  /** Which attribute values come back as they were. */
  predicate KeySurvives(t: ItemType, it: Item, k: Key) {
    if k !in it.attrs then
      && (k == Duration ==> t.decayTime == 0)
      && (k == Charges ==> t.fluid || t.stackable || t.charges == 0)
      && (k == FluidType ==> !t.fluid)
    else if IsString(k) then 0 < |GetStr(it, k)| < U16
    else
      var n := GetInt(it, k);
      if k == ActionId then t.moveable && 100 <= n < U16
      else if k == Date then n != 0
      else if k == Duration then 0 <= n
      else if k == DecayState then n % U8 in {1, 2}
      else if k == HitChance then -128 <= n < 128
      else if k == ShootRange then 0 <= n < U8
      else if k == Charges then !t.fluid && !t.stackable && t.charges != 0 && 0 < n < U16
      else if k == FluidType then t.fluid && (if ChargesOf(it) == 0 then 0 <= n < U8 else n == ChargesOf(it))
      else IsInt32Key(k)
  }

  lemma {:induction false} SignedUnsigned(v: int)
    ensures IsInt32(v) ==> Signed(Unsigned(v, U32), U32) == v
    ensures -128 <= v < 128 <==> Signed(Unsigned(v, U8), U8) == v
    ensures 0 <= v < U8 <==> Unsigned(v, U8) == v
    ensures 0 <= v < U16 <==> Unsigned(v, U16) == v
  {
  }

  lemma {:induction false} KeySurvivesExactly(t: ItemType, it: Item, k: Key)
    requires Typed(it)
    ensures Kept(t, it, k) == Lookup(it.(attrs := PendingAttrs(it.attrs)), k) <==> KeySurvives(t, it, k)
  {
    if k in {Charges, FluidType} {
      SubTypeSurvivesExactly(t, it, k);
    } else if k in {ActionId, DecayState} {
      ShortSurvivesExactly(t, it, k);
    } else {
      PlainSurvivesExactly(t, it, k);
    }
  }

  lemma {:induction false} ShortSurvivesExactly(t: ItemType, it: Item, k: Key)
    requires Typed(it) && k in {ActionId, DecayState}
    ensures Kept(t, it, k) == Lookup(it.(attrs := PendingAttrs(it.attrs)), k) <==> KeySurvives(t, it, k)
  {
    SignedUnsigned(GetInt(it, k));
    if k == ActionId { hide Signed; }
  }

  lemma {:induction false} PlainSurvivesExactly(t: ItemType, it: Item, k: Key)
    requires Typed(it) && k !in {Charges, FluidType, ActionId, DecayState}
    ensures Kept(t, it, k) == Lookup(it.(attrs := PendingAttrs(it.attrs)), k) <==> KeySurvives(t, it, k)
  {
    SignedUnsigned(GetInt(it, k));
    hide Signed, Unsigned;
  }

  lemma {:induction false} SubTypeSurvivesExactly(t: ItemType, it: Item, k: Key)
    requires Typed(it) && k in {Charges, FluidType}
    ensures Kept(t, it, k) == Lookup(it.(attrs := PendingAttrs(it.attrs)), k) <==> KeySurvives(t, it, k)
  {
    if k == Charges { ChargesSurviveExactly(t, it); } else { FluidSurvivesExactly(t, it); }
  }

  lemma {:induction false} ChargesSurviveExactly(t: ItemType, it: Item)
    requires Typed(it)
    ensures Kept(t, it, Charges) == Lookup(it.(attrs := PendingAttrs(it.attrs)), Charges) <==> KeySurvives(t, it, Charges)
  {
    SameLookup(it, Charges);
    hide PendingAttrs, Lookup, Signed;
  }

  lemma {:induction false} FluidSurvivesExactly(t: ItemType, it: Item)
    requires Typed(it)
    ensures Kept(t, it, FluidType) == Lookup(it.(attrs := PendingAttrs(it.attrs)), FluidType) <==> KeySurvives(t, it, FluidType)
  {
    SameLookup(it, FluidType);
    UnsignedByte(GetInt(it, FluidType));
    hide PendingAttrs, Lookup, Signed, Unsigned;
  }

  /** A decay state apart, pending changes nothing. */
  lemma {:induction false} SameLookup(it: Item, k: Key)
    requires Typed(it) && k in {Charges, FluidType}
    ensures var l := Lookup(it.(attrs := PendingAttrs(it.attrs)), k);
            l == if k in it.attrs then Some(Int(GetInt(it, k))) else None
    ensures k !in it.attrs ==> GetInt(it, k) == 0
  {
  }

  lemma {:induction false} UnsignedByte(n: int)
    ensures Unsigned(n, U16) % U8 == n <==> 0 <= n < U8
  {
  }

  /** One item comes back as it was, but for a decay state that turns to pending. */
  ghost predicate Survives(t: ItemType, it: Item) {
    && (forall k :: KeySurvives(t, it, k))
    && (it.count == 1 || (t.stackable && !t.fluid))
  }

  lemma {:induction false} SameAttrs(a: Item, b: Item)
    ensures a.attrs == b.attrs <==> forall k :: Lookup(a, k) == Lookup(b, k)
  {
    if forall k :: Lookup(a, k) == Lookup(b, k) {
      forall k
        ensures k in a.attrs <==> k in b.attrs
        ensures k in a.attrs ==> a.attrs[k] == b.attrs[k]
      {
        assert Lookup(a, k) == Lookup(b, k);
      }
    }
  }

  lemma {:induction false} CountSurvives(t: ItemType, it: Item)
    requires KeySurvives(t, it, Charges)
    ensures KeptCount(t, it) == it.count <==> it.count == 1 || (t.stackable && !t.fluid)
  {
  }

  lemma {:induction false} FlatSurvivesExactly(t: ItemType, it: Item)
    requires Typed(it)
    ensures Flat(t, it) == it.(attrs := PendingAttrs(it.attrs), contents := []) <==> Survives(t, it)
  {
    hide Flat, Kept, KeptCount, KeySurvives, PendingAttrs, Lookup, Typed;
    var p := it.(attrs := PendingAttrs(it.attrs));
    FlatMeans(t, it, Charges);
    SameAttrs(Flat(t, it), p);
    forall k
      ensures Lookup(Flat(t, it), k) == Lookup(p, k) <==> KeySurvives(t, it, k)
    {
      FlatMeans(t, it, k);
      KeySurvivesExactly(t, it, k);
    }
    if KeySurvives(t, it, Charges) {
      CountSurvives(t, it);
    } else {
      assert Lookup(Flat(t, it), Charges) != Lookup(p, Charges);
    }
  }

  ghost predicate SurvivesTree(types: Types, it: Item)
    decreases it, 1
  {
    Survives(types(it.id), it) && SurviveAll(types, it.contents)
  }

  ghost predicate SurviveAll(types: Types, items: seq<Item>)
    decreases items, 0
  {
    items == [] || (SurvivesTree(types, items[0]) && SurviveAll(types, items[1..]))
  }

  predicate TypedTree(it: Item)
    decreases it, 1
  {
    Typed(it) && TypedAll(it.contents)
  }

  predicate TypedAll(items: seq<Item>)
    decreases items, 0
  {
    items == [] || (TypedTree(items[0]) && TypedAll(items[1..]))
  }

  /** A tree comes back as it was, at every depth and in order, exactly if each of its
      items does. */
  lemma {:induction false} TreeSurvivesExactly(types: Types, it: Item)
    requires TypedTree(it)
    ensures Back(types, it) == Pending(it) <==> SurvivesTree(types, it)
    decreases it, 1
  {
    hide Survives, Flat, PendingAttrs, Typed;
    FlatSurvivesExactly(types(it.id), it);
    AllSurviveExactly(types, it.contents);
    FlatIsEmpty(types(it.id), it);
    var flat := Flat(types(it.id), it);
    var p := it.(attrs := PendingAttrs(it.attrs), contents := []);
    assert Back(types, it) == flat.(contents := Backs(types, it.contents));
    assert Pending(it) == p.(contents := Pendings(it.contents));
    assert flat == flat.(contents := []) && p == p.(contents := []);
  }

  lemma {:induction false} AllSurviveExactly(types: Types, items: seq<Item>)
    requires TypedAll(items)
    ensures Backs(types, items) == Pendings(items) <==> SurviveAll(types, items)
    decreases items, 0
  {
    hide SurvivesTree, Back, Pending, TypedTree;
    if items != [] {
      TreeSurvivesExactly(types, items[0]);
      AllSurviveExactly(types, items[1..]);
      var a, b := Backs(types, items), Pendings(items);
      assert a[1..] == Backs(types, items[1..]) && b[1..] == Pendings(items[1..]);
    }
  }

  /** The law of the format: a tree of known types, written and read, is the same tree with
      its decay states pending, exactly if each of its items survives. */
  lemma {:induction false} LoadAfterSave(types: Types, it: Item, rest: seq<Byte>)
    requires Known(types, it) && TypedTree(it)
    ensures LoadItem(types, ItemBytes(types, it) + rest) == Some(([Pending(it)], rest))
        <==> SurvivesTree(types, it)
  {
    hide LoadItem, ItemBytes, Back, Pending, SurvivesTree, Known, TypedTree;
    ItemRoundTrip(types, it, rest);
    TreeSurvivesExactly(types, it);
  }

  /** A case that does not survive: a charged item whose charges are used up comes back full. */
  lemma {:induction false} UsedUpChargesComeBack(types: Types, id: Word)
    requires types(id).known && CreatedId(types(id), id) == id && !types(id).container
    requires !types(id).fluid && !types(id).stackable && types(id).charges > 0
    ensures var it := Item(id, 1, map[Charges := Int(0)], []);
            var r := LoadItem(types, ItemBytes(types, it));
            r.Some? && |r.value.0| == 1 && Lookup(r.value.0[0], Charges) == Some(Int(types(id).charges))
  {
    var it := Item(id, 1, map[Charges := Int(0)], []);
    hide LoadItem, ItemBytes, Flat;
    assert ItemBytes(types, it) + [] == ItemBytes(types, it);
    ItemRoundTrip(types, it, []);
    FlatMeans(types(id), it, Charges);
  }
}
