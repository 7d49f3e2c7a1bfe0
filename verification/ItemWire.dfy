/**
  The format of an item, byte by byte: which tag stands for which attribute, how wide its value is,
  and in which order all is written.
 */
module ItemWire {

  import opened Basics
  import opened ItemFormat

  /** The tags and the attributes they stand for. */
  lemma {:induction false} TagTable()
    ensures WRITTEN == [15, 22, 4, 6, 18, 19, 7, 16, 17, 24, 25, 26, 27, 28, 29, 30, 31, 32, 33]
    ensures KeyOf(4) == ActionId && KeyOf(5) == UniqueId && KeyOf(6) == Text && KeyOf(7) == Description
    ensures KeyOf(16) == Duration && KeyOf(17) == DecayState && KeyOf(18) == Date && KeyOf(19) == Writer
    ensures KeyOf(24) == Name && KeyOf(25) == Article && KeyOf(26) == PluralName
    ensures KeyOf(27) == Weight && KeyOf(28) == Attack && KeyOf(29) == Defense && KeyOf(30) == ExtraDefense
    ensures KeyOf(31) == Armor && KeyOf(32) == HitChance && KeyOf(33) == ShootRange
  {
  }

  /** What follows each tag when reading, the four kinds that are skipped included; all other tags are errors. */
  lemma {:induction false} KindTable(tag: int)
    ensures KindOf(tag) ==
            if tag in {12, 15, 17, 32, 33} then Some(Num(1))
            else if tag in {4, 5, 22} then Some(Num(2))
            else if tag in {16, 18, 27, 28, 29, 30, 31} then Some(Num(4))
            else if tag in {6, 7, 19, 24, 25, 26} then Some(Text_)
            else if tag == 14 then Some(Skip(1))
            else if tag == 10 then Some(Skip(2))
            else if tag in {20, 21} then Some(Skip(4))
            else if tag == 8 then Some(Skip(5))
            else None
  {
  }

  lemma {:induction false} LeOne(n: nat)
    requires n < 0x100
    ensures Le(n, 1) == [n]
  {
    assert Le(n / 256, 0) == [];
  }

  lemma {:induction false} LeTwo(n: nat)
    requires n < 0x1_0000
    ensures Le(n, 2) == [n % 256, n / 256]
  {
    LeOne(n / 256);
  }

  lemma {:induction false} LeFour(n: nat)
    requires n < 0x1_0000_0000
    ensures Le(n, 4) == [n % 256, n / 256 % 256, n / 0x1_0000 % 256, n / 0x100_0000]
  {
    var a := n / 0x1_0000;
    assert n / 256 / 256 == a && a / 256 == n / 0x100_0000;
    LeTwo(a);
    assert Le(n / 256, 3) == [n / 256 % 256] + Le(a, 2);
  }

  /** The bytes of a number of one, two or four bytes, least significant first. */
  function Bytes(n: nat, width: nat): seq<int> {
    if width == 1 then [n]
    else if width == 2 then [n % 256, n / 256]
    else [n % 256, n / 256 % 256, n / 0x1_0000 % 256, n / 0x100_0000]
  }

  /** An attribute that is written: its tag and its value; a string after its length, or as an empty one
      if it is too long. */
  lemma {:induction false} AttrWire(t: ItemType, it: Item, tag: int)
    requires Tag(tag) && Written(t, it, tag).Some?
    ensures var p := Written(t, it, tag).value;
            match p
            case N(n) => AttrBytes(t, it, [tag]) == [tag] + Bytes(n, if tag in {15, 17, 32, 33} then 1 else if tag in {4, 22} then 2 else 4)
            case S(s) => AttrBytes(t, it, [tag]) == [tag] + if |s| < 0x1_0000 then [|s| % 256, |s| / 256] + s else [0, 0]
  {
    var p := Written(t, it, tag).value;
    WrittenFits(t, it, tag);
    KindTable(tag);
    Widths();
    AttrAlone(t, it, tag);
    hide Written, KindOf, Le, Tag;
    match p
    case N(n) => NumberWire(n, KindOf(tag).value.width);
    case S(s) =>
      LeTwo(0);
      if |s| < 0x1_0000 { LeTwo(|s|); }
  }

  lemma {:induction false} NumberWire(n: nat, width: nat)
    requires width in {1, 2, 4} && n < Pow256(width)
    ensures Le(n, width) == Bytes(n, width)
  {
    Widths();
    if width == 1 { LeOne(n); } else if width == 2 { LeTwo(n); } else { LeFour(n); }
  }

  lemma {:induction false} AttrAlone(t: ItemType, it: Item, tag: int)
    requires Tag(tag) && Written(t, it, tag).Some? && 0 < tag < 256 && KindOf(tag).Some?
    ensures AttrBytes(t, it, [tag]) == [tag] + PayloadBytes(KindOf(tag).value, Written(t, it, tag).value)
  {
    hide Written, KindOf, PayloadBytes, Tag;
    assert [tag][1..] == [];
    assert AttrBytes(t, it, []) == [];
  }

  /** When an attribute is written: a count only of stacks and fluids, charges unless there are none, an
      action id only of what can be moved, a decay state if it decays or waits to. */
  lemma {:induction false} WrittenWhen(t: ItemType, it: Item)
    ensures Written(t, it, 15) == When(t.stackable || t.fluid, N(GetSubType(t, it) % 0x100))
    ensures var c := Unsigned(GetInt(it, Charges), 0x1_0000); Written(t, it, 22) == When(c != 0, N(c))
    ensures var a := Unsigned(GetInt(it, ActionId), 0x1_0000); Written(t, it, 4) == When(t.moveable && a != 0, N(a))
    ensures var d := Unsigned(GetInt(it, DecayState), 0x100); Written(t, it, 17) == When(d == 1 || d == 2, N(d))
    ensures Written(t, it, 18) == When(GetInt(it, Date) != 0, N(Unsigned(GetInt(it, Date), 0x1_0000_0000)))
  {
    TagTable();
    hide KeyOf, GetSubType, Unsigned, GetInt, GetStr, WRITTEN;
  }

  /** A text, a writer or a description is written unless it is empty. */
  lemma {:induction false} TextsWrittenWhen(t: ItemType, it: Item)
    ensures Written(t, it, 6) == When(GetStr(it, Text) != [], S(GetStr(it, Text)))
    ensures Written(t, it, 7) == When(GetStr(it, Description) != [], S(GetStr(it, Description)))
    ensures Written(t, it, 19) == When(GetStr(it, Writer) != [], S(GetStr(it, Writer)))
  {
    TagTable();
    hide KeyOf, GetSubType, Unsigned, GetInt, GetStr, WRITTEN;
  }

  /** The rest is written if it is set. */
  lemma {:induction false} WrittenIfSet(t: ItemType, it: Item, tag: int)
    requires tag in {16, 24, 25, 26, 27, 28, 29, 30, 31, 32, 33}
    ensures var k := KeyOf(tag);
            Written(t, it, tag) ==
              When(k in it.attrs,
                   if tag in {24, 25, 26} then S(GetStr(it, k))
                   else N(Unsigned(GetInt(it, k), if tag in {32, 33} then 0x100 else 0x1_0000_0000)))
  {
    TagTable();
    hide KeyOf, GetSubType, Unsigned, GetInt, GetStr, WRITTEN;
  }

  /** A whole item: id, attributes, for a container their number and what lies in it from the last to
      the first, and the end mark. */
  lemma {:induction false} ItemWireIs(types: Types, it: Item)
    requires it.id < 0x1_0000 && |it.contents| < 0x1_0000_0000
    ensures var n := |it.contents|;
            ItemBytes(types, it) ==
              [it.id % 256, it.id / 256] + AttrBytes(types(it.id), it, WRITTEN)
              + (if types(it.id).container
                 then [23, n % 256, n / 256 % 256, n / 0x1_0000 % 256, n / 0x100_0000] + AllBytes(types, it.contents) else [])
              + [0]
  {
    LeTwo(it.id);
    LeFour(|it.contents|);
    hide AttrBytes, AllBytes, Le, Tag;
  }

  /** Rings that are made in their unworn form, and all other ids. */
  lemma {:induction false} CreatedTable(t: ItemType, id: nat)
    ensures CreatedId(t, id) ==
            if t.container then id
            else match id
              case 2202 => 2165 case 2203 => 2166 case 2204 => 2167 case 2205 => 2168 case 2206 => 2169
              case 2210 => 2207 case 2211 => 2208 case 2212 => 2209 case 2215 => 2213 case 2216 => 2214
              case _ => id
  {
  }

  // ---------- reading what was not written so ----------

  /** A unique id is only taken over by an item that has none; the charges of a rune are a count. */
  lemma {:induction false} StoreOthers(t: ItemType, it: Item, n: nat)
    ensures Store(t, it, 5, N(n)) == if UniqueId in it.attrs then it else it.(attrs := it.attrs[UniqueId := Int(n)])
    ensures Store(t, it, 12, N(n)) == Store(t, it, 15, N(n)) == Store(t, it, 22, N(n)) == SetSubType(t, it, n)
    ensures forall tag :: tag in {8, 10, 14, 20, 21} ==> Store(t, it, tag, N(n)) == it
  {
    TagTable();
    KindTable(5);
    forall tag | tag in {8, 10, 14, 20, 21} ensures Store(t, it, tag, N(n)) == it {
      KindTable(tag);
      hide KindOf, KeyOf;
    }
    hide KindOf, KeyOf;
  }

  /** Reading fails at a tag that is unknown, at the mark of contents in an item that is no container or
      without their number, and where a value is cut short; it ends at the end mark or of the bytes. */
  lemma {:induction false} ReadEnds(t: ItemType, container: bool, it: Item, s: seq<Byte>)
    ensures s == [] ==> ReadAttrs(t, container, it, s) == End(it, [])
    ensures s != [] && s[0] == 0 ==> ReadAttrs(t, container, it, s) == End(it, s[1..])
    ensures s != [] && s[0] == 23 && (!container || |s| < 5) ==> ReadAttrs(t, container, it, s) == Error
    ensures s != [] && (s[0] in {1, 2, 3, 9, 11, 13} || s[0] > 33) ==> ReadAttrs(t, container, it, s) == Error
    ensures |s| >= 5 && s[0] == 23 && container ==> ReadAttrs(t, container, it, s) == Contents(it, FromLe(s[1..5]), s[5..])
    ensures s != [] && KindOf(s[0]).Some? && ReadPayload(KindOf(s[0]).value, s[1..]).None? ==> ReadAttrs(t, container, it, s) == Error
  {
    if s != [] { KindTable(s[0]); }
    hide KindOf, ReadPayload, Store;
  }

  /** Fewer than two bytes are no item; an id that nothing can be made of gives none and takes two bytes. */
  lemma {:induction false} LoadUnknown(types: Types, s: seq<Byte>)
    ensures |s| < 2 ==> LoadItem(types, s).None?
    ensures |s| >= 2 && !types((s[0] as int) + 256 * (s[1] as int)).known ==> LoadItem(types, s) == Some(([], s[2..]))
  {
    if |s| >= 2 {
      var a := s[..2];
      assert a[1..][1..] == [] && a[1..][0] == s[1] && a[0] == s[0];
      assert FromLe(a[1..]) == (s[1] as int) + 256 * FromLe(a[1..][1..]);
      assert FromLe(a) == (s[0] as int) + 256 * (s[1] as int);
    }
    hide ReadAttrs;
  }

  /** The contents end with an end mark; without it the container is lost. */
  lemma {:induction false} ContentsEnd(types: Types, it: Item, s: seq<Byte>)
    ensures LoadContents(types, it, 0, s) == if s != [] && s[0] == 0 then Some(([it], s[1..])) else None
  {
  }
}
