/**
  The OTB file reader: a cursor over a file that is seen only through three cached blocks,
  the recursive node parser that runs on that cursor, and the in-place unescaping of a
  node's properties.
 */
module OtbReader {
  import opened Basics
  import opened OtbFormat

  const CACHE_BLOCKS := 3
  const NO_VALID_CACHE := -1

  datatype FileError = NoError | InvalidFileVersion | Eof | SeekError | InvalidFormat | CacheError

  /** `size` of the source is |data|: what `fread` delivered. */
  datatype Block = Block(loaded: bool, base: nat, data: seq<Byte>)

  /** x & ~mask, bit by bit. */
  function AndNot(x: nat, mask: nat): (r: nat)
    ensures r <= x <= r + mask
  {
    if x == 0 then 0
    else 2 * AndNot(x / 2, mask / 2) + (if mask % 2 == 1 then 0 else x % 2)
  }

  function Pow2(k: nat): (r: nat)
    ensures r > 0
  {
    if k == 0 then 1 else 2 * Pow2(k - 1)
  }

  /** Clearing the k low bits leaves a multiple of 2^k. */
  lemma {:induction false} ClearedIsMultiple(x: nat, k: nat) returns (q: nat)
    ensures AndNot(x, Pow2(k) - 1) == q * Pow2(k)
    decreases k
  {
    hide AndNot;
    if k == 0 {
      q := AndNot(x, 0);
    } else if x == 0 {
      hide Pow2;
      ClearNothing(Pow2(k) - 1);
      q := 0;
    } else {
      var p := Pow2(k - 1);
      assert Pow2(k) == 2 * p;
      hide Pow2;
      q := ClearedIsMultiple(x / 2, k - 1);
      ClearStep(x, p);
      Twice(q, p);
    }
  }

  lemma {:induction false} ClearNothing(mask: nat)
    ensures AndNot(0, mask) == 0
  {
  }

  lemma {:induction false} Twice(q: nat, p: nat)
    ensures 2 * (q * p) == q * (2 * p)
  {
  }

  lemma {:induction false} ClearStep(x: nat, p: nat)
    requires x > 0 && p > 0
    ensures AndNot(x, 2 * p - 1) == 2 * AndNot(x / 2, p - 1)
  {
    assert (2 * p - 1) / 2 == p - 1 && (2 * p - 1) % 2 == 1;
  }

  /** The block size that opening a file of this size chooses. */
  function CacheSize(fileSize: nat): (r: nat)
    ensures r > 0
  {
    AndNot(Min(32768, Max(fileSize / 20, 8192)), 0x1FFF)
  }

  /** Four block sizes are possible, and 24576 is not a power of two. */
  lemma {:induction false} CacheSizes(fileSize: nat)
    ensures CacheSize(fileSize) in {8192, 16384, 24576, 32768}
    ensures var n := fileSize / 20;
            CacheSize(fileSize) == if n < 16384 then 8192 else if n < 24576 then 16384 else if n < 32768 then 24576 else 32768
    ensures fileSize == 500000 ==> CacheSize(fileSize) == 24576
  {
    hide AndNot;
    var x := Min(32768, Max(fileSize / 20, 8192));
    var q := ClearedBits(x);
    MultipleInRange(x, AndNot(x, 0x1FFF), q);
  }

  lemma {:induction false} ClearedBits(x: nat) returns (q: nat)
    ensures AndNot(x, 0x1FFF) == q * 8192
  {
    hide AndNot;
    Pow2Of13();
    hide Pow2;
    q := ClearedIsMultiple(x, 13);
  }

  lemma {:induction false} MultipleInRange(x: nat, r: nat, q: nat)
    requires r == q * 8192 && 8192 <= x <= 32768 && r <= x <= r + 8191
    ensures r in {8192, 16384, 24576, 32768}
    ensures x == 25000 ==> r == 24576
  {
  }

  lemma {:induction false} Pow2Of13()
    ensures Pow2(13) == 8192
  {
    assert Pow2(3) == 8;
    assert Pow2(6) == 64;
    assert Pow2(9) == 512;
    assert Pow2(12) == 4096;
  }

  /** What reading n bytes at `base` delivers, at or beyond the end of the file too. */
  function Window(f: seq<Byte>, base: nat, n: nat): seq<Byte> {
    f[Min(base, |f|)..Min(base + n, |f|)]
  }

  /** The block of a position reaches that position, whatever the block size. */
  lemma {:induction false} BlockCovers(f: seq<Byte>, pos: nat, cacheSize: nat)
    requires cacheSize > 0 && pos <= |f|
    ensures var b := AndNot(pos, cacheSize - 1); var w := Window(f, b, cacheSize);
            && b <= pos && pos - b <= |w| && b + |w| <= |f|
            && (pos < |f| ==> pos - b < |w|)
            && w == f[b..b + |w|]
  {
  }

  lemma {:induction false} WindowAt(f: seq<Byte>, base: nat, n: nat, k: nat)
    requires k < |Window(f, base, n)|
    ensures base + k < |f| && Window(f, base, n)[k] == f[base + k]
  {
  }

  lemma {:induction false} SubSlice<T>(f: seq<T>, b: nat, n: nat, off: nat, len: nat)
    requires off + len <= n && b + n <= |f|
    ensures f[b..b + n][off..off + len] == f[b + off..b + off + len]
  {
    var s, t := f[b..b + n][off..off + len], f[b + off..b + off + len];
    assert forall k :: 0 <= k < len ==> s[k] == t[k];
  }

  lemma {:induction false} Joined<T>(f: seq<T>, pos: nat, m: nat, n: nat)
    requires pos + m + n <= |f|
    ensures f[pos..pos + m] + f[pos + m..pos + m + n] == f[pos..pos + m + n]
  {
  }

  /** What a block that covers a position gives from there on. */
  lemma {:induction false} FromBlock(f: seq<Byte>, base: nat, data: seq<Byte>, pos: nat, n: nat)
    requires base <= pos && base + |data| <= |f| && data == f[base..base + |data|] && pos - base + n <= |data|
    ensures data[pos - base..pos - base + n] == f[pos..pos + n]
  {
    SubSlice(f, base, |data|, pos - base, n);
  }

  /** A block more than two block sizes away. */
  predicate FarFrom(b: Block, basePos: nat, cacheSize: nat) {
    b.base - basePos > 2 * cacheSize || basePos - b.base > 2 * cacheSize
  }

  /** The block to load into: the first that is not loaded, else the first that is far away, else the first. */
  predicate Victim(blocks: seq<Block>, i: int, basePos: nat, cacheSize: nat) {
    && 0 <= i < |blocks|
    && if exists j :: 0 <= j < |blocks| && !blocks[j].loaded then
         !blocks[i].loaded && forall j :: 0 <= j < i ==> blocks[j].loaded
       else if exists j :: 0 <= j < |blocks| && FarFrom(blocks[j], basePos, cacheSize) then
         FarFrom(blocks[i], basePos, cacheSize) && forall j :: 0 <= j < i ==> !FarFrom(blocks[j], basePos, cacheSize)
       else i == 0
  }

  lemma {:induction false} VictimInside(blocks: seq<Block>, i: int, basePos: nat, cacheSize: nat)
    requires Victim(blocks, i, basePos, cacheSize)
    ensures 0 <= i < |blocks|
  {
  }

  /** The file starts with the identifier or with the wildcard. */
  predicate Accepted(file: seq<Byte>, accept: seq<Byte>) {
    4 <= |file| && (file[..4] == accept || file[..4] == [0, 0, 0, 0])
  }

  predicate HasBlock(blocks: seq<Block>, basePos: nat) {
    exists j :: 0 <= j < |blocks| && blocks[j].loaded && blocks[j].base == basePos
  }

  class FileLoader {
    const file: seq<Byte>
    const cachedData: array<Block>
    var cacheSize: nat
    var cacheIndex: int
    var cacheOffset: nat
    var buffer: array<Byte>
    var lastError: FileError

    /** The cursor over the plain file that the cache stands for. */
    ghost var cursor: nat

    constructor (file: seq<Byte>)
      ensures this.file == file && Valid() && cacheIndex == NO_VALID_CACHE
      ensures cacheSize == CacheSize(|file|)
      ensures fresh(cachedData) && fresh(buffer)
    {
      hide AndNot, CacheSize;
      this.file := file;
      cachedData := new Block[CACHE_BLOCKS](_ => Block(false, 0, []));
      cacheSize := CacheSize(|file|);
      cacheIndex, cacheOffset := NO_VALID_CACHE, 0;
      buffer := new Byte[1024](_ => 0);
      lastError := NoError;
      cursor := 0;
    }

    /** Each loaded block holds the bytes of the file at its base, and the current block,
        if there is one, is loaded and has the cursor inside it or just behind it. */
    ghost predicate Valid()
      reads this, cachedData
    {
      && cachedData.Length == CACHE_BLOCKS
      && cacheSize > 0
      && 0 < buffer.Length
      && BlocksOk()
      && (cacheIndex == NO_VALID_CACHE || Positioned())
    }

    ghost predicate BlocksOk()
      reads this, cachedData
    {
      forall i :: 0 <= i < cachedData.Length && cachedData[i].loaded ==>
                    cachedData[i].data == Window(file, cachedData[i].base, cacheSize)
    }

    ghost predicate Positioned()
      reads this, cachedData
    {
      && 0 <= cacheIndex < cachedData.Length
      && cachedData[cacheIndex].loaded
      && cacheOffset <= |cachedData[cacheIndex].data|
      && cursor == cachedData[cacheIndex].base + cacheOffset <= |file|
    }

    /** Block i holds the file around `pos`. */
    ghost predicate Covers(i: int, pos: nat)
      reads this, cachedData
    {
      && 0 <= i < cachedData.Length && cachedData[i].loaded
      && var b, d := cachedData[i].base, cachedData[i].data;
         && b <= pos && pos - b <= |d| && b + |d| <= |file|
         && (pos < |file| ==> pos - b < |d|)
         && d == file[b..b + |d|]
    }

    method LoadCacheBlock(pos: nat) returns (i: int)
      requires Valid()
      modifies cachedData, this`lastError
      ensures cachedData.Length == CACHE_BLOCKS && BlocksOk()
      ensures i == NO_VALID_CACHE || 0 <= i < CACHE_BLOCKS
      ensures pos <= |file| ==> i != NO_VALID_CACHE
      ensures i != NO_VALID_CACHE ==> cachedData[i].loaded
      ensures pos <= |file| ==> Covers(i, pos) && lastError == old(lastError)
      ensures i != NO_VALID_CACHE ==>
                && Victim(old(cachedData[..]), i, AndNot(pos, cacheSize - 1), cacheSize)
                && cachedData[i].base == AndNot(pos, cacheSize - 1)
                && forall k :: 0 <= k < CACHE_BLOCKS && k != i ==> cachedData[k] == old(cachedData[k])
      ensures i == NO_VALID_CACHE ==> lastError == SeekError
    {
      hide AndNot, Victim, Window;
      var basePos := AndNot(pos, cacheSize - 1);
      var victim := ChooseVictim(basePos);
      VictimInside(cachedData[..], victim, basePos, cacheSize);
      if pos <= |file| {
        BlockCovers(file, pos, cacheSize);
      }
      var wasLoaded := cachedData[victim].loaded;
      cachedData[victim] := Block(wasLoaded, basePos, Window(file, basePos, cacheSize));
      if |cachedData[victim].data| < pos - basePos {
        lastError := SeekError;
        return NO_VALID_CACHE;
      }
      cachedData[victim] := cachedData[victim].(loaded := true);
      return victim;
    }

    /** A block to load into: one not loaded yet, else one far away, else the first. */
    method ChooseVictim(basePos: nat) returns (victim: int)
      requires cachedData.Length == CACHE_BLOCKS
      ensures Victim(cachedData[..], victim, basePos, cacheSize)
    {
      victim := -1;
      var i := 0;
      while i < CACHE_BLOCKS
        invariant 0 <= i <= CACHE_BLOCKS && victim == -1
        invariant forall j :: 0 <= j < i ==> cachedData[j].loaded
      {
        if !cachedData[i].loaded {
          victim := i;
          break;
        }
        i := i + 1;
      }
      if victim == -1 {
        i := 0;
        while i < CACHE_BLOCKS
          invariant 0 <= i <= CACHE_BLOCKS
          invariant victim == -1 && forall j :: 0 <= j < i ==> !FarFrom(cachedData[j], basePos, cacheSize)
        {
          var d := cachedData[i].base - basePos;
          if (if d < 0 then -d else d) > 2 * cacheSize {
            victim := i;
            break;
          }
          i := i + 1;
        }
        if victim == -1 {
          victim := 0;
        }
      }
    }

    method GetCacheBlock(pos: nat) returns (i: int)
      requires Valid()
      modifies cachedData, this`lastError
      ensures cachedData.Length == CACHE_BLOCKS && BlocksOk()
      ensures i == NO_VALID_CACHE || 0 <= i < CACHE_BLOCKS
      ensures pos <= |file| ==> i != NO_VALID_CACHE
      ensures i != NO_VALID_CACHE ==> cachedData[i].loaded
      ensures pos <= |file| ==> Covers(i, pos) && lastError == old(lastError)
      ensures HasBlock(old(cachedData[..]), AndNot(pos, cacheSize - 1)) ==> cachedData[..] == old(cachedData[..])
      ensures i != NO_VALID_CACHE ==> cachedData[i].base == AndNot(pos, cacheSize - 1)
    {
      hide AndNot, Window, Victim;
      var basePos := AndNot(pos, cacheSize - 1);
      i := 0;
      while i < CACHE_BLOCKS
        invariant 0 <= i <= CACHE_BLOCKS
        invariant forall j :: 0 <= j < i ==> !(cachedData[j].loaded && cachedData[j].base == basePos)
      {
        if cachedData[i].loaded && cachedData[i].base == basePos {
          if pos <= |file| {
            BlockCovers(file, pos, cacheSize);
          }
          return;
        }
        i := i + 1;
      }
      i := LoadCacheBlock(pos);
    }

    method SafeSeek(pos: nat) returns (ok: bool)
      requires Valid() && pos <= |file|
      modifies cachedData, this`lastError, this`cacheIndex, this`cacheOffset, this`cursor
      ensures Valid()
      ensures ok && cacheIndex != NO_VALID_CACHE && cursor == pos && lastError == old(lastError)
    {
      var i := GetCacheBlock(pos);
      if i == NO_VALID_CACHE {
        return false;
      }
      cacheIndex := i;
      cacheOffset := pos - cachedData[i].base;
      cursor := pos;
      ok := true;
    }

    /** The position of the byte read last. */
    method SafeTell() returns (ok: bool, pos: int)
      requires Valid()
      modifies this`lastError
      ensures Valid()
      ensures ok <==> cacheIndex != NO_VALID_CACHE
      ensures ok ==> pos == cursor - 1
      ensures lastError == if ok then old(lastError) else CacheError
    {
      pos := 0;
      if cacheIndex == NO_VALID_CACHE {
        lastError := CacheError;
        return false, pos;
      }
      ok, pos := true, cachedData[cacheIndex].base + cacheOffset - 1;
    }

    /** At the end of a block goes on to the next; fails at the end of the file. */
    method Refill() returns (more: bool)
      requires Valid() && cacheIndex != NO_VALID_CACHE
      modifies cachedData, this`lastError, this`cacheIndex, this`cacheOffset
      ensures Valid() && cacheIndex != NO_VALID_CACHE && cursor <= |file|
      ensures more <==> cursor < |file|
      ensures lastError == old(lastError)
      ensures more ==> cacheOffset < |cachedData[cacheIndex].data| && cachedData[cacheIndex].data[cacheOffset] == file[cursor]
    {
      hide AndNot, HasBlock, Victim, Window;
      if cacheOffset >= |cachedData[cacheIndex].data| {
        var pos := cacheOffset + cachedData[cacheIndex].base;
        var tmp := GetCacheBlock(pos);
        if tmp < 0 {
          return false;
        }
        cacheIndex := tmp;
        cacheOffset := pos - cachedData[cacheIndex].base;
        if cacheOffset >= |cachedData[cacheIndex].data| {
          return false;
        }
      }
      WindowAt(file, cachedData[cacheIndex].base, cacheSize, cacheOffset);
      more := true;
    }

    /** Reads exactly like a cursor on the plain file does. */
    method ReadByte() returns (ok: bool, value: Byte)
      requires Valid()
      modifies cachedData, this`lastError, this`cacheIndex, this`cacheOffset, this`cursor
      ensures Valid() && (cacheIndex != NO_VALID_CACHE ==> cursor <= |file|)
      ensures cacheIndex == NO_VALID_CACHE <==> old(cacheIndex) == NO_VALID_CACHE
      ensures ok <==> old(cacheIndex) != NO_VALID_CACHE && old(cursor) < |file|
      ensures ok ==> value == file[old(cursor)] && cursor == old(cursor) + 1
      ensures cacheIndex != NO_VALID_CACHE && !ok ==> cursor == old(cursor)
      ensures lastError == if cacheIndex == NO_VALID_CACHE then CacheError else old(lastError)
    {
      value := 0;
      if cacheIndex == NO_VALID_CACHE {
        lastError := CacheError;
        return false, value;
      }
      var more := Refill();
      if !more {
        return false, value;
      }
      value := cachedData[cacheIndex].data[cacheOffset];
      cacheOffset := cacheOffset + 1;
      cursor := cursor + 1;
      ok := true;
    }

    /** Copies file bytes into the buffer, block by block.  Asked for bytes behind the end
        of the file the source loop would not end, hence the first precondition. */
    method ReadBytes(size: nat, pos: nat) returns (ok: bool)
      requires Valid() && pos + size <= |file|
      requires size <= buffer.Length
      modifies cachedData, buffer, this`lastError, this`cacheIndex, this`cacheOffset, this`cursor
      ensures Valid()
      ensures ok && buffer[..size] == file[pos..pos + size]
      ensures cacheIndex != NO_VALID_CACHE && cursor == pos + size
    {
      var remain: nat, dst: nat := size, 0;
      ok := true;
      while ok
        invariant Valid() && ok
        invariant dst + remain == size
        invariant buffer[..dst] == file[pos..pos + dst]
        decreases remain
      {
        var reading;
        ok, reading := ReadChunk(remain, pos + dst, dst);
        Joined(file, pos, dst, reading);
        remain, dst := remain - reading, dst + reading;
        if remain == 0 {
          break;
        }
      }
    }

    /** How much of what remains a block gives from a position on, and that it gives the file's bytes. */
    method BlockReach(i: int, pos: nat, remain: nat) returns (reading: nat)
      requires cachedData.Length == CACHE_BLOCKS && Covers(i, pos) && pos + remain <= |file|
      ensures 0 <= i < CACHE_BLOCKS && cachedData[i].base <= pos && cachedData[i].loaded
      ensures reading <= remain && (remain > 0 ==> reading > 0)
      ensures var off := pos - cachedData[i].base;
              && off + reading <= |cachedData[i].data| && cachedData[i].base + |cachedData[i].data| <= |file|
              && cachedData[i].data[off..off + reading] == file[pos..pos + reading]
    {
      reading := Min(remain, |cachedData[i].data| - (pos - cachedData[i].base));
      FromBlock(file, cachedData[i].base, cachedData[i].data, pos, reading);
    }

    /** One round of the loop of ReadBytes: as much as one block can give. */
    method ReadChunk(remain: nat, pos: nat, dst: nat) returns (ok: bool, reading: nat)
      requires Valid() && pos + remain <= |file|
      requires dst + remain <= buffer.Length
      modifies cachedData, buffer, this`lastError, this`cacheIndex, this`cacheOffset, this`cursor
      ensures Valid() && ok
      ensures reading <= remain && (remain > 0 ==> reading > 0)
      ensures buffer[..dst + reading] == old(buffer[..dst]) + file[pos..pos + reading]
      ensures cacheIndex != NO_VALID_CACHE && cursor == pos + reading
    {
      hide Window, Covers;
      hide AndNot, HasBlock;
      reading := 0;
      var i := GetCacheBlock(pos);
      if i == NO_VALID_CACHE {
        return false, reading;
      }
      reading := BlockReach(i, pos, remain);
      cacheIndex := i;
      cacheOffset := pos - cachedData[i].base;
      CopyToBuffer(dst, cachedData[i].data[cacheOffset..cacheOffset + reading]);
      cacheOffset := cacheOffset + reading;
      cursor := pos + reading;
      ok := true;
    }

    method CopyToBuffer(dst: nat, block: seq<Byte>)
      requires dst + |block| <= buffer.Length
      modifies buffer
      ensures buffer[..dst + |block|] == old(buffer[..dst]) + block
    {
      forall k | 0 <= k < |block| {
        buffer[dst + k] := block[k];
      }
    }

    /** Parses the sibling chain whose first start marker was the byte read last. */
    method ParseNode(start: nat) returns (ok: bool, nodes: seq<Parsed>)
      requires Valid() && cacheIndex != NO_VALID_CACHE
      requires start < |file| && cursor == start + 1
      modifies cachedData, this`lastError, this`cacheIndex, this`cacheOffset, this`cursor
      ensures Valid() && cacheIndex != NO_VALID_CACHE && cursor <= |file|
      ensures ok <==> Siblings(file, start).Done?
      ensures ok ==> Siblings(file, start).nodes == nodes && Siblings(file, start).pos == cursor
      ensures lastError == if BadByte(file, start) then InvalidFormat else old(lastError)
      decreases |file| - start, 1
    {
      hide Siblings, NodeAt, After, Scan, Prepend, Window, BadByte;
      nodes := [];
      var current := start;
      PrependNothing(Siblings(file, start));
      while true
        invariant Valid() && cacheIndex != NO_VALID_CACHE
        invariant start <= current < |file| && cursor == current + 1
        invariant Siblings(file, start) == Prepend(nodes, Siblings(file, current))
        invariant lastError == old(lastError) && BadByte(file, start) == BadByte(file, current)
        decreases |file| - current
      {
        var found, node := ParseOne(current);
        ChainStep(file, nodes, current);
        BadByteCases(file, current);
        if !found {
          return false, nodes;
        }
        nodes := nodes + [node];
        var more, byte := ReadByte();
        if !more {
          return true, nodes;
        }
        var told, pos := SafeTell();
        if byte == NODE_START {
          current := pos;
        } else if byte == NODE_END {
          var back := SafeSeek(pos);
          return told && back, nodes;
        } else {
          lastError := InvalidFormat;
          return false, nodes;
        }
      }
    }

    /** Reads one node from behind its start marker to behind its end marker. */
    method ParseOne(start: nat) returns (ok: bool, node: Parsed)
      requires Valid() && cacheIndex != NO_VALID_CACHE
      requires start < |file| && cursor == start + 1
      modifies cachedData, this`lastError, this`cacheIndex, this`cacheOffset, this`cursor
      ensures Valid() && cacheIndex != NO_VALID_CACHE && cursor <= |file|
      ensures ok <==> NodeAt(file, start).Some?
      ensures ok ==> NodeAt(file, start) == Some((node, cursor))
      ensures lastError == if !ok && BadByte(file, start) then InvalidFormat else old(lastError)
      decreases |file| - start, 0
    {
      hide Siblings, NodeAt, After, Scan, Prepend, BlocksOk, BadByte;
      NodeCases(file, start);
      BadByteCases(file, start);
      node := Parsed(start, 0, 0, []);
      var more, byte := ReadByte();
      if !more {
        return false, node;
      }
      node := node.(typ := byte);
      more, byte := ReadToMarker();
      if !more {
        return false, node;
      }
      var told, pos := SafeTell();
      node := node.(propsSize := pos - start - 2);
      if byte == NODE_START {
        var kids;
        BadByteCases(file, pos);
        ok, kids := ParseNode(pos);
        if !ok {
          return false, node;
        }
        node := node.(children := kids);
        // the source loops here: the only marker that can follow is the node's own end
        more, byte := ReadToMarker();
        if !more {
          return false, node;
        }
        assert byte == NODE_END;
      }
      ok := true;
    }

    /** Reads over property bytes, two at a time behind an escape byte, up to and including
        the next marker byte. */
    method ReadToMarker() returns (more: bool, byte: Byte)
      requires Valid() && cacheIndex != NO_VALID_CACHE
      modifies cachedData, this`lastError, this`cacheIndex, this`cacheOffset, this`cursor
      ensures Valid() && cacheIndex != NO_VALID_CACHE && cursor <= |file|
      ensures more <==> Scan(file, old(cursor)).Some?
      ensures more ==> Scan(file, old(cursor)) == Some(cursor - 1) && byte == file[cursor - 1]
      ensures lastError == old(lastError)
    {
      byte := 0;
      assert 0 <= cursor <= |file|;
      hide Valid, Scan;
      while true
        invariant Valid() && cacheIndex != NO_VALID_CACHE
        invariant old(cursor) <= cursor <= |file| && Scan(file, old(cursor)) == Scan(file, cursor)
        invariant lastError == old(lastError)
        decreases |file| - cursor
      {
        ScanStep(file, cursor);
        more, byte := ReadByte();
        if !more {
          return false, byte;
        }
        if byte == NODE_START || byte == NODE_END {
          return true, byte;
        }
        if byte == ESCAPE_CHAR {
          more, byte := ReadByte();
          if !more {
            return false, byte;
          }
        }
      }
    }

    /** Opens the file: four identifier bytes that match or are a wildcard, then a node. */
    method OpenFile(accept: seq<Byte>) returns (ok: bool, nodes: seq<Parsed>)
      requires Valid() && |accept| == 4
      modifies cachedData, this`lastError, this`cacheIndex, this`cacheOffset, this`cursor
      ensures Valid()
      ensures ok <==> Accepted(file, accept) && 4 < |file| && file[4] == NODE_START && Siblings(file, 4).Done?
      ensures ok ==> nodes == Siblings(file, 4).nodes && Readable(file, nodes)
      ensures |file| < 4 ==> lastError == Eof
      ensures 4 <= |file| && !Accepted(file, accept) ==> lastError == InvalidFileVersion
      ensures Accepted(file, accept) ==>
                lastError == if 4 < |file| && file[4] == NODE_START && BadByte(file, 4) then InvalidFormat else old(lastError)
    {
      hide Siblings;
      nodes := [];
      if |file| < 4 {
        lastError := Eof;
        return false, nodes;
      }
      if file[..4] != accept && file[..4] != [0, 0, 0, 0] {
        lastError := InvalidFileVersion;
        return false, nodes;
      }
      ok := SafeSeek(4);
      var more, byte := ReadByte();
      if !more || byte != NODE_START {
        return false, nodes;
      }
      ok, nodes := ParseNode(4);
      if ok {
        ParsedIsReadable(file, 4);
      }
    }

    /** The properties of a node: its raw bytes, unescaped where they lie in the buffer. */
    method GetProps(node: Parsed) returns (ok: bool, size: nat)
      requires Valid()
      requires node.start + 2 + node.propsSize <= |file| && WellEscaped(Raw(file, node))
      modifies cachedData, buffer, this
      ensures Valid() && (buffer == old(buffer) || fresh(buffer))
      ensures ok && size <= buffer.Length && buffer[..size] == Unescape(Raw(file, node))
    {
      hide WellEscaped, Unescape;
      if node.propsSize >= buffer.Length {
        var n := buffer.Length;
        while node.propsSize >= n
          invariant 0 < n
          decreases node.propsSize - n
        {
          n := n * 2;
        }
        buffer := new Byte[n](_ => 0);
      }
      size := 0;
      ok := ReadBytes(node.propsSize, node.start + 2);
      if !ok {
        return;
      }
      size := UnescapeBuffer(node.propsSize);
    }

    /** Walks a sibling chain the way the loaders do, child by child and property by
        property, all through the one shared buffer and the one shared cursor. */
    method ReadTree(ps: seq<Parsed>) returns (ns: seq<Node>)
      requires Valid() && Readable(file, ps)
      modifies cachedData, buffer, this
      ensures Valid() && (buffer == old(buffer) || fresh(buffer))
      ensures ns == Contents(file, ps)
    {
      hide WellEscaped, Unescape;
      ns := [];
      if ps != [] {
        var ok, size := GetProps(ps[0]);
        var props := buffer[..size];
        var kids := ReadTree(ps[0].children);
        var rest := ReadTree(ps[1..]);
        ns := [Node(ps[0].typ, props, kids)] + rest;
      }
    }

    method PutByte(j: nat, b: Byte)
      requires j < buffer.Length
      modifies buffer
      ensures buffer[..j + 1] == old(buffer[..j]) + [b]
      ensures forall k :: j < k < buffer.Length ==> buffer[k] == old(buffer[k])
    {
      buffer[j] := b;
    }

    /** Unescapes the first n buffer bytes in place.  Bytes move only once an escape byte
        has been dropped; until then read and write index agree. */
    method UnescapeBuffer(n: nat) returns (j: nat)
      requires n < buffer.Length && WellEscaped(buffer[..n])
      modifies buffer
      ensures j <= n && buffer[..j] == Unescape(old(buffer[..n]))
    {
      hide WellEscaped, Unescape;
      ghost var raw := buffer[..n];
      var i, escaped := 0, false;
      j := 0;
      assert raw[0..] == raw;
      while i < n
        invariant j <= i <= n
        invariant escaped || i == j
        invariant WellEscaped(raw[i..])
        invariant forall k :: i <= k < n ==> buffer[k] == raw[k]
        invariant buffer[..j] + Unescape(raw[i..]) == Unescape(raw)
      {
        UnescapeStep(raw, i);
        ghost var done := buffer[..j];
        if buffer[i] == ESCAPE_CHAR {
          i := i + 1;
          PutByte(j, buffer[i]);
          escaped := true;
        } else if escaped {
          PutByte(j, buffer[i]);
        }
        i, j := i + 1, j + 1;
        assert buffer[..j] == done + [raw[i - 1]];
        Regroup(done, [raw[i - 1]], Unescape(raw[i..]));
      }
      UnescapeNothing(raw[i..]);
    }
  }

  /** End to end: a file written for any tree is read back as that tree, through the cache. */
  method ReadBack(accept: seq<Byte>, root: Node) returns (ok: bool, tree: seq<Node>)
    requires |accept| == 4
    ensures ok && tree == [root]
  {
    hide *;
    FileRoundTrip(accept, root);
    FourPlus(accept, Encode(root));
    var loader := new FileLoader(accept + Encode(root));
    var nodes;
    ok, nodes := loader.OpenFile(accept);
    tree := loader.ReadTree(nodes);
  }

  lemma {:induction false} FourPlus(a: seq<Byte>, b: seq<Byte>)
    requires |a| == 4
    ensures Accepted(a + b, a)
  {
  }

  /** One byte of the way to the next marker. */
  lemma {:induction false} ScanStep(f: seq<Byte>, q: nat)
    requires q <= |f|
    ensures q == |f| ==> Scan(f, q).None?
    ensures q < |f| && (f[q] == NODE_START || f[q] == NODE_END) ==> Scan(f, q) == Some(q)
    ensures q < |f| && f[q] != NODE_START && f[q] != NODE_END && f[q] != ESCAPE_CHAR ==> Scan(f, q) == Scan(f, q + 1)
    ensures q < |f| && f[q] == ESCAPE_CHAR ==> Scan(f, q) == if q + 1 == |f| then None else Scan(f, q + 2)
  {
  }

  lemma {:induction false} UnescapeNothing(raw: seq<Byte>)
    ensures raw == [] ==> Unescape(raw) == []
  {
  }

  lemma {:induction false} UnescapeStep(raw: seq<Byte>, i: nat)
    requires i < |raw| && WellEscaped(raw[i..])
    ensures raw[i] != ESCAPE_CHAR ==>
              && WellEscaped(raw[i + 1..])
              && Unescape(raw[i..]) == [raw[i]] + Unescape(raw[i + 1..])
    ensures raw[i] == ESCAPE_CHAR ==>
              && i + 1 < |raw| && WellEscaped(raw[i + 2..])
              && Unescape(raw[i..]) == [raw[i + 1]] + Unescape(raw[i + 2..])
  {
    assert raw[i..][1..] == raw[i + 1..];
    if raw[i] == ESCAPE_CHAR {
      assert raw[i..][2..] == raw[i + 2..];
    }
  }

  /** What NodeAt says, case by case of what the reader meets. */
  lemma {:induction false} NodeCases(f: seq<Byte>, start: nat)
    requires start < |f|
    ensures start + 1 == |f| ==> NodeAt(f, start) == None
    ensures start + 1 < |f| && Scan(f, start + 2) == None ==> NodeAt(f, start) == None
    ensures start + 1 < |f| && Scan(f, start + 2).Some? ==>
              var m := Scan(f, start + 2).value;
              var size, typ := m - start - 2, f[start + 1];
              if f[m] == NODE_END then
                NodeAt(f, start) == Some((Parsed(start, size, typ, []), m + 1))
              else if Siblings(f, m).Failed? then
                NodeAt(f, start) == None
              else
                var at := Siblings(f, m).pos;
                if at == |f| then
                  NodeAt(f, start) == None && Scan(f, at) == None
                else
                  && f[at] == NODE_END && Scan(f, at) == Some(at)
                  && NodeAt(f, start) == Some((Parsed(start, size, typ, Siblings(f, m).nodes), at + 1))
  {
  }

  /** Whether a chain meets a byte that is no marker, case by case of what the reader meets. */
  lemma {:induction false} BadByteCases(f: seq<Byte>, start: nat)
    requires start < |f|
    ensures NodeAt(f, start).Some? ==>
              var e := NodeAt(f, start).value.1;
              BadByte(f, start) == (e < |f| && f[e] != NODE_END && (f[e] != NODE_START || BadByte(f, e)))
    ensures NodeAt(f, start).None? ==>
              BadByte(f, start) == (start + 1 < |f| && Scan(f, start + 2).Some? && f[Scan(f, start + 2).value] == NODE_START
                                    && BadByte(f, Scan(f, start + 2).value))
    ensures BadByte(f, start) ==> Siblings(f, start).Failed?
  {
    if BadByte(f, start) { BadByteFails(f, start); }
  }

  lemma {:induction false} PrependNothing(r: Outcome)
    ensures r == Prepend([], r)
  {
  }

  /** What a chain is, case by case of what stands behind its first node. */
  lemma {:induction false} ChainStep(f: seq<Byte>, done: seq<Parsed>, start: nat)
    requires start < |f|
    ensures var whole := Prepend(done, Siblings(f, start));
            if NodeAt(f, start).None? then
              whole == Failed
            else
              var (node, e) := NodeAt(f, start).value;
              if e == |f| || f[e] == NODE_END then whole == Done(done + [node], e)
              else if f[e] == NODE_START then whole == Prepend(done + [node], Siblings(f, e))
              else whole == Failed
  {
    if NodeAt(f, start).Some? {
      var (node, e) := NodeAt(f, start).value;
      if e < |f| && f[e] == NODE_START && Siblings(f, e).Done? {
        assert done + ([node] + Siblings(f, e).nodes) == (done + [node]) + Siblings(f, e).nodes;
      }
    }
  }
}
