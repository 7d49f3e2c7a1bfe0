/**
  The OTB node file format: a tree of nodes, each with a type byte and a run of property
  bytes, written between two marker bytes with an escape byte in front of any property
  byte that looks like a marker.  This module holds the values: the encoder, the grammar
  that the reader in `OtbReader` recognises, and the round trip between them.
 */
module OtbFormat {

  import opened Basics

  type Byte = b: int | 0 <= b < 256

  const ESCAPE_CHAR: Byte := 0xFD
  const NODE_START: Byte := 0xFE
  const NODE_END: Byte := 0xFF

  /** A node as the author of a file means it. */
  datatype Node = Node(typ: Byte, props: seq<Byte>, children: seq<Node>)

  /** A node as the reader leaves it: where it starts and how long its raw properties are.
      A sibling chain (`next`) is a sequence, and `child` is the head of `children`. */
  datatype Parsed = Parsed(start: nat, propsSize: nat, typ: Byte, children: seq<Parsed>)

  /** What reading a sibling chain gives: the nodes and the cursor after them. */
  datatype Outcome = Failed | Done(nodes: seq<Parsed>, pos: nat)

  // ---------- encoding ----------

  function Escape(p: seq<Byte>): (r: seq<Byte>) {
    if p == [] then []
    else (if p[0] >= ESCAPE_CHAR then [ESCAPE_CHAR, p[0]] else [p[0]]) + Escape(p[1..])
  }

  function Encode(n: Node): seq<Byte> {
    [NODE_START, n.typ] + Escape(n.props) + EncodeAll(n.children) + [NODE_END]
  }

  function EncodeAll(ns: seq<Node>): seq<Byte> {
    if ns == [] then [] else Encode(ns[0]) + EncodeAll(ns[1..])
  }

  // ---------- reading ----------

  /** Drops each escape byte and keeps the byte it protects. */
  function Unescape(raw: seq<Byte>): seq<Byte> {
    if raw == [] then []
    else if raw[0] != ESCAPE_CHAR then [raw[0]] + Unescape(raw[1..])
    else if |raw| == 1 then []
    else [raw[1]] + Unescape(raw[2..])
  }

  /** Every escape byte has a byte to protect. */
  predicate WellEscaped(raw: seq<Byte>) {
    if raw == [] then true
    else if raw[0] != ESCAPE_CHAR then WellEscaped(raw[1..])
    else |raw| >= 2 && WellEscaped(raw[2..])
  }

  /** The first marker byte at or after `q` that is not protected by an escape byte. */
  function Scan(f: seq<Byte>, q: nat): (r: Option<nat>)
    requires q <= |f|
    ensures r.Some? ==> q <= r.value < |f| && (f[r.value] == NODE_START || f[r.value] == NODE_END)
    decreases |f| - q
  {
    if q == |f| then None
    else if f[q] == NODE_START || f[q] == NODE_END then Some(q)
    else if f[q] != ESCAPE_CHAR then Scan(f, q + 1)
    else if q + 1 == |f| then None
    else Scan(f, q + 2)
  }

  /** The sibling chain whose first start marker is at `start`.  A chain ends in front of
      an end marker (its parent's) or at the end of the file. */
  function Siblings(f: seq<Byte>, start: nat): (r: Outcome)
    requires start < |f|
    ensures r.Done? ==> start < r.pos <= |f| && |r.nodes| > 0
    ensures r.Done? && r.pos < |f| ==> f[r.pos] == NODE_END
    decreases |f| - start, 2
  {
    var first := NodeAt(f, start);
    if first.None? then Failed else After(f, first.value.0, first.value.1)
  }

  /** The node whose start marker is at `start`, and the position behind its end marker. */
  function NodeAt(f: seq<Byte>, start: nat): (r: Option<(Parsed, nat)>)
    requires start < |f|
    ensures r.Some? ==> start + 1 < r.value.1 <= |f|
    decreases |f| - start, 1
  {
    if start + 1 == |f| then None else
    var mark := Scan(f, start + 2);
    if mark.None? then None else
    var m := mark.value;
    var kids := if f[m] == NODE_START then Siblings(f, m) else Done([], m);
    if kids.Failed? || kids.pos == |f| then None else
    Some((Parsed(start, m - start - 2, f[start + 1], kids.nodes), kids.pos + 1))
  }

  /** Reading on behind a complete node whose end marker is the byte before `e`. */
  function After(f: seq<Byte>, node: Parsed, e: nat): (r: Outcome)
    requires 0 < e <= |f|
    ensures r.Done? ==> e <= r.pos <= |f| && |r.nodes| > 0
    ensures r.Done? && r.pos < |f| ==> f[r.pos] == NODE_END
    decreases |f| - e, 3
  {
    if e == |f| || f[e] == NODE_END then Done([node], e)
    else if f[e] == NODE_START then Prepend([node], Siblings(f, e))
    else Failed
  }

  function Prepend(ns: seq<Parsed>, r: Outcome): Outcome {
    if r.Failed? then Failed else Done(ns + r.nodes, r.pos)
  }

  /** The property bytes of a parsed node, still escaped. */
  function Raw(f: seq<Byte>, p: Parsed): seq<Byte>
    requires p.start + 2 + p.propsSize <= |f|
  {
    f[p.start + 2..p.start + 2 + p.propsSize]
  }

  /** Every node of the chain lies in the file and can be unescaped, so that its
      properties can be read. */
  predicate Readable(f: seq<Byte>, ps: seq<Parsed>) {
    ps == [] ||
    (&& ps[0].start + 2 + ps[0].propsSize <= |f|
     && WellEscaped(Raw(f, ps[0]))
     && Readable(f, ps[0].children)
     && Readable(f, ps[1..]))
  }

  /** The tree a client sees by walking the chain and reading each node's properties. */
  function Contents(f: seq<Byte>, ps: seq<Parsed>): seq<Node>
    requires Readable(f, ps)
  {
    if ps == [] then []
    else [Node(ps[0].typ, Unescape(Raw(f, ps[0])), Contents(f, ps[0].children))]
         + Contents(f, ps[1..])
  }

  // ---------- whatever is parsed can be read ----------

  lemma {:induction false} WellEscapedUpTo(f: seq<Byte>, q: nat, m: nat)
    requires q <= |f| && Scan(f, q) == Some(m)
    ensures q <= m < |f| && WellEscaped(f[q..m])
    decreases |f| - q
  {
    if f[q] == NODE_START || f[q] == NODE_END {
    } else if f[q] != ESCAPE_CHAR {
      WellEscapedUpTo(f, q + 1, m);
      assert f[q..m][1..] == f[q + 1..m];
    } else {
      WellEscapedUpTo(f, q + 2, m);
      assert f[q..m][2..] == f[q + 2..m];
    }
  }

  /** On every file, well formed or not, the nodes of a successful parse are readable. */
  lemma {:induction false} ParsedIsReadable(f: seq<Byte>, start: nat)
    requires start < |f| && Siblings(f, start).Done?
    ensures Readable(f, Siblings(f, start).nodes)
    decreases |f| - start
  {
    var m := Scan(f, start + 2).value;
    WellEscapedUpTo(f, start + 2, m);
    if f[m] == NODE_START {
      ParsedIsReadable(f, m);
    }
    var (node, e) := NodeAt(f, start).value;
    assert [node][1..] == [];
    assert Readable(f, [node]) by {
      assert Raw(f, node) == f[start + 2..m];
    }
    if e < |f| && f[e] == NODE_START {
      ParsedIsReadable(f, e);
      ChainCons(f, node, Siblings(f, e).nodes);
    }
  }

  // ---------- round trip ----------

  lemma {:induction false} UnescapeEscape(p: seq<Byte>)
    ensures Unescape(Escape(p)) == p
    ensures WellEscaped(Escape(p))
  {
    if p != [] {
      UnescapeEscape(p[1..]);
      if p[0] >= ESCAPE_CHAR {
        assert Escape(p)[2..] == Escape(p[1..]);
      } else {
        assert Escape(p)[1..] == Escape(p[1..]);
      }
    }
  }

  /** The reader runs over escaped properties without stopping inside them. */
  lemma {:induction false} ScanSkipsEscaped(f: seq<Byte>, q: nat, p: seq<Byte>)
    requires q + |Escape(p)| < |f|
    requires f[q..q + |Escape(p)|] == Escape(p)
    requires f[q + |Escape(p)|] == NODE_START || f[q + |Escape(p)|] == NODE_END
    ensures Scan(f, q) == Some(q + |Escape(p)|)
    decreases |p|
  {
    if p != [] {
      var e := Escape(p);
      assert f[q] == f[q..q + |e|][0];
      if p[0] >= ESCAPE_CHAR {
        assert f[q + 2..q + 2 + |Escape(p[1..])|] == f[q..q + |e|][2..] == Escape(p[1..]);
        ScanSkipsEscaped(f, q + 2, p[1..]);
      } else {
        assert f[q + 1..q + 1 + |Escape(p[1..])|] == f[q..q + |e|][1..] == Escape(p[1..]);
        ScanSkipsEscaped(f, q + 1, p[1..]);
      }
    }
  }

  lemma {:induction false} Slices<T>(f: seq<T>, at: nat, a: seq<T>, b: seq<T>)
    requires at + |a| + |b| <= |f| && f[at..at + |a| + |b|] == a + b
    ensures f[at..at + |a|] == a
    ensures f[at + |a|..at + |a| + |b|] == b
  {
    assert f[at..at + |a|] == f[at..at + |a| + |b|][..|a|];
    assert f[at + |a|..at + |a| + |b|] == f[at..at + |a| + |b|][|a|..];
  }

  lemma {:induction false} EncodeIs(n: Node)
    ensures Encode(n) == [NODE_START, n.typ] + (Escape(n.props) + (EncodeAll(n.children) + [NODE_END]))
  {
    hide Escape, EncodeAll;
  }

  /** Where the parts of one encoded node lie. */
  lemma {:induction false} NodeSlices(f: seq<Byte>, at: nat, n: Node)
    requires at + |Encode(n)| <= |f| && f[at..at + |Encode(n)|] == Encode(n)
    ensures f[at] == NODE_START && f[at + 1] == n.typ
    ensures var p := at + 2; var c := p + |Escape(n.props)|; var e := c + |EncodeAll(n.children)|;
            && at + |Encode(n)| == e + 1
            && f[p..c] == Escape(n.props)
            && f[c..e] == EncodeAll(n.children)
            && f[e] == NODE_END
  {
    var a, b, c := [NODE_START, n.typ], Escape(n.props), EncodeAll(n.children);
    EncodeIs(n);
    hide Encode, Escape, EncodeAll;
    Slices(f, at, a, b + (c + [NODE_END]));
    Slices(f, at + 2, b, c + [NODE_END]);
    Slices(f, at + 2 + |b|, c, [NODE_END]);
    assert f[at] == f[at..at + 2][0] && f[at + 1] == f[at..at + 2][1];
    var e := at + 2 + |b| + |c|;
    assert f[e] == f[e..e + 1][0];
  }

  lemma {:induction false} EncodeAllStarts(ns: seq<Node>)
    requires ns != []
    ensures |EncodeAll(ns)| > 0 && EncodeAll(ns)[0] == NODE_START
  {
  }

  /** The encoding of one node, anywhere in a file, parses back to that node. */
  lemma {:induction false} NodeRoundTrip(f: seq<Byte>, at: nat, n: Node)
    requires at + |Encode(n)| <= |f| && f[at..at + |Encode(n)|] == Encode(n)
    ensures at < |f| && NodeAt(f, at).Some?
    ensures var (p, e) := NodeAt(f, at).value;
            e == at + |Encode(n)| && Readable(f, [p]) && Contents(f, [p]) == [n]
    decreases n, 0
  {
    hide Encode, EncodeAll, Escape, Unescape, WellEscaped, Scan, Siblings, NodeAt, Readable, Contents;
    NodeSlices(f, at, n);
    var c := at + 2 + |Escape(n.props)|;
    var e := c + |EncodeAll(n.children)|;
    var kids: seq<Parsed> := [];
    NothingReadable(f);
    if n.children != [] {
      EncodeAllStarts(n.children);
      assert f[c] == f[c..e][0];
      ChainRoundTrip(f, c, n.children);
      kids := Siblings(f, c).nodes;
    } else {
      EncodeNothing();
    }
    ScanSkipsEscaped(f, at + 2, n.props);
    UnescapeEscape(n.props);
    NodeAtIs(f, at, c, kids, e);
    ReadableIs(f, Parsed(at, c - at - 2, f[at + 1], kids), []);
  }

  lemma {:induction false} EncodeNothing()
    ensures EncodeAll([]) == []
  {
  }

  lemma {:induction false} NothingReadable(f: seq<Byte>)
    ensures Readable(f, []) && Contents(f, []) == []
  {
  }

  /** The node that starts at a marker, from the marker behind its properties and from its children. */
  lemma {:induction false} NodeAtIs(f: seq<Byte>, at: nat, m: nat, kids: seq<Parsed>, pos: nat)
    requires at + 1 < |f| && at + 2 <= m <= pos < |f| && Scan(f, at + 2) == Some(m)
    requires if f[m] == NODE_START then Siblings(f, m) == Done(kids, pos) else kids == [] && pos == m
    ensures NodeAt(f, at) == Some((Parsed(at, m - at - 2, f[at + 1], kids), pos + 1))
  {
    hide Scan, Siblings;
  }

  /** A chain can be read if its first node and the others can, and its contents are theirs. */
  lemma {:induction false} ReadableIs(f: seq<Byte>, p: Parsed, ps: seq<Parsed>)
    requires p.start + 2 + p.propsSize <= |f| && WellEscaped(Raw(f, p)) && Readable(f, p.children) && Readable(f, ps)
    ensures Readable(f, [p]) && Readable(f, [p] + ps)
    ensures Contents(f, [p]) == [Node(p.typ, Unescape(Raw(f, p)), Contents(f, p.children))]
    ensures Contents(f, [p] + ps) == Contents(f, [p]) + Contents(f, ps)
  {
    hide WellEscaped, Unescape;
    assert ([p] + ps)[1..] == ps && [p][1..] == [];
  }

  /** The encoding of a sibling chain, anywhere in a file, parses back to that chain. */
  lemma {:induction false} ChainRoundTrip(f: seq<Byte>, at: nat, ns: seq<Node>)
    requires ns != []
    requires at + |EncodeAll(ns)| <= |f| && f[at..at + |EncodeAll(ns)|] == EncodeAll(ns)
    requires at + |EncodeAll(ns)| < |f| ==> f[at + |EncodeAll(ns)|] == NODE_END
    ensures at < |f|
    ensures Siblings(f, at).Done? && Siblings(f, at).pos == at + |EncodeAll(ns)|
    ensures Readable(f, Siblings(f, at).nodes)
    ensures Contents(f, Siblings(f, at).nodes) == ns
    decreases ns, 1
  {
    hide Encode, EncodeAll, NodeAt, Siblings, Readable, Contents;
    var n, rest := ns[0], ns[1..];
    ChainSlices(f, at, ns);
    NodeRoundTrip(f, at, n);
    var (p, e) := NodeAt(f, at).value;
    SiblingsIs(f, at, p, e);
    if rest != [] {
      ChainRoundTrip(f, e, rest);
      ChainCons(f, p, Siblings(f, e).nodes);
    }
  }

  /** Where the first node of an encoded chain and the others lie. */
  lemma {:induction false} ChainSlices(f: seq<Byte>, at: nat, ns: seq<Node>)
    requires ns != []
    requires at + |EncodeAll(ns)| <= |f| && f[at..at + |EncodeAll(ns)|] == EncodeAll(ns)
    ensures var e := at + |Encode(ns[0])|;
            && ns == [ns[0]] + ns[1..] && e + |EncodeAll(ns[1..])| == at + |EncodeAll(ns)|
            && f[at..e] == Encode(ns[0]) && f[e..e + |EncodeAll(ns[1..])|] == EncodeAll(ns[1..])
            && (ns[1..] == [] ==> EncodeAll(ns[1..]) == [])
            && (ns[1..] != [] ==> e < |f| && f[e] == NODE_START)
  {
    hide Encode, EncodeAll;
    EncodeMore(ns);
    var rest := ns[1..];
    var e := at + |Encode(ns[0])|;
    Slices(f, at, Encode(ns[0]), EncodeAll(rest));
    if rest != [] {
      EncodeAllStarts(rest);
      assert f[e] == f[e..e + |EncodeAll(rest)|][0];
    }
  }

  lemma {:induction false} EncodeMore(ns: seq<Node>)
    requires ns != []
    ensures EncodeAll(ns) == Encode(ns[0]) + EncodeAll(ns[1..]) && ns == [ns[0]] + ns[1..]
    ensures ns[1..] == [] ==> EncodeAll(ns[1..]) == []
  {
    hide Encode;
  }

  /** A chain from its first node on. */
  lemma {:induction false} SiblingsIs(f: seq<Byte>, at: nat, p: Parsed, e: nat)
    requires at < |f| && NodeAt(f, at) == Some((p, e)) && 0 < e <= |f|
    ensures e == |f| || f[e] == NODE_END ==> Siblings(f, at) == Done([p], e)
    ensures e < |f| && f[e] == NODE_START && Siblings(f, e).Done? ==>
              Siblings(f, at) == Done([p] + Siblings(f, e).nodes, Siblings(f, e).pos)
  {
    hide NodeAt;
  }

  lemma {:induction false} ChainCons(f: seq<Byte>, p: Parsed, ps: seq<Parsed>)
    requires Readable(f, [p]) && Readable(f, ps)
    ensures Readable(f, [p] + ps)
    ensures Contents(f, [p] + ps) == Contents(f, [p]) + Contents(f, ps)
  {
    ReadableMeans(f, p);
    hide Readable, Contents;
    ReadableIs(f, p, ps);
  }

  lemma {:induction false} ReadableMeans(f: seq<Byte>, p: Parsed)
    requires Readable(f, [p])
    ensures p.start + 2 + p.propsSize <= |f| && WellEscaped(Raw(f, p)) && Readable(f, p.children)
  {
    hide WellEscaped;
  }

  /** A whole file: four identifier bytes and one root node. */
  lemma {:induction false} FileRoundTrip(identifier: seq<Byte>, root: Node)
    requires |identifier| == 4
    ensures var f := identifier + Encode(root);
            && f[4] == NODE_START
            && Siblings(f, 4).Done? && Siblings(f, 4).pos == |f|
            && Readable(f, Siblings(f, 4).nodes)
            && Contents(f, Siblings(f, 4).nodes) == [root]
  {
    var f := identifier + Encode(root);
    assert EncodeAll([root]) == Encode(root) + EncodeAll([]) == Encode(root);
    assert f[4..4 + |EncodeAll([root])|] == EncodeAll([root]);
    ChainRoundTrip(f, 4, [root]);
  }

  // ---------- exactly what is parsed ----------

  predicate Marker(b: Byte) { b == NODE_START || b == NODE_END }

  /** Escaped bytes among which no marker stands bare. */
  predicate Clean(raw: seq<Byte>) {
    if raw == [] then true
    else if Marker(raw[0]) then false
    else if raw[0] != ESCAPE_CHAR then Clean(raw[1..])
    else |raw| >= 2 && Clean(raw[2..])
  }

  /** The scan stops at a marker exactly if what stands before it is clean. */
  lemma {:induction false} ScansExactly(f: seq<Byte>, q: nat, m: nat)
    requires q <= m < |f|
    ensures Scan(f, q) == Some(m) <==> Clean(f[q..m]) && Marker(f[m])
    decreases m - q
  {
    if q < m {
      assert f[q..m][0] == f[q];
      if f[q] != ESCAPE_CHAR {
        assert f[q..m][1..] == f[q + 1..m];
        ScansExactly(f, q + 1, m);
      } else if q + 2 <= m {
        assert f[q..m][2..] == f[q + 2..m];
        ScansExactly(f, q + 2, m);
      } else {
        ScanBeyond(f, q + 2);
      }
    }
  }

  lemma {:induction false} ScanBeyond(f: seq<Byte>, q: nat)
    ensures q <= |f| && Scan(f, q).Some? ==> q <= Scan(f, q).value
  {
  }

  /** The bytes of a parsed node and of a chain. */
  function Length(p: Parsed): nat { 3 + p.propsSize + LengthAll(p.children) }

  function LengthAll(ps: seq<Parsed>): nat {
    if ps == [] then 0 else Length(ps[0]) + LengthAll(ps[1..])
  }

  /** The node stands at `at`: start marker, type, clean properties, children, end marker. */
  predicate StandsAt(f: seq<Byte>, p: Parsed, at: nat)
    decreases p, 0
  {
    var kids := at + 2 + p.propsSize;
    && p.start == at && at + Length(p) <= |f| && f[at] == NODE_START && f[at + 1] == p.typ
    && Clean(f[at + 2..kids]) && StandAt(f, p.children, kids) && f[at + Length(p) - 1] == NODE_END
  }

  /** The nodes stand one behind the other. */
  predicate StandAt(f: seq<Byte>, ps: seq<Parsed>, at: nat)
    decreases ps, 1
  {
    ps == [] || (StandsAt(f, ps[0], at) && StandAt(f, ps[1..], at + Length(ps[0])))
  }

  /** A chain that stands in the file is parsed, behind it is an end marker or the end of the file. */
  ghost predicate IsChain(f: seq<Byte>, ps: seq<Parsed>, at: nat, pos: nat) {
    && ps != [] && StandAt(f, ps, at) && pos == at + LengthAll(ps) <= |f| && (pos < |f| ==> f[pos] == NODE_END)
  }

  /** Parsing accepts exactly what stands in the file, whatever the file, and gives just that. */
  lemma {:induction false} ParsesExactly(f: seq<Byte>, at: nat, ps: seq<Parsed>, pos: nat)
    requires at < |f| && f[at] == NODE_START
    ensures Siblings(f, at) == Done(ps, pos) <==> IsChain(f, ps, at, pos)
  {
    if Siblings(f, at) == Done(ps, pos) {
      ParsedStands(f, at);
    }
    if IsChain(f, ps, at, pos) {
      StandingIsParsed(f, at, ps);
    }
  }

  lemma {:induction false} ParsedStands(f: seq<Byte>, at: nat)
    requires at < |f| && f[at] == NODE_START && Siblings(f, at).Done?
    ensures IsChain(f, Siblings(f, at).nodes, at, Siblings(f, at).pos)
    decreases |f| - at, 1
  {
    NodeStands(f, at);
    var (p, e) := NodeAt(f, at).value;
    hide NodeAt, StandsAt, Length;
    ChainOf(p, []);
    if e < |f| && f[e] == NODE_START {
      ParsedStands(f, e);
      ChainOf(p, Siblings(f, e).nodes);
    }
  }

  lemma {:induction false} ChainOf(p: Parsed, ps: seq<Parsed>)
    ensures LengthAll([p] + ps) == Length(p) + LengthAll(ps) && LengthAll([p]) == Length(p)
    ensures forall f, at: nat :: StandAt(f, [p] + ps, at) <==> StandsAt(f, p, at) && StandAt(f, ps, at + Length(p))
    ensures forall f, at: nat :: StandAt(f, [p], at) <==> StandsAt(f, p, at)
  {
    assert ([p] + ps)[1..] == ps && [p][1..] == [];
    hide StandsAt, Length;
  }

  lemma {:induction false} NodeStands(f: seq<Byte>, at: nat)
    requires at < |f| && f[at] == NODE_START && NodeAt(f, at).Some?
    ensures var (p, e) := NodeAt(f, at).value; StandsAt(f, p, at) && e == at + Length(p)
    decreases |f| - at, 0
  {
    var m := Scan(f, at + 2).value;
    ScansExactly(f, at + 2, m);
    if f[m] == NODE_START {
      ParsedStands(f, m);
    }
  }

  lemma {:induction false} StandingIsParsed(f: seq<Byte>, at: nat, ps: seq<Parsed>)
    requires at < |f| && ps != [] && StandAt(f, ps, at) && at + LengthAll(ps) <= |f|
    requires at + LengthAll(ps) < |f| ==> f[at + LengthAll(ps)] == NODE_END
    ensures Siblings(f, at) == Done(ps, at + LengthAll(ps))
    decreases ps, 1
  {
    hide NodeAt, Length, StandsAt;
    StandingNode(f, at, ps[0]);
    var e := at + Length(ps[0]);
    assert ps == [ps[0]] + ps[1..];
    if ps[1..] != [] {
      StandsMeans(f, ps[1], e);
      StandingIsParsed(f, e, ps[1..]);
    }
    SiblingsIs(f, at, ps[0], e);
  }

  lemma {:induction false} StandsMeans(f: seq<Byte>, p: Parsed, at: nat)
    requires StandsAt(f, p, at)
    ensures at + Length(p) <= |f| && at + 2 < |f| && f[at] == NODE_START
  {
  }

  lemma {:induction false} StandingNode(f: seq<Byte>, at: nat, p: Parsed)
    requires StandsAt(f, p, at)
    ensures at < |f| && NodeAt(f, at) == Some((p, at + Length(p)))
    decreases p, 0
  {
    var m := at + 2 + p.propsSize;
    assert m < |f|;
    var pos := at + Length(p) - 1;
    hide StandsAt;
    if p.children != [] {
      StandsMeans(f, p.children[0], m);
      StandingIsParsed(f, m, p.children);
    }
    ScansExactly(f, at + 2, m);
    NodeAtIs(f, at, m, p.children, pos);
  }

  /** A chain fails because what stands behind a complete node is no marker. */
  function BadByte(f: seq<Byte>, start: nat): bool
    requires start < |f|
    decreases |f| - start
  {
    var first := NodeAt(f, start);
    if first.None? then
      var mark := if start + 1 < |f| then Scan(f, start + 2) else None;
      mark.Some? && f[mark.value] == NODE_START && BadByte(f, mark.value)
    else
      var e := first.value.1;
      e < |f| && f[e] != NODE_END && (f[e] != NODE_START || BadByte(f, e))
  }

  /** Such a chain is not parsed. */
  lemma {:induction false} BadByteFails(f: seq<Byte>, start: nat)
    requires start < |f| && BadByte(f, start)
    ensures Siblings(f, start).Failed?
    decreases |f| - start
  {
    var first := NodeAt(f, start);
    if first.Some? && f[first.value.1] == NODE_START {
      BadByteFails(f, first.value.1);
    }
  }

  // ---------- exactly what unescaping gives ----------

  /** Unescaping goes byte by byte: a plain byte stays, an escaped one loses its escape byte. */
  lemma {:induction false} UnescapeJoin(a: seq<Byte>, b: seq<Byte>)
    requires WellEscaped(a)
    ensures Unescape(a + b) == Unescape(a) + Unescape(b)
    decreases |a|
  {
    if a == [] {
      assert a + b == b;
    } else if a[0] != ESCAPE_CHAR {
      assert (a + b)[1..] == a[1..] + b;
      UnescapeJoin(a[1..], b);
    } else {
      assert (a + b)[2..] == a[2..] + b;
      UnescapeJoin(a[2..], b);
    }
  }

  lemma {:induction false} UnescapeOne(b: Byte)
    ensures b != ESCAPE_CHAR ==> Unescape([b]) == [b]
    ensures Unescape([ESCAPE_CHAR, b]) == [b]
  {
  }
}
