/**
  Saving a player's items as database rows and rebuilding them: every item gets a running
  number (sid), every row names the number of the container it lies in (pid), numbers up
  to 100 being kept for inventory slots and depots.
 */
module ItemRows {
  import opened ItemTree

  /** Numbers up to this one are slots and depots; items are numbered above it. */
  const RESERVED := 100

  datatype Row = Row(pid: int, sid: int, record: Record)

  /** An item to save, with the slot or depot it lies in. */
  datatype Placed = Placed(pid: int, item: Tree)

  function Items(ps: seq<Placed>): seq<Tree> {
    if ps == [] then [] else [ps[0].item] + Items(ps[1..])
  }

  lemma {:induction false} ItemsAt(ps: seq<Placed>)
    ensures |Items(ps)| == |ps| && forall i :: 0 <= i < |ps| ==> Items(ps)[i] == ps[i].item
  {
    if ps != [] {
      ItemsAt(ps[1..]);
    }
  }

  /** Only containers hold items. */
  predicate Plain(ts: seq<Tree>) {
    forall i :: 0 <= i < |ts| ==> PlainTree(ts[i])
  }

  predicate PlainTree(t: Tree) {
    (t.contents != [] ==> t.record.container) && Plain(t.contents)
  }

  /** Of the items from row k on, those lying in `pid`, in row order. */
  function Lying(rows: seq<Row>, nodes: seq<Tree>, k: nat, pid: int): seq<Tree>
    requires |rows| == |nodes| && k <= |rows|
    decreases |rows| - k
  {
    if k == |rows| then []
    else (if rows[k].pid == pid then [nodes[k]] else []) + Lying(rows, nodes, k + 1, pid)
  }

  lemma {:induction false} LyingStep(rows: seq<Row>, nodes: seq<Tree>, k: nat, pid: int)
    requires |rows| == |nodes| && k <= |rows|
    ensures Lying(rows, nodes, k, pid) ==
            if k == |rows| then [] else (if rows[k].pid == pid then [nodes[k]] else []) + Lying(rows, nodes, k + 1, pid)
  {
  }

  lemma {:induction false} LyingAppend(rows: seq<Row>, nodes: seq<Tree>, k: nat, pid: int, r: Row, t: Tree)
    requires |rows| == |nodes| && k <= |rows|
    ensures Lying(rows + [r], nodes + [t], k, pid)
         == Lying(rows, nodes, k, pid) + (if r.pid == pid then [t] else [])
    decreases |rows| - k
  {
    hide Lying;
    LyingStep(rows, nodes, k, pid);
    LyingStep(rows + [r], nodes + [t], k, pid);
    if k == |rows| {
      LyingStep(rows + [r], nodes + [t], k + 1, pid);
    } else {
      LyingAppend(rows, nodes, k + 1, pid, r, t);
    }
  }

  /** Nothing lies in a number that no row names. */
  lemma {:induction false} LyingNowhere(rows: seq<Row>, nodes: seq<Tree>, k: nat, pid: int)
    requires |rows| == |nodes| && k <= |rows|
    requires forall i :: k <= i < |rows| ==> rows[i].pid != pid
    ensures Lying(rows, nodes, k, pid) == []
    decreases |rows| - k
  {
    if k < |rows| {
      LyingNowhere(rows, nodes, k + 1, pid);
    }
  }

  // ---------- saving ----------

  /** Row i describes node i, carries its number, and names a number written before it. */
  predicate Numbered(rows: seq<Row>, nodes: seq<Tree>) {
    && |rows| == |nodes|
    && forall i :: 0 <= i < |rows| ==>
         rows[i].sid == RESERVED + 1 + i && rows[i].record == nodes[i].record && rows[i].pid < rows[i].sid
  }

  /** The rows spell out the whole forest. */
  ghost predicate Saved(ps: seq<Placed>, rows: seq<Row>, nodes: seq<Tree>) {
    && Numbered(rows, nodes)
    && |ps| <= |rows|
    && (forall i :: 0 <= i < |ps| ==> rows[i].pid == ps[i].pid && nodes[i] == ps[i].item)
    && (forall i :: |ps| <= i < |rows| ==> rows[i].pid > RESERVED)
    && (forall i :: 0 <= i < |rows| ==> Lying(rows, nodes, 0, rows[i].sid) == nodes[i].contents)
  }

  /** A container whose contents are still to be written, with its number. */
  datatype Block = Block(container: Tree, id: int)

  function IdOf(i: int): int { RESERVED + 1 + i }

  /** The containers among the nodes from index k on. */
  function Pending(nodes: seq<Tree>, k: nat): seq<Block>
    requires k <= |nodes|
    decreases |nodes| - k
  {
    if k == |nodes| then []
    else (if nodes[k].record.container then [Block(nodes[k], IdOf(k))] else []) + Pending(nodes, k + 1)
  }

  lemma {:induction false} PendingStep(nodes: seq<Tree>, k: nat)
    requires k <= |nodes|
    ensures Pending(nodes, k) ==
            if k == |nodes| then []
            else (if nodes[k].record.container then [Block(nodes[k], IdOf(k))] else []) + Pending(nodes, k + 1)
  {
  }

  lemma {:induction false} PendingAppend(nodes: seq<Tree>, k: nat, t: Tree)
    requires k <= |nodes|
    ensures Pending(nodes + [t], k)
         == Pending(nodes, k) + (if t.record.container then [Block(t, IdOf(|nodes|))] else [])
    decreases |nodes| - k
  {
    hide Pending;
    PendingStep(nodes, k);
    PendingStep(nodes + [t], k);
    if k == |nodes| {
      PendingStep(nodes + [t], k + 1);
    } else {
      PendingAppend(nodes, k + 1, t);
    }
  }

  /** The first pending container, if any, and what is pending behind it. */
  lemma {:induction false} FirstPending(nodes: seq<Tree>, k: nat) returns (j: nat)
    requires k <= |nodes|
    ensures k <= j <= |nodes|
    ensures forall i :: k <= i < j ==> !nodes[i].record.container
    ensures j == |nodes| ==> Pending(nodes, k) == []
    ensures j < |nodes| ==> Pending(nodes, k) == [Block(nodes[j], IdOf(j))] + Pending(nodes, j + 1)
    decreases |nodes| - k
  {
    hide Pending;
    PendingStep(nodes, k);
    j := k;
    if k < |nodes| && !nodes[k].record.container {
      j := FirstPending(nodes, k + 1);
    }
  }

  /** Everything in the containers before node `open` is written, `given` of what node
      `open` holds, and nothing of what later ones hold. */
  ghost predicate Writing(rows: seq<Row>, nodes: seq<Tree>, open: int, given: seq<Tree>) {
    && Numbered(rows, nodes) && Plain(nodes)
    && -1 <= open < |nodes|
    && forall i :: 0 <= i < |nodes| ==>
         Lying(rows, nodes, 0, IdOf(i)) ==
           if i < open then nodes[i].contents else if i == open then given else []
  }

  /** Writing one more row, for a slot or for the open container. */
  lemma {:induction false} WriteRow(rows: seq<Row>, nodes: seq<Tree>, open: int, given: seq<Tree>, pid: int, t: Tree)
    requires Writing(rows, nodes, open, given) && PlainTree(t)
    requires if open == -1 then pid <= RESERVED else pid == IdOf(open)
    ensures Writing(rows + [Row(pid, IdOf(|rows|), t.record)], nodes + [t], open,
                    if open == -1 then given else given + [t])
  {
    var r := Row(pid, IdOf(|rows|), t.record);
    forall i | 0 <= i < |nodes + [t]|
      ensures Lying(rows + [r], nodes + [t], 0, IdOf(i)) ==
                if i < open then nodes[i].contents
                else if i == open then given + [t]
                else []
    {
      LyingAppend(rows, nodes, 0, IdOf(i), r, t);
      if i == |nodes| {
        LyingNowhere(rows, nodes, 0, IdOf(i));
      }
    }
  }

  /** The open container is full: the next one is opened. */
  lemma {:induction false} OpenNext(rows: seq<Row>, nodes: seq<Tree>, open: int, given: seq<Tree>, next: nat)
    requires Writing(rows, nodes, open, given) && (open >= 0 ==> given == nodes[open].contents)
    requires open < next < |nodes| && forall i :: open < i < next ==> !nodes[i].record.container
    ensures Writing(rows, nodes, next, [])
  {
    forall i | open < i < next
      ensures nodes[i].contents == []
    {
      assert PlainTree(nodes[i]);
    }
  }

  /** No container is left. */
  lemma {:induction false} AllWritten(rows: seq<Row>, nodes: seq<Tree>, open: int, given: seq<Tree>)
    requires Writing(rows, nodes, open, given) && (open >= 0 ==> given == nodes[open].contents)
    requires forall i :: open < i < |nodes| ==> !nodes[i].record.container
    ensures forall i :: 0 <= i < |rows| ==> Lying(rows, nodes, 0, rows[i].sid) == nodes[i].contents
  {
    forall i | 0 <= i < |rows|
      ensures Lying(rows, nodes, 0, rows[i].sid) == nodes[i].contents
    {
      assert PlainTree(nodes[i]);
      assert Lying(rows, nodes, 0, IdOf(i)) == nodes[i].contents;
    }
  }

  // ---------- breadth first ----------

  function Containers(queue: seq<Block>): seq<Tree> {
    if queue == [] then [] else [queue[0].container] + Containers(queue[1..])
  }

  lemma {:induction false} ContainersAppend(queue: seq<Block>, b: Block)
    ensures Containers(queue + [b]) == Containers(queue) + [b.container]
  {
    if queue == [] {
      assert (queue + [b])[1..] == [];
    } else {
      assert (queue + [b])[1..] == queue[1..] + [b];
      ContainersAppend(queue[1..], b);
    }
  }

  /** What is still to be written: the rest at hand, then what the queue leads to. */
  function StillToWrite(queue: seq<Block>, rest: seq<Tree>): seq<Tree> {
    rest + QueueOrder(Containers(queue) + rest)
  }

  lemma {:induction false} TakeOne(queue: seq<Block>, rest: seq<Tree>, id: int)
    requires rest != [] && PlainTree(rest[0])
    ensures StillToWrite(queue, rest) == [rest[0]] +
              StillToWrite(queue + (if rest[0].record.container then [Block(rest[0], id)] else []), rest[1..])
  {
    hide QueueOrder;
    var t, q := rest[0], Containers(queue);
    assert rest == [t] + rest[1..];
    assert q + rest == q + [t] + rest[1..];
    if t.record.container {
      ContainersAppend(queue, Block(t, id));
    } else {
      QueueSkipsLeaf(q, t, rest[1..]);
      assert queue + [] == queue;
    }
  }

  lemma {:induction false} TakeContainer(queue: seq<Block>)
    ensures queue == [] ==> StillToWrite(queue, []) == []
    ensures queue != [] ==> StillToWrite(queue, []) == StillToWrite(queue[1..], queue[0].container.contents)
  {
    hide QueueOrder;
    var q := Containers(queue);
    assert q + [] == q;
    QueueUnfolds(q);
    if queue != [] {
      assert q[1..] == Containers(queue[1..]);
    }
  }

  /** All items of the forest, breadth first, the placed ones first. */
  function AllItems(ps: seq<Placed>): seq<Tree> {
    Items(ps) + LevelOrder(Items(ps))
  }

  /** Writes all rows: the placed items, then container after container. */
  method SaveItems(ps: seq<Placed>) returns (rows: seq<Row>)
    requires forall i :: 0 <= i < |ps| ==> ps[i].pid <= RESERVED && PlainTree(ps[i].item)
    ensures Saved(ps, rows, AllItems(ps)) && forall i :: 0 <= i < |rows| ==> rows[i].sid == 101 + i
  {
    hide Lying, QueueOrder, LevelOrder, PlainTree, StillToWrite, Pending, Writing;
    var queue: seq<Block>;
    ghost var nodes;
    rows, queue, nodes := WritePlaced(ps);
    ghost var open, given := -1, [];
    ItemsAt(ps);
    while queue != []
      invariant Writing(rows, nodes, open, given) && -1 <= open < |nodes|
      invariant open >= 0 ==> given == nodes[open].contents
      invariant queue == Pending(nodes, open + 1)
      invariant AllItems(ps) == nodes + StillToWrite(queue, [])
      invariant |ps| <= |rows| == |nodes|
      invariant forall i :: 0 <= i < |ps| ==> rows[i].pid == ps[i].pid && nodes[i] == ps[i].item
      invariant forall i :: |ps| <= i < |rows| ==> rows[i].pid > RESERVED
      decreases |StillToWrite(queue, [])|, |queue|
    {
      ghost var next := FirstPending(nodes, open + 1);
      TakeContainer(queue);
      OpenNext(rows, nodes, open, given, next);
      var block := queue[0];
      queue := queue[1..];
      open, given := next, block.container.contents;
      rows, queue, nodes := WriteContents(rows, queue, block, nodes, open, AllItems(ps));
    }
    ghost var none := FirstPending(nodes, open + 1);
    AllWritten(rows, nodes, open, given);
    TakeContainer(queue);
    assert nodes + [] == nodes;
    WritingIsNumbered(rows, nodes, open, given);
  }

  lemma {:induction false} WritingIsNumbered(rows: seq<Row>, nodes: seq<Tree>, open: int, given: seq<Tree>)
    requires Writing(rows, nodes, open, given)
    ensures Numbered(rows, nodes)
  {
  }

  method WritePlaced(ps: seq<Placed>) returns (rows: seq<Row>, queue: seq<Block>, ghost nodes: seq<Tree>)
    requires forall i :: 0 <= i < |ps| ==> ps[i].pid <= RESERVED && PlainTree(ps[i].item)
    ensures Writing(rows, nodes, -1, []) && queue == Pending(nodes, 0)
    ensures nodes == Items(ps) && AllItems(ps) == nodes + StillToWrite(queue, [])
    ensures |rows| == |ps| && forall i :: 0 <= i < |ps| ==> rows[i].pid == ps[i].pid
  {
    hide Lying, QueueOrder, LevelOrder, PlainTree, Pending, AllItems;
    rows, queue, nodes := [], [], [];
    ItemsAt(ps);
    ghost var all := Items(ps);
    NothingWritten(ps);
    for k := 0 to |ps|
      invariant Writing(rows, nodes, -1, []) && queue == Pending(nodes, 0)
      invariant nodes == all[..k] && |rows| == k
      invariant AllItems(ps) == nodes + StillToWrite(queue, all[k..])
      invariant forall i :: 0 <= i < k ==> rows[i].pid == ps[i].pid
    {
      hide Writing, StillToWrite;
      var item := ps[k].item;
      assert all[k] == item && all[..k + 1] == all[..k] + [item];
      PlaceOne(rows, nodes, queue, ps[k].pid, item, all, k);
      rows := rows + [Row(ps[k].pid, IdOf(k), item.record)];
      if item.record.container {
        queue := queue + [Block(item, IdOf(k))];
      }
      nodes := nodes + [item];
    }
  }

  /** One more placed item is written; what is still to write stays in order. */
  lemma {:induction false} PlaceOne(rows: seq<Row>, nodes: seq<Tree>, queue: seq<Block>, pid: int, item: Tree,
                                    all: seq<Tree>, k: nat)
    requires Writing(rows, nodes, -1, []) && queue == Pending(nodes, 0) && k == |rows| == |nodes| < |all|
    requires all[k] == item && PlainTree(item) && pid <= RESERVED
    ensures Writing(rows + [Row(pid, IdOf(k), item.record)], nodes + [item], -1, [])
    ensures var later := if item.record.container then queue + [Block(item, IdOf(k))] else queue;
            && later == Pending(nodes + [item], 0)
            && nodes + StillToWrite(queue, all[k..]) == (nodes + [item]) + StillToWrite(later, all[k + 1..])
  {
    hide Lying, PlainTree, Pending, Writing, StillToWrite;
    WriteRow(rows, nodes, -1, [], pid, item);
    PendingAppend(nodes, 0, item);
    TakeOne(queue, all[k..], IdOf(k));
    assert all[k..][1..] == all[k + 1..];
    var later := if item.record.container then queue + [Block(item, IdOf(k))] else queue;
    assert queue + [] == queue;
    assert nodes + ([item] + StillToWrite(later, all[k + 1..])) == (nodes + [item]) + StillToWrite(later, all[k + 1..]);
  }

  lemma {:induction false} NothingWritten(ps: seq<Placed>)
    ensures Pending([], 0) == [] && AllItems(ps) == [] + StillToWrite([], Items(ps)[0..])
  {
    QueueIsLevelOrder(Items(ps));
    assert Containers([]) + Items(ps) == Items(ps);
  }

  /** Writes the rows of one container's contents and queues the containers among them. */
  method WriteContents(rows0: seq<Row>, queue0: seq<Block>, block: Block, ghost nodes0: seq<Tree>,
                       ghost open: nat, ghost all: seq<Tree>)
    returns (rows: seq<Row>, queue: seq<Block>, ghost nodes: seq<Tree>)
    requires Writing(rows0, nodes0, open, [])
    requires open < |nodes0| && block == Block(nodes0[open], IdOf(open))
    requires queue0 == Pending(nodes0, open + 1)
    requires all == nodes0 + StillToWrite(queue0, block.container.contents)
    ensures open < |nodes| == |rows| && nodes[open] == block.container
    ensures Writing(rows, nodes, open, block.container.contents) && queue == Pending(nodes, open + 1)
    ensures all == nodes + StillToWrite(queue, [])
    ensures rows0 <= rows && nodes0 <= nodes
    ensures forall i :: |rows0| <= i < |rows| ==> rows[i].pid > RESERVED
    ensures |StillToWrite(queue, [])| == |StillToWrite(queue0, block.container.contents)| - |block.container.contents|
    ensures block.container.contents == [] ==> queue == queue0
  {
    hide Lying, QueueOrder, PlainTree, Pending, StillToWrite;
    rows, queue, nodes := rows0, queue0, nodes0;
    var items := block.container.contents;
    assert Plain(items) by { ContentsArePlain(nodes0[open]); }
    assert items[0..] == items && items[..0] == [];
    for k := 0 to |items|
      invariant open < |nodes| == |rows| && rows0 <= rows && nodes0 <= nodes
      invariant Writing(rows, nodes, open, items[..k]) && queue == Pending(nodes, open + 1)
      invariant all == nodes + StillToWrite(queue, items[k..])
      invariant forall i :: |rows0| <= i < |rows| ==> rows[i].pid > RESERVED
      invariant |nodes| == |nodes0| + k
      invariant k == 0 ==> queue == queue0
    {
      hide Writing;
      var id := IdOf(|rows|);
      WriteRow(rows, nodes, open, items[..k], block.id, items[k]);
      PendingAppend(nodes, open + 1, items[k]);
      TakeOne(queue, items[k..], id);
      assert items[k..][1..] == items[k + 1..] && items[..k] + [items[k]] == items[..k + 1];
      rows := rows + [Row(block.id, id, items[k].record)];
      if items[k].record.container {
        queue := queue + [Block(items[k], id)];
      }
      nodes := nodes + [items[k]];
    }
    assert items[..|items|] == items && items[|items|..] == [];
  }

  lemma {:induction false} ContentsArePlain(t: Tree)
    requires PlainTree(t)
    ensures Plain(t.contents)
  {
  }

  // ---------- loading ----------

  /** Of the rows from k on, the numbers of those lying in `pid`, in row order. */
  function Ids(rows: seq<Row>, k: nat, pid: int): seq<int>
    requires k <= |rows|
    decreases |rows| - k
  {
    if k == |rows| then []
    else (if rows[k].pid == pid then [rows[k].sid] else []) + Ids(rows, k + 1, pid)
  }

  lemma {:induction false} IdsAreRows(rows: seq<Row>, nodes: seq<Tree>, k: nat, pid: int)
    requires Numbered(rows, nodes) && k <= |rows|
    ensures forall id :: id in Ids(rows, k, pid) ==> IdOf(k) <= id <= RESERVED + |rows| && pid < id
    ensures |Ids(rows, k, pid)| == |Lying(rows, nodes, k, pid)|
    decreases |rows| - k
  {
    if k < |rows| {
      IdsAreRows(rows, nodes, k + 1, pid);
    }
  }

  /** Rows in a container's number exist only if the container has contents. */
  lemma {:induction false} LyingSomewhere(rows: seq<Row>, nodes: seq<Tree>, k: nat, j: nat)
    requires |rows| == |nodes| && k <= j < |rows|
    ensures Lying(rows, nodes, k, rows[j].pid) != []
    decreases |rows| - k
  {
    if k < j {
      LyingSomewhere(rows, nodes, k + 1, j);
    }
  }

  /** All rows of an item's contents come behind its own row. */
  lemma {:induction false} ContentsBehind(rows: seq<Row>, nodes: seq<Tree>, k: nat, n: nat)
    requires Numbered(rows, nodes) && k <= n <= |rows|
    ensures n > 0 ==> Lying(rows, nodes, k, IdOf(n - 1)) == Lying(rows, nodes, n, IdOf(n - 1))
    decreases n - k
  {
    if k < n {
      ContentsBehind(rows, nodes, k + 1, n);
    }
  }

  /** The weight of a forest: every item's own weight, at every depth. */
  function Weight(w: Record -> nat, ts: seq<Tree>): nat {
    if ts == [] then 0 else w(ts[0].record) + Weight(w, ts[0].contents) + Weight(w, ts[1..])
  }

  /** The forest that the loaded containers make up below the items with these numbers. */
  function Forest(records: map<int, Record>, contents: map<int, seq<int>>, top: int, ids: seq<int>, above: int): seq<Tree>
    requires Linked(records, contents, top)
    requires forall id :: id in ids ==> above < id <= top && id in records
    decreases top - above, |ids|
  {
    if ids == [] then []
    else
      var id := ids[0];
      assert forall c :: c in ids[1..] ==> c in ids;
      assert forall c :: c in Held(contents, id) ==> id < c <= top && c in records;
      [Tree(records[id], Forest(records, contents, top, Held(contents, id), id))]
      + Forest(records, contents, top, ids[1..], above)
  }

  function Held(contents: map<int, seq<int>>, id: int): seq<int> {
    if id in contents then contents[id] else []
  }

  ghost predicate Linked(records: map<int, Record>, contents: map<int, seq<int>>, top: int) {
    forall id :: id in contents ==> forall c :: c in contents[id] ==> id < c <= top && c in records
  }

  /** The items of the first n rows are there, the containers among them empty. */
  ghost predicate Unattached(rows: seq<Row>, n: nat, pids: map<int, int>, records: map<int, Record>,
                             contents: map<int, seq<int>>, totalWeight: map<int, int>)
  {
    && n <= |rows|
    && (forall id :: id in pids <==> RESERVED < id <= RESERVED + n)
    && records.Keys == pids.Keys
    && (forall j :: 0 <= j < n ==> pids[IdOf(j)] == rows[j].pid && records[IdOf(j)] == rows[j].record)
    && (forall id :: id in contents <==> id in records && records[id].container)
    && contents.Keys == totalWeight.Keys
    && (forall id :: id in contents ==> contents[id] == [] && totalWeight[id] == 0)
  }

  lemma {:induction false} LoadOne(rows: seq<Row>, n: nat, pids: map<int, int>, records: map<int, Record>,
                                   contents: map<int, seq<int>>, totalWeight: map<int, int>)
    requires Unattached(rows, n, pids, records, contents, totalWeight) && n < |rows| && rows[n].sid == IdOf(n)
    ensures var r := rows[n];
            Unattached(rows, n + 1, pids[r.sid := r.pid], records[r.sid := r.record],
                       if r.record.container then contents[r.sid := []] else contents,
                       if r.record.container then totalWeight[r.sid := 0] else totalWeight)
  {
  }

  /** The loaded items and containers.  Items are told apart by their numbers. */
  class Loader {
    const weightOf: Record -> nat
    var pids: map<int, int>
    var records: map<int, Record>
    /** The contents of each container, and of each slot or depot in `places`. */
    var contents: map<int, seq<int>>
    var places: map<int, seq<int>>
    var parent: map<int, int>
    var totalWeight: map<int, int>

    constructor (weightOf: Record -> nat)
      ensures this.weightOf == weightOf
    {
      this.weightOf := weightOf;
      pids, records, contents, places, parent, totalWeight := map[], map[], map[], map[], map[], map[];
    }

    function ItemWeight(id: int): int
      requires id in records
      reads this
    {
      weightOf(records[id]) + if id in totalWeight then totalWeight[id] else 0
    }

    /** Creates the items of all rows, unattached. */
    method LoadItems(rows: seq<Row>)
      requires forall i :: 0 <= i < |rows| ==> rows[i].sid == IdOf(i)
      modifies this
      ensures places == map[] && parent == map[]
      ensures forall id :: id in pids <==> RESERVED < id <= RESERVED + |rows|
      ensures records.Keys == pids.Keys
      ensures forall i :: 0 <= i < |rows| ==> pids[IdOf(i)] == rows[i].pid && records[IdOf(i)] == rows[i].record
      ensures forall id :: id in contents <==> id in records && records[id].container
      ensures contents.Keys == totalWeight.Keys
      ensures forall id :: id in contents ==> contents[id] == [] && totalWeight[id] == 0
    {
      pids, records, contents, places, parent, totalWeight := map[], map[], map[], map[], map[], map[];
      for i := 0 to |rows|
        invariant places == map[] && parent == map[]
        invariant Unattached(rows, i, pids, records, contents, totalWeight)
      {
        LoadOne(rows, i, pids, records, contents, totalWeight);
        hide Unattached;
        var r := rows[i];
        pids, records := pids[r.sid := r.pid], records[r.sid := r.record];
        if r.record.container {
          contents, totalWeight := contents[r.sid := []], totalWeight[r.sid := 0];
        }
      }
    }

    /** Adds to a container's weight and to that of every container around it. */
    method UpdateItemWeight(id: int, diff: int)
      requires id > RESERVED && id in totalWeight
      requires forall c :: c in parent ==> RESERVED < parent[c] < c && parent[c] in totalWeight
      modifies this`totalWeight
      ensures totalWeight.Keys == old(totalWeight.Keys)
      ensures id !in parent ==> totalWeight == old(totalWeight)[id := old(totalWeight)[id] + diff]
      decreases id
    {
      totalWeight := totalWeight[id := totalWeight[id] + diff];
      if id in parent {
        UpdateItemWeight(parent[id], diff);
      }
    }

    /** Puts an item at the front of a container. */
    method InternalAddThing(container: int, id: int)
      requires id in records && container in contents && container in totalWeight
      requires RESERVED < container < id && container !in parent
      requires forall c :: c in parent ==> RESERVED < parent[c] < c && parent[c] in totalWeight
      modifies this`parent, this`contents, this`totalWeight
      ensures parent == old(parent)[id := container]
      ensures contents == old(contents)[container := [id] + old(contents)[container]]
      ensures totalWeight == old(totalWeight)[container := old(totalWeight)[container] + old(ItemWeight(id))]
    {
      parent := parent[id := container];
      contents := contents[container := [id] + contents[container]];
      UpdateItemWeight(container, ItemWeight(id));
    }

    /** The state when the rows from k on have been attached. */
    ghost predicate Attached(rows: seq<Row>, nodes: seq<Tree>, k: nat, lo: int, hi: int)
      reads this
    {
      && Numbered(rows, nodes) && k <= |rows|
      && (forall id :: id in pids <==> RESERVED < id <= RESERVED + |rows|)
      && records.Keys == pids.Keys
      && (forall i :: 0 <= i < |rows| ==> pids[IdOf(i)] == rows[i].pid && records[IdOf(i)] == rows[i].record)
      && (forall id :: id in contents <==> id in records && records[id].container)
      && contents.Keys == totalWeight.Keys
      && (forall id :: id in contents ==> contents[id] == Ids(rows, k, id))
      && (forall id :: id in totalWeight ==> totalWeight[id] == Weight(weightOf, Lying(rows, nodes, k, id)))
      && (forall p :: lo <= p <= hi ==> Place(p) == Ids(rows, k, p))
      && (forall c :: c in parent ==> c >= IdOf(k) && RESERVED < parent[c] < c && parent[c] in totalWeight)
    }

    ghost function Place(p: int): seq<int>
      reads this
    {
      if p in places then places[p] else []
    }

    /** Attaches all items, from the highest number down. */
    method Rebuild(rows: seq<Row>, lo: int, hi: int, ghost ps: seq<Placed>, ghost nodes: seq<Tree>)
      requires Saved(ps, rows, nodes) && Plain(nodes) && hi <= RESERVED
      requires forall i :: 0 <= i < |ps| ==> lo <= ps[i].pid <= hi
      modifies this
      ensures Attached(rows, nodes, 0, lo, hi)
    {
      hide Lying, Ids, Weight, PlainTree;
      LoadItems(rows);
      NothingAttached(rows, nodes);
      var k := |rows|;
      while k > 0
        invariant 0 <= k <= |rows|
        invariant Attached(rows, nodes, k, lo, hi)
      {
        k := k - 1;
        AttachOne(rows, lo, hi, k, ps, nodes);
      }
    }

    lemma {:induction false} NothingAttached(rows: seq<Row>, nodes: seq<Tree>)
      requires |rows| == |nodes|
      ensures forall id :: Ids(rows, |rows|, id) == [] && Lying(rows, nodes, |rows|, id) == []
      ensures Weight(weightOf, []) == 0
    {
    }

    /** One round of the loop: the item of row k goes to its slot or into its container. */
    method AttachOne(ghost rows: seq<Row>, lo: int, hi: int, k: nat, ghost ps: seq<Placed>, ghost nodes: seq<Tree>)
      requires Saved(ps, rows, nodes) && Plain(nodes) && hi <= RESERVED && k < |rows|
      requires forall i :: 0 <= i < |ps| ==> lo <= ps[i].pid <= hi
      requires Attached(rows, nodes, k + 1, lo, hi)
      modifies this
      ensures Attached(rows, nodes, k, lo, hi)
    {
      hide Lying, Ids, Weight, PlainTree;
      var id := IdOf(k);
      var pid := pids[id];
      AttachFacts(rows, nodes, k);
      if lo <= pid <= hi {
        places := places[pid := [id] + (if pid in places then places[pid] else [])];
      } else {
        assert k >= |ps|;
        InContainer(rows, nodes, k);
        ghost var at := pid - RESERVED - 1;
        assert pid == IdOf(at) && records[IdOf(at)] == rows[at].record;
        if pid in records && records[pid].container {
          AttachInside(rows, lo, hi, k, ps, nodes, id, pid);
        }
      }
    }

    method AttachInside(ghost rows: seq<Row>, ghost lo: int, ghost hi: int, ghost k: nat, ghost ps: seq<Placed>,
                        ghost nodes: seq<Tree>, id: int, pid: int)
      requires Saved(ps, rows, nodes) && Plain(nodes) && hi <= RESERVED && k < |rows|
      requires id == IdOf(k) && id in records && rows[k].pid == pid && !(lo <= pid <= hi)
      requires Attached(rows, nodes, k + 1, lo, hi) && pid in records && records[pid].container
      modifies this
      ensures Attached(rows, nodes, k, lo, hi)
    {
      hide Lying, Ids, Weight, PlainTree;
      AttachFacts(rows, nodes, k);
      WeightWhenAttached(rows, nodes, k);
      NothingAttached(rows, nodes);
      InternalAddThing(pid, id);
    }

    /** How the expected state changes when row k joins. */
    lemma {:induction false} AttachFacts(rows: seq<Row>, nodes: seq<Tree>, k: nat)
      requires Numbered(rows, nodes) && k < |rows|
      ensures forall p :: Ids(rows, k, p) ==
                (if rows[k].pid == p then [IdOf(k)] else []) + Ids(rows, k + 1, p)
      ensures forall p :: p != rows[k].pid ==> Lying(rows, nodes, k, p) == Lying(rows, nodes, k + 1, p)
      ensures Weight(weightOf, Lying(rows, nodes, k, rows[k].pid)) ==
                weightOf(rows[k].record) + Weight(weightOf, nodes[k].contents)
                + Weight(weightOf, Lying(rows, nodes, k + 1, rows[k].pid))
    {
      var rest := Lying(rows, nodes, k + 1, rows[k].pid);
      assert Lying(rows, nodes, k, rows[k].pid) == [nodes[k]] + rest;
      assert ([nodes[k]] + rest)[1..] == rest;
    }
  }

  /** A row that is not placed lies in a container written before it. */
  lemma {:induction false} InContainer(rows: seq<Row>, nodes: seq<Tree>, k: nat)
    requires Numbered(rows, nodes) && Plain(nodes) && k < |rows| && rows[k].pid > RESERVED
    requires forall i :: 0 <= i < |rows| ==> Lying(rows, nodes, 0, rows[i].sid) == nodes[i].contents
    ensures rows[rows[k].pid - RESERVED - 1].record.container
  {
    var i := rows[k].pid - RESERVED - 1;
    LyingSomewhere(rows, nodes, 0, k);
    assert rows[i].sid == rows[k].pid && nodes[i].contents != [];
    assert PlainTree(nodes[i]);
  }

  /** When an item is attached, everything in it already is. */
  lemma {:induction false} WeightWhenAttached(rows: seq<Row>, nodes: seq<Tree>, k: nat)
    requires Numbered(rows, nodes) && Plain(nodes) && k < |rows|
    requires forall i :: 0 <= i < |rows| ==> Lying(rows, nodes, 0, rows[i].sid) == nodes[i].contents
    ensures Lying(rows, nodes, k + 1, IdOf(k)) == nodes[k].contents
    ensures !nodes[k].record.container ==> nodes[k].contents == []
  {
    assert rows[k].sid == IdOf(k) && PlainTree(nodes[k]);
    ContentsBehind(rows, nodes, 0, k + 1);
  }

  // ---------- the round trip ----------

  /** The loaded containers are those that the rows describe. */
  ghost predicate Describes(rows: seq<Row>, nodes: seq<Tree>, records: map<int, Record>, contents: map<int, seq<int>>) {
    && Numbered(rows, nodes)
    && (forall i :: 0 <= i < |rows| ==> Lying(rows, nodes, 0, IdOf(i)) == nodes[i].contents)
    && (forall i :: 0 <= i < |rows| ==> IdOf(i) in records && records[IdOf(i)] == rows[i].record)
    && (forall i :: 0 <= i < |rows| ==> Held(contents, IdOf(i)) == Ids(rows, 0, IdOf(i)))
    && Linked(records, contents, RESERVED + |rows|)
  }

  lemma {:induction false} IdsAreLoaded(rows: seq<Row>, nodes: seq<Tree>, records: map<int, Record>,
                                        contents: map<int, seq<int>>, k: nat, pid: int)
    requires Describes(rows, nodes, records, contents) && k <= |rows|
    ensures forall id :: id in Ids(rows, k, pid) ==> pid < id <= RESERVED + |rows| && id in records
  {
    IdsAreRows(rows, nodes, k, pid);
    forall id | id in Ids(rows, k, pid)
      ensures id in records
    {
      assert id == IdOf(id - RESERVED - 1);
    }
  }

  lemma {:induction false} ForestUnfolds(records: map<int, Record>, contents: map<int, seq<int>>, top: int,
                                         id: int, ids: seq<int>, above: int)
    requires Linked(records, contents, top)
    requires forall c :: c in [id] + ids ==> above < c <= top && c in records
    ensures id in [id] + ids && forall c :: c in ids ==> c in [id] + ids
    ensures forall c :: c in Held(contents, id) ==> id < c <= top && c in records
    ensures Forest(records, contents, top, [id] + ids, above)
         == [Tree(records[id], Forest(records, contents, top, Held(contents, id), id))]
            + Forest(records, contents, top, ids, above)
  {
    assert ([id] + ids)[0] == id && ([id] + ids)[1..] == ids;
    assert forall c :: c in ids ==> c in [id] + ids;
  }

  /** The containers that the rows describe hold the forest that was saved. */
  lemma {:induction false} ForestIsLying(rows: seq<Row>, nodes: seq<Tree>, records: map<int, Record>,
                                         contents: map<int, seq<int>>, k: nat, pid: int)
    requires Describes(rows, nodes, records, contents) && k <= |rows|
    ensures forall id :: id in Ids(rows, k, pid) ==> pid < id <= RESERVED + |rows| && id in records
    ensures Forest(records, contents, RESERVED + |rows|, Ids(rows, k, pid), pid) == Lying(rows, nodes, k, pid)
    decreases RESERVED + |rows| - pid, |rows| - k
  {
    hide Forest, Linked, Lying, Ids;
    IdsAreLoaded(rows, nodes, records, contents, k, pid);
    LyingUnfolds(rows, nodes, k, pid);
    ForestOfNone(records, contents, RESERVED + |rows|, pid);
    if k < |rows| {
      ForestIsLying(rows, nodes, records, contents, k + 1, pid);
      if rows[k].pid == pid {
        var id := IdOf(k);
        assert rows[k].sid == id;
        ForestIsLying(rows, nodes, records, contents, 0, id);
        ForestUnfolds(records, contents, RESERVED + |rows|, id, Ids(rows, k + 1, pid), pid);
        assert nodes[k] == Tree(records[id], nodes[k].contents);
      } else {
        assert [] + Ids(rows, k + 1, pid) == Ids(rows, k + 1, pid);
      }
    }
  }

  lemma {:induction false} ForestOfNone(records: map<int, Record>, contents: map<int, seq<int>>, top: int, above: int)
    requires Linked(records, contents, top)
    ensures Forest(records, contents, top, [], above) == []
  {
  }

  lemma {:induction false} LyingUnfolds(rows: seq<Row>, nodes: seq<Tree>, k: nat, pid: int)
    requires |rows| == |nodes| && k <= |rows|
    ensures k == |rows| ==> Lying(rows, nodes, k, pid) == [] && Ids(rows, k, pid) == []
    ensures k < |rows| ==>
              && Lying(rows, nodes, k, pid) ==
                   (if rows[k].pid == pid then [nodes[k]] else []) + Lying(rows, nodes, k + 1, pid)
              && Ids(rows, k, pid) ==
                   (if rows[k].pid == pid then [rows[k].sid] else []) + Ids(rows, k + 1, pid)
  {
  }

  /** Saving and loading again: every slot and depot holds the forest it held, in order,
      and every container's cached weight is the weight of what is in it. */
  method SaveAndLoad(ps: seq<Placed>, lo: int, hi: int, weightOf: Record -> nat)
    returns (rows: seq<Row>, loader: Loader)
    requires hi <= RESERVED
    requires forall i :: 0 <= i < |ps| ==> lo <= ps[i].pid <= hi && PlainTree(ps[i].item)
    ensures fresh(loader) && loader.weightOf == weightOf
    ensures Linked(loader.records, loader.contents, RESERVED + |rows|)
    ensures forall p :: lo <= p <= hi ==>
              && (forall id :: id in loader.Place(p) ==> p < id <= RESERVED + |rows| && id in loader.records)
              && Forest(loader.records, loader.contents, RESERVED + |rows|, loader.Place(p), p)
                 == ItemsIn(ps, p)
    ensures forall id :: id in loader.contents ==>
              && id in loader.totalWeight
              && (forall c :: c in loader.contents[id] ==> id < c <= RESERVED + |rows| && c in loader.records)
              && loader.totalWeight[id] ==
                   Weight(weightOf, Forest(loader.records, loader.contents, RESERVED + |rows|, loader.contents[id], id))
  {
    hide Lying, Ids, Weight, PlainTree, Forest, LevelOrder;
    rows := SaveItems(ps);
    ghost var nodes := AllItems(ps);
    AllItemsPlain(ps);
    loader := new Loader(weightOf);
    loader.Rebuild(rows, lo, hi, ps, nodes);
    RebuiltDescribes(loader, ps, rows, nodes, lo, hi);
    forall p | lo <= p <= hi
      ensures forall id :: id in loader.Place(p) ==> p < id <= RESERVED + |rows| && id in loader.records
      ensures Forest(loader.records, loader.contents, RESERVED + |rows|, loader.Place(p), p) == ItemsIn(ps, p)
    {
      ForestIsLying(rows, nodes, loader.records, loader.contents, 0, p);
      PlacedLying(ps, rows, nodes, 0, p);
      assert ps[0..] == ps;
    }
    forall id | id in loader.contents
      ensures forall c :: c in loader.contents[id] ==> id < c <= RESERVED + |rows| && c in loader.records
      ensures loader.totalWeight[id] ==
                Weight(weightOf, Forest(loader.records, loader.contents, RESERVED + |rows|, loader.contents[id], id))
    {
      ForestIsLying(rows, nodes, loader.records, loader.contents, 0, id);
    }
  }

  lemma {:induction false} RebuiltDescribes(loader: Loader, ps: seq<Placed>, rows: seq<Row>, nodes: seq<Tree>, lo: int, hi: int)
    requires Saved(ps, rows, nodes) && Plain(nodes) && loader.Attached(rows, nodes, 0, lo, hi)
    ensures Describes(rows, nodes, loader.records, loader.contents)
  {
    hide Lying, Ids, Weight, PlainTree;
    forall i | 0 <= i < |rows|
      ensures Lying(rows, nodes, 0, IdOf(i)) == nodes[i].contents
      ensures Held(loader.contents, IdOf(i)) == Ids(rows, 0, IdOf(i))
    {
      assert rows[i].sid == IdOf(i);
      if !nodes[i].record.container {
        LeafHoldsNothing(rows, nodes, i);
      }
    }
    forall id | id in loader.contents
      ensures forall c :: c in loader.contents[id] ==> id < c <= RESERVED + |rows| && c in loader.records
    {
      IdsAreRows(rows, nodes, 0, id);
    }
  }

  lemma {:induction false} LeafHoldsNothing(rows: seq<Row>, nodes: seq<Tree>, i: nat)
    requires Numbered(rows, nodes) && Plain(nodes) && i < |rows| && !nodes[i].record.container
    requires Lying(rows, nodes, 0, IdOf(i)) == nodes[i].contents
    ensures Ids(rows, 0, IdOf(i)) == []
  {
    assert PlainTree(nodes[i]);
    IdsAreRows(rows, nodes, 0, IdOf(i));
  }

  /** The items placed in one slot or depot. */
  function ItemsIn(ps: seq<Placed>, pid: int): seq<Tree> {
    if ps == [] then []
    else (if ps[0].pid == pid then [ps[0].item] else []) + ItemsIn(ps[1..], pid)
  }

  lemma {:induction false} PlainConcat(a: seq<Tree>, b: seq<Tree>)
    requires Plain(a) && Plain(b)
    ensures Plain(a + b)
  {
    hide PlainTree;
    forall i | 0 <= i < |a + b|
      ensures PlainTree((a + b)[i])
    {
      assert (a + b)[i] == if i < |a| then a[i] else b[i - |a|];
    }
  }

  lemma {:induction false} ChildrenPlain(ts: seq<Tree>)
    requires Plain(ts)
    ensures Plain(Children(ts))
  {
    if ts != [] {
      assert PlainTree(ts[0]);
      ChildrenPlain(ts[1..]);
      PlainConcat(ts[0].contents, Children(ts[1..]));
    }
  }

  lemma {:induction false} LevelsPlain(ts: seq<Tree>)
    requires Plain(ts)
    ensures Plain(LevelOrder(ts))
    decreases Size(ts)
  {
    ChildrenPlain(ts);
    ChildrenAreFewer(ts);
    if ts != [] {
      LevelsPlain(Children(ts));
    }
  }

  lemma {:induction false} AllItemsPlain(ps: seq<Placed>)
    requires forall i :: 0 <= i < |ps| ==> PlainTree(ps[i].item)
    ensures Plain(AllItems(ps))
  {
    ItemsAt(ps);
    LevelsPlain(Items(ps));
  }

  /** Of the rows, those in a slot or depot are the items placed there. */
  lemma {:induction false} PlacedLying(ps: seq<Placed>, rows: seq<Row>, nodes: seq<Tree>, k: nat, pid: int)
    requires Saved(ps, rows, nodes) && pid <= RESERVED && k <= |rows|
    ensures Lying(rows, nodes, k, pid) == if k <= |ps| then ItemsIn(ps[k..], pid) else []
    decreases |rows| - k
  {
    hide Lying, ItemsIn, Saved;
    PlacedStep(ps, rows, nodes, k, pid);
    if k < |rows| {
      PlacedLying(ps, rows, nodes, k + 1, pid);
    }
  }

  lemma {:induction false} PlacedStep(ps: seq<Placed>, rows: seq<Row>, nodes: seq<Tree>, k: nat, pid: int)
    requires Saved(ps, rows, nodes) && pid <= RESERVED && k <= |rows|
    ensures |ps| <= |rows| == |nodes|
    ensures k == |rows| ==> Lying(rows, nodes, k, pid) == [] && (k <= |ps| ==> ItemsIn(ps[k..], pid) == [])
    ensures k < |rows| && k >= |ps| ==> Lying(rows, nodes, k, pid) == Lying(rows, nodes, k + 1, pid)
    ensures k == |ps| ==> ItemsIn(ps[k..], pid) == []
    ensures k < |ps| ==>
              var here := if rows[k].pid == pid then [nodes[k]] else [];
              && Lying(rows, nodes, k, pid) == here + Lying(rows, nodes, k + 1, pid)
              && ItemsIn(ps[k..], pid) == here + ItemsIn(ps[k + 1..], pid)
  {
    if k < |ps| {
      assert ps[k..][1..] == ps[k + 1..];
    }
  }
}
