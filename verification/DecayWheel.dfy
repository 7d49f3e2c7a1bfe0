/**
  Decay: items whose time runs out are kept in four buckets, one of which is looked through
  every quarter of a second.  The lists hold references on the items in them.
 */
module DecayWheel {

  import opened Basics

  const INTERVAL := 250
  const BUCKETS := 4
  const ROUND := INTERVAL * BUCKETS

  /** Stands for the list of newly filed items where a bucket is named. */
  const NEW := BUCKETS

  /** An item as far as decay goes: time left, whether it is marked as decaying, whether its
      type and attributes let it decay, whether it lies somewhere, and its reference count. */
  datatype Item = Item(duration: nat, decaying: bool, perishable: bool, held: bool, refs: int) {
    /** A removed item no longer decays. */
    predicate CanDecay() { held && perishable }
    /** The reference that the place of the item holds. */
    function Own(): int { if held then 1 else 0 }
  }

  /** What becomes of an item that decays: it goes, it turns into something else in place,
      or a new item takes its place; what it turns into may itself be due at once. */
  datatype Fate =
    | Gone
    | Becomes(duration: nat, decaying: bool, perishable: bool, next: Fate)
    | Replaced(duration: nat, perishable: bool, next: Fate)

  // ---------- when an item decays ----------

  datatype Visit = Decays | MovesOn(duration: nat) | Stays(duration: nat)

  /** What looking at an item with this much time left does to it. */
  function VisitOf(duration: nat): Visit {
    var left := duration - Min(ROUND, duration);
    if left <= 0 then Decays
    else if left < ROUND then
      if ((left + INTERVAL / 2) / 1000) % BUCKETS == 0 then Decays else MovesOn(left)
    else Stays(left)
  }

  /** An item with less than a round to go is moved to the next bucket, if at all. */
  lemma {:induction false} NextBucket(bucket: nat, duration: nat)
    requires bucket < BUCKETS && 0 < duration < ROUND
    ensures var hops := (duration + INTERVAL / 2) / 1000;
            && (hops == 0 || hops == 1)
            && (bucket + hops) % BUCKETS == if hops == 0 then bucket else (bucket + 1) % BUCKETS
  {
  }

  /** Ticks until an item decays that is looked at in `wait` ticks. */
  function TicksToDecay(wait: nat, duration: nat): nat
    decreases duration
  {
    match VisitOf(duration)
    case Decays => wait
    case MovesOn(left) => wait + TicksToDecay(1, left)
    case Stays(left) => wait + TicksToDecay(BUCKETS, left)
  }

  /** An item filed for less than a second decays on the next tick; a longer one on tick
      four times its seconds, one later if at least 875 milliseconds are over. */
  lemma {:induction false} DecayTime(duration: nat)
    ensures duration < ROUND ==> TicksToDecay(1, duration) == 1
    ensures duration >= ROUND ==>
              TicksToDecay(BUCKETS, duration) == 4 * (duration / 1000) + (if duration % 1000 >= 875 then 1 else 0)
    decreases duration
  {
    if duration >= ROUND {
      var left := duration - ROUND;
      if left >= ROUND {
        DecayTime(left);
        assert duration / 1000 == left / 1000 + 1 && duration % 1000 == left % 1000;
      } else if left > 0 && VisitOf(duration).MovesOn? {
        DecayTime(left);
      }
    }
  }

  // ---------- references ----------

  ghost function InBuckets(bs: seq<seq<int>>): multiset<int>
    requires |bs| == BUCKETS
  {
    multiset(bs[0]) + multiset(bs[1]) + multiset(bs[2]) + multiset(bs[3])
  }

  lemma {:induction false} BucketPushed(bs: seq<seq<int>>, b: nat, i: int)
    requires |bs| == BUCKETS && b < BUCKETS
    ensures InBuckets(bs[b := bs[b] + [i]]) == InBuckets(bs) + multiset{i}
  {
  }

  lemma {:induction false} BucketErased(bs: seq<seq<int>>, b: nat, k: nat)
    requires |bs| == BUCKETS && b < BUCKETS && k < |bs[b]|
    ensures InBuckets(bs[b := bs[b][..k] + bs[b][k + 1..]]) + multiset{bs[b][k]} == InBuckets(bs)
    ensures multiset(bs[b][..k] + bs[b][k + 1..]) + multiset{bs[b][k]} == multiset(bs[b])
  {
    assert bs[b] == bs[b][..k] + [bs[b][k]] + bs[b][k + 1..];
  }

  datatype Lists = Lists(items: map<int, Item>, recent: seq<int>, buckets: seq<seq<int>>)

  /** The other items are kept as they were and listed as they were. */
  ghost predicate Only(i: int, was: Lists, now: Lists) {
    && was.items.Keys <= now.items.Keys
    && |was.buckets| == |now.buckets| == BUCKETS
    && forall j :: j in was.items && j != i ==> Same(j, was, now)
  }

  ghost predicate Same(j: int, was: Lists, now: Lists)
    requires j in was.items && j in now.items && |was.buckets| == |now.buckets| == BUCKETS
  {
    && was.items[j] == now.items[j]
    && multiset(was.recent)[j] == multiset(now.recent)[j]
    && forall c :: 0 <= c < BUCKETS ==> multiset(was.buckets[c])[j] == multiset(now.buckets[c])[j]
  }

  /** An item taken out of one bucket and put into another. */
  lemma {:induction false} MovedOn(was: Lists, mid: Lists, now: Lists, i: int, bucket: nat, newBucket: nat)
    requires |was.buckets| == |mid.buckets| == BUCKETS && bucket < BUCKETS && newBucket < BUCKETS && newBucket != bucket
    requires mid == was.(buckets := was.buckets[bucket := mid.buckets[bucket]])
    requires multiset(mid.buckets[bucket]) + multiset{i} == multiset(was.buckets[bucket])
    requires now == mid.(buckets := mid.buckets[newBucket := mid.buckets[newBucket] + [i]])
    ensures Only(i, was, now)
    ensures forall d :: Placed(was, i, bucket, d) ==> Placed(now, i, newBucket, d)
  {
    forall j | j in was.items && j != i ensures Same(j, was, now) {
      assert multiset(was.buckets[bucket])[j] == multiset(mid.buckets[bucket])[j];
    }
    assert multiset(was.buckets[bucket])[i] == multiset(mid.buckets[bucket])[i] + 1;
  }

  lemma {:induction false} OnlyThenOnly(i: int, was: Lists, mid: Lists, now: Lists)
    requires Only(i, was, mid) && Only(i, mid, now)
    ensures Only(i, was, now)
  {
  }

  lemma {:induction false} OnlyHeir(i: int, heir: int, was: Lists, mid: Lists, now: Lists)
    requires Only(i, was, mid) && heir !in was.items && Only(heir, mid, now)
    ensures Only(i, was, now)
  {
  }

  /** A change of one item in place touches no other. */
  lemma {:induction false} OnlyItem(i: int, was: Lists, now: Lists)
    requires |was.buckets| == BUCKETS && i in now.items && now == was.(items := was.items[i := now.items[i]])
    ensures Only(i, was, now)
  {
  }

  lemma {:induction false} OnlyNew(i: int, heir: int, was: Lists, now: Lists)
    requires |was.buckets| == BUCKETS && heir !in was.items && heir in now.items
    requires now == was.(items := was.items[heir := now.items[heir]])
    ensures Only(i, was, now)
  {
  }

  lemma {:induction false} FiledOnly(i: int, was: Lists, now: Lists)
    requires |was.buckets| == BUCKETS && i in now.items
    requires now == Lists(was.items[i := now.items[i]], [i] + was.recent, was.buckets)
    ensures Only(i, was, now)
  {
    assert multiset(now.recent) == multiset{i} + multiset(was.recent);
  }

  lemma {:induction false} OnlyNothing(i: int, was: Lists)
    requires |was.buckets| == BUCKETS
    ensures Only(i, was, was)
  {
  }

  /** Item `i` can decay, has `d` left and is listed once, in bucket `b` or as a new one. */
  ghost predicate Placed(l: Lists, i: int, b: nat, d: nat) {
    && |l.buckets| == BUCKETS && b <= NEW
    && i in l.items && l.items[i].CanDecay() && l.items[i].decaying && l.items[i].duration == d
    && multiset(l.recent)[i] == (if b == NEW then 1 else 0)
    && forall c :: 0 <= c < BUCKETS ==> multiset(l.buckets[c])[i] == if c == b then 1 else 0
  }

  /** An item is placed with no other time than it has, and only if it can decay. */
  lemma {:induction false} OnlyTime(l: Lists, i: int, b: nat)
    requires i in l.items
    ensures forall d :: Placed(l, i, b, d) ==> d == l.items[i].duration
  {
  }

  lemma {:induction false} NotPlaced(l: Lists, i: int)
    requires i in l.items && !l.items[i].CanDecay()
    ensures forall b, d :: !Placed(l, i, b, d)
  {
  }

  lemma {:induction false} Shortened(i: int, b: nat, d: nat, was: Lists, now: Lists, left: nat)
    requires i in was.items && now == was.(items := was.items[i := was.items[i].(duration := left)])
    ensures Placed(was, i, b, d) ==> Placed(now, i, b, left)
  {
  }

  /** Item `i`, found in this bucket, is where looking at it has to leave it. */
  ghost predicate Looked(l: Lists, i: int, bucket: nat, visit: Visit, decays: bool) {
    match visit
    case Decays => decays
    case MovesOn(left) => !decays && Placed(l, i, (bucket + 1) % BUCKETS, left)
    case Stays(left) => !decays && Placed(l, i, bucket, left)
  }

  /** Where an item listed in bucket `b` stands while `rest` of `bucket` is still to be looked at. */
  ghost predicate Underway(l: Lists, i: int, b: nat, d: nat, bucket: nat, rest: seq<int>, decayed: seq<int>) {
    if b != bucket || i in rest then Placed(l, i, b, d) && i !in decayed
    else Looked(l, i, bucket, VisitOf(d), i in decayed)
  }

  lemma {:induction false} SamePlaced(was: Lists, now: Lists, x: int, i: int, b: nat, d: nat)
    requires Only(x, was, now) && i != x && Placed(was, i, b, d)
    ensures Placed(now, i, b, d)
  {
    assert Same(i, was, now);
  }

  /** Looking at one item leaves the others on their way and sends this one on its own. */
  lemma {:induction false} UnderwayStep(was: Lists, now: Lists, i: int, b: nat, d: nat, bucket: nat,
                                        rest: seq<int>, decayed: seq<int>, decays: bool)
    requires rest != [] && Underway(was, i, b, d, bucket, rest, decayed)
    requires Only(rest[0], was, now)
    requires i == rest[0] && Placed(was, i, bucket, d) ==> Looked(now, i, bucket, VisitOf(d), decays)
    requires bucket < BUCKETS && |was.buckets| == BUCKETS && multiset(rest) <= multiset(was.buckets[bucket])
    ensures Underway(now, i, b, d, bucket, rest[1..], if decays then decayed + [rest[0]] else decayed)
  {
    assert rest == [rest[0]] + rest[1..];
    if i == rest[0] {
      assert multiset(rest)[i] >= 1;
      if b == bucket {
        assert multiset(rest)[i] <= 1;
        assert multiset(rest[1..])[i] == 0;
        assert i !in rest[1..];
      }
    } else {
      forall c, e | Placed(was, i, c, e) ensures Placed(now, i, c, e) {
        SamePlaced(was, now, rest[0], i, c, e);
      }
    }
  }

  /** What decayed stays what it became, and what decays now becomes it. */
  lemma {:induction false} TurnedStep(was: Lists, now: Lists, i: int, b: nat, d: nat, bucket: nat, rest: seq<int>,
                                      decayed: seq<int>, decays: bool, fate: Fate, since: set<int>)
    requires rest != [] && Underway(was, i, b, d, bucket, rest, decayed) && Only(rest[0], was, now)
    requires bucket < BUCKETS && |was.buckets| == BUCKETS && multiset(rest) <= multiset(was.buckets[bucket])
    requires i in decayed ==> Turned(was, i, fate, since)
    requires i == rest[0] && decays ==> forall e :: Placed(was, i, bucket, e) ==> Turned(now, i, fate, was.items.Keys)
    requires i in decayed || (decays && i == rest[0])
    requires since <= was.items.Keys
    ensures Turned(now, i, fate, since)
  {
    assert rest[0] in multiset(rest);
    assert multiset(was.buckets[bucket])[rest[0]] > 0;
    hide Turned;
    if i in decayed {
      TurnedStays(was, now, rest[0], i, fate, since);
    } else {
      assert Placed(was, i, b, d) && b == bucket;
      TurnedSince(now, i, fate, was.items.Keys, since);
    }
  }

  lemma {:induction false} StaleAtLast(l: Lists, bucket: nat)
    ensures forall i, held :: StaleUnderway(l, i, bucket, held, []) ==> Unmarked(l, i, held)
  {
  }

  lemma {:induction false} UnderwayAtFirst(l: Lists, i: int, b: nat, d: nat, bucket: nat)
    requires Placed(l, i, b, d) && bucket < BUCKETS
    ensures Underway(l, i, b, d, bucket, l.buckets[bucket][0..], [])
  {
    assert l.buckets[bucket][0..] == l.buckets[bucket];
    assert b == bucket ==> i in multiset(l.buckets[bucket]);
  }

  lemma {:induction false} UnderwayAtLast(was: Lists, now: Lists, i: int, b: nat, d: nat, bucket: nat, decayed: seq<int>)
    requires Underway(was, i, b, d, bucket, [], decayed) && bucket < BUCKETS
    requires forall c, e :: Placed(was, i, c, e) ==> Placed(now, i, if c == NEW then FiledIn(bucket, e) else c, e)
    ensures if b == bucket then Looked(now, i, b, VisitOf(d), i in decayed)
            else i !in decayed && Placed(now, i, if b == NEW then FiledIn(bucket, d) else b, d)
  {
    hide Placed, FiledIn, VisitOf;
  }

  /** Numbers of items are not used again. */
  ghost predicate OnlyNewer(was: set<int>, next: int, now: set<int>, next': int) {
    next <= next' && forall j :: j in now && j !in was ==> j >= next
  }

  // ---------- what becomes of an item ----------

  /** The item is in no list that lets it decay. */
  ghost predicate Nowhere(l: Lists, i: int) {
    |l.buckets| == BUCKETS && multiset(l.recent)[i] == 0 && forall c :: 0 <= c < BUCKETS ==> multiset(l.buckets[c])[i] == 0
  }

  /** The item lies nowhere any more and waits for release. */
  ghost predicate Dead(l: Lists, i: int) { i in l.items && !l.items[i].held && Nowhere(l, i) }

  /** The item lies in its place with so much time and does not decay. */
  ghost predicate Rests(l: Lists, i: int, d: nat, decaying: bool, perishable: bool) {
    && i in l.items && l.items[i].held && l.items[i].duration == d && l.items[i].decaying == decaying
    && l.items[i].perishable == perishable && Nowhere(l, i)
  }

  /** What an item is once it decayed: gone; something else in place that waits to be filed, rests or
      decayed on; or gone with such an heir, an item that was not there before. */
  ghost predicate Turned(l: Lists, i: int, fate: Fate, was: set<int>)
    decreases fate, 0
  {
    match fate
    case Gone => Dead(l, i)
    case Becomes(d, decaying, perishable, next) =>
      if !perishable || decaying then Rests(l, i, d, decaying, perishable)
      else if d > 0 then Placed(l, i, NEW, d)
      else Turned(l, i, next, was)
    case Replaced(d, perishable, next) => Dead(l, i) && exists heir :: HeirOf(l, heir, d, perishable, next, was)
  }

  ghost predicate HeirOf(l: Lists, heir: int, d: nat, perishable: bool, next: Fate, was: set<int>)
    decreases next, 1
  {
    && heir !in was
    && if !perishable then Rests(l, heir, d, false, false)
       else if d > 0 then Placed(l, heir, NEW, d)
       else Turned(l, heir, next, was)
  }

  /** The item is listed once, in this bucket, and can no longer decay. */
  ghost predicate Stale(l: Lists, i: int, b: nat, held: bool) {
    && |l.buckets| == BUCKETS && b < BUCKETS && i in l.items && !l.items[i].CanDecay() && l.items[i].held == held
    && multiset(l.recent)[i] == 0 && forall c :: 0 <= c < BUCKETS ==> multiset(l.buckets[c])[i] == if c == b then 1 else 0
  }

  /** Such an item that was looked at: it is not marked any more and in no list. */
  ghost predicate Unmarked(l: Lists, i: int, held: bool) {
    i in l.items && !l.items[i].CanDecay() && l.items[i].held == held && !l.items[i].decaying && Nowhere(l, i)
  }

  ghost predicate StaleUnderway(l: Lists, i: int, bucket: nat, held: bool, rest: seq<int>) {
    if i in rest then Stale(l, i, bucket, held) else Unmarked(l, i, held)
  }

  /** Looking at one item leaves the others as they are. */
  lemma {:induction false} StaleStep(was: Lists, now: Lists, i: int, bucket: nat, held: bool, rest: seq<int>)
    requires rest != [] && StaleUnderway(was, i, bucket, held, rest) && Only(rest[0], was, now)
    requires |was.buckets| == BUCKETS && bucket < BUCKETS && multiset(rest) <= multiset(was.buckets[bucket])
    requires Stale(was, rest[0], bucket, held) ==> Unmarked(now, rest[0], held)
    ensures StaleUnderway(now, i, bucket, held, rest[1..])
  {
    assert rest == [rest[0]] + rest[1..];
    if i == rest[0] {
      assert multiset(rest)[i] >= 1;
      assert multiset(rest)[i] <= 1;
      assert multiset(rest[1..])[i] == 0;
      assert i !in rest[1..];
    } else {
      assert i in was.items && Same(i, was, now);
    }
  }

  lemma {:induction false} LetGoUnmarked(was: Lists, now: Lists, i: int, bucket: nat)
    requires i in was.items && bucket < BUCKETS && |was.buckets| == |now.buckets| == BUCKETS
    requires now.items == was.items[i := was.items[i].(decaying := false)] && now.recent == was.recent
    requires now.buckets == was.buckets[bucket := now.buckets[bucket]]
    requires multiset(now.buckets[bucket]) + multiset{i} == multiset(was.buckets[bucket])
    ensures forall held :: Stale(was, i, bucket, held) ==> Unmarked(now, i, held)
  {
    assert multiset(was.buckets[bucket])[i] == multiset(now.buckets[bucket])[i] + 1;
  }

  lemma {:induction false} NotStale(l: Lists, i: int)
    requires i in l.items && l.items[i].CanDecay()
    ensures forall b, held :: !Stale(l, i, b, held)
  {
  }

  lemma {:induction false} StaleAtFirst(l: Lists, i: int, bucket: nat, held: bool)
    requires Stale(l, i, bucket, held)
    ensures StaleUnderway(l, i, bucket, held, l.buckets[bucket][0..])
  {
    assert l.buckets[bucket][0..] == l.buckets[bucket] && i in multiset(l.buckets[bucket]);
  }

  /** The same after a cleanup: what waited for release is freed, what waited to be filed is. */
  ghost predicate Became(l: Lists, lastBucket: nat, i: int, fate: Fate, was: set<int>)
    decreases fate, 0
  {
    match fate
    case Gone => i !in l.items
    case Becomes(d, decaying, perishable, next) =>
      if !perishable || decaying then Rests(l, i, d, decaying, perishable)
      else if d > 0 then Placed(l, i, FiledIn(lastBucket, d), d)
      else Became(l, lastBucket, i, next, was)
    case Replaced(d, perishable, next) =>
      i !in l.items && exists heir :: HeirIs(l, lastBucket, heir, d, perishable, next, was)
  }

  ghost predicate HeirIs(l: Lists, lastBucket: nat, heir: int, d: nat, perishable: bool, next: Fate, was: set<int>)
    decreases next, 1
  {
    && heir !in was
    && if !perishable then Rests(l, heir, d, false, false)
       else if d > 0 then Placed(l, heir, FiledIn(lastBucket, d), d)
       else Became(l, lastBucket, heir, next, was)
  }

  /** What became of an item stays so while another one, still in a bucket, is looked at. */
  lemma {:induction false} TurnedStays(l: Lists, now: Lists, x: int, i: int, fate: Fate, was: set<int>)
    requires Turned(l, i, fate, was) && Only(x, l, now) && |l.buckets| == BUCKETS
    requires exists c :: 0 <= c < BUCKETS && multiset(l.buckets[c])[x] > 0
    ensures Turned(now, i, fate, was)
    decreases fate
  {
    match fate
    case Gone => RestStays(l, now, x, i);
    case Becomes(d, decaying, perishable, next) =>
      RestStays(l, now, x, i);
      if perishable && !decaying && d == 0 { TurnedStays(l, now, x, i, next, was); }
    case Replaced(d, perishable, next) =>
      RestStays(l, now, x, i);
      var heir :| HeirOf(l, heir, d, perishable, next, was);
      RestStays(l, now, x, heir);
      if perishable && d == 0 { TurnedStays(l, now, x, heir, next, was); }
      assert HeirOf(now, heir, d, perishable, next, was);
  }

  lemma {:induction false} RestStays(l: Lists, now: Lists, x: int, i: int)
    requires Only(x, l, now) && |l.buckets| == BUCKETS && exists c :: 0 <= c < BUCKETS && multiset(l.buckets[c])[x] > 0
    ensures Dead(l, i) ==> Dead(now, i)
    ensures forall d, decaying, perishable :: Rests(l, i, d, decaying, perishable) ==> Rests(now, i, d, decaying, perishable)
    ensures forall d :: Placed(l, i, NEW, d) ==> Placed(now, i, NEW, d)
  {
    if i in l.items && i != x { assert Same(i, l, now); }
  }

  /** Starting the decay of an item that is in no list: filed, or left as it is. */
  lemma {:induction false} BegunIs(l: Lists, now: Lists, i: int, d: nat)
    requires Nowhere(l, i) && i in l.items && i in now.items && l.items[i].held && l.items[i].duration == d
    ensures now == l ==> Rests(now, i, d, l.items[i].decaying, l.items[i].perishable)
    ensures (&& now.buckets == l.buckets && now.recent == [i] + l.recent && l.items[i].perishable
             && now.items[i] == l.items[i].(refs := now.items[i].refs, decaying := true)) ==> Placed(now, i, NEW, d)
  {
    assert multiset([i] + l.recent) == multiset{i} + multiset(l.recent);
  }

  /** An item erased from the one bucket in which it was is in no list. */
  lemma {:induction false} ErasedNowhere(was: Lists, now: Lists, i: int, bucket: nat)
    requires |was.buckets| == |now.buckets| == BUCKETS && bucket < BUCKETS
    requires now == was.(buckets := was.buckets[bucket := now.buckets[bucket]])
    requires multiset(now.buckets[bucket]) + multiset{i} == multiset(was.buckets[bucket])
    ensures Only(i, was, now)
    ensures forall d :: Placed(was, i, bucket, d) ==> Nowhere(now, i) && now.items[i].held
  {
    forall j | j in was.items && j != i ensures Same(j, was, now) {
      assert multiset(was.buckets[bucket])[j] == multiset(now.buckets[bucket])[j];
    }
    assert multiset(was.buckets[bucket])[i] == multiset(now.buckets[bucket])[i] + 1;
  }

  lemma {:induction false} TurnedGone(l: Lists, i: int, was: set<int>)
    ensures Dead(l, i) ==> Turned(l, i, Gone, was)
  {
  }

  lemma {:induction false} TurnedOther(l: Lists, i: int, d: nat, decaying: bool, perishable: bool, next: Fate, was: set<int>)
    ensures (if !perishable || decaying then Rests(l, i, d, decaying, perishable)
             else if d > 0 then Placed(l, i, NEW, d) else Turned(l, i, next, was)) ==>
              Turned(l, i, Becomes(d, decaying, perishable, next), was)
  {
  }

  lemma {:induction false} TurnedReplaced(l: Lists, i: int, heir: int, d: nat, perishable: bool, next: Fate, was: set<int>)
    ensures Dead(l, i) && HeirOf(l, heir, d, perishable, next, was) ==> Turned(l, i, Replaced(d, perishable, next), was)
  {
  }

  /** What became of the heir, when it was started. */
  lemma {:induction false} HeirBegun(mid: Lists, now: Lists, heir: int, d: nat, perishable: bool, next: Fate, was: set<int>)
    requires Nowhere(mid, heir) && heir in mid.items && heir in now.items && mid.items[heir] == Item(d, false, perishable, true, 1)
    requires heir !in was && was <= mid.items.Keys && now.buckets == mid.buckets
    requires !perishable ==> now == mid
    requires perishable && d > 0 ==>
               now.recent == [heir] + mid.recent && now.items[heir] == mid.items[heir].(refs := 2, decaying := true)
    requires perishable && d == 0 ==> Turned(now, heir, next, mid.items.Keys)
    ensures HeirOf(now, heir, d, perishable, next, was)
  {
    BegunIs(mid, now, heir, d);
    if perishable && d == 0 { TurnedSince(now, heir, next, mid.items.Keys, was); }
  }

  lemma {:induction false} DeadStays(l: Lists, now: Lists, x: int, i: int)
    requires Only(x, l, now) && i != x
    ensures Dead(l, i) ==> Dead(now, i)
  {
    if i in l.items { assert Same(i, l, now); }
  }

  /** Fewer items were there before. */
  lemma {:induction false} TurnedSince(l: Lists, i: int, fate: Fate, was: set<int>, less: set<int>)
    requires Turned(l, i, fate, was) && less <= was
    ensures Turned(l, i, fate, less)
    decreases fate
  {
    match fate
    case Gone =>
    case Becomes(d, decaying, perishable, next) =>
      if perishable && !decaying && d == 0 { TurnedSince(l, i, next, was, less); }
    case Replaced(d, perishable, next) =>
      var heir :| HeirOf(l, heir, d, perishable, next, was);
      if perishable && d == 0 { TurnedSince(l, heir, next, was, less); }
      assert HeirOf(l, heir, d, perishable, next, less);
  }

  /** A cleanup frees what waited for release and files what waited for that. */
  ghost predicate Cleaned(l: Lists, now: Lists, lastBucket: nat) {
    && (forall i :: Dead(l, i) ==> i !in now.items)
    && (forall i, d, decaying, perishable :: Rests(l, i, d, decaying, perishable) ==> Rests(now, i, d, decaying, perishable))
    && (forall i, d :: Placed(l, i, NEW, d) ==> Placed(now, i, FiledIn(lastBucket, d), d))
  }

  lemma {:induction false} TurnedCleaned(l: Lists, now: Lists, lastBucket: nat, i: int, fate: Fate, was: set<int>)
    requires Turned(l, i, fate, was) && Cleaned(l, now, lastBucket)
    ensures Became(now, lastBucket, i, fate, was)
    decreases fate
  {
    hide Dead, Rests, Placed, FiledIn;
    match fate
    case Gone =>
    case Becomes(d, decaying, perishable, next) =>
      if perishable && !decaying && d == 0 { TurnedCleaned(l, now, lastBucket, i, next, was); }
    case Replaced(d, perishable, next) =>
      var heir :| HeirOf(l, heir, d, perishable, next, was);
      if perishable && d == 0 { TurnedCleaned(l, now, lastBucket, heir, next, was); }
      assert HeirIs(now, lastBucket, heir, d, perishable, next, was);
  }

  /** What can no longer decay is freed, or left in its place unmarked. */
  ghost predicate LetGoOf(l: Lists, i: int, held: bool) {
    if held then i in l.items && l.items[i].held && !l.items[i].decaying && Nowhere(l, i) else i !in l.items
  }

  lemma {:induction false} UnmarkedCleaned(l: Lists, now: Lists, lastBucket: nat, i: int, held: bool)
    requires Unmarked(l, i, held) && Cleaned(l, now, lastBucket)
    ensures LetGoOf(now, i, held)
  {
    hide Nowhere;
    if held { assert Rests(l, i, l.items[i].duration, false, l.items[i].perishable); }
    else { assert Dead(l, i); }
  }

  /** What is freed by a cleanup, and what stays. */
  lemma {:induction false} CleanedNow(was: Lists, now: Lists, listed: multiset<int>, lastBucket: nat)
    requires lastBucket < BUCKETS && now.recent == [] && |was.buckets| == |now.buckets| == BUCKETS
    requires Accounted(now.items, listed) && listed == InBuckets(now.buckets)
    requires Survivors(was.items, now.items, listed)
    requires Filed(was.buckets, now.buckets, now.items, was.recent, lastBucket)
    ensures Cleaned(was, now, lastBucket)
  {
    forall i, d | Placed(was, i, NEW, d) ensures Placed(now, i, FiledIn(lastBucket, d), d) {
      CleanedPlaced(was, now, listed, lastBucket, i, NEW, d);
    }
    hide FiledIn;
    forall i | Dead(was, i) ensures i !in now.items {
      if i in now.items {
        NoBuckets(now.buckets, i);
      }
    }
  }

  lemma {:induction false} NoBuckets(bs: seq<seq<int>>, i: int)
    requires |bs| == BUCKETS
    ensures (forall c :: 0 <= c < BUCKETS ==> multiset(bs[c])[i] == 0) ==> InBuckets(bs)[i] == 0
  {
  }

  /** Where a decaying item stands: started and not yet filed, in a bucket and looked at in `wait`
      ticks, or done. */
  datatype Clock = Started(left: nat) | Clock(wait: nat, left: nat) | Over

  /** Filed: less than a round to go and it is looked at next, else after a whole round. */
  function FiledClock(c: Clock): Clock {
    if c.Started? then Clock(FirstWait(c.left), c.left) else c
  }

  /** One tick on; an item that is not filed yet is filed at the end of the tick. */
  function Next(c: Clock): Clock {
    if c.Over? then Over
    else if c.Started? then FiledClock(c)
    else if c.wait > 1 then Clock(c.wait - 1, c.left)
    else match VisitOf(c.left)
      case Decays => Over
      case MovesOn(left) => Clock(1, left)
      case Stays(left) => Clock(BUCKETS, left)
  }

  /** What an event does to the clock of an item that it does not alter. */
  function After(c: Clock, e: Event): Clock {
    if e.Tick? then Next(c) else if e.Clean? then FiledClock(c) else c
  }

  /** Ticks until an item decays that is filed. */
  function DueIn(c: Clock): nat {
    if c.Clock? then TicksToDecay(c.wait, c.left) else 0
  }

  /** The tick of a run on which an item decays, unless the run ends before it is filed. */
  function Due(c: Clock, events: seq<Event>): Option<nat>
    decreases |events|
  {
    if !c.Started? then Some(DueIn(c))
    else if events == [] then None
    else Plus(if events[0].Tick? then 1 else 0, Due(After(c, events[0]), events[1..]))
  }

  function Plus(n: nat, due: Option<nat>): Option<nat> {
    if due.None? then None else Some(n + due.value)
  }

  lemma {:induction false} NextCounts(c: Clock)
    requires c.Clock? && c.wait >= 1
    ensures DueIn(c) == 1 + DueIn(Next(c)) && !Next(c).Started?
    ensures Next(c).Over? <==> DueIn(c) == 1
  {
  }

  /** One event on, the tick on which an item decays is the same. */
  lemma {:induction false} DueStep(c: Clock, events: seq<Event>)
    requires events != [] && !c.Over? && (c.Clock? ==> c.wait >= 1)
    ensures Due(c, events) == Plus(if events[0].Tick? then 1 else 0, Due(After(c, events[0]), events[1..]))
    ensures After(c, events[0]).Over? <==> events[0].Tick? && Due(c, events) == Some(1)
    ensures Due(c, events) != Some(0)
  {
    if c.Clock? {
      if events[0].Tick? { NextCounts(c); }
    } else {
      hide TicksToDecay, VisitOf;
      DueLater(c, events);
    }
  }

  lemma {:induction false} DueLater(c: Clock, events: seq<Event>)
    requires c.Started?
    ensures Due(c, events) != Some(0)
    ensures events != [] && events[0].Tick? ==> Due(c, events) != Some(1)
    decreases |events|
  {
    if events != [] {
      if After(c, events[0]).Started? {
        DueLater(After(c, events[0]), events[1..]);
      } else {
        NextCounts(After(c, events[0]));
      }
    }
  }

  /** Ticks from the filing of an item to its decay. */
  function Period(duration: nat): nat {
    if duration < ROUND then 1 else 4 * (duration / 1000) + if duration % 1000 >= 875 then 1 else 0
  }

  /** A tick that comes before any other cleanup files the item at its end, and counts. */
  function LateBy(events: seq<Event>): Option<nat>
    decreases |events|
  {
    if events == [] then None
    else if events[0].Clean? then Some(0)
    else if events[0].Tick? then Some(1)
    else LateBy(events[1..])
  }

  /** An item that is started with so much time decays the period of its time after it is filed. */
  lemma {:induction false} DueFromStart(duration: nat, events: seq<Event>)
    ensures Due(Started(duration), events) ==
            if LateBy(events).None? then None else Some(LateBy(events).value + Period(duration))
    decreases |events|
  {
    DecayTime(duration);
    hide TicksToDecay;
    if events != [] && !events[0].Clean? && !events[0].Tick? {
      DueFromStart(duration, events[1..]);
    }
  }

  ghost predicate Waits(l: Lists, lastBucket: nat, i: int, c: Clock) {
    && !c.Over?
    && (c.Clock? ==> 1 <= c.wait <= BUCKETS)
    && Placed(l, i, if c.Started? then NEW else (lastBucket + c.wait) % BUCKETS, c.left)
  }

  lemma {:induction false} WaitsPlaced(l: Lists, lastBucket: nat, i: int, c: Clock) returns (b: nat)
    requires Waits(l, lastBucket, i, c)
    ensures !c.Over? && Placed(l, i, b, c.left)
  {
    b := if c.Started? then NEW else (lastBucket + c.wait) % BUCKETS;
  }

  /** The bucket in which an item is filed is the one that is looked through after its first wait. */
  lemma {:induction false} FiledWaits(l: Lists, lastBucket: nat, i: int, d: nat)
    requires lastBucket < BUCKETS && Placed(l, i, FiledIn(lastBucket, d), d)
    ensures Waits(l, lastBucket, i, Clock(FirstWait(d), d))
  {
    hide Placed;
    if d >= ROUND {
      assert (lastBucket + FirstWait(d)) % BUCKETS == lastBucket;
    }
  }

  /** Looking through the next bucket moves a clock by one. */
  lemma {:induction false} NextStep(was: Lists, now: Lists, last: nat, i: int, c: Clock, decayed: seq<int>)
    requires last < BUCKETS && Waits(was, last, i, c)
    requires var bucket := (last + 1) % BUCKETS;
             forall b, d :: Placed(was, i, b, d) ==>
               if b == bucket then Looked(now, i, b, VisitOf(d), i in decayed)
               else i !in decayed && Placed(now, i, if b == NEW then FiledIn(bucket, d) else b, d)
    ensures i in decayed <==> Next(c).Over?
    ensures !Next(c).Over? ==> Waits(now, (last + 1) % BUCKETS, i, Next(c))
  {
    hide Placed, VisitOf, FiledIn, FirstWait;
    if c.Started? {
      assert Placed(was, i, NEW, c.left);
      FiledWaits(now, (last + 1) % BUCKETS, i, c.left);
    } else {
      assert Placed(was, i, (last + c.wait) % BUCKETS, c.left);
    }
  }

  /** A new item moves no other. */
  lemma {:induction false} OtherItem(was: Lists, now: Lists, x: int)
    requires x !in was.items && x in now.items && now == was.(items := was.items[x := now.items[x]])
    ensures forall i, b, d :: Placed(was, i, b, d) ==> Placed(now, i, b, d)
  {
  }

  lemma {:induction false} TouchKeeps(was: Lists, now: Lists, x: int, lastBucket: nat, i: int, c: Clock)
    requires Only(x, was, now) && Waits(was, lastBucket, i, c)
    requires i == x && was.items[x].decaying ==> now == was
    ensures Waits(now, lastBucket, i, c)
  {
    if i != x {
      SamePlaced(was, now, x, i, if c.Started? then NEW else (lastBucket + c.wait) % BUCKETS, c.left);
    }
  }

  /** Every reference is accounted for by the place of the item or by one of the lists, and
      no list holds an item that is freed. */
  ghost predicate Accounted(items: map<int, Item>, listed: multiset<int>) {
    && (forall i :: i in listed ==> i in items)
    && (forall i :: i in items ==> items[i].refs == items[i].Own() + listed[i] && items[i].refs > 0)
  }

  lemma {:induction false} TakenAway(items: map<int, Item>, listed: multiset<int>, i: int)
    requires Accounted(items, listed) && i in items && items[i].held
    ensures Accounted(items[i := items[i].(held := false)], listed + multiset{i})
  {
  }

  lemma {:induction false} Added(items: map<int, Item>, listed: multiset<int>, i: int)
    requires Accounted(items, listed) && i in items
    ensures Accounted(items[i := items[i].(refs := items[i].refs + 1, decaying := true)], listed + multiset{i})
  {
  }

  lemma {:induction false} Pushed(s: seq<int>, b: multiset<int>, c: multiset<int>, d: multiset<int>, i: int)
    ensures multiset([i] + s) + b + c + d == multiset(s) + b + c + d + multiset{i}
  {
    assert multiset([i] + s) == multiset{i} + multiset(s);
  }

  lemma {:induction false} Appended(a: multiset<int>, s: seq<int>, d: multiset<int>, i: int)
    ensures a + multiset(s + [i]) + d == a + multiset(s) + d + multiset{i}
  {
    assert multiset(s + [i]) == multiset(s) + multiset{i};
  }

  /** The bucket in which `Cleanup` files an item. */
  function FiledIn(lastBucket: nat, duration: nat): (b: nat)
    ensures b < BUCKETS || lastBucket >= BUCKETS
  {
    if duration >= ROUND then lastBucket else (lastBucket + 1 + duration / 1000) % BUCKETS
  }

  /** Ticks until a newly filed item is looked at. */
  function FirstWait(duration: nat): nat { if duration >= ROUND then BUCKETS else 1 }

  // ---------- the wheel ----------

  class Wheel {
    var items: map<int, Item>
    var buckets: seq<seq<int>>
    var lastBucket: nat
    var toDecayItems: seq<int>
    var toReleaseItems: seq<int>
    var nextItem: int
    ghost var inHand: multiset<int>

    constructor ()
      ensures Valid() && items == map[] && inHand == multiset{}
    {
      items, lastBucket, nextItem := map[], 0, 0;
      buckets, toDecayItems, toReleaseItems := [[], [], [], []], [], [];
      inHand := multiset{};
    }

    ghost predicate Shape()
      reads this
    {
      |buckets| == BUCKETS && lastBucket < BUCKETS && (forall i :: i in items ==> i < nextItem)
    }

    /** Every occurrence of an item in one of the lists, and the one being moved between them. */
    ghost function Listed(): multiset<int>
      requires |buckets| == BUCKETS
      reads this
    {
      multiset(toDecayItems) + InBuckets(buckets) + multiset(toReleaseItems) + inHand
    }

    ghost predicate Valid()
      reads this
    {
      Shape() && Accounted(items, Listed())
    }

    /** A new item lying somewhere. */
    method CreateItem(duration: nat, perishable: bool) returns (i: int)
      requires Valid()
      modifies this`items, this`nextItem
      ensures Valid() && i == old(nextItem) && nextItem == i + 1
      ensures items == old(items)[i := Item(duration, false, perishable, true, 1)]
    {
      i := nextItem;
      items := items[i := Item(duration, false, perishable, true, 1)];
      nextItem := nextItem + 1;
    }

    /** The item is taken away; the reference of its place waits for the next cleanup. */
    method RemoveItem(i: int)
      requires Valid() && i in items
      modifies this`items, this`toReleaseItems
      ensures Valid()
      ensures var it := old(items)[i];
              if it.held then
                items == old(items)[i := it.(held := false)] && toReleaseItems == old(toReleaseItems) + [i]
              else
                items == old(items) && toReleaseItems == old(toReleaseItems)
    {
      if !items[i].held {
        return;
      }
      TakenAway(items, Listed(), i);
      hide Accounted, InBuckets;
      items := items[i := items[i].(held := false)];
      Appended(multiset(toDecayItems) + InBuckets(buckets), toReleaseItems, inHand, i);
      toReleaseItems := toReleaseItems + [i];
    }

    /** Other code changes the item in place. */
    method Alter(i: int, duration: nat, decaying: bool, perishable: bool)
      requires Valid() && i in items
      modifies this`items
      ensures Valid()
      ensures items == old(items)[i := old(items)[i].(duration := duration, decaying := decaying, perishable := perishable)]
    {
      items := items[i := items[i].(duration := duration, decaying := decaying, perishable := perishable)];
    }

    /** Marks the item and puts it in front of the newly filed ones. */
    method File(i: int)
      requires Valid() && i in items
      modifies this`items, this`toDecayItems
      ensures Valid()
      ensures toDecayItems == [i] + old(toDecayItems)
      ensures items == old(items)[i := old(items)[i].(refs := old(items)[i].refs + 1, decaying := true)]
    {
      Added(items, Listed(), i);
      hide Accounted, InBuckets;
      items := items[i := items[i].(refs := items[i].refs + 1, decaying := true)];
      Pushed(toDecayItems, InBuckets(buckets), multiset(toReleaseItems), inHand, i);
      toDecayItems := [i] + toDecayItems;
    }

    /** The state and the places of all items. */
    ghost function All(): Lists
      reads this
    {
      Lists(items, toDecayItems, buckets)
    }

    /** Starts decay: files the item, or lets it decay at once if no time is left. */
    method StartDecay(i: int, fate: Fate)
      requires Valid() && i in items
      modifies this`items, this`toDecayItems, this`toReleaseItems, this`nextItem
      ensures Valid() && Only(i, old(All()), All())
      ensures old(items[i].CanDecay() && !items[i].decaying && items[i].duration > 0) ==>
                && toDecayItems == [i] + old(toDecayItems)
                && items == old(items)[i := old(items)[i].(refs := old(items)[i].refs + 1, decaying := true)]
      ensures old(!items[i].CanDecay() || items[i].decaying) ==>
                items == old(items) && toDecayItems == old(toDecayItems) && toReleaseItems == old(toReleaseItems)
      ensures old(items[i].CanDecay() && !items[i].decaying && items[i].duration == 0 && Nowhere(All(), i)) ==>
                Turned(All(), i, fate, old(items.Keys))
      ensures old(items.Keys) <= items.Keys && OnlyNewer(old(items.Keys), old(nextItem), items.Keys, nextItem)
      decreases fate, 1
    {
      hide Accounted, InBuckets, Only, Listed, Turned, Nowhere;
      OnlyNothing(i, All());
      if !items[i].CanDecay() || items[i].decaying {
        return;
      }
      if items[i].duration > 0 {
        File(i);
        FiledOnly(i, old(All()), All());
      } else {
        InternalDecayItem(i, fate);
      }
    }

    /** The item decays: what lies somewhere goes, turns into something else in place, or is replaced;
        what comes of that may decay on at once. */
    method InternalDecayItem(i: int, fate: Fate)
      requires Valid() && i in items
      modifies this`items, this`toDecayItems, this`toReleaseItems, this`nextItem
      ensures Valid() && Only(i, old(All()), All())
      ensures !old(items[i].held) ==> All() == old(All()) && toReleaseItems == old(toReleaseItems)
      ensures old(items[i].held) && fate.Gone? ==>
                && items == old(items)[i := old(items)[i].(held := false)] && toDecayItems == old(toDecayItems)
                && toReleaseItems == old(toReleaseItems) + [i]
      ensures old(items[i].held) && fate.Becomes? && (!fate.perishable || fate.decaying) ==>
                && items == old(items)[i := old(items)[i].(duration := fate.duration, decaying := fate.decaying, perishable := fate.perishable)]
                && toDecayItems == old(toDecayItems) && toReleaseItems == old(toReleaseItems)
      ensures old(items[i].held && Nowhere(All(), i)) ==> Turned(All(), i, fate, old(items.Keys))
      ensures old(items.Keys) <= items.Keys && OnlyNewer(old(items.Keys), old(nextItem), items.Keys, nextItem)
      decreases fate, 0
    {
      hide Accounted, InBuckets, Only, Listed, Turned;
      if !items[i].held {
        OnlyNothing(i, All());
        return;
      }
      match fate
      case Gone =>
        RemoveItem(i);
        OnlyItem(i, old(All()), All());
        TurnedGone(All(), i, old(items.Keys));
      case Becomes(d, decaying, perishable, next) =>
        Alter(i, d, decaying, perishable);
        ghost var mid := All();
        assert mid.items.Keys == old(items.Keys);
        OnlyItem(i, old(All()), mid);
        StartDecay(i, next);
        OnlyThenOnly(i, old(All()), mid, All());
        if Nowhere(mid, i) { BegunIs(mid, All(), i, d); }
        TurnedOther(All(), i, d, decaying, perishable, next, old(items.Keys));
      case Replaced(d, perishable, next) =>
        ReplaceItem(i, d, perishable, next);
    }

    /** A new item takes the place of another and starts its own decay. */
    method ReplaceItem(i: int, d: nat, perishable: bool, next: Fate)
      requires Valid() && i in items && items[i].held
      modifies this`items, this`toDecayItems, this`toReleaseItems, this`nextItem
      ensures Valid() && Only(i, old(All()), All())
      ensures old(Nowhere(All(), i)) ==> Turned(All(), i, Replaced(d, perishable, next), old(items.Keys))
      ensures old(items.Keys) <= items.Keys && OnlyNewer(old(items.Keys), old(nextItem), items.Keys, nextItem)
      decreases next, 2
    {
      hide Accounted, InBuckets, Only, Listed, Turned;
      var heir := CreateItem(d, perishable);
      ghost var one := All();
      OnlyNew(i, heir, old(All()), one);
      RemoveItem(i);
      ghost var mid := All();
      OnlyItem(i, one, mid);
      OnlyThenOnly(i, old(All()), one, mid);
      NewNowhere(heir);
      StartDecay(heir, next);
      OnlyHeir(i, heir, old(All()), mid, All());
      DeadStays(mid, All(), heir, i);
      HeirBegun(mid, All(), heir, d, perishable, next, old(items.Keys));
      TurnedReplaced(All(), i, heir, d, perishable, next, old(items.Keys));
    }

    /** What is not there is in no list. */
    lemma {:induction false} NewNowhere(i: int)
      requires Valid() && i in items && items[i].Own() == items[i].refs
      ensures Nowhere(All(), i)
    {
      assert Listed()[i] == 0;
      forall c | 0 <= c < BUCKETS ensures multiset(buckets[c])[i] == 0 {
        assert c == 0 || c == 1 || c == 2 || c == 3;
      }
    }

    // ---------- giving back and filing ----------

    method ReleaseAll()
      requires Valid()
      modifies this`items, this`toReleaseItems
      ensures Valid() && toReleaseItems == []
      ensures Survivors(old(items), items, Listed())
    {
      ghost var rest := multiset(toDecayItems) + InBuckets(buckets) + inHand;
      assert rest + multiset(toReleaseItems) == Listed();
      items := ReleaseEach(items, toReleaseItems, rest);
      toReleaseItems := [];
      assert Listed() == rest;
    }

    /** Files the new items; an item with a round or more to go is looked at last. */
    method FileAll()
      requires Valid()
      modifies this`buckets, this`toDecayItems
      ensures Valid() && toDecayItems == [] && Listed() == old(Listed())
      ensures FiledBehind(old(buckets), buckets, items, old(toDecayItems), lastBucket)
      ensures Filed(old(buckets), buckets, items, old(toDecayItems), lastBucket)
    {
      hide Filed, FiledBehind, FiledIn, InBuckets, Accounted;
      ghost var rest := multiset(toReleaseItems) + inHand;
      assert Listed() == multiset(toDecayItems) + InBuckets(buckets) + rest;
      buckets := FileEach(buckets, items, toDecayItems, lastBucket, rest);
      toDecayItems := [];
      assert Listed() == InBuckets(buckets) + rest;
    }

    /** Gives back waiting references and files the new items. */
    method Cleanup()
      requires Valid() && inHand == multiset{}
      modifies this`items, this`buckets, this`toDecayItems, this`toReleaseItems
      ensures Valid() && toReleaseItems == [] && toDecayItems == []
      ensures Survivors(old(items), items, Listed())
      ensures Filed(old(buckets), buckets, items, old(toDecayItems), lastBucket)
      ensures forall i, b, d :: Placed(old(All()), i, b, d) ==> Placed(All(), i, if b == NEW then FiledIn(lastBucket, d) else b, d)
      ensures Cleaned(old(All()), All(), lastBucket) && items.Keys <= old(items.Keys)
      ensures FiledBehind(old(buckets), buckets, items, old(toDecayItems), lastBucket)
    {
      hide FiledBehind, Accounted, InBuckets, Placed, Filed, FiledIn, Cleaned;
      ReleaseAll();
      FewerSurvive(old(items), items, Listed());
      hide Survivors;
      FileAll();
      CleanedNow(old(All()), All(), Listed(), lastBucket);
      forall i, b, d | Placed(old(All()), i, b, d)
        ensures Placed(All(), i, if b == NEW then FiledIn(lastBucket, d) else b, d)
      {
        CleanedPlaced(old(All()), All(), Listed(), lastBucket, i, b, d);
      }
    }

    // ---------- a tick ----------

    method Erase(bucket: nat, k: nat)
      requires Valid() && bucket < BUCKETS && k < |buckets[bucket]|
      modifies this`buckets, this`inHand
      ensures Valid() && buckets == old(buckets)[bucket := old(buckets)[bucket][..k] + old(buckets)[bucket][k + 1..]]
      ensures inHand == old(inHand) + multiset{old(buckets)[bucket][k]}
      ensures multiset(buckets[bucket]) + multiset{old(buckets)[bucket][k]} == multiset(old(buckets)[bucket])
    {
      hide Accounted, InBuckets;
      BucketErased(buckets, bucket, k);
      inHand := inHand + multiset{buckets[bucket][k]};
      buckets := buckets[bucket := buckets[bucket][..k] + buckets[bucket][k + 1..]];
      assert Listed() == old(Listed());
    }

    method ReleaseItem(i: int)
      requires Valid() && i in inHand
      modifies this`toReleaseItems, this`inHand
      ensures Valid() && toReleaseItems == old(toReleaseItems) + [i] && inHand == old(inHand) - multiset{i}
    {
      hide Accounted, InBuckets;
      inHand := inHand - multiset{i};
      toReleaseItems := toReleaseItems + [i];
      assert Listed() == old(Listed());
    }

    method PushBack(bucket: nat, i: int)
      requires Valid() && i in inHand && bucket < BUCKETS
      modifies this`buckets, this`inHand
      ensures Valid() && buckets == old(buckets)[bucket := old(buckets)[bucket] + [i]]
      ensures inHand == old(inHand) - multiset{i}
    {
      hide Accounted, InBuckets;
      BucketPushed(buckets, bucket, i);
      inHand := inHand - multiset{i};
      buckets := buckets[bucket := buckets[bucket] + [i]];
      assert Listed() == old(Listed());
    }

    lemma {:induction false} FiledExists(bucket: nat, k: nat)
      requires Valid() && bucket < BUCKETS && k < |buckets[bucket]|
      ensures buckets[bucket][k] in items
    {
      var i := buckets[bucket][k];
      assert multiset(buckets[bucket])[i] > 0;
      assert InBuckets(buckets)[i] > 0;
      assert i in Listed();
    }

    /** Takes the item out of the bucket without letting it decay. */
    method LetGo(bucket: nat, k: nat)
      requires Valid() && inHand == multiset{} && bucket < BUCKETS && k < |buckets[bucket]|
      modifies this`buckets, this`toReleaseItems, this`inHand
      ensures Valid() && inHand == multiset{}
      ensures buckets == old(buckets)[bucket := buckets[bucket]]
      ensures buckets[bucket] == old(buckets)[bucket][..k] + old(buckets)[bucket][k + 1..]
      ensures multiset(buckets[bucket]) + multiset{old(buckets)[bucket][k]} == multiset(old(buckets)[bucket])
      ensures toReleaseItems == old(toReleaseItems) + [old(buckets)[bucket][k]]
      ensures Only(old(buckets)[bucket][k], old(All()), All())
    {
      hide Accounted, InBuckets, Listed, Only, Placed, Nowhere;
      var i := buckets[bucket][k];
      ghost var was := All();
      Erase(bucket, k);
      ErasedNowhere(was, All(), i, bucket);
      ghost var mid := All();
      ReleaseItem(i);
      assert All() == mid;
    }

    /** Takes the item out of the bucket and lets it decay. */
    method DecayAt(bucket: nat, k: nat, fate: Fate)
      requires Valid() && inHand == multiset{} && bucket < BUCKETS && k < |buckets[bucket]|
      modifies this`items, this`buckets, this`toDecayItems, this`toReleaseItems, this`nextItem, this`inHand
      ensures Valid() && inHand == multiset{}
      ensures buckets == old(buckets)[bucket := buckets[bucket]]
      ensures buckets[bucket] == old(buckets)[bucket][..k] + old(buckets)[bucket][k + 1..]
      ensures Only(old(buckets)[bucket][k], old(All()), All())
      ensures forall d :: Placed(old(All()), old(buckets)[bucket][k], bucket, d) ==>
                Turned(All(), old(buckets)[bucket][k], fate, old(items.Keys))
      ensures old(items.Keys) <= items.Keys && OnlyNewer(old(items.Keys), old(nextItem), items.Keys, nextItem)
    {
      hide Accounted, InBuckets, Only, Placed, Turned, Nowhere, Listed;
      FiledExists(bucket, k);
      var i := buckets[bucket][k];
      ghost var was := All();
      Erase(bucket, k);
      ghost var mid := All();
      ErasedNowhere(was, mid, i, bucket);
      InternalDecayItem(i, fate);
      ghost var turned := All();
      ReleaseItem(i);
      assert All() == turned;
      OnlyThenOnly(i, was, mid, All());
    }

    /** Takes the item out of the bucket and appends it to another. */
    method MoveOn(bucket: nat, k: nat, newBucket: nat)
      requires Valid() && inHand == multiset{} && bucket < BUCKETS && k < |buckets[bucket]|
      requires newBucket < BUCKETS && newBucket != bucket
      modifies this`buckets, this`inHand
      ensures Valid() && inHand == multiset{}
      ensures buckets[bucket] == old(buckets)[bucket][..k] + old(buckets)[bucket][k + 1..]
      ensures buckets[newBucket] == old(buckets)[newBucket] + [old(buckets)[bucket][k]]
      ensures Only(old(buckets)[bucket][k], old(All()), All())
      ensures forall d :: Placed(old(All()), old(buckets)[bucket][k], bucket, d) ==>
                Placed(All(), old(buckets)[bucket][k], newBucket, d)
    {
      hide Accounted, InBuckets, Only, Placed;
      var i := buckets[bucket][k];
      ghost var was := All();
      Erase(bucket, k);
      ghost var mid := All();
      PushBack(newBucket, i);
      MovedOn(was, mid, All(), i, bucket, newBucket);
    }

    /** Looks at the item at place `k` of the bucket; `next` is the place to go on from. */
    method LookAt(bucket: nat, k: nat, fate: Fate) returns (next: nat, decays: bool)
      requires Valid() && inHand == multiset{} && bucket < BUCKETS && k < |buckets[bucket]|
      modifies this`items, this`buckets, this`toDecayItems, this`toReleaseItems, this`nextItem, this`inHand
      ensures Valid() && inHand == multiset{}
      ensures next <= |buckets[bucket]| && buckets[bucket][next..] == old(buckets)[bucket][k + 1..]
      ensures Only(old(buckets)[bucket][k], old(All()), All())
      ensures var i := old(buckets)[bucket][k];
              && (forall d :: Placed(old(All()), i, bucket, d) ==> Looked(All(), i, bucket, VisitOf(d), decays))
              && (forall d :: Placed(old(All()), i, bucket, d) && decays ==> Turned(All(), i, fate, old(items.Keys)))
              && (forall held :: Stale(old(All()), i, bucket, held) ==> Unmarked(All(), i, held))
      ensures old(items.Keys) <= items.Keys && OnlyNewer(old(items.Keys), old(nextItem), items.Keys, nextItem)
    {
      hide Accounted, InBuckets, Listed, Only, Placed, Turned, Stale, Unmarked;
      FiledExists(bucket, k);
      var i := buckets[bucket][k];
      OnlyTime(All(), i, bucket);
      next, decays := k, false;
      if !items[i].CanDecay() {
        NotPlaced(All(), i);
        Alter(i, items[i].duration, false, items[i].perishable);
        ghost var mid := All();
        OnlyItem(i, old(All()), mid);
        LetGo(bucket, k);
        OnlyThenOnly(i, old(All()), mid, All());
        LetGoUnmarked(old(All()), All(), i, bucket);
        return;
      }
      NotStale(All(), i);
      ghost var d := items[i].duration;
      var duration := items[i].duration - Min(ROUND, items[i].duration);
      Alter(i, duration, items[i].decaying, items[i].perishable);
      ghost var mid := All();
      OnlyItem(i, old(All()), mid);
      assert mid.items.Keys == old(items.Keys);
      Shortened(i, bucket, d, old(All()), mid, duration);
      if duration <= 0 {
        DecayAt(bucket, k, fate);
        decays := true;
      } else if duration < ROUND {
        NextBucket(bucket, duration);
        var newBucket := (bucket + (duration + INTERVAL / 2) / 1000) % BUCKETS;
        if newBucket == bucket {
          DecayAt(bucket, k, fate);
          decays := true;
        } else {
          MoveOn(bucket, k, newBucket);
        }
      } else {
        next := k + 1;
      }
      assert Placed(old(All()), i, bucket, d) ==> Looked(All(), i, bucket, VisitOf(d), decays);
      assert Placed(old(All()), i, bucket, d) && decays ==> Turned(All(), i, fate, old(items.Keys));
      OnlyNothing(i, mid);
      OnlyThenOnly(i, old(All()), mid, All());
    }

    /** Looks through a bucket; returns what decayed, in order. */
    method LookThrough(bucket: nat, fates: int -> Fate) returns (decayed: seq<int>)
      requires Valid() && inHand == multiset{} && bucket < BUCKETS
      modifies this`items, this`buckets, this`toDecayItems, this`toReleaseItems, this`nextItem, this`inHand
      ensures Valid() && inHand == multiset{}
      ensures forall i, b, d :: Placed(old(All()), i, b, d) ==> Underway(All(), i, b, d, bucket, [], decayed)
      ensures forall i, b, d :: Placed(old(All()), i, b, d) && i in decayed ==> Turned(All(), i, fates(i), old(items.Keys))
      ensures forall i, held :: Stale(old(All()), i, bucket, held) ==> Unmarked(All(), i, held)
      ensures OnlyNewer(old(items.Keys), old(nextItem), items.Keys, nextItem)
    {
      hide Accounted, InBuckets, Listed, Placed, Looked, Underway, Only, Same, Survivors, Filed, FiledIn, VisitOf, Turned, Stale, Unmarked,
           StaleUnderway;
      var k: nat := 0;
      decayed := [];
      forall i, b, d | Placed(All(), i, b, d) ensures Underway(All(), i, b, d, bucket, buckets[bucket][k..], decayed) {
        UnderwayAtFirst(All(), i, b, d, bucket);
      }
      forall i, held | Stale(All(), i, bucket, held) ensures StaleUnderway(All(), i, bucket, held, buckets[bucket][k..]) {
        StaleAtFirst(All(), i, bucket, held);
      }
      while k < |buckets[bucket]|
        invariant Valid() && inHand == multiset{} && k <= |buckets[bucket]|
        invariant forall i, b, d :: Placed(old(All()), i, b, d) ==>
                    Underway(All(), i, b, d, bucket, buckets[bucket][k..], decayed)
        invariant forall i, b, d :: Placed(old(All()), i, b, d) && i in decayed ==> Turned(All(), i, fates(i), old(items.Keys))
        invariant forall i, held :: Stale(old(All()), i, bucket, held) ==>
                    StaleUnderway(All(), i, bucket, held, buckets[bucket][k..])
        invariant old(items.Keys) <= items.Keys && OnlyNewer(old(items.Keys), old(nextItem), items.Keys, nextItem)
        decreases |buckets[bucket]| - k
      {
        ghost var was, rest := All(), buckets[bucket][k..];
        ghost var before := decayed;
        assert buckets[bucket] == buckets[bucket][..k] + rest;
        var i := buckets[bucket][k];
        var next, decays := LookAt(bucket, k, fates(i));
        if decays {
          decayed := decayed + [i];
        }
        k := next;
        forall i, b, d | Placed(old(All()), i, b, d)
          ensures Underway(All(), i, b, d, bucket, buckets[bucket][k..], decayed)
        {
          UnderwayStep(was, All(), i, b, d, bucket, rest, before, decays);
        }
        forall j, b, d | Placed(old(All()), j, b, d) && j in decayed ensures Turned(All(), j, fates(j), old(items.Keys)) {
          TurnedStep(was, All(), j, b, d, bucket, rest, before, decays, fates(j), old(items.Keys));
        }
        forall j, held | Stale(old(All()), j, bucket, held)
          ensures StaleUnderway(All(), j, bucket, held, buckets[bucket][k..])
        {
          StaleStep(was, All(), j, bucket, held, rest);
        }
      }
      assert buckets[bucket][k..] == [];
      StaleAtLast(All(), bucket);
    }

    /** Looks through the next bucket, then cleans up; returns what decayed, in order. */
    method CheckDecay(fates: int -> Fate) returns (decayed: seq<int>)
      requires Valid() && inHand == multiset{}
      modifies this
      ensures Valid() && inHand == multiset{}
      ensures lastBucket == (old(lastBucket) + 1) % BUCKETS
      ensures toReleaseItems == [] && toDecayItems == []
      ensures forall i, b, d :: Placed(old(All()), i, b, d) ==>
                if b == lastBucket then Looked(All(), i, b, VisitOf(d), i in decayed)
                else i !in decayed && Placed(All(), i, if b == NEW then FiledIn(lastBucket, d) else b, d)
      ensures forall i, b, d :: Placed(old(All()), i, b, d) && i in decayed ==>
                Became(All(), lastBucket, i, fates(i), old(items.Keys))
      ensures forall i, held :: Stale(old(All()), i, lastBucket, held) ==> LetGoOf(All(), i, held)
      ensures OnlyNewer(old(items.Keys), old(nextItem), items.Keys, nextItem)
    {
      hide Accounted, InBuckets, Placed, Looked, Underway, Survivors, Filed, FiledIn, VisitOf, Turned, Became, Cleaned, Unmarked, Stale,
           LetGoOf;
      var bucket := (lastBucket + 1) % BUCKETS;
      decayed := LookThrough(bucket, fates);
      ghost var looked := All();
      lastBucket := bucket;
      assert All() == looked;
      Cleanup();
      forall i, b, d | Placed(old(All()), i, b, d)
        ensures if b == bucket then Looked(All(), i, b, VisitOf(d), i in decayed)
                else i !in decayed && Placed(All(), i, if b == NEW then FiledIn(lastBucket, d) else b, d)
      {
        UnderwayAtLast(looked, All(), i, b, d, bucket, decayed);
      }
      forall i, b, d | Placed(old(All()), i, b, d) && i in decayed
        ensures Became(All(), lastBucket, i, fates(i), old(items.Keys))
      {
        TurnedCleaned(looked, All(), lastBucket, i, fates(i), old(items.Keys));
      }
      forall i, held | Stale(old(All()), i, lastBucket, held) ensures LetGoOf(All(), i, held) {
        UnmarkedCleaned(looked, All(), lastBucket, i, held);
      }
    }

    // ---------- whole runs ----------

    /** Item `i` stands where the clock says. */
    ghost predicate Waiting(i: int, clock: Clock)
      reads this
    {
      Waits(All(), lastBucket, i, clock)
    }

    /** A tick moves every clock by one. */
    method Tick(fates: int -> Fate) returns (decayed: seq<int>)
      requires Valid() && inHand == multiset{}
      modifies this
      ensures Valid() && inHand == multiset{}
      ensures forall i, c :: old(Waiting(i, c)) ==> (i in decayed <==> Next(c).Over?)
      ensures forall i, c :: old(Waiting(i, c)) && !Next(c).Over? ==> Waiting(i, Next(c))
      ensures forall i, c :: old(Waiting(i, c)) && Next(c).Over? ==>
                Became(All(), lastBucket, i, fates(i), old(items.Keys))
      ensures OnlyNewer(old(items.Keys), old(nextItem), items.Keys, nextItem)
    {
      hide Accounted, InBuckets, Listed, Placed, Looked, Waits, FiledIn, VisitOf, Next, Became, Stale, LetGoOf;
      ghost var was, last := All(), lastBucket;
      decayed := CheckDecay(fates);
      forall i, c | old(Waiting(i, c))
        ensures i in decayed <==> Next(c).Over?
        ensures !Next(c).Over? ==> Waiting(i, Next(c))
      {
        NextStep(was, All(), last, i, c, decayed);
      }
      forall i, c | old(Waiting(i, c)) && Next(c).Over? ensures Became(All(), lastBucket, i, fates(i), old(items.Keys)) {
        NextStep(was, All(), last, i, c, decayed);
        var b := WaitsPlaced(was, last, i, c);
        assert Placed(old(All()), i, b, c.left) && i in decayed;
      }
    }

    /** Something done to the one item `x`. */
    method Touch(x: int, e: Event)
      requires Valid() && inHand == multiset{} && x in items
      requires e.Remove? || e.Alter? || e.Start?
      modifies this`items, this`toDecayItems, this`toReleaseItems, this`nextItem
      ensures Valid() && Only(x, old(All()), All())
      ensures e.Start? && old(items[x].decaying) ==> All() == old(All())
      ensures OnlyNewer(old(items.Keys), old(nextItem), items.Keys, nextItem)
      ensures e.Remove? ==> x in items && !items[x].held
      ensures e.Start? && old(Idle(x) && items[x].duration > 0) ==> Waiting(x, Started(old(items[x].duration)))
    {
      hide Accounted, InBuckets, Listed, Turned;
      if e.Remove? {
        RemoveItem(x);
      } else if e.Alter? {
        Alter(x, e.duration, e.decaying, e.perishable);
      } else {
        StartDecay(x, e.fate);
      }
    }

    /** Whatever else the program does leaves every clock as it is, but of an item it alters. */
    method Apply(e: Event)
      requires Valid() && inHand == multiset{} && !e.Tick?
      modifies this
      ensures Valid() && inHand == multiset{}
      ensures forall i, c :: old(Waiting(i, c)) && !e.Alters(i) ==> Waiting(i, After(c, e))
      ensures OnlyNewer(old(items.Keys), old(nextItem), items.Keys, nextItem)
      ensures e.Remove? && old(e.i in items) ==> e.i in items && !items[e.i].held
      ensures e.Start? && old(e.i in items && Idle(e.i) && items[e.i].duration > 0) ==>
                Waiting(e.i, Started(old(if e.i in items then items[e.i].duration else 0)))
      ensures e.Create? ==> items == old(items)[old(nextItem) := Item(e.duration, false, e.perishable, true, 1)]
    {
      hide Accounted, InBuckets, Placed, Survivors, Filed, FiledIn, Same, Idle, Cleaned;
      ghost var was := All();
      if e.Clean? {
        Cleanup();
        hide FirstWait;
        forall i, c | old(Waiting(i, c)) ensures Waiting(i, After(c, e)) {
          if c.Started? { FiledWaits(All(), lastBucket, i, c.left); }
        }
      } else if e.Create? {
        var x := CreateItem(e.duration, e.perishable);
        OtherItem(was, All(), x);
      } else if e.i in items {
        Touch(e.i, e);
        hide Only;
        forall i, c | old(Waiting(i, c)) && !e.Alters(i) ensures Waiting(i, c) {
          TouchKeeps(was, All(), e.i, lastBucket, i, c);
        }
      }
    }

    /** Over every run an item that nothing else alters decays on exactly the tick that its
        time says, and not before; `log` holds what decayed on each tick. */
    method Run(events: seq<Event>, ghost watch: int, ghost clock: Clock) returns (log: seq<seq<int>>)
      requires Valid() && inHand == multiset{}
      modifies this
      ensures Valid() && inHand == multiset{}
      ensures old(Waiting(watch, clock)) && (forall e :: e in events ==> !e.Alters(watch)) ==>
                OnTime(log, watch, Due(clock, events)) && FreedWhenDue(watch, Due(clock, events), TickFates(events), items.Keys)
      ensures |log| == |TickFates(events)|
    {
      hide Accounted, InBuckets, Listed, Placed, VisitOf, Next, TicksToDecay, Due, After, FirstWait, OnCourse, Waiting, Became, TickFates,
           OnlyNewer, FreedWhenDue, Idle;
      log := [];
      var k := 0;
      ghost var done: seq<int -> Fate> := [];
      NothingDue(watch, Due(clock, events), items.Keys);
      WaitingClock(watch, clock);
      assert [] + TickFates(events) == TickFates(events);
      ghost var c, due := clock, Due(clock, events);
      assert events[0..] == events;
      CourseBegins(watch, clock, events);
      while k < |events|
        invariant 0 <= k <= |events| && Valid() && inHand == multiset{}
        invariant old(Waiting(watch, clock)) && (forall e :: e in events ==> !e.Alters(watch)) ==>
                    OnCourse(log, watch, c, due, events[k..], Waiting(watch, c)) && watch < nextItem
                    && FreedWhenDue(watch, due, done, items.Keys)
        invariant |done| == |log| && done + TickFates(events[k..]) == TickFates(events)
      {
        assert events[k..][1..] == events[k + 1..];
        ghost var was, waited := log, Waiting(watch, c);
        ghost var keys, next := items.Keys, nextItem;
        WaitingClock(watch, c);
        TickFatesStep(events[k..]);
        if events[k].Tick? {
          var decayed := Tick(events[k].fates);
          log := log + [decayed];
          if OnCourse(was, watch, c, due, events[k..], waited) && FreedWhenDue(watch, due, done, keys) && watch < next {
            FreedTick(was, watch, c, due, events[k..], waited, All(), lastBucket, keys, next, nextItem, done);
          }
          Regroup(done, [events[k].fates], TickFates(events[k + 1..]));
          done := done + [events[k].fates];
          AfterTick(c, events[k]);
          if OnCourse(was, watch, c, due, events[k..], waited) {
            CourseTick(was, decayed, watch, c, due, events[k..], waited, Waiting(watch, Next(c)));
          }
        } else {
          Apply(events[k]);
          assert done + TickFates(events[k + 1..]) == TickFates(events);
          if FreedWhenDue(watch, due, done, keys) && watch < next {
            StaysFreed(watch, due, done, keys, next, items.Keys, nextItem);
          }
          if OnCourse(was, watch, c, due, events[k..], waited) && !events[k].Alters(watch) {
            CourseGoesOn(was, watch, c, due, events[k..], waited, Waiting(watch, After(c, events[k])));
          }
        }
        c := After(c, events[k]);
        k := k + 1;
      }
      TickFatesEnd(events[k..]);
      assert done + [] == done;
      if OnCourse(log, watch, c, due, events[k..], Waiting(watch, c)) {
        CourseEnds(log, watch, c, due, events[k..], Waiting(watch, c));
      }
    }

    lemma {:induction false} WaitingClock(i: int, c: Clock)
      ensures Valid() && Waiting(i, c) ==> !c.Over? && (c.Clock? ==> c.wait >= 1) && i < nextItem
    {
    }

    /** Item `i` can decay, is not marked and in no list that lets it decay. */
    ghost predicate Idle(i: int)
      requires |buckets| == BUCKETS
      reads this
    {
      && i in items && items[i].CanDecay() && !items[i].decaying
      && multiset(toDecayItems)[i] == 0 && forall c :: 0 <= c < BUCKETS ==> multiset(buckets[c])[i] == 0
    }

    /** A new item is idle. */
    lemma {:induction false} NewIsIdle(i: int)
      requires Valid() && i in items && items[i] == Item(items[i].duration, false, true, true, 1)
      ensures Idle(i)
    {
      assert Listed()[i] == 0;
      forall c | 0 <= c < BUCKETS ensures multiset(buckets[c])[i] == 0 {
        assert c == 0 || c == 1 || c == 2 || c == 3;
      }
    }

    /** An item whose decay is started with time left, and that nothing else alters, decays on the
        tick that its time says, counted from its filing: the next cleanup, or the end of a tick
        that comes before. */
    method StartAndRun(i: int, fate: Fate, events: seq<Event>) returns (log: seq<seq<int>>)
      requires Valid() && inHand == multiset{} && Idle(i) && items[i].duration > 0
      modifies this
      ensures Valid() && inHand == multiset{}
      ensures (forall e :: e in events ==> !e.Alters(i)) ==>
                match LateBy(events)
                case None => OnTime(log, i, None)
                case Some(late) =>
                  var due := Some(late + Period(old(items[i].duration)));
                  OnTime(log, i, due) && FreedWhenDue(i, due, TickFates(events), items.Keys)
      ensures |log| == |TickFates(events)|
    {
      hide Accounted, InBuckets;
      ghost var d := items[i].duration;
      DueFromStart(d, events);
      StartDecay(i, fate);
      assert Waiting(i, Started(d));
      hide Placed, OnTime, Period, LateBy, Due, FreedWhenDue, TickFates;
      log := Run(events, i, Started(d));
    }
  }

  datatype Event =
    | Create(duration: nat, perishable: bool)
    | Remove(i: int)
    | Alter(i: int, duration: nat, decaying: bool, perishable: bool)
    | Start(i: int, fate: Fate)
    | Clean
    | Tick(fates: int -> Fate)
  {
    predicate Alters(j: int) { (Remove? || Alter?) && i == j }
  }

  /** The item is not among what decayed before the tick that is due, and is on that tick. */
  ghost predicate OnTime(log: seq<seq<int>>, i: int, due: Option<nat>) {
    forall t :: 0 <= t < |log| ==>
      && (due.None? || t + 1 < due.value ==> i !in log[t])
      && (due.Some? && t + 1 == due.value ==> i in log[t])
  }

  /** What becomes of items on each tick of a run. */
  function TickFates(events: seq<Event>): seq<int -> Fate>
    decreases |events|
  {
    if events == [] then [] else (if events[0].Tick? then [events[0].fates] else []) + TickFates(events[1..])
  }

  lemma {:induction false} TickFatesStep(events: seq<Event>)
    requires events != []
    ensures TickFates(events) == (if events[0].Tick? then [events[0].fates] else []) + TickFates(events[1..])
    ensures !events[0].Tick? ==> TickFates(events) == TickFates(events[1..])
  {
  }

  lemma {:induction false} TickFatesEnd(events: seq<Event>)
    ensures events == [] ==> TickFates(events) == []
  {
  }

  /** An item that goes, or is replaced, on the tick on which it is due is freed from then on. */
  ghost predicate FreedWhenDue(i: int, due: Option<nat>, ticks: seq<int -> Fate>, items: set<int>) {
    due.Some? && 0 < due.value <= |ticks| && !ticks[due.value - 1](i).Becomes? ==> i !in items
  }

  lemma {:induction false} NothingDue(i: int, due: Option<nat>, items: set<int>)
    ensures FreedWhenDue(i, due, [], items)
  {
  }

  lemma {:induction false} StaysFreed(i: int, due: Option<nat>, ticks: seq<int -> Fate>, was: set<int>, next: int, now: set<int>, next': int)
    requires FreedWhenDue(i, due, ticks, was) && i < next && OnlyNewer(was, next, now, next')
    ensures FreedWhenDue(i, due, ticks, now) && i < next'
  {
  }

  lemma {:induction false} FreedTick(log: seq<seq<int>>, i: int, c: Clock, due: Option<nat>, rest: seq<Event>, waits: bool,
                                     l: Lists, lastBucket: nat, was: set<int>, next: int, next': int, ticks: seq<int -> Fate>)
    requires OnCourse(log, i, c, due, rest, waits) && rest != [] && rest[0].Tick? && |ticks| == |log|
    requires waits ==> !c.Over? && (c.Clock? ==> c.wait >= 1)
    requires waits && Next(c).Over? ==> Became(l, lastBucket, i, rest[0].fates(i), was)
    requires FreedWhenDue(i, due, ticks, was) && i < next && OnlyNewer(was, next, l.items.Keys, next')
    ensures FreedWhenDue(i, due, ticks + [rest[0].fates], l.items.Keys) && i < next'
  {
    if waits { DueStep(c, rest); }
    hide Due, Next;
  }

  /** An item that becomes something that decays is on its way again. */
  lemma {:induction false} BecomesWaits(l: Lists, lastBucket: nat, i: int, d: nat, next: Fate, was: set<int>)
    requires lastBucket < BUCKETS && d > 0 && Became(l, lastBucket, i, Becomes(d, false, true, next), was)
    ensures Waits(l, lastBucket, i, Clock(FirstWait(d), d))
  {
    FiledWaits(l, lastBucket, i, d);
  }

  /** So does the heir of an item that is replaced. */
  lemma {:induction false} HeirWaits(l: Lists, lastBucket: nat, i: int, d: nat, next: Fate, was: set<int>) returns (heir: int)
    requires lastBucket < BUCKETS && d > 0 && Became(l, lastBucket, i, Replaced(d, true, next), was)
    ensures i !in l.items && heir !in was && Waits(l, lastBucket, heir, Clock(FirstWait(d), d))
  {
    heir :| HeirIs(l, lastBucket, heir, d, true, next, was);
    FiledWaits(l, lastBucket, heir, d);
  }

  /** So far all is on time, and as long as the item is not due its clock says when it will be. */
  ghost predicate OnCourse(log: seq<seq<int>>, i: int, c: Clock, due: Option<nat>, rest: seq<Event>, waits: bool) {
    && OnTime(log, i, due)
    && (due.None? || |log| < due.value ==> waits && due == Plus(|log|, Due(c, rest)))
  }

  lemma {:induction false} CourseBegins(i: int, c: Clock, events: seq<Event>)
    ensures OnCourse([], i, c, Due(c, events), events, true)
  {
    hide Due;
  }

  lemma {:induction false} CourseEnds(log: seq<seq<int>>, i: int, c: Clock, due: Option<nat>, rest: seq<Event>, waits: bool)
    requires OnCourse(log, i, c, due, rest, waits)
    ensures OnTime(log, i, due)
  {
  }

  lemma {:induction false} CourseTick(log: seq<seq<int>>, decayed: seq<int>, i: int, c: Clock, due: Option<nat>, rest: seq<Event>,
                                      waits: bool, waits': bool)
    requires OnCourse(log, i, c, due, rest, waits) && rest != [] && rest[0].Tick?
    requires waits ==> !c.Over? && (c.Clock? ==> c.wait >= 1)
    requires waits ==> (i in decayed <==> Next(c).Over?) && (!Next(c).Over? ==> waits')
    ensures OnCourse(log + [decayed], i, After(c, rest[0]), due, rest[1..], waits')
  {
    if waits { DueStep(c, rest); }
    hide Due, Next;
  }

  lemma {:induction false} CourseGoesOn(log: seq<seq<int>>, i: int, c: Clock, due: Option<nat>, rest: seq<Event>,
                                        waits: bool, waits': bool)
    requires OnCourse(log, i, c, due, rest, waits) && rest != [] && !rest[0].Tick?
    requires waits ==> !c.Over? && (c.Clock? ==> c.wait >= 1) && waits'
    ensures OnCourse(log, i, After(c, rest[0]), due, rest[1..], waits')
  {
    if waits { DueStep(c, rest); }
    hide Due, Next;
  }

  lemma {:induction false} AfterTick(c: Clock, e: Event)
    ensures e.Tick? ==> After(c, e) == Next(c)
  {
  }

  /** Appends each of the list to the bucket for its time. */
  method FileEach(buckets: seq<seq<int>>, items: map<int, Item>, list: seq<int>, lastBucket: nat, ghost rest: multiset<int>)
    returns (r: seq<seq<int>>)
    requires |buckets| == BUCKETS && lastBucket < BUCKETS
    requires Accounted(items, multiset(list) + InBuckets(buckets) + rest)
    ensures |r| == BUCKETS && InBuckets(r) + rest == multiset(list) + InBuckets(buckets) + rest
    ensures Filed(buckets, r, items, list, lastBucket) && FiledBehind(buckets, r, items, list, lastBucket)
  {
    hide Filed, FiledBehind, FiledIn, InBuckets, Accounted;
    ghost var all := multiset(list) + InBuckets(buckets) + rest;
    r := buckets;
    var k := 0;
    assert list[0..] == list;
    FiledAtFirst(buckets, items, lastBucket);
    assert list[..0] == [];
    while k < |list|
      invariant 0 <= k <= |list| && |r| == BUCKETS
      invariant multiset(list[k..]) + InBuckets(r) + rest == all
      invariant Filed(buckets, r, items, list[..k], lastBucket) && FiledBehind(buckets, r, items, list[..k], lastBucket)
    {
      var i := list[k];
      assert list[k..] == [i] + list[k + 1..];
      assert list[..k + 1] == list[..k] + [i];
      ListedExists(items, all, i);
      var b := FiledIn(lastBucket, items[i].duration);
      BucketPushed(r, b, i);
      FiledStep(buckets, r, items, list[..k], lastBucket, i);
      BehindStep(buckets, r, items, list[..k], lastBucket, i);
      r := r[b := r[b] + [i]];
      k := k + 1;
    }
    assert list[..k] == list;
  }

  /** Those items are left that lie somewhere or are still listed; only references changed. */
  ghost predicate Survivors(was: map<int, Item>, items: map<int, Item>, listed: multiset<int>) {
    && (forall i :: i in items ==> i in was && items[i] == was[i].(refs := items[i].refs))
    && (forall i :: i in was && (was[i].held || listed[i] > 0) ==> i in items)
  }

  lemma {:induction false} FewerSurvive(was: map<int, Item>, items: map<int, Item>, listed: multiset<int>)
    requires Survivors(was, items, listed)
    ensures items.Keys <= was.Keys
  {
    forall i | i in items ensures i in was {
      var it := items[i];
    }
  }

  /** Gives back one reference for each entry of the list; the last one frees the item. */
  method ReleaseEach(items: map<int, Item>, list: seq<int>, ghost rest: multiset<int>) returns (r: map<int, Item>)
    requires Accounted(items, rest + multiset(list))
    ensures Accounted(r, rest) && Survivors(items, r, rest)
  {
    r := items;
    var k := 0;
    assert list[0..] == list;
    while k < |list|
      invariant 0 <= k <= |list|
      invariant Accounted(r, rest + multiset(list[k..]))
      invariant Survivors(items, r, rest)
    {
      assert list[k..] == [list[k]] + list[k + 1..];
      ghost var after := rest + multiset(list[k + 1..]);
      assert rest + multiset(list[k..]) == after + multiset{list[k]};
      r := Dropped(r, list[k], items, rest, after);
      k := k + 1;
    }
    assert rest + multiset(list[k..]) == rest;
  }

  lemma {:induction false} ListedExists(items: map<int, Item>, listed: multiset<int>, i: int)
    requires Accounted(items, listed) && i in listed
    ensures i in items
  {
  }

  lemma {:induction false} FiledAtFirst(buckets: seq<seq<int>>, items: map<int, Item>, lastBucket: nat)
    requires |buckets| == BUCKETS
    ensures Filed(buckets, buckets, items, [], lastBucket) && FiledBehind(buckets, buckets, items, [], lastBucket)
  {
  }

  /** Those of the list whose time puts them into bucket `b`, in order. */
  function Bound(items: map<int, Item>, list: seq<int>, lastBucket: nat, b: nat): seq<int> {
    if list == [] then []
    else
      var i := list[|list| - 1];
      Bound(items, list[..|list| - 1], lastBucket, b) + if i in items && FiledIn(lastBucket, items[i].duration) == b then [i] else []
  }

  /** Every bucket is as it was, with those that belong there behind, in the order of the list. */
  ghost predicate FiledBehind(was: seq<seq<int>>, buckets: seq<seq<int>>, items: map<int, Item>, list: seq<int>, lastBucket: nat) {
    && |was| == |buckets| == BUCKETS
    && forall b :: 0 <= b < BUCKETS ==> buckets[b] == was[b] + Bound(items, list, lastBucket, b)
  }

  lemma {:induction false} BehindStep(was: seq<seq<int>>, buckets: seq<seq<int>>, items: map<int, Item>, list: seq<int>,
                                      lastBucket: nat, i: int)
    requires FiledBehind(was, buckets, items, list, lastBucket) && i in items && lastBucket < BUCKETS
    ensures var b := FiledIn(lastBucket, items[i].duration);
            FiledBehind(was, buckets[b := buckets[b] + [i]], items, list + [i], lastBucket)
  {
    hide FiledIn;
    assert (list + [i])[..|list|] == list;
    var b := FiledIn(lastBucket, items[i].duration);
    Regroup(was[b], Bound(items, list, lastBucket, b), [i]);
    forall c | 0 <= c < BUCKETS ensures Bound(items, list + [i], lastBucket, c) == Bound(items, list, lastBucket, c) + if c == b then [i] else [] {
    }
  }

  /** Each of `added` went to the back of the bucket for its time; nothing else moved. */
  ghost predicate Filed(was: seq<seq<int>>, buckets: seq<seq<int>>, items: map<int, Item>, added: seq<int>, lastBucket: nat) {
    && |was| == |buckets| == BUCKETS
    && forall i :: i in items ==>
       forall b :: 0 <= b < BUCKETS ==>
         multiset(buckets[b])[i] ==
           multiset(was[b])[i] + if FiledIn(lastBucket, items[i].duration) == b then multiset(added)[i] else 0
  }

  lemma {:induction false} CleanedPlaced(was: Lists, now: Lists, listed: multiset<int>, lastBucket: nat, i: int, b: nat, d: nat)
    requires Placed(was, i, b, d) && lastBucket < BUCKETS
    requires Survivors(was.items, now.items, listed) && now.recent == []
    requires Filed(was.buckets, now.buckets, now.items, was.recent, lastBucket)
    ensures Placed(now, i, if b == NEW then FiledIn(lastBucket, d) else b, d)
  {
    hide FiledIn;
    assert i in now.items;
  }

  lemma {:induction false} FiledStep(was: seq<seq<int>>, buckets: seq<seq<int>>, items: map<int, Item>,
                                     added: seq<int>, lastBucket: nat, i: int)
    requires Filed(was, buckets, items, added, lastBucket) && i in items && lastBucket < BUCKETS
    ensures var b := FiledIn(lastBucket, items[i].duration);
            Filed(was, buckets[b := buckets[b] + [i]], items, added + [i], lastBucket)
  {
    hide FiledIn;
  }

  /** The items after one reference of `i` is given back; the last one frees it. */
  function Dropped(items: map<int, Item>, i: int, ghost was: map<int, Item>, ghost rest: multiset<int>, ghost after: multiset<int>): (r: map<int, Item>)
    requires rest <= after && Survivors(was, items, rest)
    requires Accounted(items, after + multiset{i})
    ensures Accounted(r, after)
    ensures Survivors(was, r, rest)
    ensures r.Keys <= items.Keys
  {
    assert i in after + multiset{i};
    if items[i].refs == 1 then items - {i} else items[i := items[i].(refs := items[i].refs - 1)]
  }
}
