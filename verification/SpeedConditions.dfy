/**
  Conditions on a creature, and the speed changes of haste and paralysis: each takes back
  exactly what it gave, however it is replaced, removed or runs out.
 */
module SpeedConditions {

  datatype ConditionType = Haste | Paralyze | Other(n: nat)

  /** Only haste and paralysis change the speed; a change of 0 is left to a formula, whose
      outcome the methods below take as `roll`. */
  datatype Condition = Condition(
    kind: ConditionType, id: int, subId: nat, ticks: int, endTime: int, speedDelta: int)

  predicate IsSpeed(c: Condition) { c.kind == Haste || c.kind == Paralyze }

  function DeltaOf(c: Condition): int { if IsSpeed(c) then c.speedDelta else 0 }

  predicate SameKey(a: Condition, b: Condition) {
    a.kind == b.kind && a.id == b.id && a.subId == b.subId
  }

  /** What the active conditions have added to the speed. */
  function Total(cs: seq<Condition>): int {
    if cs == [] then 0 else DeltaOf(cs[0]) + Total(cs[1..])
  }

  predicate UniqueKeys(cs: seq<Condition>) {
    forall i, j :: 0 <= i < j < |cs| ==> !SameKey(cs[i], cs[j])
  }

  lemma {:induction false} TotalConcat(a: seq<Condition>, b: seq<Condition>)
    ensures Total(a + b) == Total(a) + Total(b)
  {
    if a == [] {
      assert a + b == b;
    } else {
      assert (a + b)[1..] == a[1..] + b;
      TotalConcat(a[1..], b);
    }
  }

  lemma {:induction false} TotalSplit(cs: seq<Condition>, i: nat)
    requires i < |cs|
    ensures Total(cs) == Total(cs[..i]) + DeltaOf(cs[i]) + Total(cs[i + 1..])
    ensures Total(cs[..i] + cs[i + 1..]) == Total(cs[..i]) + Total(cs[i + 1..])
  {
    assert cs == cs[..i] + ([cs[i]] + cs[i + 1..]);
    TotalConcat(cs[..i], [cs[i]] + cs[i + 1..]);
    TotalConcat([cs[i]], cs[i + 1..]);
    TotalConcat(cs[..i], cs[i + 1..]);
    assert [cs[i]][1..] == [];
  }

  lemma {:induction false} TotalUpdate(cs: seq<Condition>, i: nat, c: Condition)
    requires i < |cs|
    ensures Total(cs[i := c]) == Total(cs) - DeltaOf(cs[i]) + DeltaOf(c)
  {
    var ds := cs[i := c];
    TotalSplit(cs, i);
    TotalSplit(ds, i);
    assert ds[..i] == cs[..i] && ds[i + 1..] == cs[i + 1..];
  }

  // ---------- what the steps do to the list ----------

  /** A condition of this type and sub-id has not run out; suppressed types are never active. */
  predicate Active(cs: seq<Condition>, kind: ConditionType, subId: nat, now: int, suppressed: set<ConditionType>) {
    kind !in suppressed && exists i :: 0 <= i < |cs| && cs[i].kind == kind && cs[i].subId == subId && cs[i].endTime >= now
  }

  /** The conditions that are not of this type, in order. */
  function Without(cs: seq<Condition>, kind: ConditionType): seq<Condition> {
    if cs == [] then [] else (if cs[0].kind == kind then [] else [cs[0]]) + Without(cs[1..], kind)
  }

  lemma {:induction false} WithoutNone(cs: seq<Condition>, kind: ConditionType)
    ensures forall c :: c in Without(cs, kind) <==> c in cs && c.kind != kind
    ensures (forall c :: c in cs ==> c.kind != kind) ==> Without(cs, kind) == cs
  {
    if cs != [] {
      WithoutNone(cs[1..], kind);
      assert cs == [cs[0]] + cs[1..];
    }
  }

  lemma {:induction false} WithoutAt(cs: seq<Condition>, kind: ConditionType, i: nat)
    requires i < |cs| && cs[i].kind == kind
    ensures Without(cs[..i] + cs[i + 1..], kind) == Without(cs, kind)
  {
    if i == 0 {
      assert cs[..0] + cs[1..] == cs[1..];
    } else {
      assert (cs[..i] + cs[i + 1..])[1..] == cs[1..][..i - 1] + cs[1..][i..];
      WithoutAt(cs[1..], kind, i - 1);
    }
  }

  /** Haste and paralysis, each of which drives the other out. */
  predicate Opposites(a: ConditionType, b: ConditionType) { (a == Haste && b == Paralyze) || (a == Paralyze && b == Haste) }

  /** What a new condition of type `kind` does to the others: if its opposite is active, all of that
      type go, but paralysis stays while a walk delay runs; nothing else changes. */
  ghost predicate Reacts(cs: seq<Condition>, cs': seq<Condition>, kind: ConditionType, now: int, walkDelay: int,
                         suppressed: set<ConditionType>) {
    && (forall other :: Opposites(kind, other) && Active(cs, other, 0, now, suppressed) && (other == Paralyze ==> walkDelay <= 0) ==>
          cs' == Without(cs, other))
    && ((forall other :: Opposites(kind, other) ==>
          !Active(cs, other, 0, now, suppressed) || (other == Paralyze && walkDelay > 0)) ==> cs' == cs)
  }

  /** A condition that starts: its end is fixed, and its speed change if that was left to the formula. */
  ghost predicate Starts(c: Condition, started: Condition, now: int, roll: int) {
    && SameKey(started, c) && started.ticks == c.ticks
    && started.endTime == (if c.ticks > 0 then c.ticks + now else c.endTime)
    && started.speedDelta == if IsSpeed(c) && c.speedDelta == 0 then roll else c.speedDelta
  }

  /** A condition that is renewed: a permanent one stays as it is against one that ends, and one that
      changes no speed also if it lasts longer; else it takes over the time and the speed change. */
  ghost predicate Renews(mine: Condition, c: Condition, renewed: Condition, now: int, roll: int) {
    var keeps := (mine.ticks == -1 && c.ticks > 0) || (!IsSpeed(mine) && c.ticks >= 0 && mine.endTime > now + c.ticks);
    && (keeps ==> renewed == mine)
    && (!keeps ==>
          && SameKey(renewed, mine) && renewed.ticks == c.ticks && renewed.endTime == c.ticks + now
          && renewed.speedDelta == if !IsSpeed(mine) then mine.speedDelta else if c.speedDelta == 0 then roll else c.speedDelta)
  }

  /** Adding a condition: haste is put off while a walk delay runs and paralysis is active; one with the
      key of an active one renews that; any other goes to the end and drives its opposite out. */
  ghost predicate Adds(cs: seq<Condition>, cs': seq<Condition>, c: Condition, force: bool, now: int, roll: int, walkDelay: int,
                       suppressed: set<ConditionType>, ok: bool) {
    && (ok <==> force || c.kind != Haste || !Active(cs, Paralyze, 0, now, suppressed) || walkDelay <= 0)
    && (!ok ==> cs' == cs)
    && (ok && (forall j :: 0 <= j < |cs| ==> !SameKey(cs[j], c)) ==>
          exists started :: Starts(c, started, now, roll) && Reacts(cs + [started], cs', c.kind, now, walkDelay, suppressed))
    && (ok ==> forall j :: 0 <= j < |cs| && SameKey(cs[j], c) ==>
          |cs'| == |cs| && Renews(cs[j], c, cs'[j], now, roll) && forall k :: 0 <= k < |cs| && k != j ==> cs'[k] == cs[k])
  }

  /** The time left after a round; a permanent condition has no end. */
  function Aged(c: Condition, interval: int): Condition {
    if c.ticks == -1 then c else c.(ticks := if c.ticks - interval < 0 then 0 else c.ticks - interval)
  }

  predicate Lasts(c: Condition, interval: int, now: int) { Aged(c, interval).ticks == -1 || c.endTime >= now }

  /** The conditions whose time is not up, in order, a round older. */
  function Older(cs: seq<Condition>, interval: int, now: int): seq<Condition> {
    if cs == [] then []
    else (if Lasts(cs[0], interval, now) then [Aged(cs[0], interval)] else []) + Older(cs[1..], interval, now)
  }

  /** What one event does to the list. */
  ghost predicate Happens(cs: seq<Condition>, cs': seq<Condition>, e: Event) {
    match e
    case Add(c, force, now, roll, walkDelay, suppressed) => exists ok :: Adds(cs, cs', c, force, now, roll, walkDelay, suppressed, ok)
    case Remove(kind, force, walkDelay) =>
      cs' == if !force && kind == Paralyze && walkDelay > 0 then cs else Without(cs, kind)
    case Tick(interval, now) => cs' == Older(cs, interval, now)
  }

  class Creature {
    var baseSpeed: int
    var varSpeed: int
    var conditions: seq<Condition>

    constructor (baseSpeed: int, varSpeed: int)
      ensures conditions == [] && this.varSpeed == varSpeed && this.baseSpeed == baseSpeed
    {
      this.baseSpeed, this.varSpeed := baseSpeed, varSpeed;
      conditions := [];
    }

    /** The speed the creature would have without any condition. */
    ghost function Residue(): int
      reads this
    {
      varSpeed - Total(conditions)
    }

    function GetSpeed(): int
      reads this
    {
      baseSpeed + varSpeed
    }

    method ChangeSpeed(delta: int)
      modifies this`varSpeed
      ensures varSpeed == old(varSpeed) + delta
    {
      var v := GetSpeed() - baseSpeed;
      varSpeed := v + delta;
    }

    /** The first condition with this key, or the number of conditions. */
    method Find(c: Condition) returns (i: nat)
      ensures i <= |conditions|
      ensures i < |conditions| ==> SameKey(conditions[i], c)
      ensures i == |conditions| ==> forall j :: 0 <= j < |conditions| ==> !SameKey(conditions[j], c)
    {
      i := 0;
      while i < |conditions|
        invariant 0 <= i <= |conditions|
        invariant forall j :: 0 <= j < i ==> !SameKey(conditions[j], c)
      {
        if SameKey(conditions[i], c) {
          return;
        }
        i := i + 1;
      }
    }

    /** Whether a condition of this type is active; suppressed types never are. */
    method HasCondition(kind: ConditionType, subId: nat, now: int, suppressed: set<ConditionType>) returns (has: bool)
      ensures has <==> Active(conditions, kind, subId, now, suppressed)
    {
      if kind in suppressed {
        return false;
      }
      for i := 0 to |conditions|
        invariant forall j :: 0 <= j < i ==>
                    !(conditions[j].kind == kind && conditions[j].subId == subId && conditions[j].endTime >= now)
      {
        if conditions[i].kind == kind && conditions[i].subId == subId && conditions[i].endTime >= now {
          return true;
        }
      }
      return false;
    }

    /** Takes condition i out of the list and lets it end. */
    method EndAt(i: nat)
      requires i < |conditions| && UniqueKeys(conditions)
      modifies this`varSpeed, this`conditions
      ensures conditions == old(conditions)[..i] + old(conditions)[i + 1..]
      ensures UniqueKeys(conditions) && Residue() == old(Residue())
    {
      var c := conditions[i];
      TotalSplit(conditions, i);
      conditions := conditions[..i] + conditions[i + 1..];
      if IsSpeed(c) {
        ChangeSpeed(-c.speedDelta);
      }
    }

    /** Starts a condition: a speed change is fixed now, if it was left to the formula. */
    method StartCondition(c: Condition, now: int, roll: int) returns (started: Condition)
      modifies this`varSpeed
      ensures Starts(c, started, now, roll)
      ensures varSpeed == old(varSpeed) + DeltaOf(started)
    {
      started := if c.ticks > 0 then c.(endTime := c.ticks + now) else c;
      if IsSpeed(c) {
        if c.speedDelta == 0 {
          started := started.(speedDelta := roll);
        }
        ChangeSpeed(started.speedDelta);
      }
    }

    /** Renews an active condition from a new one of the same key. */
    method Renew(i: nat, c: Condition, now: int, roll: int)
      requires i < |conditions| && SameKey(conditions[i], c) && UniqueKeys(conditions)
      modifies this`varSpeed, this`conditions
      ensures UniqueKeys(conditions) && Residue() == old(Residue())
      ensures |conditions| == |old(conditions)|
      ensures forall j :: 0 <= j < |conditions| && j != i ==> conditions[j] == old(conditions)[j]
      ensures Renews(old(conditions)[i], c, conditions[i], now, roll)
    {
      var mine := conditions[i];
      if IsSpeed(mine) {
        if mine.ticks == -1 && c.ticks > 0 {
          return;
        }
        var new_ := mine.(ticks := c.ticks, endTime := c.ticks + now,
                          speedDelta := if c.speedDelta == 0 then roll else c.speedDelta);
        TotalUpdate(conditions, i, new_);
        conditions := conditions[i := new_];
        var change := new_.speedDelta - mine.speedDelta;
        if change != 0 {
          ChangeSpeed(change);
        }
      } else if !(mine.ticks == -1 && c.ticks > 0) && !(c.ticks >= 0 && mine.endTime > now + c.ticks) {
        var new_ := mine.(ticks := c.ticks, endTime := c.ticks + now);
        TotalUpdate(conditions, i, new_);
        conditions := conditions[i := new_];
      }
    }

    /** Adds a condition, or renews the one with its key; haste and paralysis drive each
        other out.  A condition held back by a walk delay changes nothing. */
    method AddCondition(c: Condition, force: bool, now: int, roll: int, walkDelay: int,
                        suppressed: set<ConditionType>) returns (ok: bool)
      requires UniqueKeys(conditions)
      modifies this`varSpeed, this`conditions
      ensures UniqueKeys(conditions) && Residue() == old(Residue())
      ensures !ok ==> varSpeed == old(varSpeed)
      ensures Adds(old(conditions), conditions, c, force, now, roll, walkDelay, suppressed, ok)
    {
      hide Starts, Renews, Reacts;
      ghost var before := conditions;
      if !force && c.kind == Haste {
        var paralyzed := HasCondition(Paralyze, 0, now, suppressed);
        if paralyzed && walkDelay > 0 {
          return false;
        }
      }
      var i := Find(c);
      if i < |conditions| {
        Renew(i, c, now, roll);
        OneKey(before, c, i);
        return true;
      }
      var started := StartCondition(c, now, roll);
      TotalConcat(conditions, [started]);
      assert [started][1..] == [];
      NewKey(before, c, started, now, roll);
      conditions := conditions + [started];
      OnAddCondition(c.kind, now, walkDelay, suppressed);
      ok := true;
    }

    method OnAddCondition(kind: ConditionType, now: int, walkDelay: int, suppressed: set<ConditionType>)
      requires UniqueKeys(conditions)
      modifies this`varSpeed, this`conditions
      ensures UniqueKeys(conditions) && Residue() == old(Residue())
      ensures Reacts(old(conditions), conditions, kind, now, walkDelay, suppressed)
    {
      hide Active, Without;
      if kind == Paralyze {
        var has := HasCondition(Haste, 0, now, suppressed);
        if has {
          RemoveCondition(Haste, false, walkDelay);
        }
      } else if kind == Haste {
        var has := HasCondition(Paralyze, 0, now, suppressed);
        if has {
          RemoveCondition(Paralyze, false, walkDelay);
        }
      }
    }

    /** Ends every condition of the type; paralysis is kept while a walk delay runs. */
    method RemoveCondition(kind: ConditionType, force: bool, walkDelay: int)
      requires UniqueKeys(conditions)
      modifies this`varSpeed, this`conditions
      ensures UniqueKeys(conditions) && Residue() == old(Residue())
      ensures conditions == if !force && kind == Paralyze && walkDelay > 0 then old(conditions) else Without(old(conditions), kind)
    {
      hide Without;
      var i := 0;
      while i < |conditions|
        invariant 0 <= i <= |conditions|
        invariant UniqueKeys(conditions) && Residue() == old(Residue())
        invariant forall j :: 0 <= j < i ==> conditions[j].kind != kind
        invariant Without(conditions, kind) == Without(old(conditions), kind)
        invariant !force && kind == Paralyze && walkDelay > 0 ==> conditions == old(conditions)
        decreases |conditions| - i
      {
        if conditions[i].kind != kind {
          i := i + 1;
        } else {
          if !force && kind == Paralyze && walkDelay > 0 {
            return;
          }
          WithoutAt(conditions, kind, i);
          EndAt(i);
        }
      }
      WithoutNone(conditions, kind);
    }

    /** Ends the conditions whose time is up. */
    method ExecuteConditions(interval: int, now: int)
      requires UniqueKeys(conditions)
      modifies this`varSpeed, this`conditions
      ensures UniqueKeys(conditions) && Residue() == old(Residue())
      ensures conditions == Older(old(conditions), interval, now)
    {
      hide Older, Total;
      ghost var before, k := conditions, 0;
      var i := 0;
      OlderStart(before, interval, now);
      while i < |conditions|
        invariant 0 <= i <= |conditions|
        invariant UniqueKeys(conditions) && Residue() == old(Residue())
        invariant 0 <= k <= |before| && conditions[i..] == before[k..]
        invariant conditions[..i] == Older(before[..k], interval, now)
        decreases |conditions| - i
      {
        assert conditions[i] == conditions[i..][0] == before[k] && before[k..][1..] == before[k + 1..];
        OlderMore(before, k, interval, now);
        k := k + 1;
        var c := conditions[i];
        if c.ticks != -1 {
          var left := if c.ticks - interval < 0 then 0 else c.ticks - interval;
          TotalUpdate(conditions, i, c.(ticks := left));
          conditions := conditions[i := c.(ticks := left)];
        }
        if c.ticks == -1 || c.endTime >= now {
          i := i + 1;
        } else {
          EndAt(i);
        }
      }
      assert before[..k] == before;
    }

    /** Any sequence of these steps keeps the balance and the keys apart. */
    method Run(events: seq<Event>) returns (ghost trace: seq<seq<Condition>>)
      requires UniqueKeys(conditions)
      modifies this`varSpeed, this`conditions
      ensures UniqueKeys(conditions) && Residue() == old(Residue())
      ensures conditions == [] ==> varSpeed == old(Residue())
      ensures |trace| == |events| + 1 && trace[0] == old(conditions) && trace[|events|] == conditions
      ensures forall n {:trigger events[n]} :: 0 <= n < |events| ==> Happens(trace[n], trace[n + 1], events[n])
    {
      hide UniqueKeys, Adds, Without, Older;
      trace := [conditions];
      for n := 0 to |events|
        invariant UniqueKeys(conditions) && Residue() == old(Residue())
        invariant |trace| == n + 1 && trace[0] == old(conditions) && trace[n] == conditions
        invariant forall i {:trigger events[i]} :: 0 <= i < n ==> Happens(trace[i], trace[i + 1], events[i])
      {
        match events[n] {
        case Add(c, force, now, roll, walkDelay, suppressed) =>
          var ok := AddCondition(c, force, now, roll, walkDelay, suppressed);
          assert Adds(trace[n], conditions, c, force, now, roll, walkDelay, suppressed, ok);
        case Remove(kind, force, walkDelay) =>
          RemoveCondition(kind, force, walkDelay);
        case Tick(interval, now) =>
          ExecuteConditions(interval, now);
        }
        trace := trace + [conditions];
      }
    }
  }

  datatype Event =
    | Add(c: Condition, force: bool, now: int, roll: int, walkDelay: int, suppressed: set<ConditionType>)
    | Remove(kind: ConditionType, force: bool, walkDelay: int)
    | Tick(interval: int, now: int)

  lemma {:induction false} OneKey(cs: seq<Condition>, c: Condition, i: nat)
    requires UniqueKeys(cs) && i < |cs| && SameKey(cs[i], c)
    ensures forall j :: 0 <= j < |cs| && SameKey(cs[j], c) ==> j == i
  {
  }

  lemma {:induction false} NewKey(cs: seq<Condition>, c: Condition, started: Condition, now: int, roll: int)
    requires UniqueKeys(cs) && Starts(c, started, now, roll) && forall j :: 0 <= j < |cs| ==> !SameKey(cs[j], c)
    ensures UniqueKeys(cs + [started])
  {
  }

  lemma {:induction false} OlderStart(cs: seq<Condition>, interval: int, now: int)
    ensures Older(cs[..0], interval, now) == []
  {
  }

  lemma {:induction false} OlderMore(cs: seq<Condition>, k: nat, interval: int, now: int)
    requires k < |cs|
    ensures Older(cs[..k + 1], interval, now) ==
            Older(cs[..k], interval, now) + if Lasts(cs[k], interval, now) then [Aged(cs[k], interval)] else []
  {
    assert cs[..k + 1] == cs[..k] + [cs[k]];
    OlderJoin(cs[..k], cs[k], interval, now);
  }

  lemma {:induction false} OlderJoin(cs: seq<Condition>, c: Condition, interval: int, now: int)
    ensures Older(cs + [c], interval, now) == Older(cs, interval, now) + if Lasts(c, interval, now) then [Aged(c, interval)] else []
  {
    if cs == [] {
      assert (cs + [c])[1..] == [];
    } else {
      assert (cs + [c])[1..] == cs[1..] + [c] && (cs + [c])[0] == cs[0];
      OlderJoin(cs[1..], c, interval, now);
      hide Lasts, Aged;
    }
  }

  /** After a round no condition is left whose time is up, and none is lost whose time is not. */
  lemma {:induction false} OlderLasts(cs: seq<Condition>, interval: int, now: int)
    ensures forall d :: d in Older(cs, interval, now) <==> exists c :: c in cs && d == Aged(c, interval) && (d.ticks == -1 || d.endTime >= now)
  {
    if cs != [] {
      OlderLasts(cs[1..], interval, now);
      assert cs == [cs[0]] + cs[1..];
    }
  }
}
