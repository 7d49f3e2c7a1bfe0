/**
  Damage to a creature: how a hit drains mana and health, who gets the credit, and how the
  credit becomes experience when the creature dies.
 */
module CombatDamage {
  import opened Basics
  import opened Sums

  /** A hit: signed amounts as they come in, the attacker if there is one, and whether the
      damage type is one that a mana shield does not stop. */
  datatype Hit = Hit(attacker: Option<nat>, primary: int, secondary: int, undefinedType: bool)

  /** What a hit depends on and changes. */
  datatype Vitals = Vitals(health: nat, maxHealth: nat, mana: nat, manaShield: bool, attackable: bool, damage: map<nat, int>)

  // ---------- what a hit should do ----------

  function Amount(h: Hit): nat { Abs(h.primary) + Abs(h.secondary) }

  predicate Shielded(v: Vitals, h: Hit) { v.manaShield && !h.undefinedType }

  /** A positive primary amount heals, any other hurts. */
  predicate Heals(h: Hit) { h.primary > 0 }

  /** Mana stands in for health first, as far as it goes. */
  function ManaPart(v: Vitals, h: Hit): nat {
    if !Heals(h) && v.attackable && Shielded(v, h) then Min(v.mana, Amount(h)) else 0
  }

  function HealthPart(v: Vitals, h: Hit): nat {
    if !Heals(h) && v.attackable then Min(v.health, Amount(h) - ManaPart(v, h)) else 0
  }

  /** What healing gives back; the dead are not healed. */
  function Gained(v: Vitals, h: Hit): nat {
    if Heals(h) && 0 < v.health < v.maxHealth then Min(h.primary, v.maxHealth - v.health) else 0
  }

  function Drained(v: Vitals, h: Hit): nat { ManaPart(v, h) + HealthPart(v, h) }

  function DamageOf(damage: map<nat, int>, a: nat): int { if a in damage then damage[a] else 0 }

  function Credit(damage: map<nat, int>, a: nat, points: int): map<nat, int> {
    if points <= 0 then damage else damage[a := DamageOf(damage, a) + points]
  }

  function AfterHit(v: Vitals, h: Hit): Vitals {
    v.(health := v.health - HealthPart(v, h) + Gained(v, h), mana := v.mana - ManaPart(v, h),
       damage := if h.attacker.None? then v.damage else Credit(v.damage, h.attacker.value, Drained(v, h)))
  }

  /** A hit drains the damage, or all that is left. */
  lemma {:induction false} HitDrains(v: Vitals, h: Hit)
    requires v.attackable && !Heals(h)
    ensures Drained(v, h) == Min(Amount(h), v.health + if Shielded(v, h) then v.mana else 0)
  {
  }

  /** Mana goes first: health is only touched when no mana is left, or none stands in for it. */
  lemma {:induction false} ManaFirst(v: Vitals, h: Hit)
    ensures ManaPart(v, h) <= v.mana && HealthPart(v, h) <= v.health && (Heals(h) ==> Drained(v, h) == 0)
    ensures HealthPart(v, h) > 0 && Shielded(v, h) ==> ManaPart(v, h) == v.mana
    ensures !Shielded(v, h) || !v.attackable ==> ManaPart(v, h) == 0
    ensures !v.attackable ==> Drained(v, h) == 0
  {
  }

  // ---------- the code ----------

  class Creature {
    var health: nat
    var mana: nat
    var manaShield: bool
    var attackable: bool
    var damageMap: map<nat, int>
    const maxHealth: nat

    constructor (health: nat, mana: nat, maxHealth: nat)
      ensures Vitals_() == Vitals(health, maxHealth, mana, false, true, map[])
    {
      this.health, this.mana, this.maxHealth := health, mana, maxHealth;
      manaShield, attackable, damageMap := false, true, map[];
    }

    ghost function Vitals_(): Vitals
      reads this
    {
      Vitals(health, maxHealth, mana, manaShield, attackable, damageMap)
    }

    method AddDamagePoints(attacker: nat, points: int)
      modifies this`damageMap
      ensures damageMap == Credit(old(damageMap), attacker, points)
    {
      if points <= 0 {
        return;
      }
      if attacker !in damageMap {
        damageMap := damageMap[attacker := points];
      } else {
        damageMap := damageMap[attacker := damageMap[attacker] + points];
      }
    }

    method DrainMana(attacker: Option<nat>, loss: nat)
      modifies this`mana, this`damageMap
      ensures mana == Max(0, old(mana) - loss)
      ensures damageMap == if attacker.None? then old(damageMap) else Credit(old(damageMap), attacker.value, loss)
    {
      mana := Max(0, mana - loss);
      if attacker.Some? {
        AddDamagePoints(attacker.value, loss);
      }
    }

    method DrainHealth(attacker: Option<nat>, loss: nat)
      modifies this`health, this`damageMap
      ensures health == Max(0, old(health) - loss)
      ensures damageMap == if attacker.None? then old(damageMap) else Credit(old(damageMap), attacker.value, loss)
    {
      health := Max(0, health - loss);
      if attacker.Some? {
        AddDamagePoints(attacker.value, loss);
      }
    }

    /** Positive primary amounts heal, all others hurt.  No scripts are registered. */
    method CombatChangeHealth(h: Hit) returns (ok: bool)
      requires health <= maxHealth
      modifies this`health, this`mana, this`damageMap
      ensures Vitals_() == AfterHit(old(Vitals_()), h) && health <= maxHealth
      ensures ok <==> h.primary <= 0 || old(health) > 0
      ensures h.primary > 0 ==>
                && mana == old(mana) && damageMap == old(damageMap)
                && health == if old(health) > 0 then Min(maxHealth, old(health) + h.primary) else 0
      ensures h.primary <= 0 ==>
                var shield := manaShield && !h.undefinedType;
                var lost := old(health) - health + old(mana) - mana;
                && 0 <= health <= old(health) && 0 <= mana <= old(mana)
                && (!shield ==> mana == old(mana)) && (shield && health < old(health) ==> mana == 0)
                && lost == (if attackable then Min(Abs(h.primary) + Abs(h.secondary), old(health) + if shield then old(mana) else 0) else 0)
                && (h.attacker.None? || lost == 0 ==> damageMap == old(damageMap))
                && (h.attacker.Some? && lost > 0 ==>
                      var a := h.attacker.value;
                      damageMap == old(damageMap)[a := lost + if a in old(damageMap) then old(damageMap)[a] else 0])
    {
      ManaFirst(Vitals_(), h);
      if attackable && !Heals(h) { HitDrains(Vitals_(), h); }
      hide ManaPart, HealthPart;
      if h.primary > 0 {
        if health == 0 {
          return false;
        }
        health := health + Min(h.primary, maxHealth - health);
        return true;
      }
      Hurt(h);
      ok := true;
    }

    /** The part of the code for amounts that hurt. */
    method Hurt(h: Hit)
      requires health <= maxHealth && !Heals(h)
      modifies this`health, this`mana, this`damageMap
      ensures Vitals_() == AfterHit(old(Vitals_()), h) && health <= maxHealth
    {
      if !attackable {
        return;
      }
      var primary, secondary := Abs(h.primary), Abs(h.secondary);
      var healthChange := primary + secondary;
      if healthChange == 0 {
        return;
      }
      if manaShield && !h.undefinedType {
        var manaDamage := Min(mana, healthChange);
        if manaDamage != 0 {
          DrainMana(h.attacker, manaDamage);
          primary := primary - manaDamage;
          if primary < 0 {
            secondary := Max(0, secondary + primary);
            primary := 0;
          }
        }
      }
      assert primary + secondary == Amount(h) - ManaPart(old(Vitals_()), h) && primary >= 0 && secondary >= 0;
      HurtHealth(h.attacker, primary, secondary);
    }

    /** What the mana shield leaves, as far as there is health. */
    method HurtHealth(attacker: Option<nat>, primary0: nat, secondary0: nat)
      modifies this`health, this`damageMap
      ensures var loss := Min(old(health), primary0 + secondary0);
              && health == old(health) - loss
              && damageMap == if attacker.None? then old(damageMap) else Credit(old(damageMap), attacker.value, loss)
    {
      var primary, secondary := primary0, secondary0;
      var realDamage := primary + secondary;
      if realDamage == 0 {
        return;
      }
      var targetHealth := health;
      if primary >= targetHealth {
        primary, secondary := targetHealth, 0;
      } else if secondary != 0 {
        secondary := Min(secondary, targetHealth - primary);
      }
      realDamage := primary + secondary;
      if realDamage == 0 {
        return;
      }
      DrainHealth(attacker, realDamage);
    }

    /** A whole run of hits and healings. */
    method TakeHits(hits: seq<Hit>)
      requires health <= maxHealth
      modifies this`health, this`mana, this`damageMap
      ensures Vitals_() == Run(old(Vitals_()), hits)
    {
      var k := 0;
      assert hits[0..] == hits;
      while k < |hits|
        invariant 0 <= k <= |hits| && health <= maxHealth
        invariant Run(Vitals_(), hits[k..]) == Run(old(Vitals_()), hits)
      {
        assert hits[k..][1..] == hits[k + 1..];
        hide AfterHit;
        var _ := CombatChangeHealth(hits[k]);
        k := k + 1;
      }
    }
  }

  // ---------- runs of hits ----------

  function Run(v: Vitals, hits: seq<Hit>): Vitals
    decreases |hits|
  {
    if hits == [] then v else Run(AfterHit(v, hits[0]), hits[1..])
  }

  /** What one attacker drained over a run. */
  function DrainedBy(v: Vitals, hits: seq<Hit>, a: nat): nat
    decreases |hits|
  {
    if hits == [] then 0
    else (if hits[0].attacker == Some(a) then Drained(v, hits[0]) else 0)
         + DrainedBy(AfterHit(v, hits[0]), hits[1..], a)
  }

  function DrainedInAll(v: Vitals, hits: seq<Hit>): nat
    decreases |hits|
  {
    if hits == [] then 0 else Drained(v, hits[0]) + DrainedInAll(AfterHit(v, hits[0]), hits[1..])
  }

  function GainedInAll(v: Vitals, hits: seq<Hit>): nat
    decreases |hits|
  {
    if hits == [] then 0 else Gained(v, hits[0]) + GainedInAll(AfterHit(v, hits[0]), hits[1..])
  }

  /** Over any run of hits and healings, an attacker's entry grows by exactly what that attacker drained. */
  lemma {:induction false} CreditIsExact(v: Vitals, hits: seq<Hit>, a: nat)
    ensures DamageOf(Run(v, hits).damage, a) == DamageOf(v.damage, a) + DrainedBy(v, hits, a)
    decreases |hits|
  {
    if hits != [] {
      CreditIsExact(AfterHit(v, hits[0]), hits[1..], a);
    }
  }

  /** Over any run of hits and healings, what was drained is what mana and health lost and healing gave back. */
  lemma {:induction false} DrainIsConserved(v: Vitals, hits: seq<Hit>)
    ensures var n := Run(v, hits);
            n.health + n.mana + DrainedInAll(v, hits) == v.health + v.mana + GainedInAll(v, hits)
    decreases |hits|
  {
    if hits != [] {
      DrainIsConserved(AfterHit(v, hits[0]), hits[1..]);
    }
  }

  // ---------- experience ----------

  /** Sum of the entries of these attackers. */
  function TotalDamage(damage: map<nat, int>, ids: seq<nat>): int {
    if ids == [] then 0 else DamageOf(damage, ids[0]) + TotalDamage(damage, ids[1..])
  }

  function Share(part: int, total: int, lost: nat): real {
    if total == 0 then 0.0 else part as real / total as real * lost as real
  }

  lemma {:induction false} SharesAdd(a: int, b: int, total: int, lost: nat)
    ensures Share(a, total, lost) + Share(b, total, lost) == Share(a + b, total, lost)
  {
    if total != 0 {
      var t := total as real;
      assert a as real / t + b as real / t == (a + b) as real / t;
    }
  }

  lemma {:induction false} ShareOfPart(a: int, total: int, lost: nat)
    requires 0 <= a <= total
    ensures 0.0 <= Share(a, total, lost) <= lost as real
  {
    if total != 0 {
      Ratio(a as real, total as real);
      Scale(a as real / total as real, lost as real);
    }
  }

  lemma {:induction false} Ratio(a: real, t: real)
    requires 0.0 <= a <= t && t > 0.0
    ensures 0.0 <= a / t <= 1.0
  {
  }

  lemma {:induction false} Scale(q: real, l: real)
    requires 0.0 <= q <= 1.0 && l >= 0.0
    ensures 0.0 <= q * l <= l
  {
  }

  /** Rounded down, a share is a division of whole numbers. */
  lemma {:induction false} ShareExact(a: nat, total: nat, lost: nat)
    requires total > 0
    ensures Share(a, total, lost).Floor == a * lost / total
  {
    Crossed(a as real, total as real, lost as real);
    AsReal(a, lost);
    var x := Share(a, total, lost);
    hide Share;
    FloorOfQuotient(x, a * lost, total);
  }

  /** A real that times `d` is `n` rounds down to their division. */
  lemma {:induction false} FloorOfQuotient(x: real, n: nat, d: nat)
    requires d > 0 && x * d as real == n as real
    ensures x.Floor == n / d
  {
    var q := x.Floor;
    AsReal(q, d);
    AsReal(q + 1, d);
    Between(x, q as real, (q + 1) as real, d as real, n as real, (q * d) as real, ((q + 1) * d) as real);
    WholeOrder(q * d, n, (q + 1) * d);
    Divides(n, d, q);
  }

  lemma {:induction false} Between(x: real, a: real, b: real, d: real, n: real, low: real, high: real)
    requires a <= x < b && d > 0.0 && x * d == n && low == a * d && high == b * d
    ensures low <= n < high
  {
    ScaleLe(a, x, d);
    ScaleLt(x, b, d);
  }

  lemma {:induction false} WholeOrder(a: int, b: int, c: int)
    requires a as real <= b as real < c as real
    ensures a <= b < c
  {
  }

  lemma {:induction false} AsReal(a: int, b: int)
    ensures (a * b) as real == a as real * b as real
  {
  }

  lemma {:induction false} Crossed(a: real, t: real, l: real)
    requires t > 0.0
    ensures a / t * l * t == a * l
  {
    assert a / t * t == a;
    Swap(a / t, l, t);
  }

  lemma {:induction false} Swap(q: real, l: real, t: real)
    ensures q * l * t == q * t * l
  {
  }

  lemma {:induction false} ScaleLe(x: real, y: real, t: real)
    requires x <= y && t > 0.0
    ensures x * t <= y * t
  {
  }

  lemma {:induction false} ScaleLt(x: real, y: real, t: real)
    requires x < y && t > 0.0
    ensures x * t < y * t
  {
  }

  lemma {:induction false} Divides(n: nat, d: nat, q: int)
    requires d > 0 && q * d <= n < (q + 1) * d
    ensures n / d == q
  {
    var k := n / d;
    assert k * d <= n < (k + 1) * d;
    if k < q { MulLe(k + 1, q, d); } else if q < k { MulLe(q + 1, k, d); }
  }

  lemma {:induction false} MulLe(a: int, b: int, d: nat)
    requires a <= b
    ensures a * d <= b * d
  {
  }

  /** The experience for one attacker: its share of the damage, rounded down. */
  method GetGainedExperience(damage: map<nat, int>, ids: seq<nat>, attacker: nat, lost: nat) returns (gain: int)
    requires forall i, j :: 0 <= i < j < |ids| ==> ids[i] != ids[j]
    requires attacker in ids
    ensures gain == Share(DamageOf(damage, attacker), TotalDamage(damage, ids), lost).Floor
    ensures var part, total := DamageOf(damage, attacker), TotalDamage(damage, ids);
            && (total == 0 ==> gain == 0)
            && (total > 0 && part >= 0 ==> gain == part * lost / total)
  {
    if TotalDamage(damage, ids) > 0 && DamageOf(damage, attacker) >= 0 {
      ShareExact(DamageOf(damage, attacker), TotalDamage(damage, ids), lost);
    }
    var total, mine := 0, 0;
    assert ids[0..] == ids;
    for i := 0 to |ids|
      invariant total + TotalDamage(damage, ids[i..]) == TotalDamage(damage, ids)
      invariant mine == if attacker in ids[..i] then DamageOf(damage, attacker) else 0
    {
      assert ids[i..][1..] == ids[i + 1..] && ids[..i + 1] == ids[..i] + [ids[i]];
      total := total + DamageOf(damage, ids[i]);
      if ids[i] == attacker {
        mine := mine + DamageOf(damage, ids[i]);
      }
    }
    assert ids[..|ids|] == ids && ids[|ids|..] == [];
    if total == 0 {
      return 0;
    }
    gain := (mine as real / total as real * lost as real).Floor;
  }

  /** What creature `p` is due: the rounded shares of all attackers whose experience goes to it. */
  function DueTo(damage: map<nat, int>, all: seq<nat>, some: seq<nat>, self: nat, present: set<nat>,
                 leader: map<nat, nat>, lost: nat, p: nat): int
  {
    if some == [] then 0
    else
      var a := some[|some| - 1];
      DueTo(damage, all, some[..|some| - 1], self, present, leader, lost, p) +
        if a in present && a != self && (if a in leader then leader[a] else a) == p
        then Share(DamageOf(damage, a), TotalDamage(damage, all), lost).Floor else 0
  }

  /** The experience of attacker `a` goes to `p`: it is still there, is not the dead one, and `p` leads it. */
  predicate GoesTo(a: nat, self: nat, present: set<nat>, leader: map<nat, nat>, p: nat) {
    a in present && a != self && ((a in leader && leader[a] == p) || (a !in leader && a == p))
  }

  /** Who leads no attacker gets nothing. */
  lemma {:induction false} DueNothing(damage: map<nat, int>, all: seq<nat>, some: seq<nat>, self: nat, present: set<nat>,
                                      leader: map<nat, nat>, lost: nat, p: nat)
    requires forall i :: 0 <= i < |some| ==> !GoesTo(some[i], self, present, leader, p)
    ensures DueTo(damage, all, some, self, present, leader, lost, p) == 0
  {
    if some != [] {
      DueNothing(damage, all, some[..|some| - 1], self, present, leader, lost, p);
    }
  }

  /** Each attacker adds its rounded share for who gets it, wherever it stands in the list. */
  lemma {:induction false} DueSplits(damage: map<nat, int>, all: seq<nat>, some: seq<nat>, k: nat, self: nat, present: set<nat>,
                                     leader: map<nat, nat>, lost: nat, p: nat)
    requires k < |some|
    ensures DueTo(damage, all, some, self, present, leader, lost, p) ==
            DueTo(damage, all, some[..k] + some[k + 1..], self, present, leader, lost, p) +
            DueFor(damage, all, some[k], self, present, leader, lost, p)
  {
    hide DueTo, DueFor;
    var last := some[|some| - 1];
    DueLast(damage, all, some, self, present, leader, lost, p);
    if k == |some| - 1 {
      assert some[..k] + some[k + 1..] == some[..k];
    } else {
      var less := some[..|some| - 1];
      DueSplits(damage, all, less, k, self, present, leader, lost, p);
      var rest := some[..k] + some[k + 1..];
      assert rest[..|rest| - 1] == less[..k] + less[k + 1..] && rest[|rest| - 1] == last;
      DueLast(damage, all, rest, self, present, leader, lost, p);
    }
  }

  /** What one attacker makes `p` due: its rounded share, if that goes to `p`. */
  function DueFor(damage: map<nat, int>, all: seq<nat>, a: nat, self: nat, present: set<nat>, leader: map<nat, nat>, lost: nat,
                  p: nat): int {
    if GoesTo(a, self, present, leader, p) then Share(DamageOf(damage, a), TotalDamage(damage, all), lost).Floor else 0
  }

  lemma {:induction false} DueLast(damage: map<nat, int>, all: seq<nat>, some: seq<nat>, self: nat, present: set<nat>,
                                   leader: map<nat, nat>, lost: nat, p: nat)
    requires some != []
    ensures DueTo(damage, all, some, self, present, leader, lost, p) ==
            DueTo(damage, all, some[..|some| - 1], self, present, leader, lost, p) +
            DueFor(damage, all, some[|some| - 1], self, present, leader, lost, p)
  {
    hide Share, TotalDamage, DamageOf;
  }

  lemma {:induction false} DueStep(damage: map<nat, int>, ids: seq<nat>, i: nat, self: nat, present: set<nat>,
                                   leader: map<nat, nat>, lost: nat)
    requires i < |ids|
    ensures forall p :: DueTo(damage, ids, ids[..i + 1], self, present, leader, lost, p) ==
              DueTo(damage, ids, ids[..i], self, present, leader, lost, p) +
              if ids[i] in present && ids[i] != self && (if ids[i] in leader then leader[ids[i]] else ids[i]) == p
              then Share(DamageOf(damage, ids[i]), TotalDamage(damage, ids), lost).Floor else 0
  {
    assert ids[..i + 1][..i] == ids[..i];
  }

  lemma {:induction false} DamageStep(damage: map<nat, int>, ids: seq<nat>)
    requires ids != [] && forall a :: a in damage ==> damage[a] >= 0
    ensures TotalDamage(damage, ids) == DamageOf(damage, ids[0]) + TotalDamage(damage, ids[1..])
    ensures DamageOf(damage, ids[0]) >= 0 && TotalDamage(damage, ids[1..]) >= 0
  {
    RestNotNegative(damage, ids[1..]);
  }

  /** A rounded share more stays below the share of the damage accounted for. */
  lemma {:induction false} ShareStep(done: int, part: int, total: int, lost: nat, sum: int)
    requires 0 <= done && 0 <= part && done + part <= total && sum as real <= Share(done, total, lost)
    ensures Share(part, total, lost).Floor >= 0
    ensures (sum + Share(part, total, lost).Floor) as real <= Share(done + part, total, lost)
    ensures sum as real <= Share(done + part, total, lost)
  {
    SharesAdd(done, part, total, lost);
    ShareOfPart(part, total, lost);
    hide Share;
  }

  method AddGain(experience: map<nat, int>, to: nat, gain: int) returns (r: map<nat, int>)
    requires gain >= 0 && forall a :: a in experience ==> experience[a] >= 0
    ensures forall a :: a in r ==> r[a] >= 0
    ensures forall p :: DamageOf(r, p) == DamageOf(experience, p) + if p == to then gain else 0
    ensures Sum(r) == Sum(experience) + gain
  {
    SumPut(experience, to, gain + if to in experience then experience[to] else 0);
    if to !in experience {
      r := experience[to := gain];
    } else {
      r := experience[to := experience[to] + gain];
    }
  }

  /** The experience at death.  `ids` are the attackers in map order, `self` the dead one,
      `present` those still in the game, and `leader` who gets a player's share. */
  method OnDeath(damage: map<nat, int>, ids: seq<nat>, self: nat, present: set<nat>, leader: map<nat, nat>, lost: nat)
    returns (experience: map<nat, int>)
    requires forall i, j :: 0 <= i < j < |ids| ==> ids[i] != ids[j]
    requires forall a :: a in damage <==> a in ids
    requires forall a :: a in damage ==> damage[a] >= 0
    ensures forall p :: DamageOf(experience, p) == DueTo(damage, ids, ids, self, present, leader, lost, p)
    ensures forall a :: a in experience ==> experience[a] >= 0
    ensures Sum(experience) <= lost
  {
    hide Share, TotalDamage, DueTo, Sum;
    experience := map[];
    ghost var done := NothingPaid(damage, ids, self, present, leader, lost);
    for i := 0 to |ids|
      invariant Paid(damage, ids, i, self, present, leader, lost, experience, done)
    {
      hide Paid;
      experience, done := RewardOne(damage, ids, i, self, present, leader, lost, experience, done);
    }
    assert ids[|ids|..] == [] && ids[..|ids|] == ids;
    NoDamage(damage);
    ShareOfPart(done, TotalDamage(damage, ids), lost);
  }

  /** After the first `i` attackers: each creature has what these make it due, and all together not
      more than the share of the damage that they did. */
  ghost predicate Paid(damage: map<nat, int>, ids: seq<nat>, i: nat, self: nat, present: set<nat>, leader: map<nat, nat>,
                       lost: nat, experience: map<nat, int>, done: int)
  {
    && i <= |ids|
    && (forall a :: a in experience ==> experience[a] >= 0)
    && (forall p :: DamageOf(experience, p) == DueTo(damage, ids, ids[..i], self, present, leader, lost, p))
    && 0 <= done && done + TotalDamage(damage, ids[i..]) == TotalDamage(damage, ids)
    && Sum(experience) as real <= Share(done, TotalDamage(damage, ids), lost)
  }

  lemma {:induction false} NothingPaid(damage: map<nat, int>, ids: seq<nat>, self: nat, present: set<nat>, leader: map<nat, nat>,
                                       lost: nat)
    returns (done: int)
    ensures done == 0 && Paid(damage, ids, 0, self, present, leader, lost, map[], 0)
  {
    done := 0;
    assert ids[0..] == ids && ids[..0] == [];
  }

  lemma {:induction false} NoDamage(damage: map<nat, int>)
    ensures TotalDamage(damage, []) == 0
  {
  }

  /** The share of one attacker, if it still is there and not the creature itself. */
  method RewardOne(damage: map<nat, int>, ids: seq<nat>, i: nat, self: nat, present: set<nat>, leader: map<nat, nat>, lost: nat,
                   experience: map<nat, int>, ghost done: int)
    returns (experience': map<nat, int>, ghost done': int)
    requires forall i, j :: 0 <= i < j < |ids| ==> ids[i] != ids[j]
    requires forall a :: a in damage ==> damage[a] >= 0
    requires i < |ids| && Paid(damage, ids, i, self, present, leader, lost, experience, done)
    ensures Paid(damage, ids, i + 1, self, present, leader, lost, experience', done')
  {
    hide Share, TotalDamage, DueTo, Sum;
    var a := ids[i];
    ghost var part := DamageOf(damage, a);
    assert ids[i..][1..] == ids[i + 1..] && ids[i..][0] == a;
    DueStep(damage, ids, i, self, present, leader, lost);
    DamageStep(damage, ids[i..]);
    ShareStep(done, part, TotalDamage(damage, ids), lost, Sum(experience));
    experience', done' := experience, done + part;
    if a in present && a != self {
      var gain := GetGainedExperience(damage, ids, a, lost);
      var to := if a in leader then leader[a] else a;
      experience' := AddGain(experience, to, gain);
    }
  }

  lemma {:induction false} RestNotNegative(damage: map<nat, int>, ids: seq<nat>)
    requires forall a :: a in damage ==> damage[a] >= 0
    ensures TotalDamage(damage, ids) >= 0
  {
    if ids != [] {
      RestNotNegative(damage, ids[1..]);
    }
  }
}
