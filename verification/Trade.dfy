/**
  Trading between two players: offering an item, answering with a counter-offer, accepting
  and closing.  The two halves of a trade live in the fields of two players, the items on
  offer in one map of the game, and each offer holds a reference on its item.
 */
module Trade {

  datatype TradeState = None | Initiated | Acknowledge | Accept | Transfer

  class Item {
    var referenceCounter: int

    constructor ()
      ensures referenceCounter == 1
    {
      referenceCounter := 1;
    }
  }

  class Player {
    var tradeState: TradeState
    var tradePartner: Player?
    var tradeItem: Item?

    constructor ()
      ensures tradeState == None && tradePartner == null && tradeItem == null
    {
      tradeState, tradePartner, tradeItem := None, null, null;
    }
  }

  function Offers(i: Item?): set<Item> {
    if i == null then {} else {i}
  }

  // ---------- what the operations do, on values ----------

  /** What a player has to do with trades. */
  datatype Seat = Seat(state: TradeState, partner: Player?, item: Item?)

  const EMPTY: Seat := Seat(None, null, null)

  /** All players and the items on offer. */
  datatype View = View(seats: map<Player, Seat>, market: map<Item, Player>)

  /** The answers on the way of an exchange: room for both items, both can be taken, and the first move. */
  datatype Checks = Checks(add1: bool, add2: bool, remove1: bool, remove2: bool, move1: bool) {
    predicate Pass() { add1 && add2 && remove1 && remove2 && move1 }
  }

  function Partner(v: View, p: Player): Player? { if p in v.seats then v.seats[p].partner else null }

  function Offered(v: View, p: Player?): set<Item> {
    if p != null && p in v.seats then Offers(v.seats[p].item) else {}
  }

  /** The player gets this seat. */
  function Put(v: View, p: Player?, seat: Seat): View {
    if p != null && p in v.seats then v.(seats := v.seats[p := seat]) else v
  }

  /** Both sides are back to no trade. */
  function Emptied(v: View, p: Player): View { Put(Put(v, p, EMPTY), Partner(v, p), EMPTY) }

  /** The offers of both sides are withdrawn. */
  function Withdrawn(v: View, p: Player): View {
    v.(market := v.market - Offered(v, p) - Offered(v, Partner(v, p)))
  }

  predicate Transferring(v: View, p: Player?) { p != null && p in v.seats && v.seats[p].state == Transfer }

  /** Closing: nothing during a transfer, else both sides are free and their offers withdrawn. */
  function Closed(v: View, p: Player): View {
    if Transferring(v, p) || Transferring(v, Partner(v, p)) then v
    else Withdrawn(v, p).(seats := Emptied(v, p).seats)
  }

  function ClosedAll(v: View, ps: seq<Player>): View {
    if ps == [] then v else Closed(ClosedAll(v, ps[..|ps| - 1]), ps[|ps| - 1])
  }

  function Marked(v: View, p: Player?, state: TradeState): View {
    if p != null && p in v.seats then Put(v, p, v.seats[p].(state := state)) else v
  }

  /** Both sides turn to transfer and their offers are withdrawn. */
  function Begun(v: View, p: Player): View {
    Withdrawn(v, p).(seats := Marked(Marked(v, p, Transfer), Partner(v, p), Transfer).seats)
  }

  /** Both have accepted: closed if a script objects; else a transfer, during which others may close theirs,
      and after it both sides are free. */
  function Settled(v: View, p: Player, scriptAccepts: bool, closing: seq<Player>): View {
    if !scriptAccepts then Closed(v, p) else Emptied(ClosedAll(Begun(v, p), closing), p)
  }

  function Agreed(v: View, p: Player, reachable: bool, scriptAccepts: bool, closing: seq<Player>): View {
    if p !in v.seats || v.seats[p].state !in {Initiated, Acknowledge} || v.seats[p].partner == null || !reachable then v
    else
      var w, q := Marked(v, p, Accept), v.seats[p].partner;
      if q in w.seats && w.seats[q].state == Accept then Settled(w, p, scriptAccepts, closing) else w
  }

  /** A first offer, or the answer to one. */
  function Started(v: View, p: Player, q: Player, item: Item): View
    requires p in v.seats && q in v.seats
  {
    View(v.seats[p := Seat(Initiated, q, item)]
               [q := if v.seats[q].state == None then v.seats[q].(state := Acknowledge, partner := p) else v.seats[q]],
         v.market[item := p])
  }

  class Game {
    const players: set<Player>
    const items: set<Item>
    /** Each item on offer, with the player who offers it. */
    var tradeItems: map<Item, Player>
    var toReleaseItems: seq<Item>

    constructor (players: set<Player>, items: set<Item>)
      requires forall p :: p in players ==>
                 p.tradeState == None && p.tradePartner == null && p.tradeItem == null
      ensures Valid() && this.players == players && this.items == items
    {
      this.players, this.items := players, items;
      tradeItems, toReleaseItems := map[], [];
    }

    /** What holds whenever no trade step is under way. */
    ghost predicate Valid()
      reads this, players
    {
      Ordered() && forall p :: p in players ==> p.tradeState != Transfer
    }

    /** The same, while some players may be handing their items over. */
    ghost predicate Ordered()
      reads this, players
    {
      LinksOk() && StatesOk() && MarketOk()
    }

    /** Partner links are symmetric, never to oneself, and both sides transfer or neither. */
    ghost predicate LinksOk()
      reads this, players
    {
      forall p :: p in players && p.tradePartner != null ==>
                    && p.tradePartner in players && p.tradePartner != p
                    && p.tradePartner.tradePartner == p
                    && (p.tradePartner.tradeState == Transfer <==> p.tradeState == Transfer)
    }

    /** What each state says about partner and item. */
    ghost predicate StatesOk()
      reads this, players
    {
      forall p :: p in players ==>
                    && (p.tradeState == None <==> p.tradePartner == null)
                    && (p.tradeState == None ==> p.tradeItem == null)
                    && (p.tradeState == Initiated ==> p.tradeItem != null)
                    && (p.tradeState == Acknowledge ==> p.tradeItem == null)
    }

    /** The items in the map are exactly those that players offer, each entered for its player. */
    ghost predicate MarketOk()
      reads this, players
    {
      && (forall p :: p in players && p.tradeState != Transfer && p.tradeItem != null ==>
                        p.tradeItem in tradeItems && tradeItems[p.tradeItem] == p)
      && (forall i :: i in tradeItems ==>
                        && i in items && tradeItems[i] in players
                        && tradeItems[i].tradeState != Transfer && tradeItems[i].tradeItem == i)
    }

    ghost function Now(): View
      reads this, players
    {
      View(map p | p in players :: Seat(p.tradeState, p.tradePartner, p.tradeItem), tradeItems)
    }

    /** References on an item that no offer and no pending release accounts for. */
    ghost function Net(i: Item): int
      reads this, i
    {
      i.referenceCounter - multiset(toReleaseItems)[i] - (if i in tradeItems then 1 else 0)
    }

    /** No step gains or loses a reference. */
    twostate predicate Balanced()
      reads this, items
    {
      forall i :: i in items ==> Net(i) == old(Net(i))
    }

    twostate predicate OnlyPair(player: Player, partner: Player?)
      reads players
    {
      forall q :: q in players && q != player && q != partner ==>
                    q.tradeState == old(q.tradeState) && q.tradePartner == old(q.tradePartner)
                    && q.tradeItem == old(q.tradeItem)
    }

    static predicate Free(p: Player)
      reads p
    {
      p.tradeState == None && p.tradePartner == null && p.tradeItem == null
    }

    // ---------- the primitive changes ----------

    /** Takes an item off the market: its reference is released, its entry erased. */
    method Withdraw(item: Item?)
      modifies this`tradeItems, this`toReleaseItems
      ensures tradeItems == old(tradeItems) - Offers(item)
      ensures Balanced()
    {
      if item != null && item in tradeItems {
        toReleaseItems := toReleaseItems + [item];
        tradeItems := tradeItems - {item};
      }
    }

    method ResetPair(player: Player, partner: Player?)
      requires partner != player
      modifies player, partner, this`tradeItems, this`toReleaseItems
      ensures Free(player) && (partner != null ==> Free(partner))
      ensures tradeItems == old(tradeItems) - Offers(old(player.tradeItem))
                            - Offers(if partner == null then null else old(partner.tradeItem))
      ensures Balanced()
    {
      if player.tradeItem != null {
        Withdraw(player.tradeItem);
        player.tradeItem := null;
      }
      player.tradeState := None;
      player.tradePartner := null;
      if partner != null {
        if partner.tradeItem != null {
          Withdraw(partner.tradeItem);
          partner.tradeItem := null;
        }
        partner.tradeState := None;
        partner.tradePartner := null;
      }
    }

    /** Resetting both sides of a trade leaves the other trades in order. */
    twostate lemma {:induction false} ResetKeepsLinks(player: Player)
      requires old(Ordered()) && player in players && old(player.tradeState) != Transfer
      requires var partner := old(player.tradePartner);
               Free(player) && (partner != null ==> Free(partner)) && OnlyPair(player, partner)
      ensures LinksOk() && StatesOk()
    {
      hide MarketOk;
      var partner := old(player.tradePartner);
      forall p | p in players && p.tradePartner != null
        ensures p.tradePartner != player && p.tradePartner != partner
      {
        assert p != player && p != partner && old(p.tradePartner) == p.tradePartner;
        assert old(p.tradePartner.tradePartner) == p;
      }
    }

    twostate lemma {:induction false} ResetKeepsMarket(player: Player)
      requires old(Ordered()) && player in players && old(player.tradeState) != Transfer
      requires var partner := old(player.tradePartner);
               && Free(player) && (partner != null ==> Free(partner)) && OnlyPair(player, partner)
               && tradeItems == old(tradeItems) - Offers(old(player.tradeItem))
                                - Offers(if partner == null then null else old(partner.tradeItem))
      ensures MarketOk()
    {
      hide StatesOk;
      var partner := old(player.tradePartner);
      forall p | p in players && p.tradeState != Transfer && p.tradeItem != null
        ensures p.tradeItem in tradeItems && tradeItems[p.tradeItem] == p
      {
        assert p != player && p != partner && old(p.tradeItem) == p.tradeItem;
      }
    }

    /** The two sides of an accepted trade turn to transfer and their offers come off the market. */
    method BeginTransfer(player: Player, partner: Player)
      requires Valid() && player in players && player.tradePartner == partner
      modifies player, partner, this`tradeItems, this`toReleaseItems
      ensures Ordered() && Balanced()
      ensures forall p :: p in players ==> (p.tradeState == Transfer <==> p in {player, partner})
      ensures player.tradePartner == partner && partner.tradePartner == player
      ensures Now() == Begun(old(Now()), player)
    {
      hide LinksOk, StatesOk, MarketOk, Net;
      PairFacts(player);
      player.tradeState := Transfer;
      partner.tradeState := Transfer;
      Withdraw(player.tradeItem);
      Withdraw(partner.tradeItem);
      BeginKeepsLinks(player);
      BeginKeepsMarket(player);
    }

    lemma {:induction false} PairFacts(player: Player)
      requires Ordered() && player in players
      ensures player.tradeState == None <==> player.tradePartner == null
      ensures player.tradePartner != null ==>
                && player.tradePartner in players && player.tradePartner != player
                && player.tradePartner.tradePartner == player
                && (player.tradePartner.tradeState == Transfer <==> player.tradeState == Transfer)
    {
    }

    twostate lemma {:induction false} BeginKeepsLinks(player: Player)
      requires old(Valid()) && player in players && old(player.tradePartner) != null
      requires var partner := old(player.tradePartner);
               && player.tradeState == Transfer && partner.tradeState == Transfer
               && player.tradePartner == partner && partner.tradePartner == old(partner.tradePartner)
               && OnlyPair(player, partner)
      ensures LinksOk() && StatesOk()
    {
      hide MarketOk;
    }

    twostate lemma {:induction false} BeginKeepsMarket(player: Player)
      requires old(Valid()) && player in players && old(player.tradePartner) != null
      requires var partner := old(player.tradePartner);
               && player.tradeState == Transfer && partner.tradeState == Transfer
               && OnlyPair(player, partner)
               && tradeItems == old(tradeItems) - Offers(old(player.tradeItem)) - Offers(old(partner.tradeItem))
      ensures MarketOk()
    {
      hide StatesOk;
    }

    method EndTransfer(player: Player, partner: Player)
      requires Ordered() && player in players && player.tradePartner == partner
      requires forall p :: p in players ==> (p.tradeState == Transfer <==> p in {player, partner})
      modifies player, partner
      ensures Valid() && Free(player) && Free(partner) && Now() == Emptied(old(Now()), player)
    {
      hide LinksOk, StatesOk, MarketOk;
      PairFacts(player);
      player.tradeState := None;
      player.tradeItem := null;
      player.tradePartner := null;
      partner.tradeState := None;
      partner.tradeItem := null;
      partner.tradePartner := null;
      EndKeeps(player);
    }

    twostate lemma {:induction false} EndKeeps(player: Player)
      requires old(Ordered()) && player in players && old(player.tradePartner) != null
      requires old(player.tradeState) == Transfer
      requires var partner := old(player.tradePartner);
               Free(player) && Free(partner) && OnlyPair(player, partner)
      requires tradeItems == old(tradeItems)
      ensures Ordered()
    {
      forall p | p in players && p.tradePartner != null
        ensures p.tradePartner != player && p.tradePartner != old(player.tradePartner)
      {
        assert p != player && p != old(player.tradePartner) && old(p.tradePartner) == p.tradePartner;
        assert old(p.tradePartner.tradePartner) == p;
      }
    }

    // ---------- the operations ----------

    /** Closing does nothing while the player is handing items over; otherwise both sides
        are back to no trade, and exactly their two offers are withdrawn. */
    method InternalCloseTrade(player: Player)
      requires Ordered() && player in players
      modifies players, this`tradeItems, this`toReleaseItems
      ensures Ordered() && Balanced()
      ensures old(player.tradeState) == Transfer ==>
                && tradeItems == old(tradeItems) && toReleaseItems == old(toReleaseItems)
                && forall p :: p in players ==> unchanged(p)
      ensures old(player.tradeState) != Transfer ==>
                var partner := old(player.tradePartner);
                && Free(player) && (partner != null ==> Free(partner) && old(partner.tradeState) != Transfer)
                && OnlyPair(player, partner)
                && tradeItems == old(tradeItems) - Offers(old(player.tradeItem))
                                 - Offers(if partner == null then null else old(partner.tradeItem))
      ensures Now() == Closed(old(Now()), player)
    {
      hide LinksOk, MarketOk, StatesOk, Net;
      PairFacts(player);
      var partner := player.tradePartner;
      if (partner != null && partner.tradeState == Transfer) || player.tradeState == Transfer {
        return;
      }
      ResetPair(player, partner);
      ResetKeepsLinks(player);
      ResetKeepsMarket(player);
    }

    /** A first offer, or the answer to one, or a refusal that changes nothing. */
    method InternalStartTrade(player: Player, partner: Player, item: Item) returns (ok: bool)
      requires Valid() && player in players && partner in players && player != partner
      requires item in items && item !in tradeItems
      modifies player, partner, item, this`tradeItems
      ensures Valid() && Balanced()
      ensures ok <==> && (old(player.tradeState) == None ||
                          (old(player.tradeState) == Acknowledge && old(player.tradePartner) == partner))
                      && (old(partner.tradeState) == None || old(partner.tradePartner) == player)
      ensures ok ==> && player.tradePartner == partner && partner.tradePartner == player
                     && player.tradeItem == item && partner.tradeItem == old(partner.tradeItem)
                     && player.tradeState == Initiated
                     && partner.tradeState == (if old(partner.tradeState) == None then Acknowledge
                                               else old(partner.tradeState))
                     && tradeItems == old(tradeItems)[item := player]
      ensures !ok ==> unchanged(player) && unchanged(partner) && unchanged(item) && tradeItems == old(tradeItems)
      ensures Now() == if ok then Started(old(Now()), player, partner, item) else old(Now())
    {
      hide LinksOk, StatesOk, MarketOk, Started;
      if player.tradeState != None && !(player.tradeState == Acknowledge && player.tradePartner == partner) {
        return false;
      } else if partner.tradeState != None && partner.tradePartner != player {
        return false;
      }
      player.tradePartner := partner;
      player.tradeItem := item;
      player.tradeState := Initiated;
      item.referenceCounter := item.referenceCounter + 1;
      tradeItems := tradeItems[item := player];
      if partner.tradeState == None {
        partner.tradeState := Acknowledge;
        partner.tradePartner := player;
      }
      ok := true;
      StartKeepsLinks(player);
      StartKeepsMarket(player);
      StartedNow(player);
    }

    twostate predicate JustStarted(player: Player)
      reads players, player, player.tradePartner
    {
      && player in players && player.tradePartner != null && player.tradePartner in players
      && player.tradePartner != player
      && var partner := player.tradePartner;
         && (old(player.tradeState) == None ||
             (old(player.tradeState) == Acknowledge && old(player.tradePartner) == partner))
         && (old(partner.tradeState) == None || old(partner.tradePartner) == player)
         && partner.tradePartner == player
         && player.tradeState == Initiated && player.tradeItem != null
         && partner.tradeItem == old(partner.tradeItem)
         && partner.tradeState == (if old(partner.tradeState) == None then Acknowledge
                                   else old(partner.tradeState))
         && OnlyPair(player, partner)
    }

    twostate lemma {:induction false} StartKeepsLinks(player: Player)
      requires old(Valid()) && JustStarted(player)
      ensures LinksOk() && StatesOk()
    {
      hide MarketOk;
      var partner := player.tradePartner;
      forall p | p in players && p != player && p != partner && p.tradePartner != null
        ensures p.tradePartner != player && p.tradePartner != partner
      {
        assert old(p.tradePartner) == p.tradePartner && old(p.tradePartner.tradePartner) == p;
      }
    }

    twostate lemma {:induction false} StartedNow(player: Player)
      requires JustStarted(player) && tradeItems == old(tradeItems)[player.tradeItem := player]
      ensures Now() == Started(old(Now()), player, player.tradePartner, player.tradeItem)
    {
      var v, w := Now(), Started(old(Now()), player, player.tradePartner, player.tradeItem);
      assert v.seats.Keys == w.seats.Keys;
      forall p | p in players ensures v.seats[p] == w.seats[p] {
        if p != player && p != player.tradePartner {
          assert p.tradeState == old(p.tradeState);
        }
      }
    }

    twostate lemma {:induction false} StartKeepsMarket(player: Player)
      requires old(Valid()) && JustStarted(player)
      requires var item := player.tradeItem;
               item in items && item !in old(tradeItems) && tradeItems == old(tradeItems)[item := player]
      ensures MarketOk()
    {
    }

    /** The item neither is on offer nor holds or is held by one that is. */
    ghost predicate Unoffered(item: Item, isHolding: (Item, Item) -> bool)
      reads this
    {
      forall i :: i in tradeItems ==> item != i && !isHolding(i, item) && !isHolding(item, i)
    }

    /** The request: refused if the item, or anything it holds or is held by, is on offer.  What
        holds what may be another at each request.  `allowed` stands for the checks on distance,
        sight, size and scripts. */
    method PlayerRequestTrade(player: Player, partner: Player?, item: Item, isHolding: (Item, Item) -> bool, allowed: bool)
      returns (ok: bool)
      requires Valid() && player in players && (partner != null ==> partner in players) && item in items
      modifies player, partner, item, this`tradeItems
      ensures Valid() && Balanced()
      ensures ok <==> && partner != null && partner != player && allowed && old(Unoffered(item, isHolding))
                      && (old(player.tradeState) == None ||
                          (old(player.tradeState) == Acknowledge && old(player.tradePartner) == partner))
                      && (old(partner.tradeState) == None || old(partner.tradePartner) == player)
      ensures ok ==> && tradeItems == old(tradeItems)[item := player] && player.tradePartner == partner
                     && player.tradeItem == item && player.tradeState == Initiated
      ensures !ok ==> unchanged(player) && (partner != null ==> unchanged(partner)) && tradeItems == old(tradeItems)
      ensures Now() == if ok then Started(old(Now()), player, partner, item) else old(Now())
    {
      hide LinksOk, StatesOk, MarketOk;
      if partner == null || partner == player || !allowed {
        return false;
      }
      var keys := tradeItems.Keys;
      while keys != {}
        invariant keys <= tradeItems.Keys
        invariant forall i :: i in tradeItems && i !in keys ==>
                    item != i && !isHolding(i, item) && !isHolding(item, i)
      {
        var i :| i in keys;
        if item == i || isHolding(item, i) || isHolding(i, item) {
          return false;
        }
        keys := keys - {i};
      }
      ok := InternalStartTrade(player, partner, item);
    }

    /** Accepting.  When both sides have accepted, the items change hands.  While they do,
        notifications may close trades of any players (`closing`), these two included. */
    method PlayerAcceptTrade(player: Player, reachable: bool, scriptAccepts: bool, checks: Checks, closing: seq<Player>)
      returns (exchanged: bool)
      requires Valid() && player in players
      requires forall p :: p in closing ==> p in players
      modifies players, this`tradeItems, this`toReleaseItems
      ensures Valid() && Balanced()
      ensures old(player.tradeState) !in {Acknowledge, Initiated} || !reachable ==>
                (forall p :: p in players ==> unchanged(p)) && tradeItems == old(tradeItems)
      ensures old(player.tradeState) in {Acknowledge, Initiated} && reachable ==>
                var partner := old(player.tradePartner);
                && partner != null
                && if old(partner.tradeState) == Accept then
                     Free(player) && Free(partner)
                   else
                     && player.tradeState == Accept && player.tradeItem == old(player.tradeItem)
                     && player.tradePartner == partner && tradeItems == old(tradeItems)
                     && OnlyPair(player, null)
      ensures Now() == Agreed(old(Now()), player, reachable, scriptAccepts, closing)
      ensures exchanged <==>
                && old(player.tradeState) in {Acknowledge, Initiated} && reachable && scriptAccepts && checks.Pass()
                && old(player.tradePartner != null && player.tradePartner.tradeState == Accept)
    {
      exchanged := false;
      AgreedNothing(Now(), player, reachable, scriptAccepts, closing);
      if !(player.tradeState == Acknowledge || player.tradeState == Initiated) {
        return;
      }
      var partner := player.tradePartner;
      if partner == null {
        return;
      }
      if !reachable {
        return;
      }
      hide LinksOk, StatesOk, MarketOk, Net, Settled, Agreed, Marked;
      MarkAccepted(player);
      AgreedIs(old(Now()), player, partner, scriptAccepts, closing);
      if partner.tradeState == Accept {
        exchanged := Settle(player, partner, scriptAccepts, checks, closing);
      }
    }

    /** Both have accepted: the items change hands, unless a script objects. */
    method Settle(player: Player, partner: Player, scriptAccepts: bool, checks: Checks, closing: seq<Player>) returns (exchanged: bool)
      requires Valid() && player in players && player.tradePartner == partner && player.tradeState == Accept
      requires forall p :: p in closing ==> p in players
      modifies players, this`tradeItems, this`toReleaseItems
      ensures Valid() && Balanced() && Free(player) && Free(partner)
      ensures Now() == Settled(old(Now()), player, scriptAccepts, closing)
      ensures exchanged <==> scriptAccepts && checks.Pass()
    {
      hide LinksOk, StatesOk, MarketOk, Net;
      if !scriptAccepts {
        InternalCloseTrade(player);
        return false;
      }
      exchanged := HandOver(player, partner, checks, closing);
    }

    method MarkAccepted(player: Player)
      requires Valid() && player in players && (player.tradeState == Acknowledge || player.tradeState == Initiated)
      modifies player`tradeState
      ensures Valid() && Balanced() && player.tradeState == Accept && Now() == Marked(old(Now()), player, Accept)
    {
      hide Marked;
      player.tradeState := Accept;
      MarkedNow(player);
    }

    twostate lemma {:induction false} MarkedNow(player: Player)
      requires player in players && OnlyPair(player, null) && tradeItems == old(tradeItems)
      requires player.tradeState == Accept && player.tradePartner == old(player.tradePartner) && player.tradeItem == old(player.tradeItem)
      ensures Now() == Marked(old(Now()), player, Accept)
    {
    }

    method HandOver(player: Player, partner: Player, checks: Checks, closing: seq<Player>) returns (exchanged: bool)
      requires Valid() && player in players && player.tradePartner == partner
      requires forall p :: p in closing ==> p in players
      modifies players, this`tradeItems, this`toReleaseItems
      ensures Valid() && Free(player) && Free(partner) && Balanced()
      ensures Now() == Emptied(ClosedAll(Begun(old(Now()), player), closing), player)
      ensures exchanged <==> checks.Pass()
    {
      hide LinksOk, StatesOk, MarketOk, Net, Begun, Emptied, Closed;
      PairFacts(player);
      BeginTransfer(player, partner);
      ghost var begun := Now();
      exchanged := false;
      if checks.add1 && checks.add2 {
        if checks.remove1 && checks.remove2 {
          if checks.move1 {
            exchanged := true;
          }
        }
      }
      // the items move; what the moves notify may close trades
      for n := 0 to |closing|
        invariant Ordered() && Balanced() && player.tradePartner == partner
        invariant forall p :: p in players ==> (p.tradeState == Transfer <==> p in {player, partner})
        invariant Now() == ClosedAll(begun, closing[..n])
      {
        assert closing[..n + 1][..n] == closing[..n];
        InternalCloseTrade(closing[n]);
      }
      assert closing[..|closing|] == closing;
      EndTransfer(player, partner);
    }

    /** The players and items of a step are known. */
    ghost predicate Known(step: Step) {
      match step
      case Request(player, partner, item, _, _) =>
        player in players && (partner != null ==> partner in players) && item in items
      case Agree(player, _, _, _, closing) => player in players && forall p :: p in closing ==> p in players
      case Close(player) => player in players
    }

    /** Any run of requests, acceptances and closings leaves links, states and offers in order, no
        transfer visible, and every reference accounted for. */
    method Run(steps: seq<Step>)
      requires Valid() && forall step :: step in steps ==> Known(step)
      modifies players, items, this`tradeItems, this`toReleaseItems
      ensures Valid() && Balanced() && Now() == AfterAll(old(Now()), steps)
    {
      hide LinksOk, StatesOk, MarketOk, Net, After;
      var k := 0;
      while k < |steps|
        invariant 0 <= k <= |steps| && Valid() && Balanced() && Now() == AfterAll(old(Now()), steps[..k])
      {
        assert steps[..k + 1][..k] == steps[..k];
        Take(steps[k]);
        k := k + 1;
      }
      assert steps[..k] == steps;
    }

    method Take(step: Step)
      requires Valid() && Known(step)
      modifies players, items, this`tradeItems, this`toReleaseItems
      ensures Valid() && Balanced() && Now() == After(old(Now()), step)
    {
      hide LinksOk, StatesOk, MarketOk, Net, Closed, Agreed, Started;
      match step
      case Request(player, partner, item, isHolding, allowed) =>
        var _ := PlayerRequestTrade(player, partner, item, isHolding, allowed);
      case Agree(player, reachable, scriptAccepts, checks, closing) =>
        var _ := PlayerAcceptTrade(player, reachable, scriptAccepts, checks, closing);
      case Close(player) =>
        InternalCloseTrade(player);
    }
  }

  datatype Step =
    | Request(player: Player, partner: Player?, item: Item, isHolding: (Item, Item) -> bool, allowed: bool)
    | Agree(player: Player, reachable: bool, scriptAccepts: bool, checks: Checks, closing: seq<Player>)
    | Close(player: Player)

  lemma {:induction false} AgreedNothing(v: View, p: Player, reachable: bool, scriptAccepts: bool, closing: seq<Player>)
    requires p in v.seats
    ensures v.seats[p].state !in {Initiated, Acknowledge} || v.seats[p].partner == null || !reachable ==>
              Agreed(v, p, reachable, scriptAccepts, closing) == v
  {
  }

  lemma {:induction false} AgreedIs(v: View, p: Player, q: Player, scriptAccepts: bool, closing: seq<Player>)
    requires p in v.seats && v.seats[p].state in {Initiated, Acknowledge} && v.seats[p].partner == q && p != q && q in v.seats
    ensures Agreed(v, p, true, scriptAccepts, closing) ==
            if v.seats[q].state == Accept then Settled(Marked(v, p, Accept), p, scriptAccepts, closing) else Marked(v, p, Accept)
  {
    hide Settled;
  }

  /** A player who has no trade, or who answers this partner. */
  predicate MayOffer(v: View, p: Player, q: Player)
    requires p in v.seats && q in v.seats
  {
    && (v.seats[p].state == None || (v.seats[p].state == Acknowledge && v.seats[p].partner == q))
    && (v.seats[q].state == None || v.seats[q].partner == p)
  }

  /** What a step does. */
  ghost function After(v: View, step: Step): View {
    match step
    case Request(p, q, item, isHolding, allowed) =>
      if q != null && q != p && p in v.seats && q in v.seats && allowed && MayOffer(v, p, q)
         && (forall i :: i in v.market ==> item != i && !isHolding(i, item) && !isHolding(item, i))
      then Started(v, p, q, item) else v
    case Agree(p, reachable, scriptAccepts, checks, closing) => Agreed(v, p, reachable, scriptAccepts, closing)
    case Close(p) => Closed(v, p)
  }

  ghost function AfterAll(v: View, steps: seq<Step>): View {
    if steps == [] then v else After(AfterAll(v, steps[..|steps| - 1]), steps[|steps| - 1])
  }
}
