/** The deposit-wallet pool: leases, cooldowns, and which lease a payment belongs to
    (depositwatcher/internal/addresses/pool.go, store.go, and the attribution step of
    depositwatcher/internal/candidates/candidates.go). Times are in microseconds. */
module Leases {
  import opened Sets
  import opened Wrappers

  const Second := 1_000_000
  const LeaseTimeTolerance := 30 * Second

  // ---------- data ----------

  datatype LeaseStatus = Watching | Funded | Retired

  /** A watched_addresses row; `retiredAt` is set exactly when the lease is RETIRED. */
  datatype Lease = Lease(orderId: int, externalId: string, customerId: string, address: string,
                         status: LeaseStatus, assignedAt: int, retiredAt: int)

  datatype Wallet = Wallet(index: nat, active: bool, availableAfter: int, lastLeasedAt: Option<int>)

  datatype Settings = Settings(maxWallets: nat, cooldownAfterUse: nat, cooldownAfterExpiry: nat)

  datatype Pool = Pool(wallets: map<string, Wallet>, leases: map<int, Lease>, settings: Settings)

  datatype Order = Order(id: int, externalId: string, customerId: string)

  datatype AssignError = NoWalletAvailable | IllegalTransition | OrderNotFound | WalletNotFound | AddressTaken

  // ---------- attribution ----------

  function FloorSecond(t: int): int {
    t - t % Second
  }

  /** Whole-second instants: what a block's timestamp can be. */
  predicate WholeSecond(t: int) {
    t % Second == 0
  }

  /** `LeaseAt`: the most recent lease on `addr` that had started by then, give or
      take the clock tolerance. */
  predicate IsLeaseAt(leases: map<int, Lease>, addr: string, t: int, o: int) {
    && o in leases && leases[o].address == addr && leases[o].assignedAt <= t + LeaseTimeTolerance
    && forall p :: p in leases && leases[p].address == addr && leases[p].assignedAt <= t + LeaseTimeTolerance
                   ==> leases[p].assignedAt <= leases[o].assignedAt
  }

  datatype Attribution = NoLease | Late(lease: Lease) | Credited(lease: Lease)

  function Judge(lease: Lease, t: int): Attribution {
    if lease.status == Retired && t >= FloorSecond(lease.retiredAt) then Late(lease) else Credited(lease)
  }

  /** What the scanner makes of a payment to `addr` at block time `t`. */
  ghost predicate IsAttribution(leases: map<int, Lease>, addr: string, t: int, a: Attribution) {
    if a.NoLease? then forall o :: o in leases && leases[o].address == addr ==> leases[o].assignedAt > t + LeaseTimeTolerance
    else IsLeaseAt(leases, addr, t, a.lease.orderId) && a == Judge(leases[a.lease.orderId], t)
  }

  /** The query, which returns some row meeting its ORDER BY, and the two checks that
      follow it. */
  method Attribute(leases: map<int, Lease>, addr: string, t: int) returns (a: Attribution)
    requires forall o :: o in leases ==> leases[o].orderId == o
    ensures IsAttribution(leases, addr, t, a)
  {
    if o :| o in leases && IsLeaseAt(leases, addr, t, o) {
      return Judge(leases[o], t);
    }
    forall o | o in leases && leases[o].address == addr
      ensures leases[o].assignedAt > t + LeaseTimeTolerance
    {
      if leases[o].assignedAt <= t + LeaseTimeTolerance {
        var latest := SomeLeaseAt(leases, addr, t, o);
        assert false;
      }
    }
    return NoLease;
  }

  lemma SomeLeaseAt(leases: map<int, Lease>, addr: string, t: int, o: int) returns (latest: int)
    requires o in leases && leases[o].address == addr && leases[o].assignedAt <= t + LeaseTimeTolerance
    ensures IsLeaseAt(leases, addr, t, latest)
  {
    var started := set p | p in leases && leases[p].address == addr && leases[p].assignedAt <= t + LeaseTimeTolerance;
    assert o in started;
    latest := LatestOf(leases, started);
  }

  lemma {:induction false} LatestOf(leases: map<int, Lease>, among: set<int>) returns (o: int)
    requires among != {} && among <= leases.Keys
    ensures o in among && forall p :: p in among ==> leases[p].assignedAt <= leases[o].assignedAt
    decreases |among|
  {
    o := Pick(among);
    if among != {o} {
      var other := LatestOf(leases, among - {o});
      o := if leases[o].assignedAt >= leases[other].assignedAt then o else other;
    }
  }

  /** Any two leases of one wallet are apart: one was retired, and its wallet rested
      for more than `gap`, before the other began. */
  ghost predicate Spaced(leases: map<int, Lease>, gap: int) {
    forall o, p :: o in leases && p in leases && o != p && leases[o].address == leases[p].address ==>
      Precedes(leases[o], leases[p], gap) || Precedes(leases[p], leases[o], gap)
  }

  ghost predicate Precedes(a: Lease, b: Lease, gap: int) {
    a.status == Retired && a.assignedAt <= a.retiredAt && a.retiredAt + gap < b.assignedAt
  }

  /** The lease was open when the block was made. */
  ghost predicate OpenAt(l: Lease, t: int) {
    l.assignedAt <= t && (l.status == Retired ==> t < FloorSecond(l.retiredAt))
  }

  /** The lease had ended, and the next one on its wallet, if any, was not yet within the
      clock tolerance. */
  ghost predicate AfterLease(leases: map<int, Lease>, o: int, t: int)
    requires o in leases
  {
    && leases[o].status == Retired && FloorSecond(leases[o].retiredAt) <= t && leases[o].assignedAt <= t + LeaseTimeTolerance
    && forall p :: p in leases && leases[p].address == leases[o].address && leases[p].assignedAt > leases[o].assignedAt
                   ==> t < leases[p].assignedAt - LeaseTimeTolerance
  }

  /** The order is credited exactly for the payments made during its lease, plus, by
      the clock tolerance, those of the 30 seconds before it that no other lease's
      last second still covers; a payment after a lease, and not yet within the
      tolerance of the next one, is credited to nobody. */
  lemma AttributionIsExact(leases: map<int, Lease>, o: int, t: int, a: Attribution)
    requires forall p :: p in leases ==> leases[p].orderId == p
    requires Spaced(leases, 29 * Second)
    requires o in leases && WholeSecond(t) && IsAttribution(leases, leases[o].address, t, a)
    ensures OpenAt(leases[o], t) ==> a == Credited(leases[o])
    ensures a == Credited(leases[o]) ==>
              && leases[o].assignedAt - LeaseTimeTolerance <= t
              && (leases[o].status == Retired ==> t < FloorSecond(leases[o].retiredAt))
              && forall p :: p in leases && p != o && leases[p].address == leases[o].address ==> !OpenAt(leases[p], t)
    ensures AfterLease(leases, o, t) ==> a == Late(leases[o])
  {
    forall p, q | p in leases && q in leases && p != q && leases[p].address == leases[q].address
                  && OpenAt(leases[p], t) && leases[q].assignedAt <= t + LeaseTimeTolerance
      ensures leases[q].assignedAt < leases[p].assignedAt
    {
      if Precedes(leases[p], leases[q], 29 * Second) {
        OpenTooEarly(leases[p], leases[q], t);
      }
    }
  }

  /** Block times being whole seconds, a payment inside a lease is at least one second
      before its rounded end, so a rest of more than 29 s outlasts the tolerance. */
  lemma OpenTooEarly(a: Lease, b: Lease, t: int)
    requires WholeSecond(t) && OpenAt(a, t) && Precedes(a, b, 29 * Second)
    ensures b.assignedAt > t + LeaseTimeTolerance
  {
    assert t + Second <= FloorSecond(a.retiredAt);
  }

  /** 29 seconds is the exact limit: with any rest up to that, a payment made while the
      first lease was open can be credited to the second. */
  lemma ShortCooldownMisattributes(cooldown: nat) returns (leases: map<int, Lease>, t: int)
    requires cooldown <= 29 * Second
    ensures forall p :: p in leases ==> leases[p].orderId == p
    ensures 1 in leases && 2 in leases && leases[1].address == leases[2].address
    ensures leases[1].status == Retired && leases[2].assignedAt == leases[1].retiredAt + cooldown
    ensures WholeSecond(t) && OpenAt(leases[1], t)
    ensures IsAttribution(leases, leases[1].address, t, Credited(leases[2]))
  {
    t := 99 * Second;
    leases := map[1 := Lease(1, "a", "x", "w", Retired, 50 * Second, 100 * Second),
                  2 := Lease(2, "b", "y", "w", Watching, 100 * Second + cooldown, 0)];
    assert IsLeaseAt(leases, "w", t, 2);
  }

  // ---------- the statements ----------

  predicate OpenLeaseOn(leases: map<int, Lease>, addr: string, o: int) {
    o in leases && leases[o].address == addr && leases[o].status != Retired
  }

  /** Some order holds the wallet. */
  predicate Taken(p: Pool, addr: string) {
    exists o :: o in p.leases && OpenLeaseOn(p.leases, addr, o)
  }

  predicate Eligible(p: Pool, now: int, addr: string) {
    && addr in p.wallets && p.wallets[addr].active && p.wallets[addr].availableAfter <= now
    && forall o :: o in p.leases ==> !OpenLeaseOn(p.leases, addr, o)
  }

  /** Lease order: wallets that have received a deposit first, then the one leased
      longest ago (never leased counts as longest), then the derivation index. */
  predicate GoesBefore(a: Wallet, usedA: bool, b: Wallet, usedB: bool) {
    if usedA != usedB then usedA
    else if a.lastLeasedAt != b.lastLeasedAt then
      a.lastLeasedAt.None? || (b.lastLeasedAt.Some? && a.lastLeasedAt.value < b.lastLeasedAt.value)
    else a.index < b.index
  }

  predicate Chosen(p: Pool, now: int, used: set<string>, addr: string) {
    && Eligible(p, now, addr)
    && forall b :: b in p.wallets && Eligible(p, now, b) && b != addr ==> GoesBefore(p.wallets[addr], addr in used, p.wallets[b], b in used)
  }

  /** Active, rested, and not leased to anyone. */
  predicate CanBeLeased(p: Pool, now: int, addr: string) {
    && addr in p.wallets && p.wallets[addr].active && p.wallets[addr].availableAfter <= now
    && forall o :: o in p.leases && p.leases[o].address == addr ==> p.leases[o].status == Retired
  }

  /** The wallet chosen can be leased; none that can has received a deposit unless it has;
      and among those alike in this, none was leased longer ago, never counting as longest,
      and none leased at the same time has a lower index. */
  lemma ChosenMeans(p: Pool, now: int, used: set<string>, addr: string, b: string)
    requires Chosen(p, now, used, addr)
    ensures CanBeLeased(p, now, addr)
    ensures CanBeLeased(p, now, b) && b in used ==> addr in used
    ensures CanBeLeased(p, now, b) && (b in used <==> addr in used) ==>
              var last, other := p.wallets[addr].lastLeasedAt, p.wallets[b].lastLeasedAt;
              && (other.None? ==> last.None?)
              && (last.Some? && other.Some? ==> last.value <= other.value)
              && (last == other ==> p.wallets[addr].index <= p.wallets[b].index)
  {
    CanBeLeasedIs(p, now, addr);
    CanBeLeasedIs(p, now, b);
  }

  lemma CanBeLeasedIs(p: Pool, now: int, a: string)
    ensures CanBeLeased(p, now, a) <==> Eligible(p, now, a)
  {
    if Eligible(p, now, a) {
      forall o | o in p.leases && p.leases[o].address == a
        ensures p.leases[o].status == Retired
      {
        assert !OpenLeaseOn(p.leases, a, o);
      }
    }
  }

  function WithLease(p: Pool, now: int, order: Order, addr: string): Pool
    requires addr in p.wallets
  {
    p.(leases := p.leases[order.id := Lease(order.id, order.externalId, order.customerId, addr, Watching, now, 0)],
       wallets := p.wallets[addr := p.wallets[addr].(lastLeasedAt := Some(now))])
  }

  /** One `INSERT .. SELECT .. ON CONFLICT DO NOTHING`: leases the first wallet in
      order, or changes nothing when there is none or the order has a lease. */
  ghost predicate LeaseStatement(p: Pool, now: int, used: set<string>, order: Order, got: Option<string>, p': Pool) {
    match got
    case Some(addr) => Chosen(p, now, used, addr) && order.id !in p.leases && p' == WithLease(p, now, order, addr)
    case None => p' == p && (order.id in p.leases || forall a :: !Eligible(p, now, a))
  }

  /** All that `Assign` comes to for a caller that nobody disturbs: the address the
      order already has, else the first eligible wallet, else a new one while there is
      room. An index once drawn stays drawn, even if its address turns out taken. */
  ghost predicate Assigned(p: Pool, next: nat, now: int, used: set<string>, order: Order, mint: nat -> string,
                           r: Result<string, AssignError>, p': Pool, next': nat) {
    if order.id in p.leases then r == Ok(p.leases[order.id].address) && p' == p && next' == next
    else if exists a :: Eligible(p, now, a) then
      r.Ok? && LeaseStatement(p, now, used, order, Some(r.value), p') && next' == next
    else if |p.wallets| >= p.settings.maxWallets then r == Err(NoWalletAvailable) && p' == p && next' == next
    else if mint(next) in p.wallets then r == Err(AddressTaken) && p' == p && next' == next + 1
    else r == Ok(mint(next)) && p' == WithLease(Adding(p, now, mint(next), next), now, order, mint(next)) && next' == next + 1
  }

  /** A wallet just added is the only eligible one, if there was none before. */
  lemma NewWalletIsChosen(p: Pool, now: int, used: set<string>, minted: string, index: nat)
    requires WellKeyed(p) && minted !in p.wallets && forall a :: !Eligible(p, now, a)
    ensures Chosen(Adding(p, now, minted, index), now, used, minted)
    ensures forall a :: Eligible(Adding(p, now, minted, index), now, a) ==> a == minted
  {
    var grown := Adding(p, now, minted, index);
    forall a | a != minted
      ensures !Eligible(grown, now, a)
    {
      assert !Eligible(p, now, a);
    }
  }

  /** Ends the lease; `cooldownStarted` tells whether the second statement ran too. */
  function Retiring(p: Pool, now: int, o: int, expired: bool, cooldownStarted: bool): Pool {
    if o !in p.leases || p.leases[o].status == Retired then p
    else
      var addr := p.leases[o].address;
      var cooldown := if expired then p.settings.cooldownAfterExpiry else p.settings.cooldownAfterUse;
      p.(leases := p.leases[o := p.leases[o].(status := Retired, retiredAt := now)],
         wallets := if addr in p.wallets && cooldownStarted
                    then p.wallets[addr := p.wallets[addr].(availableAfter := now + cooldown)] else p.wallets)
  }

  function Funding(p: Pool, o: int): Pool {
    if o in p.leases && p.leases[o].status != Retired then p.(leases := p.leases[o := p.leases[o].(status := Funded)]) else p
  }

  function Activating(p: Pool, addr: string, active: bool): Pool {
    if addr in p.wallets then p.(wallets := p.wallets[addr := p.wallets[addr].(active := active)]) else p
  }

  function Adding(p: Pool, now: int, addr: string, index: nat): Pool {
    p.(wallets := p.wallets[addr := Wallet(index, true, now, None)])
  }

  lemma {:induction false} FirstOf(p: Pool, used: set<string>, among: set<string>) returns (a: string)
    requires WellKeyed(p) && among != {} && among <= p.wallets.Keys
    ensures a in among && forall b :: b in among && b != a ==> GoesBefore(p.wallets[a], a in used, p.wallets[b], b in used)
    decreases |among|
  {
    a :| a in among;
    if among != {a} {
      var other := FirstOf(p, used, among - {a});
      a := if GoesBefore(p.wallets[a], a in used, p.wallets[other], other in used) then a else other;
    }
  }

  lemma SomeChosen(p: Pool, now: int, used: set<string>, a: string) returns (first: string)
    requires WellKeyed(p) && Eligible(p, now, a)
    ensures Chosen(p, now, used, first)
  {
    var free := set b | b in p.wallets && Eligible(p, now, b);
    assert a in free;
    first := FirstOf(p, used, free);
  }

  // ---------- the store ----------

  ghost predicate WellKeyed(p: Pool) {
    && (forall o :: o in p.leases ==> p.leases[o].orderId == o && p.leases[o].address in p.wallets)
    && (forall a, b :: a in p.wallets && b in p.wallets && p.wallets[a].index == p.wallets[b].index ==> a == b)
  }

  class LeaseStore {
    var wallets: map<string, Wallet>
    var leases: map<int, Lease>
    var settings: Settings
    var nextIndex: nat

    ghost function State(): Pool
      reads this
    {
      Pool(wallets, leases, settings)
    }

    ghost predicate Valid()
      reads this
    {
      WellKeyed(State()) && forall a :: a in wallets ==> wallets[a].index < nextIndex
    }

    constructor (s: Settings)
      ensures Valid() && State() == Pool(map[], map[], s)
    {
      wallets, leases, settings, nextIndex := map[], map[], s, 0;
    }

    /** The SELECT of `leaseFromPool`: the first eligible wallet in lease order. */
    method FirstEligible(now: int, used: set<string>) returns (best: Option<string>)
      requires Valid()
      ensures best.Some? ==> Chosen(State(), now, used, best.value)
      ensures best.None? ==> forall a :: !Eligible(State(), now, a)
    {
      var p := Pool(wallets, leases, settings);
      if a :| a in wallets && Chosen(p, now, used, a) {
        return Some(a);
      }
      forall a
        ensures !Eligible(p, now, a)
      {
        if Eligible(p, now, a) {
          var first := SomeChosen(p, now, used, a);
          assert false;
        }
      }
      return None;
    }

    /** `leaseFromPool`. `raced`: another order's lease of the selected wallet, not yet
        to be seen, is committed first, so the INSERT conflicts and leases nothing. */
    method LeaseFromPool(now: int, used: set<string>, order: Order, raced: bool) returns (got: Option<string>)
      requires Valid()
      modifies this`wallets, this`leases
      ensures Valid()
      ensures if raced then got.None? && State() == old(State()) else LeaseStatement(old(State()), now, used, order, got, State())
      ensures got.Some? ==> order.id !in old(leases) && CanBeLeased(old(State()), now, got.value)
                            && leases == old(leases)[order.id := Lease(order.id, order.externalId, order.customerId, got.value, Watching, now, 0)]
      ensures got.None? && !raced && order.id !in old(leases) ==> forall a :: !CanBeLeased(old(State()), now, a)
    {
      got := FirstEligible(now, used);
      if got.Some? {
        ChosenMeans(State(), now, used, got.value, got.value);
      } else {
        forall a
          ensures !CanBeLeased(State(), now, a)
        {
          CanBeLeasedIs(State(), now, a);
        }
      }
      if got.Some? && (raced || order.id in leases) {
        got := None;
      }
      if got.Some? {
        leases := leases[order.id := Lease(order.id, order.externalId, order.customerId, got.value, Watching, now, 0)];
        wallets := wallets[got.value := wallets[got.value].(lastLeasedAt := Some(now))];
      }
    }

    /** The second half of `provision`, once the size check has passed: a new wallet
        under the next derivation index, then a lease. */
    method AddAndLease(now: int, used: set<string>, order: Order, minted: string) returns (got: Option<string>)
      requires Valid() && minted !in wallets
      modifies this`wallets, this`leases, this`nextIndex
      ensures Valid() && nextIndex == old(nextIndex) + 1
      ensures LeaseStatement(Adding(old(State()), now, minted, old(nextIndex)), now, used, order, got, State())
    {
      wallets, nextIndex := wallets[minted := Wallet(nextIndex, true, now, None)], nextIndex + 1;
      got := LeaseFromPool(now, used, order, false);
    }

    /** `provision` for an order, run alone under its advisory lock: a wallet that
        became idle, else refusal at the size limit, else a new wallet. */
    method Provision(now: int, used: set<string>, order: Order, mint: nat -> string) returns (r: Result<string, AssignError>)
      requires Valid()
      modifies this`wallets, this`leases, this`nextIndex
      ensures Valid()
      ensures order.id !in old(leases) ==> Assigned(old(State()), old(nextIndex), now, used, order, mint, r, State(), nextIndex)
      ensures order.id in old(leases) && |old(wallets)| >= settings.maxWallets ==>
                r == Err(NoWalletAvailable) && State() == old(State()) && nextIndex == old(nextIndex)
      ensures order.id in old(leases) && |old(wallets)| < settings.maxWallets ==>
                var minted := mint(old(nextIndex));
                && nextIndex == old(nextIndex) + 1
                && if minted in old(wallets) then r == Err(AddressTaken) && State() == old(State())
                   else r == Ok(minted) && State() == Adding(old(State()), now, minted, old(nextIndex))
    {
      var got := LeaseFromPool(now, used, order, false);
      if got.Some? {
        return Ok(got.value);
      }
      if |wallets| >= settings.maxWallets {
        return Err(NoWalletAvailable);
      }
      var minted := mint(nextIndex);
      if minted in wallets {
        nextIndex := nextIndex + 1;
        return Err(AddressTaken);
      }
      ghost var before := State();
      got := AddAndLease(now, used, order, minted);
      if order.id !in before.leases {
        NewWalletIsChosen(before, now, used, minted, old(nextIndex));
      }
      return Ok(if got.Some? then got.value else minted);
    }

    /** `Assign`, run alone: an order that has a lease always gets the same address
        back, and any address returned is the one leased to the order. */
    method Assign(now: int, used: set<string>, order: Order, mint: nat -> string) returns (r: Result<string, AssignError>)
      requires Valid()
      modifies this`wallets, this`leases, this`nextIndex
      ensures Valid()
      ensures Assigned(old(State()), old(nextIndex), now, used, order, mint, r, State(), nextIndex)
      ensures r.Ok? ==> order.id in leases && leases[order.id].address == r.value
    {
      if order.id in leases {
        return Ok(leases[order.id].address);
      }
      for attempt := 0 to 5
        invariant Valid()
        invariant attempt == 0 ==> State() == old(State()) && nextIndex == old(nextIndex)
        invariant attempt > 0 ==> order.id in leases && Assigned(old(State()), old(nextIndex), now, used, order, mint, Ok(leases[order.id].address), State(), nextIndex)
        invariant attempt <= 1
      {
        var got := LeaseFromPool(now, used, order, false);
        if got.Some? {
          return Ok(got.value);
        }
        if order.id in leases {
          return Ok(leases[order.id].address);
        }
        var free := FirstEligible(now, used);
        if free.None? {
          var p := Provision(now, used, order, mint);
          if p.Err? {
            return Err(p.error);
          }
        }
      }
      assert false;
      return Err(NoWalletAvailable);
    }

    /** `Retire`. */
    method Retire(now: int, orderId: int, expired: bool) returns (r: Result<(), AssignError>)
      requires Valid()
      modifies this`leases, this`wallets
      ensures Valid()
      ensures State() == Retiring(old(State()), now, orderId, expired, true)
      ensures r.Err? <==> orderId !in old(leases)
      ensures orderId in old(leases) && old(leases)[orderId].status != Retired && old(leases)[orderId].address in old(wallets) ==>
                && leases[orderId].retiredAt == now && leases[orderId].status == Retired
                && var addr := old(leases)[orderId].address;
                   addr in wallets && wallets[addr].availableAfter == if expired then now + settings.cooldownAfterExpiry else now + settings.cooldownAfterUse
    {
      if orderId !in leases {
        return Err(OrderNotFound);
      }
      if leases[orderId].status == Retired {
        return Ok(());
      }
      var addr := leases[orderId].address;
      leases := leases[orderId := leases[orderId].(status := Retired, retiredAt := now)];
      if addr in wallets {
        var cooldown := if expired then settings.cooldownAfterExpiry else settings.cooldownAfterUse;
        wallets := wallets[addr := wallets[addr].(availableAfter := now + cooldown)];
      }
      return Ok(());
    }
  }
}
