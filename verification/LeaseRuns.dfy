/** Any number of concurrent `Assign` callers, with retirements, status changes,
    settings changes and crashes in between: one SQL statement, or one committed
    transaction, is one step (depositwatcher/internal/addresses/store.go, pool.go). */
module LeaseRuns {
  import opened Leases
  import opened Sets
  import opened Wrappers

  /** Where a caller of `Assign` stands; `n` counts its attempts. Holding and Sized
      are inside the provisioning transaction, under the advisory lock. */
  datatype PC =
    | First | Try(n: nat) | Lookup(n: nat) | Count(n: nat) | Wait(n: nat)
    | Holding(n: nat) | Sized(n: nat, size: nat, max: nat)
    | Done(addr: string) | GaveUp

  datatype Caller = Caller(order: Order, pc: PC)

  datatype System = System(pool: Pool, now: int, nextIndex: nat, holder: Option<nat>, callers: map<nat, Caller>)

  datatype Event =
    | Elapse(dt: nat)
    | Call(c: nat, order: Order)
    | Act(c: nat, choice: string, used: set<string>)
    | Die(c: nat)
    | RetireLease(o: int, expired: bool, cooldownStarted: bool)
    | Fund(o: int)
    | SetActive(addr: string, active: bool)
    | PutSettings(s: Settings)

  function At(s: System, c: nat, pc: PC): System
    requires c in s.callers
  {
    s.(callers := s.callers[c := s.callers[c].(pc := pc)])
  }

  function Again(n: nat): PC {
    if n + 1 < 5 then Try(n + 1) else GaveUp
  }

  predicate AnyEligible(s: System) {
    exists a :: a in s.pool.wallets && Eligible(s.pool, s.now, a)
  }

  /** One more step of caller `c`. `choice` is the wallet the lease statement selects: the
      first eligible one, or one that another order has taken since the statement began,
      in which case it leases nothing. Any other choice is no step. */
  function ActOf(s: System, c: nat, choice: string, used: set<string>, mint: nat -> string): System
    requires c in s.callers
  {
    var Caller(order, pc) := s.callers[c];
    match pc
    case First =>
      if order.id in s.pool.leases then At(s, c, Done(s.pool.leases[order.id].address)) else At(s, c, Try(0))
    case Try(n) =>
      if order.id in s.pool.leases || !AnyEligible(s) || Taken(s.pool, choice) then At(s, c, Lookup(n))
      else if Chosen(s.pool, s.now, used, choice) then At(s.(pool := WithLease(s.pool, s.now, order, choice)), c, Done(choice))
      else s
    case Lookup(n) =>
      if order.id in s.pool.leases then At(s, c, Done(s.pool.leases[order.id].address)) else At(s, c, Count(n))
    case Count(n) => At(s, c, if AnyEligible(s) then Again(n) else Wait(n))
    case Wait(n) => if s.holder.None? then At(s.(holder := Some(c)), c, Holding(n)) else s
    case Holding(n) =>
      if order.id in s.pool.leases || !AnyEligible(s) || Taken(s.pool, choice) then At(s, c, Sized(n, |s.pool.wallets|, s.pool.settings.maxWallets))
      else if Chosen(s.pool, s.now, used, choice) then
        At(s.(pool := WithLease(s.pool, s.now, order, choice), holder := None), c, Again(n))
      else s
    case Sized(n, size, max) =>
      var minted := mint(s.nextIndex);
      if size >= max then At(s.(holder := None), c, GaveUp)
      else if minted in s.pool.wallets then At(s.(nextIndex := s.nextIndex + 1, holder := None), c, GaveUp)
      else
        var grown := s.(pool := Adding(s.pool, s.now, minted, s.nextIndex), nextIndex := s.nextIndex + 1);
        if order.id in s.pool.leases || Taken(grown.pool, choice) then At(grown.(holder := None), c, Again(n))
        else if Chosen(grown.pool, s.now, used, choice) then
          At(grown.(pool := WithLease(grown.pool, s.now, order, choice), holder := None), c, Again(n))
        else s
    case Done(_) => s
    case GaveUp => s
  }

  function Step(s: System, e: Event, mint: nat -> string): System {
    match e
    case Elapse(dt) => s.(now := s.now + dt)
    case Call(c, order) => if c in s.callers then s else s.(callers := s.callers[c := Caller(order, First)])
    case Act(c, choice, used) => if c in s.callers then ActOf(s, c, choice, used, mint) else s
    case Die(c) =>
      s.(callers := s.callers - {c}, holder := if s.holder == Some(c) then None else s.holder)
    case RetireLease(o, expired, started) => s.(pool := Retiring(s.pool, s.now, o, expired, started))
    case Fund(o) => s.(pool := Funding(s.pool, o))
    case SetActive(addr, active) => s.(pool := Activating(s.pool, addr, active))
    case PutSettings(settings) => s.(pool := s.pool.(settings := settings))
  }

  function Run(s: System, es: seq<Event>, mint: nat -> string): System
    decreases |es|
  {
    if es == [] then s else Run(Step(s, es[0], mint), es[1..], mint)
  }

  function Start(settings: Settings): System {
    System(Pool(map[], map[], settings), 0, 0, None, map[])
  }

  // ---------- invariants ----------

  ghost predicate OneOpenLeaseEach(p: Pool) {
    forall o, q :: o in p.leases && q in p.leases && p.leases[o].address == p.leases[q].address
                   && p.leases[o].status != Retired && p.leases[q].status != Retired
      ==> o == q
  }

  ghost predicate LeasesOnWallets(p: Pool) {
    forall o :: o in p.leases ==> p.leases[o].orderId == o && p.leases[o].address in p.wallets
  }

  ghost predicate IndexesUsed(p: Pool, nextIndex: nat) {
    && (forall a :: a in p.wallets ==> p.wallets[a].index < nextIndex)
    && (forall a, b :: a in p.wallets && b in p.wallets && p.wallets[a].index == p.wallets[b].index ==> a == b)
  }

  ghost predicate PoolInv(p: Pool, nextIndex: nat) {
    OneOpenLeaseEach(p) && LeasesOnWallets(p) && IndexesUsed(p, nextIndex)
  }

  predicate InTransaction(pc: PC) {
    pc.Holding? || pc.Sized?
  }

  /** The lock holder, and only it, is in the provisioning transaction; what it read
      about the pool's size still holds. */
  ghost predicate LockHeld(s: System) {
    && (forall c :: c in s.callers && InTransaction(s.callers[c].pc) ==> s.holder == Some(c))
    && (forall c :: c in s.callers && s.callers[c].pc.Sized? ==> s.callers[c].pc.size == |s.pool.wallets|)
  }

  ghost predicate Answered(p: Pool, c: Caller) {
    c.pc.Done? ==> c.order.id in p.leases && p.leases[c.order.id].address == c.pc.addr
  }

  ghost predicate AnswersHold(s: System) {
    forall c :: c in s.callers ==> Answered(s.pool, s.callers[c])
  }

  ghost predicate Inv(s: System) {
    PoolInv(s.pool, s.nextIndex) && LockHeld(s) && AnswersHold(s)
  }

  /** Leases are never removed, moved to another address, or restarted. */
  ghost predicate LeasesKept(p: Pool, p': Pool) {
    forall o :: o in p.leases ==> o in p'.leases && p'.leases[o].address == p.leases[o].address && p'.leases[o].assignedAt == p.leases[o].assignedAt
  }

  lemma LeasingKeeps(p: Pool, nextIndex: nat, now: int, order: Order, addr: string, used: set<string>)
    requires PoolInv(p, nextIndex)
    requires order.id !in p.leases && Chosen(p, now, used, addr)
    ensures var p' := WithLease(p, now, order, addr);
            PoolInv(p', nextIndex) && LeasesKept(p, p') && p'.wallets.Keys == p.wallets.Keys && |p'.wallets| == |p.wallets|
  {
    var p' := WithLease(p, now, order, addr);
    assert p'.wallets.Keys == p.wallets.Keys;
    assert |p'.wallets| == |p'.wallets.Keys|;
    forall o | o in p.leases && p.leases[o].address == addr
      ensures p.leases[o].status == Retired
    {
      assert !OpenLeaseOn(p.leases, addr, o);
    }
  }

  lemma AddingKeeps(p: Pool, nextIndex: nat, now: int, minted: string)
    requires PoolInv(p, nextIndex) && minted !in p.wallets
    ensures var p' := Adding(p, now, minted, nextIndex);
            PoolInv(p', nextIndex + 1) && LeasesKept(p, p') && |p'.wallets| == |p.wallets| + 1
  {
    var p' := Adding(p, now, minted, nextIndex);
    assert p'.wallets.Keys == p.wallets.Keys + {minted};
    assert |p'.wallets| == |p'.wallets.Keys|;
  }

  /** The bookkeeping of one caller's move: only the lock's holder gives it up or
      changes the pool's size, and a caller that enters the transaction holds it. */
  ghost predicate Moves(s: System, s': System, c: nat) {
    && c in s.callers && c in s'.callers
    && s'.callers == s.callers[c := s'.callers[c]] && s'.callers[c].order == s.callers[c].order
    && (s'.holder == s.holder || s.holder.None? || s.holder == Some(c))
    && (InTransaction(s'.callers[c].pc) ==> s'.holder == Some(c))
    && (s'.callers[c].pc.Sized? ==> s'.callers[c].pc.size == |s'.pool.wallets|)
    && (|s'.pool.wallets| == |s.pool.wallets| || s.holder == Some(c))
    && Answered(s'.pool, s'.callers[c])
    && s'.pool.settings == s.pool.settings
    && (s'.callers[c].pc.Sized? ==> s'.callers[c].pc.max == s.pool.settings.maxWallets)
  }

  lemma MoveKeeps(s: System, s': System, c: nat)
    requires LockHeld(s) && AnswersHold(s) && LeasesKept(s.pool, s'.pool) && Moves(s, s', c)
    ensures LockHeld(s') && AnswersHold(s')
  {
    forall d | d in s'.callers && d != c
      ensures Answered(s'.pool, s'.callers[d])
      ensures InTransaction(s'.callers[d].pc) ==> s'.holder == Some(d) && |s'.pool.wallets| == |s.pool.wallets|
    {
      assert Answered(s.pool, s.callers[d]);
    }
  }

  /** What a caller's step may do to the pool: nothing, lease the first eligible
      wallet to its order, or, from the sized transaction, add a wallet first. */
  ghost predicate PoolStep(s: System, s': System, c: nat, choice: string, used: set<string>) {
    && c in s.callers
    && var order := s.callers[c].order;
       || (s'.pool == s.pool && s'.nextIndex >= s.nextIndex)
       || (order.id !in s.pool.leases && Chosen(s.pool, s.now, used, choice)
           && s'.pool == WithLease(s.pool, s.now, order, choice) && s'.nextIndex == s.nextIndex)
       || GrowStep(s, s', c, choice, used)
  }

  ghost predicate GrowStep(s: System, s': System, c: nat, choice: string, used: set<string>) {
    && c in s.callers && s.callers[c].pc.Sized? && s.callers[c].pc.size < s.callers[c].pc.max
    && s'.nextIndex == s.nextIndex + 1
    && exists minted :: minted !in s.pool.wallets && GrownTo(s.pool, s.now, s.nextIndex, minted, s.callers[c].order, choice, used, s'.pool)
  }

  ghost predicate GrownTo(p: Pool, now: int, index: nat, minted: string, order: Order, choice: string, used: set<string>, p': Pool) {
    var grown := Adding(p, now, minted, index);
    p' == grown || (order.id !in grown.leases && Chosen(grown, now, used, choice) && p' == WithLease(grown, now, order, choice))
  }

  lemma ActIsPoolStep(s: System, c: nat, choice: string, used: set<string>, mint: nat -> string)
    requires c in s.callers
    ensures PoolStep(s, ActOf(s, c, choice, used, mint), c, choice, used)
  {
    var Caller(order, pc) := s.callers[c];
    var s' := ActOf(s, c, choice, used, mint);
    if pc.Sized? && pc.size < pc.max && mint(s.nextIndex) !in s.pool.wallets && s' != s {
      assert GrownTo(s.pool, s.now, s.nextIndex, mint(s.nextIndex), order, choice, used, s'.pool);
    }
  }

  lemma PoolStepKeeps(s: System, s': System, c: nat, choice: string, used: set<string>)
    requires Inv(s) && PoolStep(s, s', c, choice, used)
    ensures PoolInv(s'.pool, s'.nextIndex) && LeasesKept(s.pool, s'.pool)
    ensures |s'.pool.wallets| == if GrowStep(s, s', c, choice, used) then |s.pool.wallets| + 1 else |s.pool.wallets|
  {
    var order := s.callers[c].order;
    if GrowStep(s, s', c, choice, used) {
      var minted :| minted !in s.pool.wallets && GrownTo(s.pool, s.now, s.nextIndex, minted, order, choice, used, s'.pool);
      AddingKeeps(s.pool, s.nextIndex, s.now, minted);
      var grown := Adding(s.pool, s.now, minted, s.nextIndex);
      if s'.pool != grown {
        LeasingKeeps(grown, s'.nextIndex, s.now, order, choice, used);
      }
    } else if s'.pool != s.pool {
      LeasingKeeps(s.pool, s.nextIndex, s.now, order, choice, used);
    }
  }

  lemma ActMoves(s: System, c: nat, choice: string, used: set<string>, mint: nat -> string)
    requires LockHeld(s) && c in s.callers
    requires var s' := ActOf(s, c, choice, used, mint);
             |s'.pool.wallets| == if GrowStep(s, s', c, choice, used) then |s.pool.wallets| + 1 else |s.pool.wallets|
    ensures var s' := ActOf(s, c, choice, used, mint); s' == s || Moves(s, s', c)
  {
    var Caller(order, pc) := s.callers[c];
    assert InTransaction(pc) ==> s.holder == Some(c);
    match pc
    case First =>
    case Try(n) =>
    case Lookup(n) =>
    case Count(n) =>
    case Wait(n) =>
    case Holding(n) =>
    case Sized(n, size, max) =>
    case Done(_) =>
    case GaveUp =>
  }

  lemma ActKeeps(s: System, c: nat, choice: string, used: set<string>, mint: nat -> string)
    requires Inv(s) && c in s.callers
    ensures var s' := ActOf(s, c, choice, used, mint);
            && Inv(s') && LeasesKept(s.pool, s'.pool)
            && (s' == s || Moves(s, s', c))
            && |s'.pool.wallets| == if GrowStep(s, s', c, choice, used) then |s.pool.wallets| + 1 else |s.pool.wallets|
  {
    var s' := ActOf(s, c, choice, used, mint);
    ActIsPoolStep(s, c, choice, used, mint);
    PoolStepKeeps(s, s', c, choice, used);
    ActMoves(s, c, choice, used, mint);
    if s' != s {
      MoveKeeps(s, s', c);
    }
  }

  lemma EditKeeps(s: System, e: Event, mint: nat -> string)
    requires Inv(s) && !e.Act?
    ensures Inv(Step(s, e, mint)) && LeasesKept(s.pool, Step(s, e, mint).pool)
    ensures |Step(s, e, mint).pool.wallets| == |s.pool.wallets|
  {
    var s' := Step(s, e, mint);
    EditSize(s, e, mint);
    EditKeepsPool(s, e, mint);
    EditCallers(s, s', e, mint);
  }

  lemma EditSize(s: System, e: Event, mint: nat -> string)
    requires !e.Act?
    ensures |Step(s, e, mint).pool.wallets| == |s.pool.wallets|
  {
    var s' := Step(s, e, mint);
    assert s'.pool.wallets.Keys == s.pool.wallets.Keys;
    assert |s'.pool.wallets| == |s'.pool.wallets.Keys|;
  }

  lemma EditCallers(s: System, s': System, e: Event, mint: nat -> string)
    requires LockHeld(s) && AnswersHold(s) && !e.Act? && s' == Step(s, e, mint)
    requires LeasesKept(s.pool, s'.pool) && |s'.pool.wallets| == |s.pool.wallets|
    ensures LockHeld(s') && AnswersHold(s')
  {
    forall c | c in s'.callers && c in s.callers
      ensures Answered(s'.pool, s'.callers[c])
    {
      assert Answered(s.pool, s.callers[c]);
    }
  }

  lemma EditKeepsPool(s: System, e: Event, mint: nat -> string)
    requires PoolInv(s.pool, s.nextIndex) && !e.Act?
    ensures PoolInv(Step(s, e, mint).pool, Step(s, e, mint).nextIndex) && LeasesKept(s.pool, Step(s, e, mint).pool)
  {
    match e
    case RetireLease(o, expired, started) => RetiringKeeps(s.pool, s.nextIndex, s.now, o, expired, started);
    case Fund(o) => RelabelKeeps(s.pool, Funding(s.pool, o), s.nextIndex);
    case SetActive(addr, active) => RelabelKeeps(s.pool, Activating(s.pool, addr, active), s.nextIndex);
    case _ =>
  }

  lemma RetiringKeeps(p: Pool, nextIndex: nat, now: int, o: int, expired: bool, started: bool)
    requires PoolInv(p, nextIndex)
    ensures PoolInv(Retiring(p, now, o, expired, started), nextIndex) && LeasesKept(p, Retiring(p, now, o, expired, started))
  {
    RelabelKeeps(p, Retiring(p, now, o, expired, started), nextIndex);
  }

  lemma RelabelKeeps(p: Pool, p': Pool, nextIndex: nat)
    requires PoolInv(p, nextIndex) && p'.leases.Keys == p.leases.Keys && p'.wallets.Keys == p.wallets.Keys
    requires forall o :: o in p.leases ==> p'.leases[o].(status := Watching, retiredAt := 0) == p.leases[o].(status := Watching, retiredAt := 0)
    requires forall o :: o in p.leases && p.leases[o].status == Retired ==> p'.leases[o].status == Retired
    requires forall a :: a in p.wallets ==> p'.wallets[a].index == p.wallets[a].index
    ensures PoolInv(p', nextIndex) && LeasesKept(p, p')
  {
    forall o | o in p.leases
      ensures p'.leases[o].address == p.leases[o].address && p'.leases[o].assignedAt == p.leases[o].assignedAt
      ensures p'.leases[o].orderId == p.leases[o].orderId
    {
      var l, l' := p.leases[o].(status := Watching, retiredAt := 0), p'.leases[o].(status := Watching, retiredAt := 0);
      assert l' == l;
    }
  }

  /** The settings in force never allow more than `limit` wallets. */
  ghost predicate WithinLimit(s: System, limit: nat) {
    && s.pool.settings.maxWallets <= limit
    && |s.pool.wallets| <= limit
    && forall c :: c in s.callers && s.callers[c].pc.Sized? ==> s.callers[c].pc.max <= limit
  }

  /** Whatever the interleaving: no wallet ever has two open leases, no order two
      leases, every address `Assign` returned is the order's lease for good, and the
      pool never outgrows the largest limit that was in force. */
  lemma {:induction false} AssignIsSafe(s: System, es: seq<Event>, mint: nat -> string, limit: nat)
    requires Inv(s) && WithinLimit(s, limit)
    requires forall e :: e in es && e.PutSettings? ==> e.s.maxWallets <= limit
    ensures var s' := Run(s, es, mint);
            Inv(s') && LeasesKept(s.pool, s'.pool) && |s'.pool.wallets| <= limit
    decreases |es|
  {
    if es != [] {
      var e := es[0];
      assert e in es;
      StepKeeps(s, e, mint, limit);
      AssignIsSafe(Step(s, e, mint), es[1..], mint, limit);
    }
  }

  /** From an empty pool: any number of callers, whatever they interleave with. */
  lemma ConcurrentAssignIsSafe(settings: Settings, es: seq<Event>, mint: nat -> string, limit: nat, c: nat)
    requires settings.maxWallets <= limit && forall e :: e in es && e.PutSettings? ==> e.s.maxWallets <= limit
    ensures var s := Run(Start(settings), es, mint);
            && OneOpenLeaseEach(s.pool) && |s.pool.wallets| <= limit
            && (c in s.callers && s.callers[c].pc.Done? ==>
                  s.callers[c].order.id in s.pool.leases && s.pool.leases[s.callers[c].order.id].address == s.callers[c].pc.addr)
  {
    AssignIsSafe(Start(settings), es, mint, limit);
    var s := Run(Start(settings), es, mint);
    if c in s.callers {
      assert Answered(s.pool, s.callers[c]);
    }
  }

  // ---------- one caller alone, and the fifth attempt ----------

  lemma {:induction false} RunAppend(s: System, es: seq<Event>, fs: seq<Event>, mint: nat -> string)
    ensures Run(s, es + fs, mint) == Run(Run(s, es, mint), fs, mint)
    decreases |es|
  {
    if es == [] {
      assert es + fs == fs;
    } else {
      assert (es + fs)[1..] == es[1..] + fs;
      RunAppend(Step(s, es[0], mint), es[1..], fs, mint);
    }
  }

  /** Extends a run that has come to `at` by one event. */
  lemma Next(s: System, es: seq<Event>, at: System, e: Event, to: System, mint: nat -> string) returns (es': seq<Event>)
    requires Run(s, es, mint) == at && Step(at, e, mint) == to
    ensures Run(s, es', mint) == to && es' == es + [e]
  {
    es' := es + [e];
    RunAppend(s, es, [e], mint);
    assert Run(to, [], mint) == to;
    assert [e][1..] == [];
  }

  /** Only caller `c` takes part. */
  ghost predicate Alone(c: nat, es: seq<Event>) {
    forall e :: e in es ==> (e.Act? || e.Call?) && e.c == c
  }

  /** What `LeaseStore.Assign` comes to is what an undisturbed caller comes to here,
      so what is proved of runs holds of it. */
  lemma AssignIsARun(s: System, c: nat, order: Order, used: set<string>, mint: nat -> string,
                     r: Result<string, AssignError>, p': Pool, next': nat) returns (es: seq<Event>)
    requires Inv(s) && s.holder.None? && c !in s.callers
    requires Assigned(s.pool, s.nextIndex, s.now, used, order, mint, r, p', next')
    ensures Alone(c, es)
    ensures Run(s, es, mint) == s.(pool := p', nextIndex := next', callers := s.callers[c := Caller(order, if r.Ok? then Done(r.value) else GaveUp)])
  {
    var called := s.(callers := s.callers[c := Caller(order, First)]);
    assert Run(s, [], mint) == s;
    es := Next(s, [], s, Call(c, order), called, mint);
    var more;
    if order.id in s.pool.leases || AnyEligible(s) {
      more := Serves(called, c, used, mint, r, p', next');
    } else {
      more := Provisions(called, c, used, mint, r, p', next');
    }
    RunAppend(s, es, more, mint);
    es := es + more;
  }

  /** An order with a lease, or with a wallet free for it, is answered at once. */
  lemma Serves(s: System, c: nat, used: set<string>, mint: nat -> string,
               r: Result<string, AssignError>, p': Pool, next': nat) returns (es: seq<Event>)
    requires c in s.callers && s.callers[c].pc == First
    requires s.callers[c].order.id in s.pool.leases || AnyEligible(s)
    requires Assigned(s.pool, s.nextIndex, s.now, used, s.callers[c].order, mint, r, p', next')
    ensures Alone(c, es) && r.Ok?
    ensures Run(s, es, mint) == At(s.(pool := p', nextIndex := next'), c, Done(r.value))
  {
    assert Run(s, [], mint) == s;
    if s.callers[c].order.id in s.pool.leases {
      es := Next(s, [], s, Act(c, "", used), At(s, c, Done(r.value)), mint);
    } else {
      es := Next(s, [], s, Act(c, "", used), At(s, c, Try(0)), mint);
      es := Next(s, es, At(s, c, Try(0)), Act(c, r.value, used), At(s.(pool := p'), c, Done(r.value)), mint);
    }
  }

  /** With nothing free: refused for want of room or because the new address is
      already a wallet's, else given the new wallet. */
  lemma Provisions(s: System, c: nat, used: set<string>, mint: nat -> string,
                   r: Result<string, AssignError>, p': Pool, next': nat) returns (es: seq<Event>)
    requires c in s.callers && s.callers[c].pc == First && s.holder.None? && PoolInv(s.pool, s.nextIndex)
    requires s.callers[c].order.id !in s.pool.leases && !AnyEligible(s)
    requires Assigned(s.pool, s.nextIndex, s.now, used, s.callers[c].order, mint, r, p', next')
    ensures Alone(c, es)
    ensures Run(s, es, mint) == At(s.(pool := p', nextIndex := next'), c, if r.Ok? then Done(r.value) else GaveUp)
  {
    es := ComesToSized(s, c, used, mint);
    var sized := At(s, c, Sized(0, |s.pool.wallets|, s.pool.settings.maxWallets)).(holder := Some(c));
    if r.Err? {
      es := Next(s, es, sized, Act(c, "", used), At(s.(nextIndex := next'), c, GaveUp), mint);
    } else {
      var rest := Provisioned(sized, c, r.value, used, mint);
      RunAppend(s, es, rest, mint);
      es := es + rest;
    }
  }

  /** With nothing free, an order without a lease comes to the provisioning lock, and
      under it to the size check. */
  lemma ComesToSized(s: System, c: nat, used: set<string>, mint: nat -> string) returns (es: seq<Event>)
    requires c in s.callers && s.callers[c].pc == First && s.holder.None?
    requires s.callers[c].order.id !in s.pool.leases && !AnyEligible(s)
    ensures Alone(c, es)
    ensures Run(s, es, mint) == At(s, c, Sized(0, |s.pool.wallets|, s.pool.settings.maxWallets)).(holder := Some(c))
  {
    var e := Act(c, "", used);
    assert Run(s, [], mint) == s;
    es := Next(s, [], s, e, At(s, c, Try(0)), mint);
    var more := LosesTry(At(s, c, Try(0)), c, 0, "", used, mint);
    RunAppend(s, es, more, mint);
    es := es + more;
  }

  /** From the start of an attempt with nothing free to the size check. */
  lemma LosesTry(s: System, c: nat, n: nat, choice: string, used: set<string>, mint: nat -> string) returns (es: seq<Event>)
    requires c in s.callers && s.callers[c].pc == Try(n) && s.holder.None?
    requires s.callers[c].order.id !in s.pool.leases && !AnyEligible(s)
    ensures Alone(c, es)
    ensures Run(s, es, mint) == At(s, c, Sized(n, |s.pool.wallets|, s.pool.settings.maxWallets)).(holder := Some(c))
  {
    var e := Act(c, choice, used);
    assert Run(s, [], mint) == s;
    es := Next(s, [], s, e, At(s, c, Lookup(n)), mint);
    es := Next(s, es, At(s, c, Lookup(n)), e, At(s, c, Count(n)), mint);
    es := Next(s, es, At(s, c, Count(n)), e, At(s, c, Wait(n)), mint);
    es := Next(s, es, At(s, c, Wait(n)), e, At(s, c, Holding(n)).(holder := Some(c)), mint);
    es := Next(s, es, At(s, c, Holding(n)).(holder := Some(c)), e,
               At(s, c, Sized(n, |s.pool.wallets|, s.pool.settings.maxWallets)).(holder := Some(c)), mint);
  }

  /** A sized transaction with room adds a wallet and leases it, being the only one free. */
  lemma ProvisioningLeases(s: System, c: nat, used: set<string>, mint: nat -> string)
    requires c in s.callers && s.callers[c].pc.Sized? && s.callers[c].pc.size < s.callers[c].pc.max
    requires PoolInv(s.pool, s.nextIndex) && s.callers[c].order.id !in s.pool.leases && !AnyEligible(s)
    requires mint(s.nextIndex) !in s.pool.wallets
    ensures var minted := mint(s.nextIndex);
            ActOf(s, c, minted, used, mint)
              == At(System(WithLease(Adding(s.pool, s.now, minted, s.nextIndex), s.now, s.callers[c].order, minted),
                           s.now, s.nextIndex + 1, None, s.callers), c, Again(s.callers[c].pc.n))
  {
    NewWalletIsChosen(s.pool, s.now, used, mint(s.nextIndex), s.nextIndex);
  }

  /** The first attempt's provisioning is found by the second. */
  lemma Provisioned(s: System, c: nat, minted: string, used: set<string>, mint: nat -> string) returns (es: seq<Event>)
    requires c in s.callers && s.callers[c].pc.Sized? && s.callers[c].pc.n == 0 && s.callers[c].pc.size < s.callers[c].pc.max
    requires PoolInv(s.pool, s.nextIndex) && s.callers[c].order.id !in s.pool.leases && !AnyEligible(s)
    requires mint(s.nextIndex) == minted && minted !in s.pool.wallets
    ensures Alone(c, es)
    ensures Run(s, es, mint) == At(System(WithLease(Adding(s.pool, s.now, minted, s.nextIndex), s.now, s.callers[c].order, minted),
                                          s.now, s.nextIndex + 1, None, s.callers), c, Done(minted))
  {
    var e := Act(c, minted, used);
    ProvisioningLeases(s, c, used, mint);
    var leased := ActOf(s, c, minted, used, mint);
    assert Run(s, [], mint) == s;
    es := Next(s, [], s, e, leased, mint);
    es := Next(s, es, leased, e, At(leased, c, Lookup(1)), mint);
    es := Next(s, es, At(leased, c, Lookup(1)), e, At(leased, c, Done(minted)), mint);
  }

  /** A caller whose own provisioning leased a wallet to its order finds that lease at
      the start of its next attempt; so it is refused exactly if this was its fifth. */
  lemma FifthLeaseIsNotReturned(s: System, c: nat, choice: string, used: set<string>, mint: nat -> string)
    requires c in s.callers && InTransaction(s.callers[c].pc) && s.callers[c].order.id !in s.pool.leases
    requires s.callers[c].order.id in ActOf(s, c, choice, used, mint).pool.leases
    ensures var s' := ActOf(s, c, choice, used, mint);
            if s.callers[c].pc.n + 1 >= 5 then s'.callers[c].pc == GaveUp
            else ActOf(ActOf(s', c, choice, used, mint), c, choice, used, mint).callers[c].pc
                   == Done(s'.pool.leases[s.callers[c].order.id].address)
  {
    var s' := ActOf(s, c, choice, used, mint);
    assert s'.callers[c].pc == Again(s.callers[c].pc.n);
    if s.callers[c].pc.n + 1 < 5 {
      assert ActOf(s', c, choice, used, mint) == At(s', c, Lookup(s.callers[c].pc.n + 1));
    }
  }

  /** An order that has a lease is answered with it by any new call, whatever else is
      going on. */
  lemma LeasedOrderIsAnswered(s: System, c: nat, order: Order, used: set<string>, mint: nat -> string)
    requires c !in s.callers && order.id in s.pool.leases
    ensures Run(s, [Call(c, order), Act(c, "", used)], mint)
              == s.(callers := s.callers[c := Caller(order, Done(s.pool.leases[order.id].address))])
  {
    var called := s.(callers := s.callers[c := Caller(order, First)]);
    assert Run(s, [], mint) == s;
    var es := Next(s, [], s, Call(c, order), called, mint);
    es := Next(s, es, called, Act(c, "", used), At(called, c, Done(s.pool.leases[order.id].address)), mint);
    assert es == [Call(c, order), Act(c, "", used)];
  }

  // ---------- a caller refused although its order holds a lease ----------

  /** Attempts are numbered 0 to 4. */
  ghost predicate Bounded(s: System) {
    forall c :: c in s.callers ==> Within(s.callers[c].pc)
  }

  predicate Within(pc: PC) {
    pc.First? || pc.Done? || pc.GaveUp? || pc.n <= 4
  }

  lemma StepBounded(s: System, e: Event, mint: nat -> string)
    requires Bounded(s)
    ensures Bounded(Step(s, e, mint))
  {
    if e.Act? && e.c in s.callers {
      assert Within(s.callers[e.c].pc);
      assert Within(ActOf(s, e.c, e.choice, e.used, mint).callers[e.c].pc);
    }
  }

  lemma {:induction false} RunBounded(s: System, es: seq<Event>, mint: nat -> string)
    requires Bounded(s)
    ensures Bounded(Run(s, es, mint))
    decreases |es|
  {
    if es != [] {
      StepBounded(s, es[0], mint);
      RunBounded(Step(s, es[0], mint), es[1..], mint);
    }
  }

  /** The order was leased after the caller's last look-up, and the caller is about to
      give up: after counting or provisioning in its fifth attempt; or, in any attempt,
      because the pool is full or the new address is already a wallet's. */
  ghost predicate LeasedBehind(s: System, c: nat, mint: nat -> string)
    requires c in s.callers
  {
    var Caller(order, pc) := s.callers[c];
    && order.id in s.pool.leases
    && match pc
       case Count(n) => n == 4 && AnyEligible(s)
       case Sized(n, size, max) => n == 4 || size >= max || mint(s.nextIndex) in s.pool.wallets
       case _ => false
  }

  /** The caller's fifth attempt is about to lease a wallet to the order itself, while
      provisioning. */
  ghost predicate LeasesTooLate(s: System, c: nat, choice: string, used: set<string>, mint: nat -> string)
    requires c in s.callers
  {
    var Caller(order, pc) := s.callers[c];
    && order.id !in s.pool.leases
    && match pc
       case Holding(n) => n == 4 && Chosen(s.pool, s.now, used, choice)
       case Sized(n, size, max) =>
         && n == 4 && size < max && mint(s.nextIndex) !in s.pool.wallets
         && Chosen(Adding(s.pool, s.now, mint(s.nextIndex), s.nextIndex), s.now, used, choice)
       case _ => false
  }

  /** From any reachable state, a step of `Assign` refuses its caller while the order
      holds a lease exactly if the order was leased behind its back, or it is just now
      leasing the wallet in its fifth attempt. */
  lemma RefusedYetLeasedIff(settings: Settings, es: seq<Event>, mint: nat -> string, c: nat, choice: string, used: set<string>)
    requires var s := Run(Start(settings), es, mint); c in s.callers && !s.callers[c].pc.GaveUp?
    ensures var s := Run(Start(settings), es, mint);
            var s' := ActOf(s, c, choice, used, mint);
            (s'.callers[c].pc == GaveUp && s.callers[c].order.id in s'.pool.leases)
            <==> LeasedBehind(s, c, mint) || LeasesTooLate(s, c, choice, used, mint)
  {
    RunBounded(Start(settings), es, mint);
    RefusingStep(Run(Start(settings), es, mint), c, choice, used, mint);
  }

  lemma RefusingStep(s: System, c: nat, choice: string, used: set<string>, mint: nat -> string)
    requires c in s.callers && !s.callers[c].pc.GaveUp? && Within(s.callers[c].pc)
    ensures var s' := ActOf(s, c, choice, used, mint);
            (s'.callers[c].pc == GaveUp && s.callers[c].order.id in s'.pool.leases)
            <==> LeasedBehind(s, c, mint) || LeasesTooLate(s, c, choice, used, mint)
  {
    match s.callers[c].pc
    case First =>
    case Try(n) =>
    case Lookup(n) =>
    case Count(n) =>
    case Wait(n) =>
    case Holding(n) =>
      if Chosen(s.pool, s.now, used, choice) {
        assert Eligible(s.pool, s.now, choice);
        assert !Taken(s.pool, choice);
      }
    case Sized(n, size, max) =>
      var grown := Adding(s.pool, s.now, mint(s.nextIndex), s.nextIndex);
      if Chosen(grown, s.now, used, choice) {
        assert !Taken(grown, choice);
      }
    case Done(_) =>
  }

  /** Only `c` calls for the order, one call at a time. */
  ghost predicate Sole(s: System, c: nat, order: int) {
    && (forall d :: d in s.callers && s.callers[d].order.id == order ==> d == c)
    && (c in s.callers && s.callers[c].order.id == order && order in s.pool.leases ==> !PastLookup(s.callers[c].pc))
  }

  predicate PastLookup(pc: PC) {
    pc.Count? || pc.Wait? || pc.Holding? || pc.Sized?
  }

  lemma SoleStep(s: System, e: Event, mint: nat -> string, c: nat, order: int)
    requires Sole(s, c, order) && (e.Call? && e.order.id == order ==> e.c == c)
    ensures Sole(Step(s, e, mint), c, order)
  {
    var s' := Step(s, e, mint);
    if e.Act? && e.c in s.callers {
      assert s'.callers.Keys == s.callers.Keys;
      assert forall d :: d in s.callers ==> s'.callers[d].order == s.callers[d].order;
    }
  }

  lemma {:induction false} SoleRun(s: System, es: seq<Event>, mint: nat -> string, c: nat, order: int)
    requires Sole(s, c, order) && forall e :: e in es && e.Call? && e.order.id == order ==> e.c == c
    ensures Sole(Run(s, es, mint), c, order)
    decreases |es|
  {
    if es != [] {
      assert es[0] in es;
      SoleStep(s, es[0], mint, c, order);
      SoleRun(Step(s, es[0], mint), es[1..], mint, c, order);
    }
  }

  /** Leased behind its back means by another call for the same order: with one caller
      for the order, refusal with a lease in place is the fifth attempt's own doing. */
  lemma SoleCallerLeasesTooLate(settings: Settings, es: seq<Event>, mint: nat -> string, c: nat, choice: string, used: set<string>)
    requires var s := Run(Start(settings), es, mint);
             && c in s.callers && !s.callers[c].pc.GaveUp?
             && forall e :: e in es && e.Call? && e.order.id == s.callers[c].order.id ==> e.c == c
    ensures var s := Run(Start(settings), es, mint);
            var s' := ActOf(s, c, choice, used, mint);
            (s'.callers[c].pc == GaveUp && s.callers[c].order.id in s'.pool.leases) <==> LeasesTooLate(s, c, choice, used, mint)
  {
    var s := Run(Start(settings), es, mint);
    RefusedYetLeasedIff(settings, es, mint, c, choice, used);
    SoleRun(Start(settings), es, mint, c, s.callers[c].order.id);
  }

  // ---------- and it happens ----------

  const Lone := Order(1, "a", "x")
  const Earlier := Order(9, "z", "z")

  /** A minute after an earlier order has come and gone: its wallet, disabled, is the
      only one in the pool. */
  function Idle(max: nat, w: string): System {
    System(Pool(map[w := Wallet(0, false, 60 * Second, Some(0))],
                map[9 := Lease(9, "z", "z", w, Retired, 0, 0)], Settings(max, 60 * Second, 60 * Second)),
           60 * Second, 1, None, map[9 := Caller(Earlier, Done(w))])
  }

  function Active(s: System, w: string): System {
    s.(pool := Activating(s.pool, w, true))
  }

  lemma ReachIdle(max: nat, mint: nat -> string) returns (es: seq<Event>)
    requires max > 0
    ensures Run(Start(Settings(max, 60 * Second, 60 * Second)), es, mint) == Idle(max, mint(0))
  {
    var start := Start(Settings(max, 60 * Second, 60 * Second));
    var w := mint(0);
    var p := WithLease(Adding(start.pool, 0, w, 0), 0, Earlier, w);
    es := AssignIsARun(start, 9, Earlier, {}, mint, Ok(w), p, 1);
    var s := System(p, 0, 1, None, map[9 := Caller(Earlier, Done(w))]);
    var retired := s.(pool := Retiring(p, 0, 9, false, true));
    es := Next(start, es, s, RetireLease(9, false, true), retired, mint);
    es := Next(start, es, retired, Elapse(60 * Second), retired.(now := 60 * Second), mint);
    es := Next(start, es, retired.(now := 60 * Second), SetActive(w, false), Idle(max, w), mint);
  }

  lemma IdleIsBusy(s: System, max: nat, w: string)
    requires s.pool == Idle(max, w).pool && s.now == 60 * Second
    ensures !AnyEligible(s)
    ensures Chosen(Active(s, w).pool, s.now, {}, w) && AnyEligible(Active(s, w)) && |s.pool.wallets| == 1
  {
    var p := Active(s, w).pool;
    assert w in p.wallets && p.wallets[w] == Wallet(0, true, 60 * Second, Some(0));
    assert forall o :: o in p.leases ==> !OpenLeaseOn(p.leases, w, o);
    assert Eligible(p, s.now, w);
  }

  function Unlucky(n: nat, w: string): System {
    var s := Idle(2, w);
    s.(callers := s.callers[0 := Caller(Lone, Try(n))])
  }

  /** The wallet is free only while the caller counts: an attempt is lost. */
  lemma AttemptLost(n: nat, w: string, mint: nat -> string) returns (es: seq<Event>)
    requires n < 4
    ensures Run(Unlucky(n, w), es, mint) == Unlucky(n + 1, w)
  {
    var s := Unlucky(n, w);
    var e := Act(0, "", {});
    var active := Active(s, w);
    IdleIsBusy(s, 2, w);
    assert Run(s, [], mint) == s;
    es := Next(s, [], s, e, At(s, 0, Lookup(n)), mint);
    es := Next(s, es, At(s, 0, Lookup(n)), e, At(s, 0, Count(n)), mint);
    es := Next(s, es, At(s, 0, Count(n)), SetActive(w, true), At(active, 0, Count(n)), mint);
    assert AnyEligible(At(active, 0, Count(n)));
    es := Next(s, es, At(active, 0, Count(n)), e, At(active, 0, Try(n + 1)), mint);
    es := Next(s, es, At(active, 0, Try(n + 1)), SetActive(w, false), Unlucky(n + 1, w), mint);
  }

  lemma {:induction false} AttemptsLost(n: nat, w: string, mint: nat -> string) returns (es: seq<Event>)
    requires n <= 4
    ensures Run(Unlucky(0, w), es, mint) == Unlucky(n, w)
  {
    es := [];
    if n > 0 {
      var before := AttemptsLost(n - 1, w, mint);
      var one := AttemptLost(n - 1, w, mint);
      RunAppend(Unlucky(0, w), before, one, mint);
      es := before + one;
    }
  }

  /** A run from an empty pool in which an order's only caller is refused although the
      order holds the wallet its fifth attempt has just provisioned. */
  lemma RefusedYetLeased(mint: nat -> string) returns (es: seq<Event>)
    requires mint(1) != mint(0)
    ensures var s := Run(Start(Settings(2, 60 * Second, 60 * Second)), es, mint);
            && 0 in s.callers && s.callers[0] == Caller(Lone, GaveUp)
            && Lone.id in s.pool.leases && s.pool.leases[Lone.id].address == mint(1)
    ensures forall d :: d in Run(Start(Settings(2, 60 * Second, 60 * Second)), es, mint).callers && d != 0 ==>
              Run(Start(Settings(2, 60 * Second, 60 * Second)), es, mint).callers[d].order.id != Lone.id
  {
    var start := Start(Settings(2, 60 * Second, 60 * Second));
    var w := mint(0);
    es := ReachUnlucky(mint);
    var lost := AttemptsLost(4, w, mint);
    RunAppend(start, es, lost, mint);
    es := es + lost;
    var more := FifthAttempt(w, mint);
    RunAppend(start, es, more, mint);
    es := es + more;
  }

  lemma FifthAttempt(w: string, mint: nat -> string) returns (es: seq<Event>)
    requires mint(1) != w
    ensures var s := Unlucky(4, w);
            Run(s, es, mint) == At(System(WithLease(Adding(s.pool, s.now, mint(1), 1), s.now, Lone, mint(1)), s.now, 2, None, s.callers), 0, GaveUp)
  {
    var s := Unlucky(4, w);
    IdleIsBusy(s, 2, w);
    es := LosesTry(s, 0, 4, "", {}, mint);
    var sized := At(s, 0, Sized(4, 1, 2)).(holder := Some(0));
    UnluckyIsSound(w);
    ProvisioningLeases(sized, 0, {}, mint);
    es := Next(s, es, sized, Act(0, mint(1), {}), ActOf(sized, 0, mint(1), {}, mint), mint);
  }

  lemma UnluckyIsSound(w: string)
    ensures PoolInv(Unlucky(4, w).pool, 1)
  {
  }

  lemma ReachUnlucky(mint: nat -> string) returns (es: seq<Event>)
    ensures Run(Start(Settings(2, 60 * Second, 60 * Second)), es, mint) == Unlucky(0, mint(0))
  {
    var start, s := Start(Settings(2, 60 * Second, 60 * Second)), Idle(2, mint(0));
    es := ReachIdle(2, mint);
    var called := s.(callers := s.callers[0 := Caller(Lone, First)]);
    es := Next(start, es, s, Call(0, Lone), called, mint);
    es := Next(start, es, called, Act(0, "", {}), Unlucky(0, mint(0)), mint);
  }

  /** Two callers share an order, in a pool of one wallet: the second counts nothing free
      and waits to provision; the first leases the wallet and is answered; the second,
      in its first attempt, is refused because the pool is full. */
  lemma RefusedWhileAnotherIsAnswered(mint: nat -> string) returns (es: seq<Event>)
    ensures var s := Run(Start(Settings(1, 60 * Second, 60 * Second)), es, mint);
            && 0 in s.callers && s.callers[0] == Caller(Lone, Done(mint(0)))
            && 1 in s.callers && s.callers[1] == Caller(Lone, GaveUp)
            && Lone.id in s.pool.leases && s.pool.leases[Lone.id].address == mint(0)
  {
    var start, w := Start(Settings(1, 60 * Second, 60 * Second)), mint(0);
    var waiting: System;
    es, waiting := ReachWaiting(mint);
    var active := Active(waiting, w);
    IdleIsBusy(waiting, 1, w);
    es := Next(start, es, waiting, SetActive(w, true), active, mint);
    var called := active.(callers := active.callers[0 := Caller(Lone, First)]);
    es := Next(start, es, active, Call(0, Lone), called, mint);
    es := Next(start, es, called, Act(0, w, {}), At(called, 0, Try(0)), mint);
    var leased := At(called.(pool := WithLease(called.pool, 60 * Second, Lone, w)), 0, Done(w));
    es := Next(start, es, At(called, 0, Try(0)), Act(0, w, {}), leased, mint);
    var more := FullAfterWaiting(leased, 1, mint);
    RunAppend(start, es, more, mint);
    es := es + more;
  }

  lemma ReachWaiting(mint: nat -> string) returns (es: seq<Event>, s: System)
    ensures s == Idle(1, mint(0)).(callers := Idle(1, mint(0)).callers[1 := Caller(Lone, Wait(0))])
    ensures Run(Start(Settings(1, 60 * Second, 60 * Second)), es, mint) == s
  {
    var start, idle := Start(Settings(1, 60 * Second, 60 * Second)), Idle(1, mint(0));
    IdleIsBusy(idle, 1, mint(0));
    es := ReachIdle(1, mint);
    s := idle.(callers := idle.callers[1 := Caller(Lone, First)]);
    var e := Act(1, "", {});
    es := Next(start, es, idle, Call(1, Lone), s, mint);
    es := Next(start, es, s, e, At(s, 1, Try(0)), mint);
    es := Next(start, es, At(s, 1, Try(0)), e, At(s, 1, Lookup(0)), mint);
    es := Next(start, es, At(s, 1, Lookup(0)), e, At(s, 1, Count(0)), mint);
    es := Next(start, es, At(s, 1, Count(0)), e, At(s, 1, Wait(0)), mint);
    s := At(s, 1, Wait(0));
  }

  /** A caller that waited for the lock meets its order leased, and the pool full. */
  lemma FullAfterWaiting(s: System, c: nat, mint: nat -> string) returns (es: seq<Event>)
    requires c in s.callers && s.callers[c].pc == Wait(0) && s.holder.None?
    requires s.callers[c].order.id in s.pool.leases && |s.pool.wallets| >= s.pool.settings.maxWallets
    ensures Run(s, es, mint) == At(s, c, GaveUp)
  {
    var e := Act(c, "", {});
    var holding := At(s, c, Holding(0)).(holder := Some(c));
    var sized := At(s, c, Sized(0, |s.pool.wallets|, s.pool.settings.maxWallets)).(holder := Some(c));
    assert Run(s, [], mint) == s;
    es := Next(s, [], s, e, holding, mint);
    es := Next(s, es, holding, e, sized, mint);
    es := Next(s, es, sized, e, At(s, c, GaveUp), mint);
  }

  lemma StepKeeps(s: System, e: Event, mint: nat -> string, limit: nat)
    requires Inv(s) && WithinLimit(s, limit) && (e.PutSettings? ==> e.s.maxWallets <= limit)
    ensures Inv(Step(s, e, mint)) && WithinLimit(Step(s, e, mint), limit) && LeasesKept(s.pool, Step(s, e, mint).pool)
  {
    var s' := Step(s, e, mint);
    if e.Act? && e.c in s.callers {
      ActKeeps(s, e.c, e.choice, e.used, mint);
      assert s.callers[e.c].pc.Sized? ==> s.callers[e.c].pc.size == |s.pool.wallets|;
      assert forall c :: c in s'.callers && c != e.c ==> s'.callers[c] == s.callers[c];
    } else if !e.Act? {
      EditKeeps(s, e, mint);
    }
  }

  // ---------- spacing, and so attribution ----------

  /** Every lease is in the past; a wallet is not available before its last lease has
      rested for more than `gap`. */
  ghost predicate Rested(p: Pool, now: int, gap: int) {
    && Spaced(p.leases, gap)
    && (forall o :: o in p.leases ==> p.leases[o].assignedAt <= now && (p.leases[o].status == Retired ==> RestedLease(p, p.leases[o], now, gap)))
    && p.settings.cooldownAfterUse > gap && p.settings.cooldownAfterExpiry > gap
  }

  ghost predicate RestedLease(p: Pool, l: Lease, now: int, gap: int) {
    && l.assignedAt <= l.retiredAt <= now
    && l.address in p.wallets && l.retiredAt + gap < p.wallets[l.address].availableAfter
  }

  ghost predicate KeepsCooldowns(e: Event, gap: int) {
    && (e.PutSettings? ==> e.s.cooldownAfterUse > gap && e.s.cooldownAfterExpiry > gap)
    && (e.RetireLease? ==> e.cooldownStarted)
  }

  lemma LeasingRests(p: Pool, now: int, order: Order, addr: string, used: set<string>, gap: nat)
    requires LeasesOnWallets(p) && Rested(p, now, gap)
    requires order.id !in p.leases && Chosen(p, now, used, addr)
    ensures Rested(WithLease(p, now, order, addr), now, gap)
  {
    var leases' := WithLease(p, now, order, addr).leases;
    forall o | o in p.leases && p.leases[o].address == addr
      ensures Precedes(p.leases[o], leases'[order.id], gap)
    {
      assert !OpenLeaseOn(p.leases, addr, o);
    }
  }

  lemma AddingRests(p: Pool, now: int, minted: string, index: nat, gap: nat)
    requires LeasesOnWallets(p) && Rested(p, now, gap) && minted !in p.wallets
    ensures Rested(Adding(p, now, minted, index), now, gap)
  {
  }

  lemma ActRests(s: System, c: nat, choice: string, used: set<string>, mint: nat -> string, gap: nat)
    requires Inv(s) && Rested(s.pool, s.now, gap) && c in s.callers
    ensures Rested(ActOf(s, c, choice, used, mint).pool, s.now, gap)
  {
    var s' := ActOf(s, c, choice, used, mint);
    var order := s.callers[c].order;
    ActIsPoolStep(s, c, choice, used, mint);
    if GrowStep(s, s', c, choice, used) {
      var minted :| minted !in s.pool.wallets && GrownTo(s.pool, s.now, s.nextIndex, minted, order, choice, used, s'.pool);
      AddingKeeps(s.pool, s.nextIndex, s.now, minted);
      AddingRests(s.pool, s.now, minted, s.nextIndex, gap);
      var grown := Adding(s.pool, s.now, minted, s.nextIndex);
      if s'.pool != grown {
        LeasingRests(grown, s.now, order, choice, used, gap);
      }
    } else if s'.pool != s.pool {
      LeasingRests(s.pool, s.now, order, choice, used, gap);
    }
  }

  lemma EditRests(s: System, e: Event, mint: nat -> string, gap: nat)
    requires Inv(s) && Rested(s.pool, s.now, gap) && !e.Act? && KeepsCooldowns(e, gap)
    ensures Rested(Step(s, e, mint).pool, Step(s, e, mint).now, gap)
  {
    if e.RetireLease? {
      RetiringRests(s.pool, s.now, e.o, e.expired, gap);
    }
  }

  lemma RetiringRests(p: Pool, now: int, o: int, expired: bool, gap: nat)
    requires OneOpenLeaseEach(p) && LeasesOnWallets(p) && Rested(p, now, gap)
    ensures Rested(Retiring(p, now, o, expired, true), now, gap)
  {
    var p' := Retiring(p, now, o, expired, true);
    if p' != p {
      forall q | q in p'.leases && q != o && p'.leases[q].address == p'.leases[o].address
        ensures Precedes(p'.leases[q], p'.leases[o], gap)
        ensures RestedLease(p', p'.leases[q], now, gap)
      {
        assert p.leases[q].status == Retired && RestedLease(p, p.leases[q], now, gap);
      }
      forall q | q in p'.leases && p'.leases[q].address != p'.leases[o].address && p'.leases[q].status == Retired
        ensures RestedLease(p', p'.leases[q], now, gap)
      {
        assert RestedLease(p, p.leases[q], now, gap);
      }
    }
  }

  lemma {:induction false} RunRests(s: System, es: seq<Event>, mint: nat -> string, gap: nat)
    requires Inv(s) && Rested(s.pool, s.now, gap)
    requires forall e :: e in es ==> KeepsCooldowns(e, gap)
    ensures Inv(Run(s, es, mint)) && Rested(Run(s, es, mint).pool, Run(s, es, mint).now, gap)
    decreases |es|
  {
    if es != [] {
      var e := es[0];
      assert e in es;
      StepRests(s, e, mint, gap);
      RunRests(Step(s, e, mint), es[1..], mint, gap);
    }
  }

  lemma StepRests(s: System, e: Event, mint: nat -> string, gap: nat)
    requires Inv(s) && Rested(s.pool, s.now, gap) && KeepsCooldowns(e, gap)
    ensures Inv(Step(s, e, mint)) && Rested(Step(s, e, mint).pool, Step(s, e, mint).now, gap)
  {
    if e.Act? && e.c in s.callers {
      ActKeeps(s, e.c, e.choice, e.used, mint);
      ActRests(s, e.c, e.choice, e.used, mint, gap);
      assert Step(s, e, mint).now == s.now;
    } else if !e.Act? {
      EditKeeps(s, e, mint);
      EditRests(s, e, mint, gap);
    }
  }

  /** Over every run in which cooldowns stay above 29 s and no retirement is cut off
      before its cooldown starts, a payment made while a lease was open is credited to
      that lease's order, and one made after it, until 30 s before the next lease of its
      wallet, to nobody. */
  lemma PaymentsReachTheirOrder(settings: Settings, es: seq<Event>, mint: nat -> string, o: int, t: int, a: Attribution)
    requires settings.cooldownAfterUse > 29 * Second && settings.cooldownAfterExpiry > 29 * Second
    requires forall e :: e in es ==> KeepsCooldowns(e, 29 * Second)
    requires var leases := Run(Start(settings), es, mint).pool.leases;
             o in leases && WholeSecond(t) && IsAttribution(leases, leases[o].address, t, a)
    ensures var leases := Run(Start(settings), es, mint).pool.leases;
            && (OpenAt(leases[o], t) ==> a == Credited(leases[o]))
            && (AfterLease(leases, o, t) ==> a == Late(leases[o]))
  {
    RunRests(Start(settings), es, mint, 29 * Second);
    AttributionIsExact(Run(Start(settings), es, mint).pool.leases, o, t, a);
  }

  /** A wallet rests: every lease on it but those in `known`, which are over, began no
      sooner than `until`, and none can begin before. */
  ghost predicate Resting(s: System, w: string, known: set<int>, until: int) {
    && w in s.pool.wallets && (s.pool.wallets[w].availableAfter >= until || s.now >= until)
    && (forall o :: o in known ==> o in s.pool.leases && s.pool.leases[o].status == Retired)
    && (forall o :: o in s.pool.leases && s.pool.leases[o].address == w && o !in known ==> s.pool.leases[o].assignedAt >= until && s.now >= until)
  }

  lemma LeasingWaits(s: System, p': Pool, order: Order, choice: string, used: set<string>, w: string, known: set<int>, until: int)
    requires Resting(s, w, known, until) && order.id !in s.pool.leases && Chosen(s.pool, s.now, used, choice)
    requires p' == WithLease(s.pool, s.now, order, choice)
    ensures Resting(s.(pool := p'), w, known, until)
  {
  }

  lemma ActLetsRest(s: System, c: nat, choice: string, used: set<string>, mint: nat -> string, w: string, known: set<int>, until: int)
    requires Resting(s, w, known, until) && c in s.callers
    ensures Resting(ActOf(s, c, choice, used, mint), w, known, until)
  {
    var s' := ActOf(s, c, choice, used, mint);
    var order := s.callers[c].order;
    ActIsPoolStep(s, c, choice, used, mint);
    if GrowStep(s, s', c, choice, used) {
      var minted :| minted !in s.pool.wallets && GrownTo(s.pool, s.now, s.nextIndex, minted, order, choice, used, s'.pool);
      var grown := s.(pool := Adding(s.pool, s.now, minted, s.nextIndex));
      assert Resting(grown, w, known, until);
      if s'.pool != grown.pool {
        LeasingWaits(grown, s'.pool, order, choice, used, w, known, until);
      }
    } else if s'.pool != s.pool {
      LeasingWaits(s, s'.pool, order, choice, used, w, known, until);
    }
  }

  lemma StepLetsRest(s: System, e: Event, mint: nat -> string, w: string, known: set<int>, until: int)
    requires Inv(s) && Resting(s, w, known, until)
    ensures Resting(Step(s, e, mint), w, known, until)
  {
    if e.Act? && e.c in s.callers {
      ActLetsRest(s, e.c, e.choice, e.used, mint, w, known, until);
    }
  }

  lemma {:induction false} RunLetsRest(s: System, es: seq<Event>, mint: nat -> string, w: string, known: set<int>, until: int)
    requires Inv(s) && Resting(s, w, known, until)
    ensures Resting(Run(s, es, mint), w, known, until)
    decreases |es|
  {
    if es != [] {
      StepLetsRest(s, es[0], mint, w, known, until);
      if es[0].Act? && es[0].c in s.callers {
        ActKeeps(s, es[0].c, es[0].choice, es[0].used, mint);
      } else if !es[0].Act? {
        EditKeeps(s, es[0], mint);
      }
      RunLetsRest(Step(s, es[0], mint), es[1..], mint, w, known, until);
    }
  }

  /** Over every run: once a lease is retired, its wallet is not leased again before the
      cooldown then set for the reason it was retired has passed. */
  lemma NextLeaseWaits(s: System, o: int, expired: bool, es: seq<Event>, mint: nat -> string, next: int)
    requires Inv(s) && o in s.pool.leases && s.pool.leases[o].status != Retired && next !in s.pool.leases
    requires var s' := Run(Step(s, RetireLease(o, expired, true), mint), es, mint);
             next in s'.pool.leases && s'.pool.leases[next].address == s.pool.leases[o].address
    ensures var s' := Run(Step(s, RetireLease(o, expired, true), mint), es, mint);
            s'.pool.leases[next].assignedAt >= s.now + if expired then s.pool.settings.cooldownAfterExpiry else s.pool.settings.cooldownAfterUse
  {
    var w := s.pool.leases[o].address;
    var s1 := Step(s, RetireLease(o, expired, true), mint);
    var until := s.now + if expired then s.pool.settings.cooldownAfterExpiry else s.pool.settings.cooldownAfterUse;
    var known := set q | q in s.pool.leases && s.pool.leases[q].address == w;
    EditKeeps(s, RetireLease(o, expired, true), mint);
    assert Resting(s1, w, known, until);
    RunLetsRest(s1, es, mint, w, known, until);
    RunKeepsLeases(s1, es, mint);
  }

  lemma {:induction false} RunKeepsLeases(s: System, es: seq<Event>, mint: nat -> string)
    requires Inv(s)
    ensures LeasesKept(s.pool, Run(s, es, mint).pool)
    decreases |es|
  {
    if es != [] {
      if es[0].Act? && es[0].c in s.callers {
        ActKeeps(s, es[0].c, es[0].choice, es[0].used, mint);
      } else if !es[0].Act? {
        EditKeeps(s, es[0], mint);
      }
      RunKeepsLeases(Step(s, es[0], mint), es[1..], mint);
    }
  }

  /** A retirement cut off between its two statements breaks this: in a run that is
      otherwise undisturbed, the wallet is leased again at once, however long the
      cooldowns, and the first customer's payment is credited to the second. */
  lemma CutOffRetirementMisattributes(settings: Settings, first: Order, second: Order, mint: nat -> string) returns (es: seq<Event>)
    requires first.id != second.id && settings.maxWallets > 0
    ensures forall e :: e in es && e.RetireLease? ==> e == RetireLease(first.id, false, false)
    ensures var leases := Run(Start(settings), es, mint).pool.leases;
            && first.id in leases && second.id in leases && WholeSecond(99 * Second)
            && OpenAt(leases[first.id], 99 * Second)
            && IsAttribution(leases, leases[first.id].address, 99 * Second, Credited(leases[second.id]))
  {
    var start, w := Start(settings), mint(0);
    var retired: System;
    es, retired := ReachCutOff(settings, first, mint);
    AssignIsSafe(start, es, mint, settings.maxWallets);
    LeasedAgain(retired.pool, first, second, w);
    var more := SecondLease(retired, second, w, mint);
    RunAppend(start, es, more, mint);
    es := es + more;
  }

  lemma SecondLease(s: System, order: Order, w: string, mint: nat -> string) returns (es: seq<Event>)
    requires Inv(s) && s.holder.None? && 1 !in s.callers && order.id !in s.pool.leases && Chosen(s.pool, s.now, {}, w)
    ensures Run(s, es, mint).pool == WithLease(s.pool, s.now, order, w)
    ensures Alone(1, es)
  {
    es := AssignIsARun(s, 1, order, {}, mint, Ok(w), WithLease(s.pool, s.now, order, w), s.nextIndex);
  }

  lemma LeasedAgain(p: Pool, first: Order, second: Order, w: string)
    requires first.id != second.id && p.wallets == map[w := Wallet(0, true, 0, Some(0))]
    requires p.leases == map[first.id := Lease(first.id, first.externalId, first.customerId, w, Retired, 0, 100 * Second)]
    ensures Chosen(p, 100 * Second, {}, w)
    ensures var leases := WithLease(p, 100 * Second, second, w).leases;
            OpenAt(leases[first.id], 99 * Second) && IsAttribution(leases, w, 99 * Second, Credited(leases[second.id]))
  {
    var leases := WithLease(p, 100 * Second, second, w).leases;
    assert IsLeaseAt(leases, w, 99 * Second, second.id);
  }

  /** The wallet leased, and its lease retired without a cooldown 100 seconds later. */
  lemma ReachCutOff(settings: Settings, first: Order, mint: nat -> string) returns (es: seq<Event>, s: System)
    requires settings.maxWallets > 0
    ensures forall e :: e in es && e.RetireLease? ==> e == RetireLease(first.id, false, false)
    ensures forall e :: e in es ==> !e.PutSettings?
    ensures Run(Start(settings), es, mint) == s
    ensures s == System(Pool(map[mint(0) := Wallet(0, true, 0, Some(0))],
                             map[first.id := Lease(first.id, first.externalId, first.customerId, mint(0), Retired, 0, 100 * Second)], settings),
                        100 * Second, 1, None, map[0 := Caller(first, Done(mint(0)))])
  {
    var w, start := mint(0), Start(settings);
    var p := WithLease(Adding(start.pool, 0, w, 0), 0, first, w);
    es := AssignIsARun(start, 0, first, {}, mint, Ok(w), p, 1);
    s := System(p, 0, 1, None, map[0 := Caller(first, Done(w))]);
    var later := s.(now := 100 * Second);
    es := Next(start, es, s, Elapse(100 * Second), later, mint);
    s := later.(pool := Retiring(p, 100 * Second, first.id, false, false));
    es := Next(start, es, later, RetireLease(first.id, false, false), s, mint);
  }
}
