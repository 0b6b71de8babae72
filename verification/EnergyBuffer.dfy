/** The energy buffer: any number of concurrent `Reserve` transactions claiming one row
    at a time under FOR UPDATE SKIP LOCKED, with expiry corrections in between
    (energybroker/internal/buffer/reserve.go, queries.go, verify.go). */
module EnergyBuffer {
  import opened Sets
  import opened Wrappers

  // ---------- data ----------

  datatype Status = Available | Reserved | Spent | Expired

  /** An energy_buffer row; the table only holds positive `units`. */
  datatype Row = Row(slot: string, units: nat, expires: int, status: Status, allocation: Option<nat>)

  datatype Allocation = Allocation(orderId: int, units: nat)

  datatype Request = Request(orderId: int, slot: string, units: int, now: int)

  datatype Answer = Granted(allocation: nat, rows: seq<nat>) | Exhausted | Refused | Error

  /** Claiming is inside the transaction; `total` is what the rows claimed add up to. */
  datatype PC = Checking | Claiming(claimed: seq<nat>, total: nat) | Finished(answer: Answer)

  datatype Caller = Caller(req: Request, pc: PC)

  /** Row ids are 0 up to `nextRow`. */
  datatype System = System(rows: map<nat, Row>, allocations: map<nat, Allocation>, nextRow: nat, nextAllocation: nat,
                           locks: map<nat, nat>, callers: map<nat, Caller>)

  /** A statement may fail; a commit may fail, or succeed without the caller hearing. */
  datatype Reply = Fine | Fails | Unheard

  datatype Event =
    | Start(c: nat, req: Request)
    | Act(c: nat, choice: nat, reply: Reply)
    | Die(c: nat)
    | Expire(id: nat)
    | Insert(slot: string, units: nat, expires: int)

  // ---------- steps ----------

  predicate Eligible(rows: map<nat, Row>, req: Request, id: nat) {
    id in rows && rows[id].status.Available? && rows[id].slot == req.slot && rows[id].expires > req.now
  }

  predicate Free(s: System, req: Request, id: nat) {
    Eligible(s.rows, req, id) && id !in s.locks
  }

  /** What the claiming SELECT may return: an unlocked eligible row, none expiring
      earlier. */
  predicate First(s: System, req: Request, id: nat) {
    Free(s, req, id) && forall j :: j in s.rows && Free(s, req, j) ==> s.rows[id].expires <= s.rows[j].expires
  }

  predicate AnyFree(s: System, req: Request) {
    exists id :: id in s.rows && Free(s, req, id)
  }

  function At(s: System, c: nat, pc: PC): System
    requires c in s.callers
  {
    s.(callers := s.callers[c := s.callers[c].(pc := pc)])
  }

  function Without(locks: map<nat, nat>, ids: seq<nat>): map<nat, nat> {
    map id | id in locks && id !in ids :: locks[id]
  }

  /** The transaction ends, and with it the claims. */
  function Leave(s: System, c: nat, claimed: seq<nat>, answer: Answer): System
    requires c in s.callers
  {
    At(s.(locks := Without(s.locks, claimed)), c, Finished(answer))
  }

  /** One more row claimed: locked, and added up. */
  function Claimed(s: System, c: nat, id: nat): System
    requires c in s.callers && s.callers[c].pc.Claiming? && id in s.rows
  {
    var pc := s.callers[c].pc;
    At(s.(locks := s.locks[id := c]), c, Claiming(pc.claimed + [id], pc.total + s.rows[id].units))
  }

  /** The UPDATE that marks the claimed rows reserved. */
  function Reserving(rows: map<nat, Row>, claimed: seq<nat>, a: nat): map<nat, Row> {
    if claimed == [] then rows
    else
      var id := claimed[|claimed| - 1];
      var before := Reserving(rows, claimed[..|claimed| - 1], a);
      if id in before then before[id := before[id].(status := Reserved, allocation := Some(a))] else before
  }

  function Granting(s: System, req: Request, claimed: seq<nat>, total: nat): System {
    s.(rows := Reserving(s.rows, claimed, s.nextAllocation),
       allocations := s.allocations[s.nextAllocation := Allocation(req.orderId, total)],
       nextAllocation := s.nextAllocation + 1)
  }

  function ActOf(s: System, c: nat, choice: nat, reply: Reply): System
    requires c in s.callers
  {
    var Caller(req, pc) := s.callers[c];
    match pc
    case Checking => At(s, c, if req.units <= 0 || req.slot == "" then Finished(Refused) else Claiming([], 0))
    case Claiming(claimed, total) =>
      if reply.Fails? then Leave(s, c, claimed, Error)
      else if total >= req.units then
        Leave(Granting(s, req, claimed, total), c, claimed, if reply.Fine? then Granted(s.nextAllocation, claimed) else Error)
      else if !AnyFree(s, req) then Leave(s, c, claimed, Exhausted)
      else if First(s, req, choice) then Claimed(s, c, choice)
      else s
    case Finished(_) => s
  }

  function Step(s: System, e: Event): System {
    match e
    case Start(c, req) => if c in s.callers then s else s.(callers := s.callers[c := Caller(req, Checking)])
    case Act(c, choice, reply) => if c in s.callers then ActOf(s, c, choice, reply) else s
    case Die(c) =>
      if c !in s.callers then s
      else if s.callers[c].pc.Claiming? then
        s.(callers := s.callers - {c}, locks := Without(s.locks, s.callers[c].pc.claimed))
      else s.(callers := s.callers - {c})
    case Expire(id) =>
      if id !in s.rows || id in s.locks then s else s.(rows := s.rows[id := s.rows[id].(status := Expired)])
    case Insert(slot, units, expires) =>
      if units == 0 then s
      else s.(rows := s.rows[s.nextRow := Row(slot, units, expires, Available, None)], nextRow := s.nextRow + 1)
  }

  function Run(s: System, es: seq<Event>): System
    decreases |es|
  {
    if es == [] then s else Run(Step(s, es[0]), es[1..])
  }

  const Empty := System(map[], map[], 0, 0, map[], map[])

  // ---------- sums ----------

  /** Units of the first `n` rows that went to allocation `a`. */
  function AllocatedTo(rows: map<nat, Row>, a: nat, n: nat): nat {
    if n == 0 then 0
    else AllocatedTo(rows, a, n - 1) + (if n - 1 in rows && rows[n - 1].allocation == Some(a) then rows[n - 1].units else 0)
  }

  function TotalUnits(rows: map<nat, Row>, n: nat): nat {
    if n == 0 then 0 else TotalUnits(rows, n - 1) + (if n - 1 in rows then rows[n - 1].units else 0)
  }

  function Units(rows: map<nat, Row>, ids: seq<nat>): nat {
    if ids == [] then 0
    else Units(rows, ids[..|ids| - 1]) + (if ids[|ids| - 1] in rows then rows[ids[|ids| - 1]].units else 0)
  }

  lemma {:induction false} AllocatedSame(rows: map<nat, Row>, rows': map<nat, Row>, a: nat, n: nat)
    requires forall id :: id < n ==> (id in rows <==> id in rows')
    requires forall id :: id < n && id in rows ==>
               rows'[id].units == rows[id].units && (rows'[id].allocation == Some(a) <==> rows[id].allocation == Some(a))
    ensures AllocatedTo(rows', a, n) == AllocatedTo(rows, a, n)
  {
    if n > 0 {
      AllocatedSame(rows, rows', a, n - 1);
    }
  }

  lemma {:induction false} AllocatedOneMore(rows: map<nat, Row>, a: nat, id: nat, n: nat)
    requires id in rows && rows[id].allocation != Some(a)
    ensures AllocatedTo(rows[id := rows[id].(status := Reserved, allocation := Some(a))], a, n)
            == AllocatedTo(rows, a, n) + (if id < n then rows[id].units else 0)
  {
    if n > 0 {
      AllocatedOneMore(rows, a, id, n - 1);
    }
  }

  lemma {:induction false} AllocatedNone(rows: map<nat, Row>, a: nat, n: nat)
    requires forall id :: id in rows ==> rows[id].allocation != Some(a)
    ensures AllocatedTo(rows, a, n) == 0
  {
    if n > 0 {
      AllocatedNone(rows, a, n - 1);
    }
  }

  lemma {:induction false} TotalSame(rows: map<nat, Row>, rows': map<nat, Row>, n: nat)
    requires forall id :: id < n ==> (id in rows <==> id in rows')
    requires forall id :: id < n && id in rows ==> rows'[id].units == rows[id].units
    ensures TotalUnits(rows', n) == TotalUnits(rows, n)
  {
    if n > 0 {
      TotalSame(rows, rows', n - 1);
    }
  }

  lemma {:induction false} UnitsSame(rows: map<nat, Row>, rows': map<nat, Row>, ids: seq<nat>)
    requires forall id :: id in ids ==> id in rows && id in rows' && rows'[id].units == rows[id].units
    ensures Units(rows', ids) == Units(rows, ids)
  {
    if ids != [] {
      UnitsSame(rows, rows', ids[..|ids| - 1]);
    }
  }

  // ---------- what a reservation does to the rows ----------

  /** Exactly the claimed rows become reserved, for `a`, whose units add up. */
  lemma {:induction false} ReservingDoes(rows: map<nat, Row>, claimed: seq<nat>, a: nat, n: nat)
    requires NoRepeats(claimed) && forall id :: id in claimed ==> id in rows && id < n
    requires forall id :: id in rows ==> rows[id].allocation != Some(a)
    ensures var rows' := Reserving(rows, claimed, a);
            && rows'.Keys == rows.Keys
            && (forall id :: id in rows && id !in claimed ==> rows'[id] == rows[id])
            && (forall id :: id in claimed ==> rows'[id] == rows[id].(status := Reserved, allocation := Some(a)))
            && AllocatedTo(rows', a, n) == Units(rows, claimed)
  {
    if claimed == [] {
      AllocatedNone(rows, a, n);
    } else {
      var k := |claimed| - 1;
      var before, id := Reserving(rows, claimed[..k], a), claimed[k];
      assert forall j :: j in claimed[..k] ==> j in claimed;
      ReservingDoes(rows, claimed[..k], a, n);
      assert id !in claimed[..k];
      assert forall j :: j in claimed ==> j == id || j in claimed[..k];
      AllocatedOneMore(before, a, id, n);
    }
  }

  // ---------- invariants ----------

  ghost predicate RowSound(s: System, r: Row) {
    && r.units > 0
    && (r.status.Available? ==> r.allocation.None?)
    && (r.status.Reserved? ==> r.allocation.Some?)
    && (r.allocation.Some? ==> r.allocation.value in s.allocations)
  }

  ghost predicate RowsSound(s: System) {
    && (forall id :: id in s.rows <==> id < s.nextRow)
    && (forall id :: id in s.rows ==> RowSound(s, s.rows[id]))
  }

  /** Each allocation's units are those of the rows that went to it. */
  ghost predicate AllocationsSound(s: System) {
    forall a :: a in s.allocations ==> a < s.nextAllocation && AllocatedTo(s.rows, a, s.nextRow) == s.allocations[a].units
  }

  ghost predicate ClaimSound(s: System, c: nat)
    requires c in s.callers
  {
    var Caller(req, pc) := s.callers[c];
    pc.Claiming? ==>
      && req.units > 0 && NoRepeats(pc.claimed) && pc.total == Units(s.rows, pc.claimed)
      && forall id :: id in pc.claimed ==> Eligible(s.rows, req, id) && id in s.locks && s.locks[id] == c
  }

  ghost predicate LocksSound(s: System) {
    forall id :: id in s.locks ==>
      s.locks[id] in s.callers && s.callers[s.locks[id]].pc.Claiming? && id in s.callers[s.locks[id]].pc.claimed
  }

  /** A granted request got at least what it asked for, in rows under its own slot that
      had not expired when it was made. */
  ghost predicate AnswerSound(s: System, caller: Caller) {
    caller.pc.Finished? && caller.pc.answer.Granted? ==>
      var Granted(a, ids) := caller.pc.answer;
      && a in s.allocations && s.allocations[a].orderId == caller.req.orderId && s.allocations[a].units >= caller.req.units
      && forall id :: id in ids ==> id in s.rows && s.rows[id].allocation == Some(a) && s.rows[id].slot == caller.req.slot
                                      && s.rows[id].expires > caller.req.now
  }

  ghost predicate Inv(s: System) {
    && RowsSound(s) && AllocationsSound(s) && LocksSound(s)
    && (forall c :: c in s.callers ==> ClaimSound(s, c) && AnswerSound(s, s.callers[c]))
  }

  /** Rows and allocations stay what they are, and a row given to an allocation is
      never given to another. */
  ghost predicate Kept(s: System, s': System) {
    && (forall id :: id in s.rows ==>
          id in s'.rows && s'.rows[id].units == s.rows[id].units && s'.rows[id].slot == s.rows[id].slot
          && s'.rows[id].expires == s.rows[id].expires
          && (s.rows[id].allocation.Some? ==> s'.rows[id].allocation == s.rows[id].allocation))
    && (forall a :: a in s.allocations ==> a in s'.allocations && s'.allocations[a] == s.allocations[a])
  }

  lemma AnswerStays(s: System, s': System, caller: Caller)
    requires Kept(s, s') && AnswerSound(s, caller)
    ensures AnswerSound(s', caller)
  {
  }

  // ---------- every step keeps them ----------

  /** Only callers and locks change: no row and no allocation does. */
  ghost predicate Untouched(s: System, s': System) {
    s'.rows == s.rows && s'.allocations == s.allocations && s'.nextRow == s.nextRow && s'.nextAllocation == s.nextAllocation
  }

  /** A transaction ends without effect, or a caller is forgotten. */
  lemma ReleaseKeeps(s: System, s': System, c: nat)
    requires Inv(s) && Untouched(s, s') && c in s.callers
    requires s'.locks == if s.callers[c].pc.Claiming? then Without(s.locks, s.callers[c].pc.claimed) else s.locks
    requires s'.callers.Keys - {c} == s.callers.Keys - {c} && forall d :: d in s'.callers && d in s.callers && d != c ==> s'.callers[d] == s.callers[d]
    requires c in s'.callers ==> !s'.callers[c].pc.Claiming? && AnswerSound(s, s'.callers[c])
    ensures Inv(s') && Kept(s, s')
  {
    forall d | d in s'.callers
      ensures ClaimSound(s', d) && AnswerSound(s', s'.callers[d])
    {
      if d != c {
        assert d in s'.callers.Keys - {c};
        assert ClaimSound(s, d) && ClaimSound(s, c);
        AnswerStays(s, s', s.callers[d]);
      }
    }
    forall id | id in s'.locks
      ensures s'.locks[id] in s'.callers && s'.callers[s'.locks[id]].pc.Claiming? && id in s'.callers[s'.locks[id]].pc.claimed
    {
      assert id in s.locks && s.locks[id] in s.callers;
      assert s.locks[id] != c;
      assert s.locks[id] in s.callers.Keys - {c};
    }
  }

  lemma ClaimKeeps(s: System, c: nat, id: nat)
    requires Inv(s) && c in s.callers && s.callers[c].pc.Claiming? && Free(s, s.callers[c].req, id)
    ensures Inv(Claimed(s, c, id)) && Kept(s, Claimed(s, c, id))
  {
    var s' := Claimed(s, c, id);
    OwnClaim(s, s', c, id);
    OtherClaims(s, s', c, id);
    TablesStay(s, s');
  }

  lemma TablesStay(s: System, s': System)
    requires Untouched(s, s') && RowsSound(s) && AllocationsSound(s)
    ensures RowsSound(s') && AllocationsSound(s') && Kept(s, s')
  {
  }

  lemma OtherClaims(s: System, s': System, c: nat, id: nat)
    requires Untouched(s, s') && id !in s.locks && s'.locks == s.locks[id := c]
    requires forall d :: d in s.callers ==> ClaimSound(s, d) && AnswerSound(s, s.callers[d])
    requires s'.callers.Keys == s.callers.Keys && forall d :: d in s.callers && d != c ==> s'.callers[d] == s.callers[d]
    ensures forall d :: d in s'.callers && d != c ==> ClaimSound(s', d) && AnswerSound(s', s'.callers[d])
  {
    forall d | d in s'.callers && d != c
      ensures ClaimSound(s', d) && AnswerSound(s', s'.callers[d])
    {
      OtherClaim(s, s', d, id);
    }
  }

  lemma OwnClaim(s: System, s': System, c: nat, id: nat)
    requires c in s.callers && s.callers[c].pc.Claiming? && ClaimSound(s, c) && Free(s, s.callers[c].req, id) && LocksSound(s)
    requires s' == Claimed(s, c, id)
    ensures ClaimSound(s', c) && LocksSound(s') && AnswerSound(s', s'.callers[c])
  {
    var claimed := s.callers[c].pc.claimed;
    UnitsOneMore(s.rows, claimed, id);
    assert s'.callers[c].pc.claimed == claimed + [id];
  }

  lemma UnitsOneMore(rows: map<nat, Row>, ids: seq<nat>, id: nat)
    requires id in rows
    ensures Units(rows, ids + [id]) == Units(rows, ids) + rows[id].units
  {
    assert (ids + [id])[..|ids|] == ids;
  }

  lemma OtherClaim(s: System, s': System, d: nat, id: nat)
    requires d in s.callers && d in s'.callers && s'.callers[d] == s.callers[d] && Untouched(s, s')
    requires id !in s.locks && forall j :: j in s.locks ==> j in s'.locks && s'.locks[j] == s.locks[j]
    requires ClaimSound(s, d) && AnswerSound(s, s.callers[d])
    ensures ClaimSound(s', d) && AnswerSound(s', s'.callers[d])
  {
  }

  lemma GrantKeeps(s: System, c: nat, answer: Answer)
    requires Inv(s) && c in s.callers && s.callers[c].pc.Claiming? && s.callers[c].pc.total >= s.callers[c].req.units
    requires answer == Granted(s.nextAllocation, s.callers[c].pc.claimed) || answer == Error
    ensures var Caller(req, pc) := s.callers[c];
            var s' := Leave(Granting(s, req, pc.claimed, pc.total), c, pc.claimed, answer);
            Inv(s') && Kept(s, s')
  {
    var Caller(req, pc) := s.callers[c];
    var s' := Leave(Granting(s, req, pc.claimed, pc.total), c, pc.claimed, answer);
    assert ClaimSound(s, c);
    GrantTable(s, s', c);
    GrantLocks(s, s', c);
    GrantCallers(s, s', c);
  }

  /** What the grant does to the tables, the callers left aside. */
  lemma GrantTable(s: System, s': System, c: nat)
    requires RowsSound(s) && AllocationsSound(s) && c in s.callers && s.callers[c].pc.Claiming? && ClaimSound(s, c)
    requires var Caller(req, pc) := s.callers[c]; s'.(locks := s.locks, callers := s.callers) == Granting(s, req, pc.claimed, pc.total)
    ensures RowsSound(s') && AllocationsSound(s') && Kept(s, s')
    ensures forall id :: id in s.rows && id !in s.callers[c].pc.claimed ==> id in s'.rows && s'.rows[id] == s.rows[id]
    ensures forall id :: id in s.callers[c].pc.claimed ==> id in s'.rows && s'.rows[id].allocation == Some(s.nextAllocation)
  {
    var pc := s.callers[c].pc;
    ReservingDoes(s.rows, pc.claimed, s.nextAllocation, s.nextRow);
    GrantAllocations(s, s', pc.claimed, pc.total);
    GrantRows(s, s', pc.claimed);
  }

  lemma GrantAllocations(s: System, s': System, claimed: seq<nat>, total: nat)
    requires RowsSound(s) && AllocationsSound(s)
    requires s'.rows.Keys == s.rows.Keys && s'.nextRow == s.nextRow && s'.nextAllocation == s.nextAllocation + 1
    requires s'.allocations.Keys == s.allocations.Keys + {s.nextAllocation} && s'.allocations[s.nextAllocation].units == total
    requires forall b :: b in s.allocations ==> s'.allocations[b] == s.allocations[b]
    requires AllocatedTo(s'.rows, s.nextAllocation, s.nextRow) == total
    requires forall id :: id in s.rows && id !in claimed ==> s'.rows[id] == s.rows[id]
    requires forall id :: id in claimed ==>
               id in s.rows && s.rows[id].status.Available? && s'.rows[id] == s.rows[id].(status := Reserved, allocation := Some(s.nextAllocation))
    ensures AllocationsSound(s')
  {
    forall b | b in s.allocations
      ensures AllocatedTo(s'.rows, b, s.nextRow) == AllocatedTo(s.rows, b, s.nextRow)
    {
      AllocatedSame(s.rows, s'.rows, b, s.nextRow);
    }
  }

  lemma GrantCallers(s: System, s': System, c: nat)
    requires c in s.callers && s.callers[c].pc.Claiming? && Kept(s, s')
    requires forall d :: d in s.callers ==> ClaimSound(s, d) && AnswerSound(s, s.callers[d])
    requires s'.callers.Keys == s.callers.Keys && forall d :: d in s.callers && d != c ==> s'.callers[d] == s.callers[d]
    requires s'.locks == Without(s.locks, s.callers[c].pc.claimed)
    requires forall id :: id in s.rows && id !in s.callers[c].pc.claimed ==> id in s'.rows && s'.rows[id] == s.rows[id]
    ensures forall d :: d in s'.callers && d != c ==> ClaimSound(s', d) && AnswerSound(s', s'.callers[d])
  {
    forall d | d in s'.callers && d != c
      ensures ClaimSound(s', d) && AnswerSound(s', s'.callers[d])
    {
      OthersThroughGrant(s, s', c, d);
    }
  }

  lemma GrantRows(s: System, s': System, claimed: seq<nat>)
    requires RowsSound(s) && s'.nextRow == s.nextRow && s'.rows.Keys == s.rows.Keys
    requires s.nextAllocation !in s.allocations && s.nextAllocation in s'.allocations
    requires forall a :: a in s.allocations ==> a in s'.allocations && s'.allocations[a] == s.allocations[a]
    requires forall id :: id in s.rows && id !in claimed ==> s'.rows[id] == s.rows[id]
    requires forall id :: id in claimed ==>
               id in s.rows && s.rows[id].status.Available? && s'.rows[id] == s.rows[id].(status := Reserved, allocation := Some(s.nextAllocation))
    ensures Kept(s, s') && RowsSound(s')
  {
  }

  lemma GrantLocks(s: System, s': System, c: nat)
    requires LocksSound(s) && c in s.callers && s.callers[c].pc.Claiming? && ClaimSound(s, c)
    requires s'.locks == Without(s.locks, s.callers[c].pc.claimed)
    requires s'.callers.Keys == s.callers.Keys && forall d :: d in s.callers && d != c ==> s'.callers[d] == s.callers[d]
    ensures LocksSound(s')
  {
  }

  lemma OthersThroughGrant(s: System, s': System, c: nat, d: nat)
    requires c in s.callers && d in s.callers && d != c && s.callers[c].pc.Claiming? && ClaimSound(s, c)
    requires ClaimSound(s, d) && AnswerSound(s, s.callers[d]) && Kept(s, s')
    requires s'.locks == Without(s.locks, s.callers[c].pc.claimed) && d in s'.callers && s'.callers[d] == s.callers[d]
    requires forall id :: id in s.rows && id !in s.callers[c].pc.claimed ==> id in s'.rows && s'.rows[id] == s.rows[id]
    ensures ClaimSound(s', d) && AnswerSound(s', s'.callers[d])
  {
    AnswerStays(s, s', s.callers[d]);
    if s.callers[d].pc.Claiming? {
      UnitsSame(s.rows, s'.rows, s.callers[d].pc.claimed);
    }
  }

  lemma ActKeeps(s: System, c: nat, choice: nat, reply: Reply)
    requires Inv(s) && c in s.callers
    ensures Inv(ActOf(s, c, choice, reply)) && Kept(s, ActOf(s, c, choice, reply))
  {
    var Caller(req, pc) := s.callers[c];
    if pc.Checking? {
      CheckKeeps(s, c);
    } else if pc.Claiming? {
      if !reply.Fails? && pc.total >= req.units {
        GrantStepKeeps(s, c, choice, reply);
      } else {
        ClaimStepKeeps(s, c, choice, reply);
      }
    }
  }

  lemma ClaimStepKeeps(s: System, c: nat, choice: nat, reply: Reply)
    requires Inv(s) && c in s.callers && s.callers[c].pc.Claiming? && (reply.Fails? || s.callers[c].pc.total < s.callers[c].req.units)
    ensures Inv(ActOf(s, c, choice, reply)) && Kept(s, ActOf(s, c, choice, reply))
  {
    var Caller(req, pc) := s.callers[c];
    ClaimStepIs(s, c, choice, reply);
    if reply.Fails? || !AnyFree(s, req) {
      LeaveKeeps(s, c, if reply.Fails? then Error else Exhausted);
    } else if First(s, req, choice) {
      ClaimKeeps(s, c, choice);
    } else {
      NothingKeeps(s);
    }
  }

  lemma NothingKeeps(s: System)
    ensures Kept(s, s)
  {
  }

  lemma ClaimStepIs(s: System, c: nat, choice: nat, reply: Reply)
    requires c in s.callers && s.callers[c].pc.Claiming? && (reply.Fails? || s.callers[c].pc.total < s.callers[c].req.units)
    ensures var Caller(req, pc) := s.callers[c];
            ActOf(s, c, choice, reply) ==
            if reply.Fails? || !AnyFree(s, req) then Leave(s, c, pc.claimed, if reply.Fails? then Error else Exhausted)
            else if First(s, req, choice) then Claimed(s, c, choice)
            else s
  {
  }

  lemma GrantStepKeeps(s: System, c: nat, choice: nat, reply: Reply)
    requires Inv(s) && c in s.callers && s.callers[c].pc.Claiming? && s.callers[c].pc.total >= s.callers[c].req.units && !reply.Fails?
    ensures Inv(ActOf(s, c, choice, reply)) && Kept(s, ActOf(s, c, choice, reply))
  {
    var Caller(req, pc) := s.callers[c];
    var answer := if reply.Fine? then Granted(s.nextAllocation, pc.claimed) else Error;
    assert ActOf(s, c, choice, reply) == Leave(Granting(s, req, pc.claimed, pc.total), c, pc.claimed, answer);
    GrantKeeps(s, c, answer);
  }

  lemma LeaveKeeps(s: System, c: nat, answer: Answer)
    requires Inv(s) && c in s.callers && s.callers[c].pc.Claiming? && !answer.Granted?
    ensures Inv(Leave(s, c, s.callers[c].pc.claimed, answer)) && Kept(s, Leave(s, c, s.callers[c].pc.claimed, answer))
  {
    ReleaseKeeps(s, Leave(s, c, s.callers[c].pc.claimed, answer), c);
  }

  lemma CheckKeeps(s: System, c: nat)
    requires Inv(s) && c in s.callers && s.callers[c].pc.Checking?
    ensures var req := s.callers[c].req;
            var s' := At(s, c, if req.units <= 0 || req.slot == "" then Finished(Refused) else Claiming([], 0));
            Inv(s') && Kept(s, s')
  {
    var req := s.callers[c].req;
    var s' := At(s, c, if req.units <= 0 || req.slot == "" then Finished(Refused) else Claiming([], 0));
    forall d | d in s'.callers
      ensures ClaimSound(s', d) && AnswerSound(s', s'.callers[d])
    {
      assert ClaimSound(s, d);
    }
  }

  /** Callers are unaffected by what happens to rows nobody has claimed. */
  lemma CallersStay(s: System, s': System)
    requires Kept(s, s') && s'.locks == s.locks && s'.callers == s.callers
    requires forall c :: c in s.callers ==> ClaimSound(s, c) && AnswerSound(s, s.callers[c])
    requires forall id :: id in s.rows && id in s.locks ==> id in s'.rows && s'.rows[id] == s.rows[id]
    ensures forall c :: c in s'.callers ==> ClaimSound(s', c) && AnswerSound(s', s'.callers[c])
  {
    forall c | c in s.callers
      ensures ClaimSound(s', c) && AnswerSound(s', s.callers[c])
    {
      assert ClaimSound(s, c);
      AnswerStays(s, s', s.callers[c]);
      if s.callers[c].pc.Claiming? {
        UnitsSame(s.rows, s'.rows, s.callers[c].pc.claimed);
      }
    }
  }

  /** A claimed row waits; any other is corrected, whatever its status, and keeps its
      allocation. */
  lemma ExpireKeeps(s: System, id: nat)
    requires Inv(s) && id in s.rows && id !in s.locks
    ensures var s' := s.(rows := s.rows[id := s.rows[id].(status := Expired)]); Inv(s') && Kept(s, s')
  {
    var s' := s.(rows := s.rows[id := s.rows[id].(status := Expired)]);
    forall a | a in s.allocations
      ensures AllocatedTo(s'.rows, a, s.nextRow) == AllocatedTo(s.rows, a, s.nextRow)
    {
      AllocatedSame(s.rows, s'.rows, a, s.nextRow);
    }
    CallersStay(s, s');
  }

  lemma InsertKeeps(s: System, slot: string, units: nat, expires: int)
    requires Inv(s) && units > 0
    ensures var s' := Step(s, Insert(slot, units, expires)); Inv(s') && Kept(s, s')
  {
    var s' := Step(s, Insert(slot, units, expires));
    InsertedIsFree(s, slot, units, expires);
    CallersStay(s, s');
  }

  lemma InsertedIsFree(s: System, slot: string, units: nat, expires: int)
    requires RowsSound(s) && AllocationsSound(s) && units > 0
    ensures var s' := Step(s, Insert(slot, units, expires)); RowsSound(s') && AllocationsSound(s')
  {
    var s' := Step(s, Insert(slot, units, expires));
    forall a | a in s.allocations
      ensures AllocatedTo(s'.rows, a, s'.nextRow) == AllocatedTo(s.rows, a, s.nextRow)
    {
      AllocatedSame(s.rows, s'.rows, a, s.nextRow);
    }
  }

  lemma StartKeeps(s: System, c: nat, req: Request)
    requires Inv(s) && c !in s.callers
    ensures Inv(Step(s, Start(c, req))) && Kept(s, Step(s, Start(c, req)))
  {
    var s' := Step(s, Start(c, req));
    forall d | d in s'.callers
      ensures ClaimSound(s', d) && AnswerSound(s', s'.callers[d])
    {
      assert d != c ==> ClaimSound(s, d);
    }
  }

  lemma StepKeeps(s: System, e: Event)
    requires Inv(s)
    ensures Inv(Step(s, e)) && Kept(s, Step(s, e))
  {
    match e
    case Start(c, req) => if c !in s.callers { StartKeeps(s, c, req); }
    case Act(c, choice, reply) => if c in s.callers { ActKeeps(s, c, choice, reply); }
    case Die(c) => if c in s.callers { ReleaseKeeps(s, Step(s, e), c); }
    case Expire(id) => if id in s.rows && id !in s.locks { ExpireKeeps(s, id); }
    case Insert(slot, units, expires) => if units > 0 { InsertKeeps(s, slot, units, expires); }
  }

  lemma {:induction false} RunKeeps(s: System, es: seq<Event>)
    requires Inv(s)
    ensures Inv(Run(s, es)) && Kept(s, Run(s, es))
    decreases |es|
  {
    if es != [] {
      StepKeeps(s, es[0]);
      RunKeeps(Step(s, es[0]), es[1..]);
    }
  }

  // ---------- whole runs ----------

  /** Whatever the interleaving: each allocation's units are exactly those of the rows
      that went to it, each row went to one allocation at most and for good, and a
      caller that was granted one got at least what it asked for, under its own slot. */
  lemma RowsGoToOneAllocation(s: System, es: seq<Event>, c: nat)
    requires Inv(s)
    ensures var s' := Run(s, es);
            && (forall a :: a in s'.allocations ==> AllocatedTo(s'.rows, a, s'.nextRow) == s'.allocations[a].units)
            && (forall id :: id in s.rows && s.rows[id].allocation.Some? ==> id in s'.rows && s'.rows[id].allocation == s.rows[id].allocation)
            && (c in s'.callers ==> AnswerSound(s', s'.callers[c]))
  {
    RunKeeps(s, es);
  }

  /** A row that is spoken for, spent or expired is never given to anyone afterwards. */
  lemma {:induction false} OnlyAvailableIsGiven(s: System, es: seq<Event>, id: nat)
    requires Inv(s) && id in s.rows && s.rows[id].status != Available
    ensures var s' := Run(s, es);
            id in s'.rows && s'.rows[id].status != Available && s'.rows[id].allocation == s.rows[id].allocation
    decreases |es|
  {
    if es != [] {
      StepKeeps(s, es[0]);
      StepGivesAvailable(s, es[0], id);
      OnlyAvailableIsGiven(Step(s, es[0]), es[1..], id);
    }
  }

  lemma StepGivesAvailable(s: System, e: Event, id: nat)
    requires Inv(s) && id in s.rows && s.rows[id].status != Available
    ensures var s' := Step(s, e); id in s'.rows && s'.rows[id].status != Available && s'.rows[id].allocation == s.rows[id].allocation
  {
    if e.Act? && e.c in s.callers && s.callers[e.c].pc.Claiming? {
      assert ClaimSound(s, e.c);
      ReservingOthers(s.rows, s.callers[e.c].pc.claimed, s.nextAllocation, id);
    }
  }

  lemma {:induction false} ReservingOthers(rows: map<nat, Row>, claimed: seq<nat>, a: nat, id: nat)
    requires id !in claimed
    ensures var rows' := Reserving(rows, claimed, a); (id in rows' <==> id in rows) && (id in rows ==> rows'[id] == rows[id])
    decreases |claimed|
  {
    if claimed != [] {
      ReservingOthers(rows, claimed[..|claimed| - 1], a, id);
    }
  }

  function Inserted(s: System, es: seq<Event>): nat
    decreases |es|
  {
    if es == [] then 0 else (if es[0].Insert? then es[0].units else 0) + Inserted(Step(s, es[0]), es[1..])
  }

  /** Units are conserved: over any run the table, all statuses together, gains exactly
      what was inserted. */
  lemma {:induction false} UnitsAreConserved(s: System, es: seq<Event>)
    requires Inv(s)
    ensures TotalUnits(Run(s, es).rows, Run(s, es).nextRow) == TotalUnits(s.rows, s.nextRow) + Inserted(s, es)
    decreases |es|
  {
    if es != [] {
      var s1 := Step(s, es[0]);
      StepKeeps(s, es[0]);
      StepConserves(s, es[0]);
      UnitsAreConserved(s1, es[1..]);
    }
  }

  lemma StepConserves(s: System, e: Event)
    requires Inv(s) && Inv(Step(s, e)) && Kept(s, Step(s, e))
    ensures var s' := Step(s, e);
            TotalUnits(s'.rows, s'.nextRow) == TotalUnits(s.rows, s.nextRow) + (if e.Insert? then e.units else 0)
  {
    var s' := Step(s, e);
    TotalSame(s.rows, s'.rows, s.nextRow);
    if !e.Insert? {
      assert s'.nextRow == s.nextRow;
    }
  }

  /** A reservation that is refused, runs out, fails or dies leaves every row and every
      allocation as it was; the one exception is a commit that took effect although its
      caller only heard an error. */
  lemma FailureChangesNothing(s: System, c: nat, choice: nat, reply: Reply)
    requires c in s.callers && !s.callers[c].pc.Finished?
    ensures var s' := ActOf(s, c, choice, reply);
            var pc := s'.callers[c].pc;
            && (pc.Finished? && pc.answer in {Refused, Exhausted} ==> Untouched(s, s'))
            && (pc == Finished(Error) ==> (Untouched(s, s') <==> !reply.Unheard?))
            && (!pc.Finished? ==> Untouched(s, s'))
    ensures Untouched(s, Step(s, Die(c)))
  {
  }

  /** A reservation runs out only when every row it could have is being claimed by another
      just then. */
  lemma ExhaustedMeans(s: System, c: nat, choice: nat, reply: Reply)
    requires c in s.callers && !s.callers[c].pc.Finished? && ActOf(s, c, choice, reply).callers[c].pc == Finished(Exhausted)
    ensures var req := s.callers[c].req;
            && s.callers[c].pc.Claiming? && s.callers[c].pc.total < req.units
            && forall id :: id in s.rows && s.rows[id].status == Available && s.rows[id].slot == req.slot && req.now < s.rows[id].expires ==>
                 id in s.locks
  {
    var req := s.callers[c].req;
    assert !AnyFree(s, req);
    forall id | id in s.rows && id !in s.locks
      ensures !(s.rows[id].status == Available && s.rows[id].slot == req.slot && req.now < s.rows[id].expires)
    {
      assert !Free(s, req, id);
    }
  }

  // ---------- Reserve on its own ----------

  /** Units of the first `n` rows that are eligible and not yet claimed. */
  function Supply(rows: map<nat, Row>, req: Request, claimed: seq<nat>, n: nat): nat {
    if n == 0 then 0
    else Supply(rows, req, claimed, n - 1)
         + (if Eligible(rows, req, n - 1) && n - 1 !in claimed then rows[n - 1].units else 0)
  }

  /** Units of the first `n` rows that are AVAILABLE, under the slot, and not expired. */
  function FreeUnits(rows: map<nat, Row>, slot: string, now: int, n: nat): nat {
    if n == 0 then 0
    else FreeUnits(rows, slot, now, n - 1)
         + (if n - 1 in rows && rows[n - 1].status == Available && rows[n - 1].slot == slot && now < rows[n - 1].expires then rows[n - 1].units else 0)
  }

  lemma {:induction false} SupplyMeans(rows: map<nat, Row>, req: Request, n: nat)
    ensures Supply(rows, req, [], n) == FreeUnits(rows, req.slot, req.now, n)
  {
    if n > 0 {
      SupplyMeans(rows, req, n - 1);
    }
  }

  lemma CoverMeans(rows: map<nat, Row>, req: Request, ids: seq<nat>)
    requires ExpiryPrefix(rows, req, ids)
    ensures forall id :: id in ids ==> id in rows && rows[id].status == Available && rows[id].slot == req.slot && req.now < rows[id].expires
  {
    forall id | id in ids
      ensures id in rows && rows[id].status == Available && rows[id].slot == req.slot && req.now < rows[id].expires
    {
      var i :| 0 <= i < |ids| && ids[i] == id;
      PrefixMeans(rows, req, ids, i, 0);
    }
  }

  lemma {:induction false} SupplyShrinks(rows: map<nat, Row>, req: Request, claimed: seq<nat>, id: nat, n: nat)
    requires Eligible(rows, req, id) && id !in claimed
    ensures Supply(rows, req, claimed + [id], n) == Supply(rows, req, claimed, n) - (if id < n then rows[id].units else 0)
    ensures id < n ==> Supply(rows, req, claimed, n) >= rows[id].units
  {
    if n > 0 {
      SupplyShrinks(rows, req, claimed, id, n - 1);
    }
  }

  lemma {:induction false} NoSupply(rows: map<nat, Row>, req: Request, claimed: seq<nat>, n: nat)
    requires forall id :: Eligible(rows, req, id) ==> id in claimed
    ensures Supply(rows, req, claimed, n) == 0
  {
    if n > 0 {
      NoSupply(rows, req, claimed, n - 1);
    }
  }

  /** An unclaimed eligible row, none expiring earlier. */
  predicate IsNext(rows: map<nat, Row>, req: Request, claimed: seq<nat>, id: nat) {
    && Eligible(rows, req, id) && id !in claimed
    && forall j :: j in rows && Eligible(rows, req, j) && j !in claimed ==> rows[id].expires <= rows[j].expires
  }

  lemma {:induction false} Soonest(rows: map<nat, Row>, among: set<nat>) returns (id: nat)
    requires among != {} && among <= rows.Keys
    ensures id in among && forall j :: j in among ==> rows[id].expires <= rows[j].expires
    decreases |among|
  {
    id :| id in among;
    if among != {id} {
      var other := Soonest(rows, among - {id});
      id := if rows[id].expires <= rows[other].expires then id else other;
    }
  }

  lemma NextExists(rows: map<nat, Row>, req: Request, claimed: seq<nat>)
    requires forall id :: id in rows ==> !IsNext(rows, req, claimed, id)
    ensures forall id :: Eligible(rows, req, id) ==> id in claimed
  {
    var among := set id | id in rows && Eligible(rows, req, id) && id !in claimed;
    if among != {} {
      var id := Soonest(rows, among);
      assert IsNext(rows, req, claimed, id);
    }
    assert forall id :: Eligible(rows, req, id) && id !in claimed ==> id in among;
  }

  /** The rows taken one by one, each the soonest to expire of those left: a prefix of
      the eligible rows in order of expiry (see PrefixMeans). */
  ghost predicate ExpiryPrefix(rows: map<nat, Row>, req: Request, ids: seq<nat>)
    decreases |ids|
  {
    ids == [] || (ExpiryPrefix(rows, req, ids[..|ids| - 1]) && IsNext(rows, req, ids[..|ids| - 1], ids[|ids| - 1]))
  }

  lemma {:induction false} PrefixAt(rows: map<nat, Row>, req: Request, ids: seq<nat>, i: nat)
    requires ExpiryPrefix(rows, req, ids) && i < |ids|
    ensures IsNext(rows, req, ids[..i], ids[i])
    decreases |ids|
  {
    var k := |ids| - 1;
    if i < k {
      PrefixAt(rows, req, ids[..k], i);
      assert ids[..k][..i] == ids[..i];
    }
  }

  lemma PrefixMeans(rows: map<nat, Row>, req: Request, ids: seq<nat>, i: nat, j: nat)
    requires ExpiryPrefix(rows, req, ids) && i < |ids|
    ensures ids[i] in rows && rows[ids[i]].status == Available && rows[ids[i]].slot == req.slot && req.now < rows[ids[i]].expires
    ensures i < j < |ids| ==> ids[i] != ids[j] && Eligible(rows, req, ids[j]) && rows[ids[i]].expires <= rows[ids[j]].expires
    ensures j in rows && rows[j].status == Available && rows[j].slot == req.slot && req.now < rows[j].expires && j !in ids ==>
              rows[ids[i]].expires <= rows[j].expires
  {
    PrefixAt(rows, req, ids, i);
    if i < j < |ids| {
      PrefixAt(rows, req, ids, j);
      assert ids[i] in ids[..j];
      assert ids[j] !in ids[..i];
    }
  }

  /** Without its last row it falls short. */
  ghost predicate Short(rows: map<nat, Row>, req: Request, ids: seq<nat>) {
    ids == [] || Units(rows, ids[..|ids| - 1]) < req.units
  }

  /** The shortest expiry-ordered prefix that covers the request. */
  ghost predicate ShortestCover(rows: map<nat, Row>, req: Request, ids: seq<nat>) {
    ExpiryPrefix(rows, req, ids) && Short(rows, req, ids) && Units(rows, ids) >= req.units
  }

  lemma PrefixGrows(rows: map<nat, Row>, req: Request, ids: seq<nat>, id: nat)
    requires ExpiryPrefix(rows, req, ids) && IsNext(rows, req, ids, id)
    ensures ExpiryPrefix(rows, req, ids + [id])
  {
    assert (ids + [id])[..|ids|] == ids;
  }

  ghost function LocksOf(claimed: seq<nat>, c: nat): map<nat, nat> {
    map id | id in claimed :: c
  }

  /** What has been claimed so far, out of the eligible rows. */
  ghost predicate Taken(rows: map<nat, Row>, req: Request, claimed: seq<nat>, total: nat, n: nat) {
    && ExpiryPrefix(rows, req, claimed) && Short(rows, req, claimed) && total == Units(rows, claimed)
    && total + Supply(rows, req, claimed, n) == Supply(rows, req, [], n)
  }

  lemma TakenOneMore(rows: map<nat, Row>, req: Request, claimed: seq<nat>, total: nat, id: nat, n: nat)
    requires Taken(rows, req, claimed, total, n) && total < req.units && IsNext(rows, req, claimed, id) && id < n
    ensures Taken(rows, req, claimed + [id], total + rows[id].units, n)
  {
    UnitsBefore(rows, claimed, id);
    PrefixGrows(rows, req, claimed, id);
    UnitsOneMore(rows, claimed, id);
    SupplyShrinks(rows, req, claimed, id, n);
  }

  /** Caller `c` is claiming, and holds the only locks there are. */
  ghost predicate Claims(s: System, c: nat, req: Request, claimed: seq<nat>, total: nat) {
    && c in s.callers && s.callers[c] == Caller(req, Claiming(claimed, total)) && req.units > 0
    && s.locks == LocksOf(claimed, c)
    && (forall id :: id in s.rows ==> id < s.nextRow && s.rows[id].units > 0)
    && Taken(s.rows, req, claimed, total, s.nextRow)
  }

  lemma ClaimsOneMore(s: System, c: nat, req: Request, claimed: seq<nat>, total: nat, id: nat)
    requires Claims(s, c, req, claimed, total) && total < req.units && IsNext(s.rows, req, claimed, id)
    ensures Step(s, Act(c, id, Fine)) == Claimed(s, c, id)
    ensures Claims(Claimed(s, c, id), c, req, claimed + [id], total + s.rows[id].units)
  {
    FirstIs(s, c, req, claimed, id);
    TakenOneMore(s.rows, req, claimed, total, id, s.nextRow);
    LocksOneMore(claimed, id, c);
  }

  lemma LocksOneMore(claimed: seq<nat>, id: nat, c: nat)
    ensures LocksOf(claimed, c)[id := c] == LocksOf(claimed + [id], c)
  {
  }

  lemma UnitsBefore(rows: map<nat, Row>, claimed: seq<nat>, id: nat)
    ensures Units(rows, (claimed + [id])[..|claimed + [id]| - 1]) == Units(rows, claimed)
  {
    assert (claimed + [id])[..|claimed|] == claimed;
  }

  lemma FirstIs(s: System, c: nat, req: Request, claimed: seq<nat>, id: nat)
    requires s.locks == LocksOf(claimed, c) && IsNext(s.rows, req, claimed, id)
    ensures First(s, req, id) && AnyFree(s, req)
  {
  }

  /** What is claimed in the end is the shortest cover, if it covers at all. */
  lemma TakenCovers(s: System, c: nat, req: Request, claimed: seq<nat>, total: nat)
    requires Claims(s, c, req, claimed, total) && total >= req.units
    ensures ShortestCover(s.rows, req, claimed) && Units(s.rows, claimed) == total <= FreeUnits(s.rows, req.slot, req.now, s.nextRow)
    ensures forall id :: id in claimed ==>
              id in s.rows && s.rows[id].status == Available && s.rows[id].slot == req.slot && req.now < s.rows[id].expires
  {
    SupplyMeans(s.rows, req, s.nextRow);
    CoverMeans(s.rows, req, claimed);
  }

  lemma NothingLeft(s: System, c: nat, req: Request, claimed: seq<nat>, total: nat)
    requires Claims(s, c, req, claimed, total) && forall id :: id in s.rows ==> !IsNext(s.rows, req, claimed, id)
    ensures !AnyFree(s, req) && Supply(s.rows, req, [], s.nextRow) == total
  {
    NextExists(s.rows, req, claimed);
    NoSupply(s.rows, req, claimed, s.nextRow);
  }

  lemma {:induction false} RunOneMore(s: System, es: seq<Event>, e: Event)
    ensures Run(s, es + [e]) == Step(Run(s, es), e)
    decreases |es|
  {
    if es == [] {
      assert [e][1..] == [];
      assert Run(Step(s, e), []) == Step(s, e);
    } else {
      assert (es + [e])[0] == es[0] && (es + [e])[1..] == es[1..] + [e];
      RunOneMore(Step(s, es[0]), es[1..], e);
    }
  }

  class Buffer {
    var rows: map<nat, Row>
    var allocations: map<nat, Allocation>
    var nextRow: nat
    var nextAllocation: nat
    ghost var locks: map<nat, nat>
    ghost var callers: map<nat, Caller>

    ghost function State(): System
      reads this
    {
      System(rows, allocations, nextRow, nextAllocation, locks, callers)
    }

    constructor ()
      ensures State() == Empty
    {
      rows, allocations, nextRow, nextAllocation, locks, callers := map[], map[], 0, 0, map[], map[];
    }

    /** The claiming SELECT, when `claimed` is all that is locked. */
    method FindNext(req: Request, claimed: seq<nat>) returns (id: Option<nat>)
      ensures id.Some? ==> IsNext(rows, req, claimed, id.value)
      ensures id.None? ==> forall i :: i in rows ==> !IsNext(rows, req, claimed, i)
    {
      if i :| i in rows && IsNext(rows, req, claimed, i) {
        return Some(i);
      }
      return None;
    }

    /** One pass of the claiming loop, added to the run that began at `begun`. */
    method ClaimOne(ghost c: nat, req: Request, claimed: seq<nat>, total: nat, ghost begun: System, ghost es: seq<Event>)
      returns (id: Option<nat>, ghost more: seq<Event>)
      requires Claims(State(), c, req, claimed, total) && total < req.units && State() == Run(begun, es)
      modifies this`locks, this`callers
      ensures State() == Run(begun, more)
      ensures id.None? ==> Claims(State(), c, req, claimed, total) && !AnyFree(State(), req) && Supply(rows, req, [], nextRow) == total
      ensures id.Some? ==> id.value in rows && rows[id.value].units > 0
                           && Claims(State(), c, req, claimed + [id.value], total + rows[id.value].units)
    {
      id := FindNext(req, claimed);
      if id.None? {
        NothingLeft(State(), c, req, claimed, total);
        return None, es;
      }
      more := ClaimsNext(begun, es, State(), c, req, claimed, total, id.value);
      ghost var after := Claimed(State(), c, id.value);
      locks := locks[id.value := c];
      callers := callers[c := Caller(req, Claiming(claimed + [id.value], total + rows[id.value].units))];
      assert State() == after;
    }

    /** The claiming loop. */
    method ClaimEnough(ghost c: nat, req: Request) returns (claimed: seq<nat>, total: nat, ghost es: seq<Event>)
      requires Claims(State(), c, req, [], 0)
      modifies this`locks, this`callers
      ensures State() == Run(old(State()), es) && Claims(State(), c, req, claimed, total)
      ensures total < req.units ==> !AnyFree(State(), req) && FreeUnits(rows, req.slot, req.now, nextRow) == total
    {
      ghost var begun := State();
      SupplyMeans(rows, req, nextRow);
      claimed, total, es := [], 0, [];
      while total < req.units
        invariant State() == Run(begun, es) && Claims(State(), c, req, claimed, total)
        decreases req.units - total
      {
        var id;
        id, es := ClaimOne(c, req, claimed, total, begun, es);
        if id.None? {
          return;
        }
        claimed, total := claimed + [id.value], total + rows[id.value].units;
      }
    }

    /** The rest of the transaction, once enough is claimed: all or nothing. */
    method Grant(ghost c: nat, req: Request, claimed: seq<nat>, total: nat, reply: Reply) returns (answer: Answer)
      requires Claims(State(), c, req, claimed, total) && total >= req.units
      modifies this
      ensures State() == Step(old(State()), Act(c, 0, reply)) && c in callers && callers[c].pc == Finished(answer)
      ensures answer == if reply.Fine? then Granted(old(nextAllocation), claimed) else Error
      ensures reply.Fails? ==> rows == old(rows) && allocations == old(allocations)
    {
      if !reply.Fails? {
        rows := Reserving(rows, claimed, nextAllocation);
        allocations := allocations[nextAllocation := Allocation(req.orderId, total)];
        nextAllocation := nextAllocation + 1;
      }
      answer := if reply.Fine? then Granted(nextAllocation - 1, claimed) else Error;
      locks, callers := Without(locks, claimed), callers[c := Caller(req, Finished(answer))];
    }

    /** `Reserve`, run alone: it succeeds exactly if enough is available, claims the
        shortest expiry-ordered prefix that covers the request, and otherwise changes
        no row and no allocation. */
    method Reserve(ghost c: nat, req: Request, commit: Reply) returns (answer: Answer, ghost es: seq<Event>)
      requires Inv(State()) && c !in callers && locks == map[]
      modifies this
      ensures State() == Run(old(State()), es) && c in callers && callers[c].pc == Finished(answer)
      ensures answer.Refused? <==> req.units <= 0 || req.slot == ""
      ensures answer.Exhausted? <==> !answer.Refused? && FreeUnits(old(rows), req.slot, req.now, old(nextRow)) < req.units
      ensures answer.Granted? <==> !answer.Refused? && !answer.Exhausted? && commit.Fine?
      ensures answer.Granted? ==> ShortestCover(old(rows), req, answer.rows) && rows == Reserving(old(rows), answer.rows, answer.allocation)
                                  && answer.allocation !in old(allocations)
                                  && allocations == old(allocations)[answer.allocation := Allocation(req.orderId, Units(old(rows), answer.rows))]
      ensures answer.Granted? ==> forall id :: id in answer.rows ==>
                id in old(rows) && old(rows)[id].status == Available && old(rows)[id].slot == req.slot && req.now < old(rows)[id].expires
      ensures !answer.Granted? && !commit.Unheard? ==> rows == old(rows) && allocations == old(allocations)
    {
      ghost var before := State();
      callers := callers[c := Caller(req, Checking)];
      es := Next(before, [], Start(c, req));
      es := Next(before, es, Act(c, 0, Fine));
      if req.units <= 0 || req.slot == "" {
        callers := callers[c := Caller(req, Finished(Refused))];
        return Refused, es;
      }
      callers := callers[c := Caller(req, Claiming([], 0))];
      assert Claims(State(), c, req, [], 0);
      var claimed, total;
      ghost var more: seq<Event>;
      claimed, total, more := ClaimEnough(c, req);
      RunAppend(before, es, more);
      es := es + more;
      if total < req.units {
        es := Next(before, es, Act(c, 0, Fine));
        locks, callers := Without(locks, claimed), callers[c := Caller(req, Finished(Exhausted))];
        return Exhausted, es;
      }
      TakenCovers(State(), c, req, claimed, total);
      answer := Grant(c, req, claimed, total, commit);
      es := Next(before, es, Act(c, 0, commit));
    }

    /** `Reconcile`: of the available and reserved rows about to expire, exactly those the
        chain shows short are corrected, an unanswered query leaving its row as it is. */
    method Reconcile(before: int, reader: nat -> Option<int>) returns (corrected: seq<nat>, ghost es: seq<Event>)
      requires locks == map[]
      modifies this`rows
      ensures State() == Run(old(State()), es)
      ensures rows.Keys == old(rows).Keys
      ensures forall id :: id in rows ==>
                rows[id] == if id in corrected then old(rows)[id].(status := Expired) else old(rows)[id]
      ensures forall id :: id in corrected <==>
                && id in old(rows) && (old(rows)[id].status == Available || old(rows)[id].status == Reserved) && old(rows)[id].expires <= before
                && reader(id).Some? && reader(id).value < old(rows)[id].units
    {
      corrected := [];
      var near := set id | id in rows && Nearing(rows, before, id);
      while near != {}
        invariant near <= rows.Keys && forall id :: id in near ==> Nearing(rows, before, id)
        invariant forall id :: id in corrected <==> Lapsed(rows, before, reader, id) && id !in near
      {
        var id :| id in near;
        near := near - {id};
        var actual := reader(id);
        if actual.Some? && actual.value < rows[id].units {
          corrected := corrected + [id];
        }
      }
      es := ExpiringEach(State(), corrected);
      rows := Expiring(rows, corrected);
    }
  }

  predicate Nearing(rows: map<nat, Row>, before: int, id: nat) {
    id in rows && (rows[id].status.Available? || rows[id].status.Reserved?) && rows[id].expires <= before
  }

  /** The chain shows less than the row says. */
  predicate Lapsed(rows: map<nat, Row>, before: int, reader: nat -> Option<int>, id: nat) {
    Nearing(rows, before, id) && reader(id).Some? && reader(id).value < rows[id].units
  }

  /** `markExpired`, one UPDATE. */
  function Expiring(rows: map<nat, Row>, ids: seq<nat>): map<nat, Row> {
    map id | id in rows :: if id in ids then rows[id].(status := Expired) else rows[id]
  }

  /** With nothing locked, the one UPDATE is as many corrections, one after another. */
  ghost function ExpiringEach(s: System, ids: seq<nat>): (es: seq<Event>)
    requires s.locks == map[] && forall id :: id in ids ==> id in s.rows
    ensures Run(s, es) == s.(rows := Expiring(s.rows, ids))
  {
    if ids == [] then
      assert Expiring(s.rows, ids) == s.rows;
      []
    else
      var k := |ids| - 1;
      assert forall id :: id in ids[..k] ==> id in ids;
      var es := ExpiringEach(s, ids[..k]);
      var e := Expire(ids[k]);
      assert Expiring(s.rows, ids) == Expiring(s.rows, ids[..k])[ids[k] := s.rows[ids[k]].(status := Expired)] by {
        assert forall id :: id in ids <==> id in ids[..k] || id == ids[k];
      }
      Next(s, es, e)
  }

  /** One more claim, added to the run. */
  ghost function ClaimsNext(begun: System, es: seq<Event>, s: System, c: nat, req: Request, claimed: seq<nat>, total: nat, id: nat): (more: seq<Event>)
    requires s == Run(begun, es) && Claims(s, c, req, claimed, total) && total < req.units && IsNext(s.rows, req, claimed, id)
    ensures Run(begun, more) == Claimed(s, c, id)
    ensures Claims(Claimed(s, c, id), c, req, claimed + [id], total + s.rows[id].units)
  {
    ClaimsOneMore(s, c, req, claimed, total, id);
    Next(begun, es, Act(c, id, Fine))
  }

  ghost function Next(s: System, es: seq<Event>, e: Event): (more: seq<Event>)
    ensures Run(s, more) == Step(Run(s, es), e)
  {
    RunOneMore(s, es, e);
    es + [e]
  }

  lemma {:induction false} RunAppend(s: System, es: seq<Event>, more: seq<Event>)
    ensures Run(s, es + more) == Run(Run(s, es), more)
    decreases |es|
  {
    if es == [] {
      assert [] + more == more;
    } else {
      assert (es + more)[0] == es[0] && (es + more)[1..] == es[1..] + more;
      RunAppend(Step(s, es[0]), es[1..], more);
    }
  }
}
