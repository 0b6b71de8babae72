/** Closing an order: settled once its payout is final, held once dispatch has given
    up, decided at the ledger first and in dispatch_state after, while broadcasts go on
    (dispatcher/internal/dispatch/finality.go, reconcile.go, freeze.go, store.go,
    dispatcher/internal/ledgerclient/dispatchfailure.go). */
module Dispatch {
  import opened Sets
  import opened Wrappers
  import A = Attempts

  // ---------- data ----------

  /** A dispatch_state row's status. `attempt` and `seen` are not stored: the attempt that
      settled the order, and the number of the failed attempt that had it held. */
  datatype Progress = Dispatching | Settled(attempt: nat) | Held(seen: int)

  /** What the ledger says of the order. A settlement's key names the attempt, and its
      contents the time the caller gave, in microseconds: it replays only with both.
      Holding carries no contents, so it never replays. */
  datatype LedgerState = InDispatch | AtSettled(attempt: nat, at: int) | AtHeld

  /** Where one reconciliation or one finality check of one order stands. */
  datatype Job =
    | Latest(order: int)
    | AskLedger(order: int, seen: int)
    | Report(order: int, seen: int)
    | MarkHeld(order: int, seen: int)
    | CheckAttempt(order: int, id: nat, at: int)
    | AskChain(order: int, id: nat, at: int)
    | Settle(order: int, id: nat, at: int)
    | MarkSettled(order: int, id: nat, at: int)
    | MarkConfirmed(order: int, id: nat)

  datatype System = System(a: A.System, orders: map<int, Progress>, ledger: map<int, LedgerState>, jobs: map<nat, Job>)

  /** A call that works, one that does not, and one that does unbeknown to its caller.
      `final` is the chain's answer, where that is asked. */
  datatype Reply = Fine(final: bool) | Fails | Unheard

  datatype Event =
    | Attempt(e: A.Event)
    | Enter(order: int)
    | Record(order: int)
    | Reconcile(w: nat, order: int)
    | Confirm(w: nat, order: int, id: nat, at: int)
    | Work(w: nat, reply: Reply)
    | Stop(w: nat)

  // ---------- steps ----------

  predicate Belongs(rows: map<nat, A.Row>, id: nat, order: int) {
    id in rows && rows[id].orderId == order
  }

  predicate IsLatest(rows: map<nat, A.Row>, id: nat, order: int) {
    Belongs(rows, id, order) && forall j :: j in rows && Belongs(rows, j, order) ==> rows[j].number <= rows[id].number
  }

  ghost function LatestFor(rows: map<nat, A.Row>, order: int): Option<nat> {
    if exists id :: IsLatest(rows, id, order) then var id :| IsLatest(rows, id, order); Some(id) else None
  }

  function Go(s: System, w: nat, job: Job): System {
    s.(jobs := s.jobs[w := job])
  }

  function Quit(s: System, w: nat): System {
    s.(jobs := s.jobs - {w})
  }

  /** The ledger transition a job asks for, if the ledger allows it. */
  function Transition(ledger: map<int, LedgerState>, order: int, to: LedgerState): map<int, LedgerState> {
    if order in ledger && ledger[order] == InDispatch then ledger[order := to] else ledger
  }

  /** The ledger is where the job wants it: just now, or by an earlier identical call. */
  predicate Reached(ledger: map<int, LedgerState>, order: int, to: LedgerState) {
    order in ledger && ledger[order] == to
  }

  predicate SettledBy(ledger: map<int, LedgerState>, order: int, id: nat) {
    order in ledger && ledger[order].AtSettled? && ledger[order].attempt == id
  }

  /** `markStatus`. */
  function Marking(orders: map<int, Progress>, order: int, to: Progress): map<int, Progress> {
    if order in orders && orders[order] == Dispatching then orders[order := to] else orders
  }

  predicate Marked(orders: map<int, Progress>, order: int, to: Progress) {
    order in orders && (if to.Settled? then orders[order].Settled? else orders[order].Held?)
  }

  ghost function WorkOf(s: System, w: nat, reply: Reply): System
    requires w in s.jobs
  {
    match s.jobs[w]
    case Latest(order) =>
      var latest := LatestFor(s.a.rows, order);
      if reply.Fails? || latest.None? || !s.a.rows[latest.value].status.Failed? then Quit(s, w)
      else Go(s, w, AskLedger(order, s.a.rows[latest.value].number))
    case AskLedger(order, n) =>
      if reply.Fails? || !Reached(s.ledger, order, InDispatch) then Quit(s, w) else Go(s, w, Report(order, n))
    case Report(order, n) =>
      if reply.Fails? || !Reached(s.ledger, order, InDispatch) then Quit(s, w)
      else
        var s' := s.(ledger := Transition(s.ledger, order, AtHeld));
        if reply.Unheard? then Quit(s', w) else Go(s', w, MarkHeld(order, n))
    case MarkHeld(order, n) =>
      if reply.Fails? then Quit(s, w) else Quit(s.(orders := Marking(s.orders, order, Held(n))), w)
    case CheckAttempt(order, id, at) =>
      if reply.Fails? || id !in s.a.rows || !s.a.rows[id].status.Broadcast? || s.a.rows[id].txid.None? then Quit(s, w)
      else Go(s, w, AskChain(order, id, at))
    case AskChain(order, id, at) =>
      if reply.Fine? && reply.final then Go(s, w, Settle(order, id, at)) else Quit(s, w)
    case Settle(order, id, at) =>
      if reply.Fails? then Quit(s, w)
      else
        var s' := s.(ledger := Transition(s.ledger, order, AtSettled(id, at)));
        if reply.Unheard? || !Reached(s'.ledger, order, AtSettled(id, at)) then Quit(s', w) else Go(s', w, MarkSettled(order, id, at))
    case MarkSettled(order, id, at) =>
      if reply.Fails? then Quit(s, w)
      else
        var s' := s.(orders := Marking(s.orders, order, Settled(id)));
        if reply.Unheard? || !Marked(s'.orders, order, Settled(id)) then Quit(s', w) else Go(s', w, MarkConfirmed(order, id))
    case MarkConfirmed(order, id) =>
      if reply.Fails? then Quit(s, w) else Quit(s.(a := A.ConfirmedRow(s.a, id)), w)
  }

  ghost function Step(s: System, e: Event): System {
    match e
    case Attempt(ae) => s.(a := A.Step(s.a, ae))
    case Enter(order) => if order in s.ledger then s else s.(ledger := s.ledger[order := InDispatch])
    case Record(order) => if order !in s.ledger || order in s.orders then s else s.(orders := s.orders[order := Dispatching])
    case Reconcile(w, order) =>
      if w !in s.jobs && order in s.orders && s.orders[order] == Dispatching then Go(s, w, Latest(order)) else s
    case Confirm(w, order, id, at) => if w !in s.jobs && Belongs(s.a.rows, id, order) then Go(s, w, CheckAttempt(order, id, at)) else s
    case Work(w, reply) => if w in s.jobs then WorkOf(s, w, reply) else s
    case Stop(w) => Quit(s, w)
  }

  ghost function Run(s: System, es: seq<Event>): System
    decreases |es|
  {
    if es == [] then s else Run(Step(s, es[0]), es[1..])
  }

  const Empty := System(A.Empty, map[], map[], map[])

  // ---------- the caller's discipline ----------

  /** A new attempt is started only once every earlier one of its order has FAILED, and
      under a higher number. */
  ghost predicate Allowed(s: System, e: Event) {
    e.Attempt? ==> AllowedAttempt(s.a, e.e)
  }

  ghost predicate AllowedAttempt(a: A.System, e: A.Event) {
    var a' := A.Step(a, e);
    a'.nextId != a.nextId && a.nextId in a'.rows ==>
      forall id :: id in a.rows && a.rows[id].orderId == a'.rows[a.nextId].orderId ==>
        a.rows[id].status.Failed? && a.rows[id].number < a'.rows[a.nextId].number
  }

  ghost predicate Disciplined(s: System, es: seq<Event>)
    decreases |es|
  {
    es == [] || (Allowed(s, es[0]) && Disciplined(Step(s, es[0]), es[1..]))
  }

  // ---------- invariants ----------

  /** At most the newest attempt of an order is still alive. */
  ghost predicate OneAlive(rows: map<nat, A.Row>) {
    forall i, j :: i in rows && j in rows && i != j && rows[i].orderId == rows[j].orderId ==>
      rows[i].number != rows[j].number && (rows[i].number < rows[j].number ==> rows[i].status.Failed?)
  }

  /** Attempt `n` of the order exists, and it and all before it have FAILED. */
  ghost predicate GaveUp(rows: map<nat, A.Row>, order: int, n: int) {
    && (exists id :: Belongs(rows, id, order) && rows[id].number == n)
    && forall id :: Belongs(rows, id, order) && rows[id].number <= n ==> rows[id].status.Failed?
  }

  ghost predicate PaidBy(a: A.System, order: int, id: nat) {
    Belongs(a.rows, id, order) && A.OnChain(a, id)
  }

  ghost predicate JobSound(s: System, job: Job) {
    match job
    case Latest(_) => true
    case AskLedger(order, n) => GaveUp(s.a.rows, order, n)
    case Report(order, n) => GaveUp(s.a.rows, order, n)
    case MarkHeld(order, n) => GaveUp(s.a.rows, order, n) && Reached(s.ledger, order, AtHeld)
    case CheckAttempt(order, id, _) => Belongs(s.a.rows, id, order)
    case AskChain(order, id, _) => PaidBy(s.a, order, id)
    case Settle(order, id, _) => PaidBy(s.a, order, id)
    case MarkSettled(order, id, at) => PaidBy(s.a, order, id) && Reached(s.ledger, order, AtSettled(id, at))
    case MarkConfirmed(order, id) => PaidBy(s.a, order, id) && SettledBy(s.ledger, order, id)
  }

  ghost predicate OrderSound(s: System, order: int)
    requires order in s.orders
  {
    match s.orders[order]
    case Dispatching => order in s.ledger
    case Settled(id) => PaidBy(s.a, order, id) && SettledBy(s.ledger, order, id)
    case Held(n) => GaveUp(s.a.rows, order, n) && Reached(s.ledger, order, AtHeld)
  }

  ghost predicate Inv(s: System) {
    && A.Inv(s.a) && OneAlive(s.a.rows)
    && (forall w :: w in s.jobs ==> JobSound(s, s.jobs[w]))
    && (forall order :: order in s.orders ==> OrderSound(s, order))
  }

  /** Nothing a sound job or order relies on is taken back. */
  ghost predicate Keeps(s: System, s': System) {
    && (forall order, n :: GaveUp(s.a.rows, order, n) ==> GaveUp(s'.a.rows, order, n))
    && (forall order, id :: PaidBy(s.a, order, id) ==> PaidBy(s'.a, order, id))
    && (forall order, id :: Belongs(s.a.rows, id, order) ==> Belongs(s'.a.rows, id, order))
    && (forall order :: order in s.ledger ==> order in s'.ledger && (s.ledger[order] == InDispatch || s'.ledger[order] == s.ledger[order]))
  }

  lemma JobStays(s: System, s': System, job: Job)
    requires Keeps(s, s') && JobSound(s, job)
    ensures JobSound(s', job)
  {
  }

  lemma OrderStays(s: System, s': System, order: int)
    requires Keeps(s, s') && order in s.orders && order in s'.orders && s'.orders[order] == s.orders[order] && OrderSound(s, order)
    ensures OrderSound(s', order)
  {
  }

  // ---------- every step keeps them ----------

  lemma OnlyNextAdded(a: A.System, e: A.Event)
    ensures var a' := A.Step(a, e);
            a'.rows.Keys == a.rows.Keys || (a'.nextId != a.nextId && a'.rows.Keys == a.rows.Keys + {a.nextId})
  {
  }

  lemma AttemptKeeps(a: A.System, e: A.Event)
    requires A.Inv(a) && OneAlive(a.rows) && AllowedAttempt(a, e)
    ensures A.Inv(A.Step(a, e)) && OneAlive(A.Step(a, e).rows) && RowsKept(a, A.Step(a, e))
  {
    A.StepKeeps(a, e);
    OnlyNextAdded(a, e);
    RowsAreKept(a, A.Step(a, e));
  }

  /** Attempts only move forward, and any new one outnumbers the failed rest of its
      order. */
  ghost predicate RowsKept(a: A.System, a': A.System) {
    && (forall id :: id in a.rows ==> id in a'.rows && A.Forward(a.rows[id], a'.rows[id]))
    && (forall id, j :: id in a'.rows && id !in a.rows && j in a.rows && a.rows[j].orderId == a'.rows[id].orderId ==>
          a.rows[j].number < a'.rows[id].number)
  }

  /** What may become of the rows in one step: each moves forward, and at most one is
      added, allowed. */
  ghost predicate RowsAfter(a: A.System, a': A.System) {
    && (forall id :: id in a.rows ==> id in a'.rows && A.Forward(a.rows[id], a'.rows[id]))
    && (a'.rows.Keys == a.rows.Keys
        || (a'.rows.Keys == a.rows.Keys + {a.nextId}
            && forall id :: id in a.rows && a.rows[id].orderId == a'.rows[a.nextId].orderId ==>
                 a.rows[id].status.Failed? && a.rows[id].number < a'.rows[a.nextId].number))
  }

  lemma RowsAreKept(a: A.System, a': A.System)
    requires OneAlive(a.rows) && RowsAfter(a, a')
    ensures OneAlive(a'.rows) && RowsKept(a, a')
  {
    forall i, j | i in a'.rows && j in a'.rows && i != j && a'.rows[i].orderId == a'.rows[j].orderId
      ensures a'.rows[i].number != a'.rows[j].number
      ensures a'.rows[i].number < a'.rows[j].number ==> a'.rows[i].status.Failed?
    {
      StillOneAlive(a, a', i, j);
    }
  }

  lemma StillOneAlive(a: A.System, a': A.System, i: nat, j: nat)
    requires OneAlive(a.rows) && RowsAfter(a, a') && i in a'.rows && j in a'.rows && i != j && a'.rows[i].orderId == a'.rows[j].orderId
    ensures a'.rows[i].number != a'.rows[j].number
    ensures a'.rows[i].number < a'.rows[j].number ==> a'.rows[i].status.Failed?
  {
    if i in a.rows {
      assert A.Forward(a.rows[i], a'.rows[i]);
    }
    if j in a.rows {
      assert A.Forward(a.rows[j], a'.rows[j]);
    }
  }

  lemma RowsKeptKeeps(s: System, a': A.System)
    requires RowsKept(s.a, a')
    ensures Keeps(s, s.(a := a'))
  {
    var s' := s.(a := a');
    forall order, n | GaveUp(s.a.rows, order, n)
      ensures GaveUp(s'.a.rows, order, n)
    {
      var top :| Belongs(s.a.rows, top, order) && s.a.rows[top].number == n;
      assert A.Forward(s.a.rows[top], a'.rows[top]);
      forall id | Belongs(a'.rows, id, order) && a'.rows[id].number <= n
        ensures a'.rows[id].status.Failed?
      {
        assert id in s.a.rows ==> A.Forward(s.a.rows[id], a'.rows[id]);
      }
      assert Belongs(a'.rows, top, order);
    }
    forall order, id | Belongs(s.a.rows, id, order)
      ensures Belongs(a'.rows, id, order) && (A.OnChain(s.a, id) ==> A.OnChain(a', id))
    {
      assert A.Forward(s.a.rows[id], a'.rows[id]);
    }
  }

  /** Jobs and orders other than the one at work stay sound. */
  lemma OthersKeep(s: System, s': System, w: nat)
    requires Inv(s) && Keeps(s, s') && A.Inv(s'.a) && OneAlive(s'.a.rows)
    requires forall v :: v in s'.jobs && v != w ==> v in s.jobs && s'.jobs[v] == s.jobs[v]
    requires w in s'.jobs ==> JobSound(s', s'.jobs[w])
    requires forall order :: order in s'.orders ==> OrderSound(s', order) || (order in s.orders && s'.orders[order] == s.orders[order])
    ensures Inv(s')
  {
    forall v | v in s'.jobs
      ensures JobSound(s', s'.jobs[v])
    {
      if v != w {
        JobStays(s, s', s.jobs[v]);
      }
    }
    forall order | order in s'.orders
      ensures OrderSound(s', order)
    {
      if order in s.orders && s'.orders[order] == s.orders[order] {
        OrderStays(s, s', order);
      }
    }
  }

  lemma LatestGaveUp(s: System, order: int)
    requires OneAlive(s.a.rows) && LatestFor(s.a.rows, order).Some?
    ensures var id := LatestFor(s.a.rows, order).value;
            IsLatest(s.a.rows, id, order)
            && (s.a.rows[id].status.Failed? ==> GaveUp(s.a.rows, order, s.a.rows[id].number))
  {
  }

  /** A job moves on, or ends, and nothing else happens. */
  lemma MoveKeeps(s: System, w: nat, job: Option<Job>)
    requires Inv(s) && (job.Some? ==> JobSound(s, job.value))
    ensures var s' := if job.Some? then Go(s, w, job.value) else Quit(s, w); Inv(s') && Keeps(s, s')
  {
    OthersKeep(s, if job.Some? then Go(s, w, job.value) else Quit(s, w), w);
  }

  lemma TransitionKeeps(s: System, order: int, to: LedgerState)
    requires Inv(s)
    ensures var s' := s.(ledger := Transition(s.ledger, order, to)); Inv(s') && Keeps(s, s')
  {
    var s' := s.(ledger := Transition(s.ledger, order, to));
    forall w | w in s.jobs
      ensures JobSound(s', s.jobs[w])
    {
      JobStays(s, s', s.jobs[w]);
    }
    forall o | o in s.orders
      ensures OrderSound(s', o)
    {
      OrderStays(s, s', o);
    }
  }

  lemma MarkingKeeps(s: System, order: int, to: Progress)
    requires Inv(s) && !to.Dispatching?
    requires to.Settled? ==> PaidBy(s.a, order, to.attempt) && SettledBy(s.ledger, order, to.attempt)
    requires to.Held? ==> GaveUp(s.a.rows, order, to.seen) && Reached(s.ledger, order, AtHeld)
    ensures var s' := s.(orders := Marking(s.orders, order, to)); Inv(s') && Keeps(s, s')
  {
    var s' := s.(orders := Marking(s.orders, order, to));
    forall w | w in s.jobs
      ensures JobSound(s', s.jobs[w])
    {
      JobStays(s, s', s.jobs[w]);
    }
    forall o | o in s'.orders
      ensures OrderSound(s', o)
    {
      if s'.orders[o] == s.orders[o] {
        OrderStays(s, s', o);
      }
    }
  }

  lemma AttemptStepKeeps(s: System, e: A.Event)
    requires Inv(s) && AllowedAttempt(s.a, e)
    ensures var s' := s.(a := A.Step(s.a, e)); Inv(s') && Keeps(s, s')
  {
    var s' := s.(a := A.Step(s.a, e));
    AttemptKeeps(s.a, e);
    RowsKeptKeeps(s, s'.a);
    forall w | w in s.jobs
      ensures JobSound(s', s.jobs[w])
    {
      JobStays(s, s', s.jobs[w]);
    }
    forall o | o in s.orders
      ensures OrderSound(s', o)
    {
      OrderStays(s, s', o);
    }
  }

  lemma WorkKeeps(s: System, w: nat, reply: Reply)
    requires Inv(s) && w in s.jobs
    ensures Inv(WorkOf(s, w, reply)) && Keeps(s, WorkOf(s, w, reply))
  {
    assert JobSound(s, s.jobs[w]);
    match s.jobs[w]
    case Latest(order) => LatestKeeps(s, w, reply);
    case AskLedger(order, n) => MoveKeeps(s, w, if reply.Fails? || !Reached(s.ledger, order, InDispatch) then None else Some(Report(order, n)));
    case Report(order, n) =>
      if Reached(s.ledger, order, InDispatch) { LedgerKeeps(s, w, reply, order, AtHeld, MarkHeld(order, n)); } else { MoveKeeps(s, w, None); }
    case MarkHeld(order, n) => MarkHeldKeeps(s, w, reply);
    case CheckAttempt(order, id, at) =>
      MoveKeeps(s, w, if reply.Fails? || id !in s.a.rows || !s.a.rows[id].status.Broadcast? || s.a.rows[id].txid.None? then None
                      else Some(AskChain(order, id, at)));
    case AskChain(order, id, at) => MoveKeeps(s, w, if reply.Fine? && reply.final then Some(Settle(order, id, at)) else None);
    case Settle(order, id, at) => LedgerKeeps(s, w, reply, order, AtSettled(id, at), MarkSettled(order, id, at));
    case MarkSettled(order, id, at) => MarkSettledKeeps(s, w, reply);
    case MarkConfirmed(order, id) => MarkConfirmedKeeps(s, w, reply);
  }

  lemma LatestKeeps(s: System, w: nat, reply: Reply)
    requires Inv(s) && w in s.jobs && s.jobs[w].Latest?
    ensures Inv(WorkOf(s, w, reply)) && Keeps(s, WorkOf(s, w, reply))
  {
    var order := s.jobs[w].order;
    var latest := LatestFor(s.a.rows, order);
    if reply.Fails? || latest.None? || !s.a.rows[latest.value].status.Failed? {
      MoveKeeps(s, w, None);
    } else {
      LatestGaveUp(s, order);
      MoveKeeps(s, w, Some(AskLedger(order, s.a.rows[latest.value].number)));
    }
  }

  lemma KeepsThen(s: System, s1: System, s2: System)
    requires Keeps(s, s1) && Keeps(s1, s2)
    ensures Keeps(s, s2)
  {
  }

  /** A ledger transition, and the job that follows if the ledger obliged. */
  lemma LedgerKeeps(s: System, w: nat, reply: Reply, order: int, to: LedgerState, next: Job)
    requires Inv(s)
    requires forall s1: System :: s1.a == s.a && Reached(s1.ledger, order, to) ==> JobSound(s1, next)
    ensures var s1 := if reply.Fails? then s else s.(ledger := Transition(s.ledger, order, to));
            var s' := if !reply.Fine? || !Reached(s1.ledger, order, to) then Quit(s1, w) else Go(s1, w, next);
            Inv(s') && Keeps(s, s')
  {
    if reply.Fails? {
      MoveKeeps(s, w, None);
    } else {
      var s1 := s.(ledger := Transition(s.ledger, order, to));
      TransitionKeeps(s, order, to);
      var job := if reply.Unheard? || !Reached(s1.ledger, order, to) then None else Some(next);
      MoveKeeps(s1, w, job);
      KeepsThen(s, s1, if job.Some? then Go(s1, w, next) else Quit(s1, w));
    }
  }

  lemma MarkHeldKeeps(s: System, w: nat, reply: Reply)
    requires Inv(s) && w in s.jobs && s.jobs[w].MarkHeld?
    ensures Inv(WorkOf(s, w, reply)) && Keeps(s, WorkOf(s, w, reply))
  {
    assert JobSound(s, s.jobs[w]);
    var MarkHeld(order, n) := s.jobs[w];
    if reply.Fails? {
      MoveKeeps(s, w, None);
    } else {
      var s1 := s.(orders := Marking(s.orders, order, Held(n)));
      MarkingKeeps(s, order, Held(n));
      MoveKeeps(s1, w, None);
      KeepsThen(s, s1, Quit(s1, w));
    }
  }

  lemma MarkSettledKeeps(s: System, w: nat, reply: Reply)
    requires Inv(s) && w in s.jobs && s.jobs[w].MarkSettled?
    ensures Inv(WorkOf(s, w, reply)) && Keeps(s, WorkOf(s, w, reply))
  {
    assert JobSound(s, s.jobs[w]);
    var MarkSettled(order, id, at) := s.jobs[w];
    if reply.Fails? {
      MoveKeeps(s, w, None);
    } else {
      var s1 := s.(orders := Marking(s.orders, order, Settled(id)));
      MarkingKeeps(s, order, Settled(id));
      var job := if reply.Unheard? || !Marked(s1.orders, order, Settled(id)) then None else Some(MarkConfirmed(order, id));
      MoveKeeps(s1, w, job);
      KeepsThen(s, s1, if job.Some? then Go(s1, w, job.value) else Quit(s1, w));
    }
  }

  lemma MarkConfirmedKeeps(s: System, w: nat, reply: Reply)
    requires Inv(s) && w in s.jobs && s.jobs[w].MarkConfirmed?
    ensures Inv(WorkOf(s, w, reply)) && Keeps(s, WorkOf(s, w, reply))
  {
    if reply.Fails? {
      MoveKeeps(s, w, None);
    } else {
      var s1 := s.(a := A.Step(s.a, A.Confirm(s.jobs[w].id)));
      AttemptStepKeeps(s, A.Confirm(s.jobs[w].id));
      MoveKeeps(s1, w, None);
      KeepsThen(s, s1, Quit(s1, w));
    }
  }

  /** Orders entering, and jobs beginning or being cut off. */
  lemma EdgesKeep(s: System, e: Event)
    requires Inv(s) && !e.Attempt? && !e.Work?
    ensures Inv(Step(s, e)) && Keeps(s, Step(s, e))
  {
    match e
    case Enter(order) => EnterKeeps(s, order);
    case Record(order) => RecordKeeps(s, order);
    case Reconcile(w, order) =>
      if Step(s, e) == s { NothingKeeps(s); } else { MoveKeeps(s, w, Some(Latest(order))); }
    case Confirm(w, order, id, at) =>
      if Step(s, e) == s { NothingKeeps(s); } else { MoveKeeps(s, w, Some(CheckAttempt(order, id, at))); }
    case Stop(w) => MoveKeeps(s, w, None);
  }

  lemma NothingKeeps(s: System)
    ensures Keeps(s, s)
  {
  }

  lemma EnterKeeps(s: System, order: int)
    requires Inv(s)
    ensures Inv(Step(s, Enter(order))) && Keeps(s, Step(s, Enter(order)))
  {
    var s' := Step(s, Enter(order));
    forall w | w in s.jobs
      ensures JobSound(s', s.jobs[w])
    {
      JobStays(s, s', s.jobs[w]);
    }
    forall o | o in s.orders
      ensures OrderSound(s', o)
    {
      OrderStays(s, s', o);
    }
  }

  lemma RecordKeeps(s: System, order: int)
    requires Inv(s)
    ensures Inv(Step(s, Record(order))) && Keeps(s, Step(s, Record(order)))
  {
    var s' := Step(s, Record(order));
    NothingKeeps(s);
    forall w | w in s.jobs
      ensures JobSound(s', s.jobs[w])
    {
      JobStays(s, s', s.jobs[w]);
    }
    forall o | o in s'.orders
      ensures OrderSound(s', o)
    {
      if o in s.orders {
        OrderStays(s, s', o);
      }
    }
  }

  lemma StepKeeps(s: System, e: Event)
    requires Inv(s) && Allowed(s, e)
    ensures Inv(Step(s, e)) && Keeps(s, Step(s, e))
  {
    if e.Attempt? {
      AttemptStepKeeps(s, e.e);
    } else if !e.Work? {
      EdgesKeep(s, e);
    } else if e.w in s.jobs {
      WorkKeeps(s, e.w, e.reply);
    }
  }

  lemma {:induction false} RunKeeps(s: System, es: seq<Event>)
    requires Inv(s) && Disciplined(s, es)
    ensures Inv(Run(s, es))
    decreases |es|
  {
    if es != [] {
      StepKeeps(s, es[0]);
      RunKeeps(Step(s, es[0]), es[1..]);
    }
  }

  // ---------- held or settled, and the chain ----------

  /** Some submission for the attempt was accepted. */
  ghost predicate Paid(a: A.System, id: nat) {
    A.Accepted(a.sent, id) > 0
  }

  /** An acceptance of the attempt's transfer was undone, so never recorded. */
  ghost predicate Unrecorded(a: A.System, id: nat) {
    a.rollbacks[id] > 0
  }

  lemma EmptyHolds()
    ensures Inv(Empty)
  {
  }

  /** A failed attempt was paid exactly if an acceptance went unrecorded; one on chain
      has been accepted once more than that. */
  lemma AttemptBooks(a: A.System, id: nat)
    requires A.Inv(a) && id in a.rows
    ensures a.rows[id].status.Failed? ==> A.Accepted(a.sent, id) == a.rollbacks[id]
    ensures A.OnChain(a, id) ==> A.Accepted(a.sent, id) == a.rollbacks[id] + 1
  {
    if A.InFlight(a, id) {
      assert a.rows[id].status.Signed?;
    }
  }

  /** When an order closed as held was paid after all: exactly if an acceptance for one
      of its attempts went unrecorded, or a later attempt, begun while the order was being
      closed, is stored BROADCAST or CONFIRMED or is just being committed as such. */
  lemma HeldYetPaidIff(es: seq<Event>, order: int)
    requires Disciplined(Empty, es) && order in Run(Empty, es).orders && Run(Empty, es).orders[order].Held?
    ensures var s := Run(Empty, es);
            var n := s.orders[order].seen;
            (exists id :: Belongs(s.a.rows, id, order) && Paid(s.a, id))
            <==> (exists id :: Belongs(s.a.rows, id, order)
                    && (Unrecorded(s.a, id)
                        || (s.a.rows[id].number > n && (A.OnChain(s.a, id) || A.InFlight(s.a, id)))))
  {
    EmptyHolds();
    RunKeeps(Empty, es);
    var s := Run(Empty, es);
    assert OrderSound(s, order);
    forall id | Belongs(s.a.rows, id, order)
      ensures s.a.rows[id].number <= s.orders[order].seen ==> (Paid(s.a, id) <==> Unrecorded(s.a, id))
      ensures Paid(s.a, id) <==> Unrecorded(s.a, id) || A.OnChain(s.a, id) || A.InFlight(s.a, id)
    {
      AttemptBooks(s.a, id);
    }
  }

  /** So, if no acceptance went unrecorded and no attempt was begun after the one given
      up, a held order was never paid. */
  lemma HeldWasNotPaid(es: seq<Event>, order: int, id: nat)
    requires Disciplined(Empty, es) && order in Run(Empty, es).orders && Run(Empty, es).orders[order].Held?
    requires var s := Run(Empty, es);
             forall j :: Belongs(s.a.rows, j, order) ==> !Unrecorded(s.a, j) && s.a.rows[j].number <= s.orders[order].seen
    requires Belongs(Run(Empty, es).a.rows, id, order)
    ensures !Paid(Run(Empty, es).a, id)
  {
    HeldYetPaidIff(es, order);
  }

  /** A settled order was paid by the attempt that settled it, once more than went
      unrecorded; and by no other attempt, save what went unrecorded. */
  lemma SettledWasPaidOnce(es: seq<Event>, order: int, id: nat)
    requires Disciplined(Empty, es) && order in Run(Empty, es).orders && Run(Empty, es).orders[order].Settled?
    requires Belongs(Run(Empty, es).a.rows, id, order)
    ensures var s := Run(Empty, es);
            A.Accepted(s.a.sent, id) == s.a.rollbacks[id] + (if id == s.orders[order].attempt then 1 else 0)
    ensures var s := Run(Empty, es); Belongs(s.a.rows, s.orders[order].attempt, order)
  {
    EmptyHolds();
    RunKeeps(Empty, es);
    var s := Run(Empty, es);
    assert OrderSound(s, order);
    var winner := s.orders[order].attempt;
    AttemptBooks(s.a, id);
    if id != winner {
      assert !s.a.rows[winner].status.Failed?;
      assert s.a.rows[id].status.Failed?;
    }
  }

  /** dispatch_state never says what the ledger does not, and never changes its mind:
      an order leaves DISPATCHING once. */
  lemma {:induction false} DecidedOnce(s: System, es: seq<Event>, order: int)
    requires order in s.orders && s.orders[order] != Dispatching
    ensures order in Run(s, es).orders && Run(s, es).orders[order] == s.orders[order]
    decreases |es|
  {
    if es != [] {
      StepDecides(s, es[0], order);
      DecidedOnce(Step(s, es[0]), es[1..], order);
    }
  }

  lemma StepDecides(s: System, e: Event, order: int)
    requires order in s.orders && s.orders[order] != Dispatching
    ensures order in Step(s, e).orders && Step(s, e).orders[order] == s.orders[order]
  {
  }

  lemma LocalMatchesLedger(es: seq<Event>, order: int)
    requires Disciplined(Empty, es) && order in Run(Empty, es).orders
    ensures var s := Run(Empty, es);
            && order in s.ledger
            && (s.orders[order].Held? ==> s.ledger[order] == AtHeld)
            && (s.orders[order].Settled? ==> SettledBy(s.ledger, order, s.orders[order].attempt))
  {
    EmptyHolds();
    RunKeeps(Empty, es);
    assert OrderSound(Run(Empty, es), order);
  }

  // ---------- which answers lead there ----------

  /** The chain answers that the attempt's payout is final, to a confirmation as of `at`. */
  ghost predicate ToldFinal(s: System, e: Event, order: int, id: nat, at: int) {
    e.Work? && e.w in s.jobs && s.jobs[e.w] == AskChain(order, id, at) && e.reply == Fine(true)
  }

  ghost predicate EverToldFinal(s: System, es: seq<Event>, order: int, id: nat, at: int)
    decreases |es|
  {
    es != [] && (ToldFinal(s, es[0], order, id, at) || EverToldFinal(Step(s, es[0]), es[1..], order, id, at))
  }

  /** Settled, or about to be. */
  ghost predicate SettleDue(s: System, order: int, id: nat, at: int) {
    Reached(s.ledger, order, AtSettled(id, at)) || exists w :: w in s.jobs && s.jobs[w] == Settle(order, id, at)
  }

  lemma StepSettles(s: System, e: Event, order: int, id: nat, at: int)
    requires SettleDue(Step(s, e), order, id, at)
    ensures SettleDue(s, order, id, at) || ToldFinal(s, e, order, id, at)
  {
    var s' := Step(s, e);
    if !Reached(s'.ledger, order, AtSettled(id, at)) {
      var w :| w in s'.jobs && s'.jobs[w] == Settle(order, id, at);
      if e.Work? && e.w in s.jobs && e.w == w {
        assert s.jobs[w] == AskChain(order, id, at) && e.reply == Fine(true);
      } else {
        assert w in s.jobs && s.jobs[w] == Settle(order, id, at);
      }
    } else if !Reached(s.ledger, order, AtSettled(id, at)) {
      assert e.Work? && s.jobs[e.w] == Settle(order, id, at);
    }
  }

  lemma {:induction false} RunSettles(s: System, es: seq<Event>, order: int, id: nat, at: int)
    requires SettleDue(Run(s, es), order, id, at)
    ensures SettleDue(s, order, id, at) || EverToldFinal(s, es, order, id, at)
    decreases |es|
  {
    if es != [] {
      RunSettles(Step(s, es[0]), es[1..], order, id, at);
      if SettleDue(Step(s, es[0]), order, id, at) {
        StepSettles(s, es[0], order, id, at);
      }
    }
  }

  /** Over every run: the ledger has an order settled by an attempt as of `at` only if the
      chain told a confirmation of that attempt, as of `at`, that its payout is final. */
  lemma SettledWasFinal(es: seq<Event>, order: int, id: nat, at: int)
    requires Reached(Run(Empty, es).ledger, order, AtSettled(id, at))
    ensures EverToldFinal(Empty, es, order, id, at)
  {
    RunSettles(Empty, es, order, id, at);
  }

  /** A pass reads the order's latest attempt, and it has FAILED. */
  ghost predicate ReadsFailed(s: System, e: Event, order: int) {
    && e.Work? && e.w in s.jobs && s.jobs[e.w] == Latest(order) && !e.reply.Fails?
    && exists id :: IsLatest(s.a.rows, id, order) && s.a.rows[id].status.Failed?
  }

  ghost predicate EverReadFailed(s: System, es: seq<Event>, order: int)
    decreases |es|
  {
    es != [] && (ReadsFailed(s, es[0], order) || EverReadFailed(Step(s, es[0]), es[1..], order))
  }

  predicate HoldsNext(job: Job, order: int) {
    (job.AskLedger? || job.Report?) && job.order == order
  }

  /** Held, or about to be. */
  ghost predicate HoldDue(s: System, order: int) {
    Reached(s.ledger, order, AtHeld) || exists w :: w in s.jobs && HoldsNext(s.jobs[w], order)
  }

  lemma StepHolds(s: System, e: Event, order: int)
    requires HoldDue(Step(s, e), order)
    ensures HoldDue(s, order) || ReadsFailed(s, e, order)
  {
    var s' := Step(s, e);
    if !Reached(s'.ledger, order, AtHeld) {
      var w :| w in s'.jobs && HoldsNext(s'.jobs[w], order);
      if e.Work? && e.w in s.jobs && e.w == w {
        assert s.jobs[w] == Latest(order) || HoldsNext(s.jobs[w], order);
      } else {
        assert w in s.jobs && HoldsNext(s.jobs[w], order);
      }
    } else if !Reached(s.ledger, order, AtHeld) {
      assert e.Work? && HoldsNext(s.jobs[e.w], order);
    }
  }

  lemma {:induction false} RunHolds(s: System, es: seq<Event>, order: int)
    requires HoldDue(Run(s, es), order)
    ensures HoldDue(s, order) || EverReadFailed(s, es, order)
    decreases |es|
  {
    if es != [] {
      RunHolds(Step(s, es[0]), es[1..], order);
      if HoldDue(Step(s, es[0]), order) {
        StepHolds(s, es[0], order);
      }
    }
  }

  /** And it has an order held only if a pass read its latest attempt as FAILED. */
  lemma HeldHadFailed(es: seq<Event>, order: int)
    requires Reached(Run(Empty, es).ledger, order, AtHeld)
    ensures EverReadFailed(Empty, es, order)
  {
    RunHolds(Empty, es, order);
  }

  // ---------- decided at the ledger, and nowhere else ----------

  /** This job can still write the order's decision, or the attempt's confirmation, if the
      ledger has the order settled by attempt `id` as of `at`. */
  predicate CanFinish(job: Job, order: int, id: nat, at: int) {
    match job
    case MarkHeld(o, _) => o == order
    case MarkSettled(o, _, _) => o == order
    case MarkConfirmed(_, i) => i == id
    case CheckAttempt(o, i, t) => o == order && i == id && t == at
    case AskChain(o, i, t) => o == order && i == id && t == at
    case Settle(o, i, t) => o == order && i == id && t == at
    case _ => false
  }

  /** The ledger has the order settled by the attempt as of `at`; the attempt is still
      BROADCAST, and no job that could change that is under way. */
  ghost predicate SettledOnlyAtLedger(s: System, order: int, id: nat, at: int) {
    && Reached(s.ledger, order, AtSettled(id, at)) && order in s.orders
    && Belongs(s.a.rows, id, order) && s.a.rows[id].status.Broadcast?
    && forall w :: w in s.jobs ==> !CanFinish(s.jobs[w], order, id, at)
  }

  /** Nobody confirms the attempt with the booked time. */
  ghost predicate OtherTimes(es: seq<Event>, order: int, id: nat, at: int) {
    forall e :: e in es ==> OtherTime(e, order, id, at)
  }

  predicate OtherTime(e: Event, order: int, id: nat, at: int) {
    && (e.Attempt? ==> e.e != A.Confirm(id))
    && (e.Confirm? && e.order == order && e.id == id ==> e.at != at)
  }

  /** Only its confirmation changes a BROADCAST attempt's status. */
  lemma BroadcastStays(a: A.System, e: A.Event, id: nat)
    requires A.Inv(a) && id in a.rows && a.rows[id].status.Broadcast? && e != A.Confirm(id)
    ensures id in A.Step(a, e).rows && A.Step(a, e).rows[id].status.Broadcast? && A.Step(a, e).rows[id].orderId == a.rows[id].orderId
  {
    A.StepKeeps(a, e);
    assert A.Forward(a.rows[id], A.Step(a, e).rows[id]);
    if e.Act? && e.c in a.callers {
      ActConfirmsNothing(a, e.c, e.env, id);
    } else if !e.Act? {
      OthersConfirmNothing(a, e, id);
    }
  }

  lemma ActConfirmsNothing(a: A.System, c: nat, env: A.Env, id: nat)
    requires c in a.callers
    ensures var a' := A.ActOf(a, c, env); id in a'.rows && a'.rows[id].status.Confirmed? ==> id in a.rows && a.rows[id].status.Confirmed?
  {
  }

  lemma OthersConfirmNothing(a: A.System, e: A.Event, id: nat)
    requires !e.Act? && e != A.Confirm(id)
    ensures var a' := A.Step(a, e); id in a'.rows && a'.rows[id].status.Confirmed? ==> id in a.rows && a.rows[id].status.Confirmed?
  {
  }

  lemma StepStaysUnsettled(s: System, e: Event, order: int, id: nat, at: int)
    requires Inv(s) && Allowed(s, e) && SettledOnlyAtLedger(s, order, id, at) && OtherTime(e, order, id, at)
    ensures SettledOnlyAtLedger(Step(s, e), order, id, at) && Step(s, e).orders[order] == s.orders[order]
  {
    if e.Attempt? {
      BroadcastStays(s.a, e.e, id);
    } else if e.Work? && e.w in s.jobs {
      assert !CanFinish(s.jobs[e.w], order, id, at);
      WorkStaysUnsettled(s, e.w, e.reply, order, id, at);
    }
  }

  lemma WorkStaysUnsettled(s: System, w: nat, reply: Reply, order: int, id: nat, at: int)
    requires w in s.jobs && JobSound(s, s.jobs[w]) && SettledOnlyAtLedger(s, order, id, at)
    ensures SettledOnlyAtLedger(WorkOf(s, w, reply), order, id, at) && WorkOf(s, w, reply).orders[order] == s.orders[order]
  {
    var s' := WorkOf(s, w, reply);
    assert !CanFinish(s.jobs[w], order, id, at);
    match s.jobs[w]
    case Latest(_) =>
    case AskLedger(_, _) =>
    case Report(_, _) =>
    case MarkHeld(_, _) =>
    case CheckAttempt(_, _, _) =>
    case AskChain(_, _, _) =>
    case Settle(_, _, _) =>
    case MarkSettled(_, _, _) =>
    case MarkConfirmed(_, _) =>
  }

  /** Over every run: once an order is settled at the ledger, and the call that settled it
      has ended without saying so anywhere else, then without a confirmation that gives
      the very time booked, the attempt stays BROADCAST and dispatch_state as it is. */
  lemma {:induction false} UnsettledForGood(s: System, es: seq<Event>, order: int, id: nat, at: int)
    requires Inv(s) && Disciplined(s, es) && SettledOnlyAtLedger(s, order, id, at) && OtherTimes(es, order, id, at)
    ensures SettledOnlyAtLedger(Run(s, es), order, id, at) && Run(s, es).orders[order] == s.orders[order]
    decreases |es|
  {
    if es != [] {
      assert es[0] in es;
      StepKeeps(s, es[0]);
      StepStaysUnsettled(s, es[0], order, id, at);
      UnsettledForGood(Step(s, es[0]), es[1..], order, id, at);
    }
  }

  /** `k` calls in a row, every one answered, and the payout final. */
  function Working(w: nat, k: nat): seq<Event> {
    if k == 0 then [] else [Work(w, Fine(true))] + Working(w, k - 1)
  }

  /** A whole confirmation that goes through: five calls at most. */
  function Confirming(w: nat, order: int, id: nat, occurredAt: int): seq<Event> {
    [Confirm(w, order, id, occurredAt)] + Working(w, 5)
  }

  lemma WorkOnce(s: System, w: nat, k: nat)
    requires k > 0
    ensures Run(s, Working(w, k)) == Run(Step(s, Work(w, Fine(true))), Working(w, k - 1))
  {
    assert Working(w, k)[1..] == Working(w, k - 1);
  }

  lemma {:induction false} WorkAlone(s: System, w: nat, k: nat)
    requires w !in s.jobs
    ensures Run(s, Working(w, k)) == s
  {
    if k > 0 {
      WorkOnce(s, w, k);
      WorkAlone(s, w, k - 1);
    }
  }

  /** Such an order is completed by a later confirmation exactly if that gives the time
      booked: with it, dispatch_state becomes SETTLED (if it is not) and the attempt
      CONFIRMED; with any other, nothing at all changes. */
  lemma RetryCompletesIff(s: System, w: nat, order: int, id: nat, at: int, occurredAt: int)
    requires Inv(s) && SettledOnlyAtLedger(s, order, id, at) && w !in s.jobs
    ensures Run(s, Confirming(w, order, id, occurredAt))
              == if occurredAt != at then s
                 else s.(orders := if s.orders[order] == Dispatching then s.orders[order := Settled(id)] else s.orders,
                         a := s.a.(rows := s.a.rows[id := s.a.rows[id].(status := A.Confirmed)]))
    ensures s.orders[order] == Dispatching || s.orders[order].Settled?
  {
    assert OrderSound(s, order);
    RetryComesToLedger(s, w, order, id, at, occurredAt);
    if occurredAt == at {
      RetryFinishes(s, w, order, id, at);
    } else {
      RetryIsRefused(s, w, order, id, at, occurredAt);
    }
  }

  lemma RetryIsRefused(s: System, w: nat, order: int, id: nat, at: int, occurredAt: int)
    requires Reached(s.ledger, order, AtSettled(id, at)) && w !in s.jobs && occurredAt != at
    ensures Run(Go(s, w, Settle(order, id, occurredAt)), Working(w, 3)) == s
  {
    WorkOnce(Go(s, w, Settle(order, id, occurredAt)), w, 3);
    var refused := Step(Go(s, w, Settle(order, id, occurredAt)), Work(w, Fine(true)));
    assert refused.jobs == s.jobs;
    WorkAlone(refused, w, 2);
  }

  lemma RetryComesToLedger(s: System, w: nat, order: int, id: nat, at: int, occurredAt: int)
    requires Inv(s) && SettledOnlyAtLedger(s, order, id, at) && w !in s.jobs
    ensures Run(s, Confirming(w, order, id, occurredAt)) == Run(Go(s, w, Settle(order, id, occurredAt)), Working(w, 3))
  {
    assert A.RowSound(s.a.rows[id]);
    var checking := Go(s, w, CheckAttempt(order, id, occurredAt));
    var asking := Go(s, w, AskChain(order, id, occurredAt));
    assert Confirming(w, order, id, occurredAt)[1..] == Working(w, 5);
    assert Step(s, Confirm(w, order, id, occurredAt)) == checking;
    WorkOnce(checking, w, 5);
    assert Step(checking, Work(w, Fine(true))) == asking;
    WorkOnce(asking, w, 4);
    assert Step(asking, Work(w, Fine(true))) == Go(s, w, Settle(order, id, occurredAt));
  }

  lemma RetryFinishes(s: System, w: nat, order: int, id: nat, at: int)
    requires Reached(s.ledger, order, AtSettled(id, at)) && w !in s.jobs
    requires Marked(Marking(s.orders, order, Settled(id)), order, Settled(id))
    ensures Run(Go(s, w, Settle(order, id, at)), Working(w, 3))
              == s.(orders := Marking(s.orders, order, Settled(id)), a := A.ConfirmedRow(s.a, id))
  {
    var work := Work(w, Fine(true));
    WorkOnce(Go(s, w, Settle(order, id, at)), w, 3);
    assert Step(Go(s, w, Settle(order, id, at)), work) == Go(s, w, MarkSettled(order, id, at));
    WorkOnce(Go(s, w, MarkSettled(order, id, at)), w, 2);
    var marked := s.(orders := Marking(s.orders, order, Settled(id)));
    assert Step(Go(s, w, MarkSettled(order, id, at)), work) == Go(marked, w, MarkConfirmed(order, id));
    WorkOnce(Go(marked, w, MarkConfirmed(order, id)), w, 1);
    var done := Step(Go(marked, w, MarkConfirmed(order, id)), work);
    assert done.jobs == s.jobs;
    WorkAlone(done, w, 0);
  }

  /** The ledger has the order held, and dispatch_state does not. */
  ghost predicate HeldOnlyAtLedger(s: System, order: int) {
    Reached(s.ledger, order, AtHeld) && order in s.orders && s.orders[order] == Dispatching
  }

  /** Some pass has held the order at the ledger and is about to say so. */
  ghost predicate AboutToMark(s: System, order: int) {
    exists w :: w in s.jobs && s.jobs[w].MarkHeld? && s.jobs[w].order == order
  }

  lemma StepStaysHeld(s: System, e: Event, order: int)
    requires Inv(s) && HeldOnlyAtLedger(s, order) && !AboutToMark(s, order)
    ensures HeldOnlyAtLedger(Step(s, e), order) && !AboutToMark(Step(s, e), order)
  {
    if e.Work? && e.w in s.jobs {
      assert JobSound(s, s.jobs[e.w]);
      assert !(s.jobs[e.w].MarkHeld? && s.jobs[e.w].order == order);
    }
  }

  lemma {:induction false} HeldOnlyAtLedgerForGood(s: System, es: seq<Event>, order: int)
    requires Inv(s) && Disciplined(s, es) && HeldOnlyAtLedger(s, order) && !AboutToMark(s, order)
    ensures HeldOnlyAtLedger(Run(s, es), order)
    decreases |es|
  {
    if es != [] {
      StepKeeps(s, es[0]);
      StepStaysHeld(s, es[0], order);
      HeldOnlyAtLedgerForGood(Step(s, es[0]), es[1..], order);
    }
  }

  /** The run takes the order out of that state. */
  ghost predicate Leaves(s: System, es: seq<Event>, order: int) {
    Disciplined(s, es) && !HeldOnlyAtLedger(Run(s, es), order)
  }

  /** An order the ledger holds can still leave DISPATCHING exactly while the pass that
      held it is alive and about to mark it: every other pass leaves it alone, and the
      ledger refuses to hold it twice. */
  lemma HeldAtLedgerLeavesIff(s: System, order: int)
    requires Inv(s) && HeldOnlyAtLedger(s, order)
    ensures (exists es :: Leaves(s, es, order)) <==> AboutToMark(s, order)
  {
    if AboutToMark(s, order) {
      var w :| w in s.jobs && s.jobs[w].MarkHeld? && s.jobs[w].order == order;
      var es := [Work(w, Fine(false))];
      assert es[1..] == [];
      assert Run(Step(s, es[0]), []) == Step(s, es[0]);
      assert Disciplined(Step(s, es[0]), []);
      assert Step(s, es[0]).orders[order].Held?;
      assert Leaves(s, es, order);
    } else {
      forall es | Disciplined(s, es)
        ensures !Leaves(s, es, order)
      {
        HeldOnlyAtLedgerForGood(s, es, order);
      }
    }
  }

  // ---------- and it happens ----------

  lemma {:induction false} Extend(s: System, es: seq<Event>, e: Event)
    requires Disciplined(s, es) && Allowed(Run(s, es), e)
    ensures Disciplined(s, es + [e]) && Run(s, es + [e]) == Step(Run(s, es), e)
    decreases |es|
  {
    if es == [] {
      assert [e][1..] == [];
      assert Run(Step(s, e), []) == Step(s, e);
    } else {
      assert (es + [e])[0] == es[0] && (es + [e])[1..] == es[1..] + [e];
      Extend(Step(s, es[0]), es[1..], e);
    }
  }

  const Refusing := A.Env(false, A.Rejected, true, None, A.Undone)
  const Obliging := A.Env(false, A.Approved("sig"), true, Some("txid"), A.Committed)

  const FirstCall := A.Call(7, 0, 1, "first")
  const SecondCall := A.Call(7, 0, 2, "second")

  /** Order 7's first attempt is refused a signature, and a reconciliation pass has just
      read it as the order's latest. */
  ghost function AfterRead(): System {
    System(A.System(map[0 := A.NewRow(FirstCall).(status := A.Failed)], 1, map[],
                    map[0 := A.Caller(FirstCall, A.Finished(A.SignatureRejected))], [], multiset{}),
           map[7 := Dispatching], map[7 := InDispatch], map[0 := AskLedger(7, 1)])
  }

  /** Meanwhile a second attempt is signed, sent and recorded. */
  ghost function AfterPayout(): System {
    var row := A.NewRow(SecondCall).(status := A.Broadcast, signed := Some("sig"), txid := Some("txid"));
    AfterRead().(a := AfterRead().a.(rows := AfterRead().a.rows[1 := row], nextId := 2,
                                     callers := AfterRead().a.callers[1 := A.Caller(SecondCall, A.Finished(A.Done(row)))],
                                     sent := [A.Submission(1, "second", "sig", true)]))
  }

  /** Order 7's first attempt, up to the refusal. */
  lemma ReachRefusal() returns (es: seq<Event>)
    ensures Disciplined(Empty, es)
    ensures Run(Empty, es) == AfterRead().(jobs := map[])
  {
    es := [];
    Extend(Empty, es, Enter(7)); es := es + [Enter(7)];
    Extend(Empty, es, Record(7)); es := es + [Record(7)];
    es := Acting(es, A.Start(0, FirstCall));
    assert Run(Empty, es).a.callers[0].pc == A.Creating;
    es := Acting(es, A.Act(0, Refusing));
    assert Run(Empty, es).a.callers[0].pc == A.Reading(0);
    es := Acting(es, A.Act(0, Refusing));
    assert Run(Empty, es).a.callers[0].pc == A.Requesting(0);
    es := Acting(es, A.Act(0, Refusing));
    assert Run(Empty, es).a.callers[0].pc == A.Rejecting(0);
    es := Acting(es, A.Act(0, Refusing));
  }

  lemma ReachRead() returns (es: seq<Event>)
    ensures Disciplined(Empty, es) && Run(Empty, es) == AfterRead()
  {
    es := ReachRefusal();
    Extend(Empty, es, Reconcile(0, 7)); es := es + [Reconcile(0, 7)];
    assert IsLatest(AfterRead().a.rows, 0, 7);
    Extend(Empty, es, Work(0, Fine(false))); es := es + [Work(0, Fine(false))];
  }

  lemma Acting(es: seq<Event>, e: A.Event) returns (more: seq<Event>)
    requires Disciplined(Empty, es) && AllowedAttempt(Run(Empty, es).a, e)
    ensures more == es + [Attempt(e)] && Disciplined(Empty, more)
    ensures Run(Empty, more) == Run(Empty, es).(a := A.Step(Run(Empty, es).a, e))
  {
    Extend(Empty, es, Attempt(e));
    more := es + [Attempt(e)];
  }

  ghost function AfterSigning(): System {
    var row := A.NewRow(SecondCall).(status := A.Signed, signed := Some("sig"));
    AfterRead().(a := AfterRead().a.(rows := AfterRead().a.rows[1 := row], nextId := 2,
                                     callers := AfterRead().a.callers[1 := A.Caller(SecondCall, A.Locking(1))]))
  }

  lemma ReachSecond() returns (es: seq<Event>)
    ensures Disciplined(Empty, es)
    ensures Run(Empty, es) == AfterRead().(a := AfterRead().a.(rows := AfterRead().a.rows[1 := A.NewRow(SecondCall)], nextId := 2,
                                             callers := AfterRead().a.callers[1 := A.Caller(SecondCall, A.Reading(1))]))
  {
    es := ReachRead();
    es := Acting(es, A.Start(1, SecondCall));
    assert Run(Empty, es).a.callers[1].pc == A.Creating;
    es := Acting(es, A.Act(1, Obliging));
  }

  lemma ReachSigning() returns (es: seq<Event>)
    ensures Disciplined(Empty, es) && Run(Empty, es) == AfterSigning()
  {
    es := ReachSecond();
    es := Acting(es, A.Act(1, Obliging));
    assert Run(Empty, es).a.callers[1].pc == A.Requesting(1);
    es := Acting(es, A.Act(1, Obliging));
    assert Run(Empty, es).a.callers[1].pc == A.Storing(1, "sig");
    es := Acting(es, A.Act(1, Obliging));
    assert Run(Empty, es).a.rows == AfterSigning().a.rows;
  }

  lemma ReachSubmitted() returns (signing: seq<Event>, es: seq<Event>)
    ensures Disciplined(Empty, es) && signing <= es && Run(Empty, signing) == AfterSigning()
    ensures var s := Run(Empty, es);
            s == AfterSigning().(a := AfterSigning().a.(locks := map[1 := 1],
                                   callers := AfterSigning().a.callers[1 := A.Caller(SecondCall, A.Submitting(1, "sig"))]))
  {
    es := ReachSigning();
    signing := es;
    es := Acting(es, A.Act(1, Obliging));
  }

  lemma ReachPayout() returns (signing: seq<Event>, es: seq<Event>)
    ensures Disciplined(Empty, es) && Run(Empty, es) == AfterPayout()
    ensures signing <= es && Run(Empty, signing) == AfterSigning()
  {
    signing, es := ReachSubmitted();
    es := Acting(es, A.Act(1, Obliging));
    assert Run(Empty, es).a.callers[1].pc == A.Committing(1, "txid");
    es := Acting(es, A.Act(1, Obliging));
    assert Run(Empty, es).a.rows == AfterPayout().a.rows;
    assert Run(Empty, es).a.locks == map[];
  }

  /** A disciplined run that holds an order, and has the ledger reverse its conversion,
      although its payout went out: nothing re-reads the attempts between the pass's
      look at the latest one and its report. */
  lemma HeldYetPaid() returns (es: seq<Event>)
    ensures Disciplined(Empty, es)
    ensures var s := Run(Empty, es);
            && 7 in s.orders && s.orders[7] == Held(1) && 7 in s.ledger && s.ledger[7] == AtHeld
            && Belongs(s.a.rows, 1, 7) && A.OnChain(s.a, 1) && Paid(s.a, 1)
            && s.a.rollbacks == multiset{}
  {
    var _, payout := ReachPayout();
    es := payout;
    Extend(Empty, es, Work(0, Fine(false))); es := es + [Work(0, Fine(false))];
    Extend(Empty, es, Work(0, Fine(false))); es := es + [Work(0, Fine(false))];
    Extend(Empty, es, Work(0, Fine(false))); es := es + [Work(0, Fine(false))];
    var sent := Run(Empty, es).a.sent;
    assert sent == [A.Submission(1, "second", "sig", true)] && sent[..0] == [];
    assert A.Accepted(sent, 1) == A.Accepted([], 1) + 1;
  }

  /** A run in which the settlement is committed and its reply lost, and the retry, at a
      later time, is refused: the order is paid, settled at the ledger, and DISPATCHING,
      which by UnsettledForGood it stays. */
  lemma SettledButDispatching(at: int, later: int) returns (first: seq<Event>, es: seq<Event>)
    requires at != later
    ensures Disciplined(Empty, es) && es == first + Confirming(0, 7, 1, later)
    ensures var s := Run(Empty, es);
            s.orders == map[7 := Dispatching] && SettledOnlyAtLedger(s, 7, 1, at) && s.jobs == map[]
  {
    first := ReachLostReply(at);
    var s := Run(Empty, first);
    EmptyHolds();
    RunKeeps(Empty, first);
    RetryCompletesIff(s, 0, 7, 1, at, later);
    var more := Confirming(0, 7, 1, later);
    ThenConfirming(first, more, s);
    es := first + more;
  }

  lemma ThenConfirming(es: seq<Event>, more: seq<Event>, s: System)
    requires Disciplined(Empty, es) && Run(Empty, es) == s && forall e :: e in more ==> !e.Attempt?
    ensures Disciplined(Empty, es + more) && Run(Empty, es + more) == Run(s, more)
    decreases |more|
  {
    if more == [] {
      assert es + more == es;
    } else {
      assert more[0] in more;
      Extend(Empty, es, more[0]);
      assert es + more == (es + [more[0]]) + more[1..];
      ThenConfirming(es + [more[0]], more[1..], Step(s, more[0]));
    }
  }

  lemma ReachIdlePayout() returns (es: seq<Event>)
    ensures Disciplined(Empty, es) && Run(Empty, es) == AfterPayout().(jobs := map[])
  {
    var _, payout := ReachPayout();
    Extend(Empty, payout, Stop(0));
    es := payout + [Stop(0)];
    assert AfterPayout().jobs == map[0 := AskLedger(7, 1)];
  }

  lemma ReachLostReply(at: int) returns (es: seq<Event>)
    ensures Disciplined(Empty, es)
    ensures Run(Empty, es) == AfterPayout().(ledger := map[7 := AtSettled(1, at)], jobs := map[])
    ensures SettledOnlyAtLedger(Run(Empty, es), 7, 1, at)
  {
    es := ReachIdlePayout();
    var s := AfterPayout().(jobs := map[]);
    Extend(Empty, es, Confirm(0, 7, 1, at)); es := es + [Confirm(0, 7, 1, at)];
    assert Run(Empty, es) == Go(s, 0, CheckAttempt(7, 1, at));
    Extend(Empty, es, Work(0, Fine(true))); es := es + [Work(0, Fine(true))];
    assert Run(Empty, es) == Go(s, 0, AskChain(7, 1, at));
    Extend(Empty, es, Work(0, Fine(true))); es := es + [Work(0, Fine(true))];
    assert Run(Empty, es) == Go(s, 0, Settle(7, 1, at));
    Extend(Empty, es, Work(0, Unheard)); es := es + [Work(0, Unheard)];
    assert Run(Empty, es).jobs == map[];
  }

  /** A run in which a pass holds the order at the ledger and then dies. */
  lemma HeldButDispatching() returns (es: seq<Event>)
    ensures Disciplined(Empty, es) && HeldOnlyAtLedger(Run(Empty, es), 7) && !AboutToMark(Run(Empty, es), 7)
  {
    es := ReachRead();
    var s := AfterRead();
    Extend(Empty, es, Work(0, Fine(true))); es := es + [Work(0, Fine(true))];
    assert Run(Empty, es) == Go(s, 0, Report(7, 1));
    Extend(Empty, es, Work(0, Fine(true))); es := es + [Work(0, Fine(true))];
    assert Run(Empty, es) == Go(s.(ledger := map[7 := AtHeld]), 0, MarkHeld(7, 1));
    Extend(Empty, es, Stop(0)); es := es + [Stop(0)];
    assert Run(Empty, es).jobs == map[];
  }

  /** What `HandleMidFlightFreeze` answers, from the attempt's status as it first read it:
      whether to alert that the payout is already on its way. */
  function FreezeAnswer(seen: A.Status, markFails: bool, retireFails: bool): Result<bool, ()> {
    if seen.Built? || seen.Signed? then (if markFails || retireFails then Err(()) else Ok(false))
    else if seen.Broadcast? then (if retireFails then Err(()) else Ok(true))
    else Ok(false)
  }

  /** A run in which a freeze reads the attempt SIGNED, the broadcast is then submitted
      and committed, and the freeze's UPDATE matches nothing: it ends without an alert,
      the attempt BROADCAST. */
  lemma FreezeMissesBroadcast() returns (read: seq<Event>, es: seq<Event>)
    ensures read <= es && Disciplined(Empty, es + [Attempt(A.Fail(1))])
    ensures Belongs(Run(Empty, read).a.rows, 1, 7) && FreezeAnswer(Run(Empty, read).a.rows[1].status, false, false) == Ok(false)
    ensures var s := Run(Empty, es + [Attempt(A.Fail(1))]);
            Belongs(s.a.rows, 1, 7) && s.a.rows[1].status == A.Broadcast && Paid(s.a, 1)
  {
    read, es := ReachPayout();
    var more := Acting(es, A.Fail(1));
    var sent := Run(Empty, es).a.sent;
    assert sent == [A.Submission(1, "second", "sig", true)] && sent[..0] == [];
    assert A.Accepted(sent, 1) == A.Accepted([], 1) + 1;
  }

  // ---------- the code ----------

  /** Only worker `w` is at work, and each call it makes is answered as `replies` says. */
  ghost predicate Driven(s: System, w: nat, es: seq<Event>, replies: Job -> Reply)
    decreases |es|
  {
    es == [] || (Answered(s, w, es[0], replies) && Driven(Step(s, es[0]), w, es[1..], replies))
  }

  ghost predicate Answered(s: System, w: nat, e: Event, replies: Job -> Reply) {
    || ((e.Reconcile? || e.Confirm?) && e.w == w)
    || (w in s.jobs && e == Work(w, replies(s.jobs[w])))
  }

  lemma {:induction false} DrivenAppend(s: System, w: nat, es: seq<Event>, more: seq<Event>, replies: Job -> Reply)
    requires Driven(s, w, es, replies) && Driven(Run(s, es), w, more, replies)
    ensures Driven(s, w, es + more, replies) && Run(s, es + more) == Run(Run(s, es), more)
    decreases |es|
  {
    if es == [] {
      assert [] + more == more;
    } else {
      assert (es + more)[0] == es[0] && (es + more)[1..] == es[1..] + more;
      DrivenAppend(Step(s, es[0]), w, es[1..], more, replies);
    }
  }

  /** One more event, answered as `replies` says, added to a run. */
  ghost function Next(s: System, es: seq<Event>, w: nat, e: Event, replies: Job -> Reply): (more: seq<Event>)
    requires Driven(s, w, es, replies) && Answered(Run(s, es), w, e, replies)
    ensures Run(s, more) == Step(Run(s, es), e) && Driven(s, w, more, replies)
  {
    assert [e][1..] == [];
    assert Run(Step(Run(s, es), e), []) == Step(Run(s, es), e);
    DrivenAppend(s, w, es, [e], replies);
    es + [e]
  }

  lemma LatestIs(rows: map<nat, A.Row>, id: nat, order: int)
    requires OneAlive(rows) && IsLatest(rows, id, order)
    ensures LatestFor(rows, order) == Some(id)
  {
  }

  lemma {:induction false} SomeLatest(rows: map<nat, A.Row>, order: int, among: set<nat>) returns (id: nat)
    requires among != {} && among <= rows.Keys && forall j :: j in among ==> Belongs(rows, j, order)
    ensures id in among && forall j :: j in among ==> rows[j].number <= rows[id].number
    decreases |among|
  {
    id :| id in among;
    if among != {id} {
      var other := SomeLatest(rows, order, among - {id});
      id := if rows[id].number >= rows[other].number then id else other;
    }
  }

  ghost predicate LatestFailed(s: System, order: int) {
    && LatestFor(s.a.rows, order).Some?
    && LatestFor(s.a.rows, order).value in s.a.rows && s.a.rows[LatestFor(s.a.rows, order).value].status.Failed?
  }

  /** The order's latest attempt has FAILED, and the ledger still has it dispatching. */
  ghost predicate Due(s: System, order: int) {
    LatestFailed(s, order) && Reached(s.ledger, order, InDispatch)
  }

  /** No call fails and no reply is lost. */
  ghost predicate AllFine(replies: Job -> Reply) {
    forall j :: replies(j).Fine?
  }

  /** The order is still dispatching, or was settled by this attempt, with this time,
      before. */
  predicate CanSettle(ledger: map<int, LedgerState>, orders: map<int, Progress>, order: int, id: nat, at: int) {
    && order in ledger && (ledger[order] == InDispatch || ledger[order] == AtSettled(id, at))
    && order in orders && (orders[order] == Dispatching || orders[order].Settled?)
  }

  datatype Outcome = Skipped | Closed | Errored

  /** The dispatcher's closing code, run alone; the ghost fields are the rest of the
      machine's state. */
  class Desk {
    var rows: map<nat, A.Row>
    var orders: map<int, Progress>
    var ledger: map<int, LedgerState>
    var retired: set<int>
    ghost var a: A.System
    ghost var jobs: map<nat, Job>

    ghost predicate Valid()
      reads this
    {
      a.rows == rows && OneAlive(rows)
    }

    ghost function State(): System
      reads this
    {
      System(a, orders, ledger, jobs)
    }

    constructor ()
      ensures Valid() && State() == Empty && retired == {}
    {
      rows, orders, ledger, retired, a, jobs := map[], map[], map[], {}, A.Empty, map[];
    }

    /** `LatestForOrder`. */
    method LatestForOrder(order: int) returns (id: Option<nat>)
      requires Valid()
      ensures id == LatestFor(rows, order)
      ensures id.None? <==> forall j :: !Belongs(rows, j, order)
    {
      ghost var mine := set j | j in rows && Belongs(rows, j, order);
      assert forall j :: Belongs(rows, j, order) ==> j in mine;
      if mine != {} {
        ghost var top := SomeLatest(rows, order, mine);
        assert IsLatest(rows, top, order);
      }
      if i :| i in rows && IsLatest(rows, i, order) {
        LatestIs(rows, i, order);
        return Some(i);
      }
      return None;
    }

    /** `HandleMidFlightFreeze`. `seen` is the attempt as first read; whatever has
        happened to it since, FAILED is written only over BUILT or SIGNED. An attempt
        that was broadcast in between is not alerted on, although it now stands where
        an alert is due. */
    method HandleMidFlightFreeze(id: nat, seen: A.Row, markFails: bool, retireFails: bool) returns (alert: Result<bool, ()>)
      requires Valid() && id in rows && A.Forward(seen, rows[id]) && id !in a.locks
      modifies this`rows, this`a, this`retired
      ensures State() == (if (seen.status.Built? || seen.status.Signed?) && !markFails then Step(old(State()), Attempt(A.Fail(id))) else old(State()))
      ensures alert == FreezeAnswer(seen.status, markFails, retireFails)
      ensures alert.Ok? ==> (alert.value <==> seen.status.Broadcast?)
      ensures alert.Err? <==> ((seen.status.Built? || seen.status.Signed?) && (markFails || retireFails)) || (seen.status.Broadcast? && retireFails)
      ensures rows.Keys == old(rows).Keys
      ensures alert == Ok(false) && rows[id].status.Broadcast? <==> alert.Ok? && !seen.status.Broadcast? && old(rows)[id].status.Broadcast?
      ensures alert.Ok? && !seen.status.Confirmed? && !seen.status.Failed? ==> retired == old(retired) + {seen.slotId}
    {
      if seen.status.Built? || seen.status.Signed? {
        if markFails {
          return Err(());
        }
        if rows[id].status.Built? || rows[id].status.Signed? {
          rows := rows[id := rows[id].(status := A.Failed)];
          a := a.(rows := rows);
        }
        if retireFails {
          return Err(());
        }
        retired := retired + {seen.slotId};
        return Ok(false);
      } else if seen.status.Broadcast? {
        if retireFails {
          return Err(());
        }
        retired := retired + {seen.slotId};
        return Ok(true);
      }
      return Ok(false);
    }

    /** Has the order's latest attempt FAILED? Its number, if so. */
    method LookAtLatest(ghost w: nat, order: int, replies: Job -> Reply) returns (n: Option<int>, failed: bool, ghost es: seq<Event>)
      requires Valid() && w !in jobs && order in orders && orders[order] == Dispatching
      modifies this`jobs
      ensures State() == Run(old(State()), es) && Driven(old(State()), w, es, replies)
      ensures n.Some? ==> jobs == old(jobs)[w := AskLedger(order, n.value)] && LatestFailed(old(State()), order)
      ensures n.None? ==> jobs == old(jobs) && (!failed ==> !LatestFailed(old(State()), order))
      ensures failed <==> replies(Latest(order)).Fails?
      ensures failed ==> n.None?
      ensures AllFine(replies) ==> !failed
    {
      ghost var before := State();
      es := Next(before, [], w, Reconcile(w, order), replies);
      var at := Latest(order);
      jobs := jobs[w := at];
      var latest := LatestForOrder(order);
      es := Next(before, es, w, Work(w, replies(at)), replies);
      failed := replies(at).Fails?;
      if failed || latest.None? || rows[latest.value].status != A.Failed {
        jobs := jobs - {w};
        return None, failed, es;
      }
      jobs := jobs[w := AskLedger(order, rows[latest.value].number)];
      return Some(rows[latest.value].number), false, es;
    }

    /** The first half of one order's turn in `ReconcileFailedDispatches`: is it due? */
    method LookUp(ghost w: nat, order: int, replies: Job -> Reply) returns (r: Outcome, n: int, ghost es: seq<Event>)
      requires Valid() && w !in jobs && order in orders && orders[order] == Dispatching
      modifies this`jobs
      ensures State() == Run(old(State()), es) && Driven(old(State()), w, es, replies)
      ensures r == Closed ==> jobs == old(jobs)[w := Report(order, n)] && Due(old(State()), order)
      ensures r != Closed ==> jobs == old(jobs) && (r == Skipped ==> !Due(old(State()), order))
      ensures AllFine(replies) ==> r != Errored
      ensures replies(Latest(order)).Fails? ==> r == Errored
      ensures r == Closed ==> !replies(AskLedger(order, n)).Fails?
    {
      ghost var before := State();
      var number, failed;
      number, failed, es := LookAtLatest(w, order, replies);
      if number.None? {
        return if failed then Errored else Skipped, 0, es;
      }
      n := number.value;
      var at := AskLedger(order, n);
      es := Next(before, es, w, Work(w, replies(at)), replies);
      if replies(at).Fails? || !Reached(ledger, order, InDispatch) {
        r := if replies(at).Fails? then Errored else Skipped;
        jobs := jobs - {w};
        return;
      }
      r := Closed;
      jobs := jobs[w := Report(order, n)];
    }

    /** The second half: report the failure, and mark the order held. */
    method Close(ghost w: nat, order: int, n: int, replies: Job -> Reply) returns (ok: bool, ghost es: seq<Event>)
      requires Valid() && w in jobs && jobs[w] == Report(order, n) && order in orders && orders[order] == Dispatching
      requires Reached(ledger, order, InDispatch)
      modifies this`orders, this`ledger, this`jobs
      ensures State() == Run(old(State()), es) && Driven(old(State()), w, es, replies) && jobs == old(jobs) - {w}
      ensures ok ==> orders == old(orders)[order := Held(n)] && ledger == old(ledger)[order := AtHeld]
      ensures AllFine(replies) ==> ok
      ensures ok ==> replies(Report(order, n)).Fine? && replies(MarkHeld(order, n)).Fine?
      ensures replies(Report(order, n)).Fails? ==> ledger == old(ledger) && orders == old(orders)
      ensures replies(MarkHeld(order, n)).Fails? ==> orders == old(orders)
      ensures orders == old(orders) || orders == old(orders)[order := Held(n)]
      ensures ledger == old(ledger) || ledger == old(ledger)[order := AtHeld]
    {
      ghost var before := State();
      var reply := replies(Report(order, n));
      es := Next(before, [], w, Work(w, reply), replies);
      if !reply.Fails? {
        ledger := ledger[order := AtHeld];
      }
      if !reply.Fine? {
        jobs := jobs - {w};
        return false, es;
      }
      jobs := jobs[w := MarkHeld(order, n)];
      reply := replies(MarkHeld(order, n));
      es := Next(before, es, w, Work(w, reply), replies);
      if !reply.Fails? {
        orders := orders[order := Held(n)];
      }
      jobs := jobs - {w};
      return reply.Fine?, es;
    }

    /** One order's turn in `ReconcileFailedDispatches`. */
    method ReconcileOne(ghost w: nat, order: int, replies: Job -> Reply) returns (r: Outcome, ghost es: seq<Event>)
      requires Valid() && w !in jobs && order in orders && orders[order] == Dispatching
      modifies this`orders, this`ledger, this`jobs
      ensures State() == Run(old(State()), es) && Driven(old(State()), w, es, replies) && jobs == old(jobs)
      ensures Turned(old(State()), State(), order, r) && (AllFine(replies) ==> r != Errored)
      ensures replies(Latest(order)).Fails? ==> r == Errored && orders == old(orders) && ledger == old(ledger)
      ensures r == Closed ==> exists n :: !replies(AskLedger(order, n)).Fails? && replies(Report(order, n)).Fine? && replies(MarkHeld(order, n)).Fine?
    {
      ghost var before := State();
      var n;
      r, n, es := LookUp(w, order, replies);
      if r == Closed {
        var ok;
        ghost var more;
        ok, more := Close(w, order, n, replies);
        DrivenAppend(before, w, es, more, replies);
        es := es + more;
        r := if ok then Closed else Errored;
      }
    }

    /** `ReconcileFailedDispatches`: order by order, up to the first error. Exactly the
        orders that were due are held; `reached` is the turn that failed, if one did. */
    method ReconcileFailedDispatches(ghost w: nat, listed: seq<int>, replies: Job -> Reply)
      returns (ok: bool, closed: nat, ghost reached: nat, ghost es: seq<Event>)
      requires Valid() && w !in jobs && NoRepeats(listed)
      requires forall order :: order in listed ==> order in orders && orders[order] == Dispatching
      modifies this`orders, this`ledger, this`jobs
      ensures State() == Run(old(State()), es) && Driven(old(State()), w, es, replies) && jobs == old(jobs)
      ensures if ok then Passed(old(State()), State(), listed, None) && reached == |listed|
              else reached < |listed| && Passed(old(State()), State(), listed[..reached], Some(listed[reached]))
      ensures closed == Count(listed[..reached], old(State()))
      ensures AllFine(replies) ==> ok
    {
      ghost var before := State();
      closed, reached, es := 0, 0, [];
      for i := 0 to |listed|
        invariant jobs == old(jobs) && reached == i && State() == Run(before, es) && Driven(before, w, es, replies)
        invariant closed == Count(listed[..i], before)
        invariant Passed(before, State(), listed[..i], None)
      {
        var order := listed[i];
        ghost var sofar := State();
        var r;
        ghost var more;
        r, more := ReconcileOne(w, order, replies);
        DrivenAppend(before, w, es, more, replies);
        es := es + more;
        PassOneMore(before, sofar, State(), listed, i, r);
        CountOneMore(listed, i, before);
        if r == Errored {
          return false, closed, i, es;
        }
        if r == Closed {
          closed := closed + 1;
        }
        reached := i + 1;
      }
      assert listed[..|listed|] == listed;
      return true, closed, reached, es;
    }

    /** The reading half of `ConfirmFinality`: is the attempt newly final? */
    method CheckFinal(ghost w: nat, order: int, id: nat, occurredAt: int, replies: Job -> Reply) returns (r: Result<bool, ()>, ghost es: seq<Event>)
      requires Valid() && w !in jobs && Belongs(rows, id, order)
      modifies this`jobs
      ensures State() == Run(old(State()), es) && Driven(old(State()), w, es, replies)
      ensures r == Ok(true) ==> jobs == old(jobs)[w := Settle(order, id, occurredAt)] && rows[id].status.Broadcast?
      ensures r != Ok(true) ==> jobs == old(jobs)
      ensures !rows[id].status.Broadcast? ==> r.Err?
      ensures r == Ok(true) ==> replies(AskChain(order, id, occurredAt)) == Fine(true)
      ensures r == Ok(false) <==> !replies(CheckAttempt(order, id, occurredAt)).Fails? && rows[id].status.Broadcast? && rows[id].txid.Some?
                                  && replies(AskChain(order, id, occurredAt)) == Fine(false)
      ensures replies(CheckAttempt(order, id, occurredAt)).Fails? ==> r.Err?
      ensures AllFine(replies) && rows[id].status.Broadcast? && rows[id].txid.Some? ==> r == Ok(replies(AskChain(order, id, occurredAt)).final)
    {
      ghost var before := State();
      es := Next(before, [], w, Confirm(w, order, id, occurredAt), replies);
      var at := CheckAttempt(order, id, occurredAt);
      jobs := jobs[w := at];
      es := Next(before, es, w, Work(w, replies(at)), replies);
      if replies(at).Fails? || !rows[id].status.Broadcast? || rows[id].txid.None? {
        jobs := jobs - {w};
        return Err(()), es;
      }
      at := AskChain(order, id, occurredAt);
      jobs := jobs[w := at];
      var reply := replies(at);
      es := Next(before, es, w, Work(w, reply), replies);
      if !reply.Fine? || !reply.final {
        jobs := jobs - {w};
        return if reply.Fine? then Ok(false) else Err(()), es;
      }
      jobs := jobs[w := Settle(order, id, occurredAt)];
      return Ok(true), es;
    }

    /** The writing half: settled at the ledger, then in dispatch_state, then the
        attempt CONFIRMED. */
    method SettleFinal(ghost w: nat, order: int, id: nat, occurredAt: int, replies: Job -> Reply) returns (ok: bool, ghost es: seq<Event>)
      requires Valid() && w in jobs && jobs[w] == Settle(order, id, occurredAt) && Belongs(rows, id, order) && rows[id].status.Broadcast?
      modifies this`rows, this`a, this`orders, this`ledger, this`jobs
      ensures State() == Run(old(State()), es) && Driven(old(State()), w, es, replies) && jobs == old(jobs) - {w} && a.rows == rows
      ensures ok ==> Reached(ledger, order, AtSettled(id, occurredAt)) && order in orders && orders[order].Settled?
                     && rows == old(rows)[id := old(rows)[id].(status := A.Confirmed)]
      ensures AllFine(replies) ==> (ok <==> CanSettle(old(ledger), old(orders), order, id, occurredAt))
      ensures ok ==> replies(Settle(order, id, occurredAt)).Fine? && replies(MarkSettled(order, id, occurredAt)).Fine? && replies(MarkConfirmed(order, id)).Fine?
      ensures replies(Settle(order, id, occurredAt)).Fails? ==> ledger == old(ledger)
      ensures !replies(Settle(order, id, occurredAt)).Fine? || replies(MarkSettled(order, id, occurredAt)).Fails? ==> orders == old(orders)
      ensures !replies(Settle(order, id, occurredAt)).Fine? || !replies(MarkSettled(order, id, occurredAt)).Fine? || replies(MarkConfirmed(order, id)).Fails? ==>
                rows == old(rows)
    {
      ghost var before := State();
      var at := Settle(order, id, occurredAt);
      es := Next(before, [], w, Work(w, replies(at)), replies);
      if !replies(at).Fails? {
        ledger := Transition(ledger, order, AtSettled(id, occurredAt));
      }
      if !replies(at).Fine? || !Reached(ledger, order, AtSettled(id, occurredAt)) {
        jobs := jobs - {w};
        return false, es;
      }
      jobs := jobs[w := MarkSettled(order, id, occurredAt)];
      ghost var more: seq<Event>;
      ok, more := MarkFinal(w, order, id, occurredAt, replies);
      DrivenAppend(before, w, es, more, replies);
      es := es + more;
    }

    /** Settled at the ledger: now in dispatch_state, and then the attempt. */
    method MarkFinal(ghost w: nat, order: int, id: nat, occurredAt: int, replies: Job -> Reply) returns (ok: bool, ghost es: seq<Event>)
      requires Valid() && w in jobs && jobs[w] == MarkSettled(order, id, occurredAt) && Belongs(rows, id, order) && rows[id].status.Broadcast?
      modifies this`rows, this`a, this`orders, this`jobs
      ensures State() == Run(old(State()), es) && Driven(old(State()), w, es, replies) && jobs == old(jobs) - {w} && a.rows == rows
      ensures ok ==> Marked(orders, order, Settled(id)) && rows == old(rows)[id := old(rows)[id].(status := A.Confirmed)]
      ensures AllFine(replies) ==> (ok <==> Marked(Marking(old(orders), order, Settled(id)), order, Settled(id)))
      ensures ok ==> replies(MarkSettled(order, id, occurredAt)).Fine? && replies(MarkConfirmed(order, id)).Fine?
      ensures replies(MarkSettled(order, id, occurredAt)).Fails? ==> orders == old(orders)
      ensures !replies(MarkSettled(order, id, occurredAt)).Fine? || replies(MarkConfirmed(order, id)).Fails? ==> rows == old(rows)
    {
      ghost var before := State();
      var at := MarkSettled(order, id, occurredAt);
      es := Next(before, [], w, Work(w, replies(at)), replies);
      if !replies(at).Fails? {
        orders := Marking(orders, order, Settled(id));
      }
      if !replies(at).Fine? || !Marked(orders, order, Settled(id)) {
        jobs := jobs - {w};
        return false, es;
      }
      at := MarkConfirmed(order, id);
      jobs := jobs[w := at];
      es := Next(before, es, w, Work(w, replies(at)), replies);
      MarkAttempt(w, order, id, replies(at));
      return replies(at).Fine?, es;
    }

    /** `markConfirmed`. */
    method MarkAttempt(ghost w: nat, ghost order: int, id: nat, reply: Reply)
      requires Valid() && w in jobs && jobs[w] == MarkConfirmed(order, id) && id in rows && rows[id].status.Broadcast?
      modifies this`rows, this`a, this`jobs
      ensures State() == Step(old(State()), Work(w, reply)) && a.rows == rows && jobs == old(jobs) - {w}
      ensures rows == if reply.Fails? then old(rows) else old(rows)[id := old(rows)[id].(status := A.Confirmed)]
    {
      if !reply.Fails? {
        rows := rows[id := rows[id].(status := A.Confirmed)];
        a := a.(rows := rows);
      }
      jobs := jobs - {w};
    }

    /** `ConfirmFinality`: true only once the order is settled at the ledger by this
        attempt and in dispatch_state, and the attempt is CONFIRMED. */
    method ConfirmFinality(ghost w: nat, order: int, id: nat, occurredAt: int, replies: Job -> Reply) returns (r: Result<bool, ()>, ghost es: seq<Event>)
      requires Valid() && w !in jobs && Belongs(rows, id, order)
      modifies this`rows, this`a, this`orders, this`ledger, this`jobs
      ensures State() == Run(old(State()), es) && Driven(old(State()), w, es, replies) && jobs == old(jobs) && a.rows == rows
      ensures old(rows)[id].status.Confirmed? && !replies(CheckAttempt(order, id, occurredAt)).Fails? ==> r == Ok(true) && State() == old(State())
      ensures r == Ok(true) ==> id in rows && rows[id].status.Confirmed?
      ensures !old(rows)[id].status.Confirmed?
              && (replies(CheckAttempt(order, id, occurredAt)).Fails? || replies(AskChain(order, id, occurredAt)) != Fine(true)) ==>
                r != Ok(true) && rows == old(rows) && orders == old(orders) && ledger == old(ledger)
      ensures r == Ok(false) <==> old(rows)[id].status.Broadcast? && old(rows)[id].txid.Some? && !replies(CheckAttempt(order, id, occurredAt)).Fails?
                                  && replies(AskChain(order, id, occurredAt)) == Fine(false)
      ensures r == Ok(true) && !old(rows)[id].status.Confirmed? ==>
                replies(Settle(order, id, occurredAt)).Fine? && replies(MarkSettled(order, id, occurredAt)).Fine? && replies(MarkConfirmed(order, id)).Fine?
      ensures replies(Settle(order, id, occurredAt)).Fails? ==> ledger == old(ledger) && orders == old(orders) && rows == old(rows)
      ensures replies(MarkSettled(order, id, occurredAt)).Fails? ==> orders == old(orders) && rows == old(rows)
      ensures replies(MarkConfirmed(order, id)).Fails? ==> rows == old(rows)
      ensures r == Ok(true) && !old(rows)[id].status.Confirmed? ==>
                old(rows)[id].status.Broadcast? && Reached(ledger, order, AtSettled(id, occurredAt)) && order in orders && orders[order].Settled?
      ensures AllFine(replies) && old(rows)[id].status.Broadcast? && old(rows)[id].txid.Some? ==>
                if !replies(AskChain(order, id, occurredAt)).final then r == Ok(false)
                else (r == Ok(true) <==> CanSettle(old(ledger), old(orders), order, id, occurredAt))
    {
      es := [];
      if rows[id].status.Confirmed? {
        return if replies(CheckAttempt(order, id, occurredAt)).Fails? then Err(()) else Ok(true), es;
      }
      ghost var before := State();
      r, es := CheckFinal(w, order, id, occurredAt, replies);
      if r == Ok(true) {
        var ok;
        ghost var more;
        ok, more := SettleFinal(w, order, id, occurredAt, replies);
        DrivenAppend(before, w, es, more, replies);
        es := es + more;
        r := if ok then Ok(true) else Err(());
      }
    }
  }

  /** How one order's turn came out. */
  ghost predicate Turned(s: System, s': System, order: int, r: Outcome) {
    && s'.a == s.a
    && match r
       case Skipped => s' == s && !Due(s, order)
       case Closed =>
         && Due(s, order) && order in s'.orders && s'.orders[order].Held?
         && s'.orders == s.orders[order := s'.orders[order]] && s'.ledger == s.ledger[order := AtHeld]
       case Errored =>
         && s'.orders.Keys == s.orders.Keys && (forall o :: o in s.orders && o != order ==> s'.orders[o] == s.orders[o])
         && s.ledger.Keys <= s'.ledger.Keys && (forall o :: o in s'.ledger && o != order ==> o in s.ledger && s'.ledger[o] == s.ledger[o])
  }

  /** Of the orders in `done`, those that were due are held, and nothing else changed,
      except perhaps for the order whose turn failed. */
  ghost predicate Passed(s: System, s': System, done: seq<int>, failed: Option<int>) {
    && s'.a == s.a && s'.orders.Keys == s.orders.Keys
    && (forall o :: o in s.orders && failed != Some(o) ==> if o in done && Due(s, o) then s'.orders[o].Held? else s'.orders[o] == s.orders[o])
    && (forall o :: o !in done && failed != Some(o) ==> (o in s'.ledger <==> o in s.ledger) && (o in s.ledger ==> s'.ledger[o] == s.ledger[o]))
  }

  lemma PassOneMore(s: System, s1: System, s2: System, listed: seq<int>, i: nat, r: Outcome)
    requires i < |listed| && NoRepeats(listed) && listed[i] in s.orders
    requires Passed(s, s1, listed[..i], None) && Turned(s1, s2, listed[i], r)
    ensures Due(s1, listed[i]) == Due(s, listed[i])
    ensures if r == Errored then Passed(s, s2, listed[..i], Some(listed[i])) else Passed(s, s2, listed[..i + 1], None)
  {
    assert listed[..i + 1] == listed[..i] + [listed[i]];
    assert listed[i] !in listed[..i];
  }

  /** How many of these orders are due to be held. */
  ghost function Count(listed: seq<int>, s: System): nat
    decreases |listed|
  {
    if listed == [] then 0 else Count(listed[..|listed| - 1], s) + (if Due(s, listed[|listed| - 1]) then 1 else 0)
  }

  lemma CountOneMore(listed: seq<int>, i: nat, s: System)
    requires i < |listed|
    ensures Count(listed[..i + 1], s) == Count(listed[..i], s) + (if Due(s, listed[i]) then 1 else 0)
  {
    assert listed[..i + 1][..i] == listed[..i];
  }
}
