/** Sweep batches: orders queue, are cut into batches, and each batch's outcome is
    settled or requeued order by order, in runs that may stop anywhere, be started
    again and overlap (dispatcher/internal/dispatch/batch.go, batchstore.go). */
module Sweep {
  import opened Sets
  import opened Wrappers

  // ---------- data ----------

  /** A batch_queue row: BATCHED when `batch` is set, QUEUED when not. Keyed by its
      unique order. */
  datatype Queued = Queued(id: nat, recipient: string, amount: int, batch: Option<nat>, since: int)

  /** A batches row; `orders` is what its transaction pays. */
  datatype Batch = Batch(slotId: int, orders: seq<int>, tx: string)

  /** The ledger's view: a settlement replays only with its own key and timestamp. */
  datatype LedgerState = InDispatch | SettledBy(batch: nat, at: int) | Elsewhere

  datatype Local = Dispatching | Settled | Held

  /** One run of `HandlePartialSettlement`, of which a batch may have any number at once. */
  datatype RunId = RunId(batch: nat, no: nat)

  /** Where a run stands: the orders still to handle, and whether the first of them is
      settled at the ledger already. */
  datatype Job = Job(remaining: seq<int>, atLedger: bool)

  datatype System = System(queue: map<int, Queued>, nextRow: nat, batches: map<nat, Batch>, nextBatch: nat,
                           ledger: map<int, LedgerState>, local: map<int, Local>, jobs: map<RunId, Job>)

  /** What a batch's broadcast came to: fixed per batch, with the timestamp its
      settlements carry. */
  datatype Outcome = Outcome(paid: (nat, int) -> Option<bool>, at: nat -> int)

  datatype Reply = Fine | Fails | Unheard

  datatype Event =
    | Enqueue(order: int, recipient: string, amount: int, now: int)
    | Cut(slotId: int, orders: seq<int>, tx: string)
    | Begin(r: RunId, listing: seq<int>)
    | Advance(r: RunId, reply: Reply, now: int)
    | Stop(r: RunId)
    | LedgerMoves(order: int)

  // ---------- steps ----------

  predicate InBatch(queue: map<int, Queued>, order: int, b: nat) {
    order in queue && queue[order].batch == Some(b)
  }

  predicate IsQueued(queue: map<int, Queued>, order: int) {
    order in queue && queue[order].batch.None?
  }

  /** `ListForBatch`: the batch's rows, by id. */
  ghost predicate IsListing(queue: map<int, Queued>, b: nat, listing: seq<int>) {
    NoRepeats(listing) && ById(queue, listing) && forall order :: order in listing <==> InBatch(queue, order, b)
  }

  ghost predicate ById(queue: map<int, Queued>, listing: seq<int>) {
    forall i, j :: 0 <= i < j < |listing| ==>
      listing[i] in queue && listing[j] in queue && queue[listing[i]].id < queue[listing[j]].id
  }

  function Batching(queue: map<int, Queued>, orders: seq<int>, b: nat): map<int, Queued> {
    map order | order in queue :: if order in orders then queue[order].(batch := Some(b)) else queue[order]
  }

  function Requeueing(queue: map<int, Queued>, order: int, now: int): map<int, Queued> {
    if order in queue then queue[order := queue[order].(batch := None, since := now)] else queue
  }

  function Settling(ledger: map<int, LedgerState>, order: int, b: nat, at: int): map<int, LedgerState> {
    if order in ledger && ledger[order] == InDispatch then ledger[order := SettledBy(b, at)] else ledger
  }

  predicate Obliged(ledger: map<int, LedgerState>, order: int, b: nat, at: int) {
    order in ledger && ledger[order] == SettledBy(b, at)
  }

  function Marking(local: map<int, Local>, order: int): map<int, Local> {
    if order in local && local[order] == Dispatching then local[order := Settled] else local
  }

  predicate Marked(local: map<int, Local>, order: int) {
    order in local && local[order] == Settled
  }

  function Go(s: System, r: RunId, job: Job): System {
    s.(jobs := s.jobs[r := job])
  }

  function Quit(s: System, r: RunId): System {
    s.(jobs := s.jobs - {r})
  }

  /** The next statement of run `r`; any failure ends the run. The requeue has no guard:
      it takes the row out of whatever batch it is in by then. */
  function AdvanceOf(s: System, r: RunId, reply: Reply, now: int, out: Outcome): System
    requires r in s.jobs
  {
    var Job(remaining, atLedger) := s.jobs[r];
    var b := r.batch;
    if remaining == [] then Quit(s, r)
    else
      var order, paid := remaining[0], out.paid(b, remaining[0]);
      if paid.None? || reply.Fails? then Quit(s, r)
      else if !paid.value then
        var s' := s.(queue := Requeueing(s.queue, order, now));
        if reply.Unheard? || order !in s.queue then Quit(s', r) else Go(s', r, Job(remaining[1..], false))
      else if !atLedger then
        var s' := s.(ledger := Settling(s.ledger, order, b, out.at(b)));
        if reply.Unheard? || !Obliged(s'.ledger, order, b, out.at(b)) then Quit(s', r) else Go(s', r, Job(remaining, true))
      else
        var s' := s.(local := Marking(s.local, order));
        if reply.Unheard? || !Marked(s'.local, order) then Quit(s', r) else Go(s', r, Job(remaining[1..], false))
  }

  ghost predicate Cuttable(s: System, orders: seq<int>) {
    orders != [] && NoRepeats(orders) && forall order :: order in orders ==> IsQueued(s.queue, order)
  }

  function Cutting(s: System, slotId: int, orders: seq<int>, tx: string): System {
    s.(queue := Batching(s.queue, orders, s.nextBatch), batches := s.batches[s.nextBatch := Batch(slotId, orders, tx)],
       nextBatch := s.nextBatch + 1)
  }

  ghost function Step(s: System, e: Event, out: Outcome): System {
    match e
    case Enqueue(order, recipient, amount, now) =>
      if order in s.queue then s
      else s.(queue := s.queue[order := Queued(s.nextRow, recipient, amount, None, now)], nextRow := s.nextRow + 1,
              ledger := if order in s.ledger then s.ledger else s.ledger[order := InDispatch],
              local := if order in s.local then s.local else s.local[order := Dispatching])
    case Cut(slotId, orders, tx) => if Cuttable(s, orders) then Cutting(s, slotId, orders, tx) else s
    case Begin(r, listing) =>
      if r.batch !in s.batches || r in s.jobs || !IsListing(s.queue, r.batch, listing) then s else Go(s, r, Job(listing, false))
    case Advance(r, reply, now) => if r in s.jobs then AdvanceOf(s, r, reply, now, out) else s
    case Stop(r) => Quit(s, r)
    case LedgerMoves(order) => if order in s.ledger && s.ledger[order] == InDispatch then s.(ledger := s.ledger[order := Elsewhere]) else s
  }

  ghost function Run(s: System, es: seq<Event>, out: Outcome): System
    decreases |es|
  {
    if es == [] then s else Run(Step(s, es[0], out), es[1..], out)
  }

  const Empty := System(map[], 0, map[], 0, map[], map[], map[])

  lemma {:induction false} RunAppend(s: System, es: seq<Event>, more: seq<Event>, out: Outcome)
    ensures Run(s, es + more, out) == Run(Run(s, es, out), more, out)
    decreases |es|
  {
    if es == [] {
      assert [] + more == more;
    } else {
      assert (es + more)[0] == es[0] && (es + more)[1..] == es[1..] + more;
      RunAppend(Step(s, es[0], out), es[1..], more, out);
    }
  }

  // ---------- what every run keeps ----------

  predicate Pays(batches: map<nat, Batch>, b: nat, order: int) {
    b in batches && order in batches[b].orders
  }

  /** A row points at a batch that pays it. */
  ghost predicate RowsSound(s: System) {
    && (forall b :: b in s.batches ==> b < s.nextBatch)
    && (forall order, b :: InBatch(s.queue, order, b) ==> Pays(s.batches, b, order))
    && (forall order, b :: Pays(s.batches, b, order) ==> order in s.queue)
  }

  /** A settlement was made by a batch that paid the order, under that batch's
      timestamp. */
  ghost predicate LedgerSound(s: System, out: Outcome) {
    forall order :: order in s.ledger && s.ledger[order].SettledBy? ==>
      var b := s.ledger[order].batch;
      Pays(s.batches, b, order) && out.paid(b, order) == Some(true) && s.ledger[order].at == out.at(b)
  }

  /** A run handles orders its batch pays, and marks settled only what is. */
  ghost predicate JobSound(s: System, r: RunId, job: Job, out: Outcome) {
    && r.batch in s.batches && NoRepeats(job.remaining)
    && (forall order :: order in job.remaining ==> Pays(s.batches, r.batch, order))
    && (job.atLedger ==> job.remaining != [] && out.paid(r.batch, job.remaining[0]) == Some(true)
                         && Obliged(s.ledger, job.remaining[0], r.batch, out.at(r.batch)))
  }

  ghost predicate JobsSound(s: System, out: Outcome) {
    forall r :: r in s.jobs ==> JobSound(s, r, s.jobs[r], out)
  }

  ghost predicate Inv(s: System, out: Outcome) {
    RowsSound(s) && LedgerSound(s, out) && JobsSound(s, out)
  }

  /** Batches stay, and a decision of the ledger is final. */
  ghost predicate Kept(s: System, s': System) {
    && (forall b :: b in s.batches ==> b in s'.batches && s'.batches[b] == s.batches[b])
    && (forall order :: order in s.ledger ==> order in s'.ledger && (s.ledger[order] == InDispatch || s'.ledger[order] == s.ledger[order]))
  }

  lemma JobsKeep(s: System, s': System, out: Outcome)
    requires JobsSound(s, out) && Kept(s, s')
    requires forall r :: r in s'.jobs ==> (r in s.jobs && s'.jobs[r] == s.jobs[r]) || JobSound(s', r, s'.jobs[r], out)
    ensures JobsSound(s', out)
  {
    forall r | r in s'.jobs && r in s.jobs && s'.jobs[r] == s.jobs[r]
      ensures JobSound(s', r, s'.jobs[r], out)
    {
      assert JobSound(s, r, s.jobs[r], out);
    }
  }

  lemma AdvanceKeepsTables(s: System, r: RunId, reply: Reply, now: int, out: Outcome)
    requires RowsSound(s) && LedgerSound(s, out) && r in s.jobs && JobSound(s, r, s.jobs[r], out)
    ensures var s' := AdvanceOf(s, r, reply, now, out); RowsSound(s') && LedgerSound(s', out) && Kept(s, s')
  {
    var s' := AdvanceOf(s, r, reply, now, out);
    assert s'.batches == s.batches && s'.nextBatch == s.nextBatch;
    assert s'.queue.Keys == s.queue.Keys;
    assert forall order, b :: InBatch(s'.queue, order, b) ==> InBatch(s.queue, order, b);
  }

  lemma AdvanceKeepsJob(s: System, r: RunId, reply: Reply, now: int, out: Outcome)
    requires r in s.jobs && JobSound(s, r, s.jobs[r], out) && r in AdvanceOf(s, r, reply, now, out).jobs
    ensures var s' := AdvanceOf(s, r, reply, now, out); JobSound(s', r, s'.jobs[r], out)
  {
  }

  lemma AdvanceKeeps(s: System, r: RunId, reply: Reply, now: int, out: Outcome)
    requires Inv(s, out) && r in s.jobs
    ensures Inv(AdvanceOf(s, r, reply, now, out), out) && Kept(s, AdvanceOf(s, r, reply, now, out))
  {
    var s' := AdvanceOf(s, r, reply, now, out);
    AdvanceKeepsTables(s, r, reply, now, out);
    if r in s'.jobs {
      AdvanceKeepsJob(s, r, reply, now, out);
    }
    OtherJobs(s, r, reply, now, out);
    JobsKeep(s, s', out);
  }

  lemma OtherJobs(s: System, r: RunId, reply: Reply, now: int, out: Outcome)
    requires r in s.jobs
    ensures var s' := AdvanceOf(s, r, reply, now, out);
            forall q :: q in s'.jobs && q != r ==> q in s.jobs && s'.jobs[q] == s.jobs[q]
  {
  }

  /** `CreateBatch`: all the named rows, or none. */
  lemma CutKeeps(s: System, slotId: int, orders: seq<int>, tx: string, out: Outcome)
    requires Inv(s, out) && Cuttable(s, orders)
    ensures Inv(Cutting(s, slotId, orders, tx), out) && Kept(s, Cutting(s, slotId, orders, tx))
    ensures forall order, b :: InBatch(Cutting(s, slotId, orders, tx).queue, order, b) <==> InBatch(s.queue, order, b) || (b == s.nextBatch && order in orders)
  {
    var s' := Cutting(s, slotId, orders, tx);
    assert forall order, b :: Pays(s'.batches, b, order) <==> Pays(s.batches, b, order) || (b == s.nextBatch && order in orders);
    JobsKeep(s, s', out);
  }

  lemma EnqueueKeeps(s: System, order: int, recipient: string, amount: int, now: int, out: Outcome)
    requires Inv(s, out)
    ensures var s' := Step(s, Enqueue(order, recipient, amount, now), out); Inv(s', out) && Kept(s, s')
  {
    var s' := Step(s, Enqueue(order, recipient, amount, now), out);
    assert forall o, b :: InBatch(s'.queue, o, b) <==> InBatch(s.queue, o, b);
    JobsKeep(s, s', out);
  }

  lemma StepKeeps(s: System, e: Event, out: Outcome)
    requires Inv(s, out)
    ensures Inv(Step(s, e, out), out) && Kept(s, Step(s, e, out))
  {
    match e
    case Enqueue(order, recipient, amount, now) => EnqueueKeeps(s, order, recipient, amount, now, out);
    case Cut(slotId, orders, tx) => if Cuttable(s, orders) { CutKeeps(s, slotId, orders, tx, out); }
    case Advance(r, reply, now) => if r in s.jobs { AdvanceKeeps(s, r, reply, now, out); }
    case _ => JobsKeep(s, Step(s, e, out), out);
  }

  lemma {:induction false} RunKeeps(s: System, es: seq<Event>, out: Outcome)
    requires Inv(s, out)
    ensures Inv(Run(s, es, out), out) && Kept(s, Run(s, es, out))
    decreases |es|
  {
    if es != [] {
      StepKeeps(s, es[0], out);
      RunKeeps(Step(s, es[0], out), es[1..], out);
    }
  }

  /** Over every run, overlapping settlements and all: once the ledger has an order
      settled it stays settled by that one batch, which paid it, with its timestamp. */
  lemma SettledOnce(es: seq<Event>, more: seq<Event>, out: Outcome, order: int)
    requires order in Run(Empty, es, out).ledger && Run(Empty, es, out).ledger[order].SettledBy?
    ensures var s, s' := Run(Empty, es, out), Run(Empty, es + more, out);
            var b := s.ledger[order].batch;
            && order in s'.ledger && s'.ledger[order] == SettledBy(b, out.at(b))
            && Pays(s'.batches, b, order) && out.paid(b, order) == Some(true)
  {
    RunKeeps(Empty, es, out);
    RunAppend(Empty, es, more, out);
    RunKeeps(Run(Empty, es, out), more, out);
  }

  // ---------- paid by two batches ----------

  /** The batch's transaction pays the order, and is not known to have failed to. */
  predicate PaidBy(s: System, b: nat, order: int, out: Outcome) {
    Pays(s.batches, b, order) && out.paid(b, order) != Some(false)
  }

  ghost predicate PaidTwice(s: System, order: int, out: Outcome) {
    exists b, c :: b != c && PaidBy(s, b, order, out) && PaidBy(s, c, order, out)
  }

  /** The order is no longer in a batch that paid it. */
  ghost predicate LeftPaid(s: System, order: int, out: Outcome) {
    exists b :: PaidBy(s, b, order, out) && !InBatch(s.queue, order, b)
  }

  /** This step requeues the order, which its own batch failed to pay, out of a batch that
      paid it. */
  predicate TakesPaid(s: System, e: Event, order: int, out: Outcome) {
    && e.Advance? && e.r in s.jobs && !e.reply.Fails?
    && s.jobs[e.r].remaining != [] && s.jobs[e.r].remaining[0] == order && out.paid(e.r.batch, order) == Some(false)
    && order in s.queue && s.queue[order].batch.Some? && out.paid(s.queue[order].batch.value, order) != Some(false)
  }

  /** This step cuts the order into a batch that will pay it. */
  ghost predicate CutsPaid(s: System, e: Event, order: int, out: Outcome) {
    e.Cut? && Cuttable(s, e.orders) && order in e.orders && out.paid(s.nextBatch, order) != Some(false)
  }

  /** After the order was taken out of a batch that paid it (`taken`, or by one of these
      events), it is cut into another that does. */
  ghost predicate PaysAgain(s: System, es: seq<Event>, order: int, out: Outcome, taken: bool)
    decreases |es|
  {
    es != [] && ((taken && CutsPaid(s, es[0], order, out))
                 || PaysAgain(Step(s, es[0], out), es[1..], order, out, taken || TakesPaid(s, es[0], order, out)))
  }

  /** Over every run, an order is paid by two batches exactly if some run of a batch that
      failed to pay it requeued it when it was already in a later batch that paid it, and
      it was then cut and paid again. */
  lemma PaidTwiceIff(es: seq<Event>, order: int, out: Outcome)
    ensures PaidTwice(Run(Empty, es, out), order, out) <==> PaysAgain(Empty, es, order, out, false)
  {
    PaidTwiceRun(Empty, es, order, out);
  }

  lemma {:induction false} PaidTwiceRun(s: System, es: seq<Event>, order: int, out: Outcome)
    requires Inv(s, out)
    ensures PaidTwice(Run(s, es, out), order, out)
            <==> PaidTwice(s, order, out) || PaysAgain(s, es, order, out, LeftPaid(s, order, out))
    decreases |es|
  {
    if es != [] {
      StepKeeps(s, es[0], out);
      LeftStep(s, es[0], order, out);
      TwiceStep(s, es[0], order, out);
      PaidTwiceRun(Step(s, es[0], out), es[1..], order, out);
    }
  }

  lemma AdvanceMoves(s: System, e: Event, order: int, out: Outcome)
    requires e.Advance?
    ensures Step(s, e, out).batches == s.batches
    ensures var s' := Step(s, e, out);
            (order in s'.queue <==> order in s.queue)
            && (order in s.queue ==> s'.queue[order].batch == s.queue[order].batch || s'.queue[order].batch.None?)
    ensures var s' := Step(s, e, out);
            order in s.queue && s.queue[order].batch.Some? && out.paid(s.queue[order].batch.value, order) != Some(false) ==>
              (s'.queue[order].batch.None? <==> TakesPaid(s, e, order, out))
  {
  }

  lemma LeftStep(s: System, e: Event, order: int, out: Outcome)
    requires Inv(s, out)
    ensures LeftPaid(Step(s, e, out), order, out) <==> LeftPaid(s, order, out) || TakesPaid(s, e, order, out)
  {
    var s' := Step(s, e, out);
    if e.Advance? {
      AdvanceMoves(s, e, order, out);
      if TakesPaid(s, e, order, out) {
        assert InBatch(s.queue, order, s.queue[order].batch.value);
        assert PaidBy(s', s.queue[order].batch.value, order, out);
      }
      forall b
        ensures PaidBy(s', b, order, out) == PaidBy(s, b, order, out)
        ensures PaidBy(s, b, order, out) && !InBatch(s.queue, order, b) ==> !InBatch(s'.queue, order, b)
      {
      }
    } else if e.Cut? && Cuttable(s, e.orders) {
      CutLeft(s, e, order, out);
    } else {
      forall b
        ensures PaidBy(s', b, order, out) == PaidBy(s, b, order, out)
        ensures PaidBy(s, b, order, out) ==> InBatch(s'.queue, order, b) == InBatch(s.queue, order, b)
      {
      }
    }
  }

  lemma CutLeft(s: System, e: Event, order: int, out: Outcome)
    requires Inv(s, out) && e.Cut? && Cuttable(s, e.orders)
    ensures LeftPaid(Step(s, e, out), order, out) <==> LeftPaid(s, order, out)
  {
    var s' := Step(s, e, out);
    CutKeeps(s, e.slotId, e.orders, e.tx, out);
    forall b
      ensures (PaidBy(s', b, order, out) && !InBatch(s'.queue, order, b)) <==> (PaidBy(s, b, order, out) && !InBatch(s.queue, order, b))
    {
    }
  }

  lemma TwiceStep(s: System, e: Event, order: int, out: Outcome)
    requires Inv(s, out)
    ensures PaidTwice(Step(s, e, out), order, out)
            <==> PaidTwice(s, order, out) || (LeftPaid(s, order, out) && CutsPaid(s, e, order, out))
  {
    var s' := Step(s, e, out);
    if e.Cut? && Cuttable(s, e.orders) {
      forall b
        ensures PaidBy(s', b, order, out) <==> PaidBy(s, b, order, out) || (b == s.nextBatch && CutsPaid(s, e, order, out))
        ensures PaidBy(s, b, order, out) ==> b != s.nextBatch
      {
      }
      if CutsPaid(s, e, order, out) {
        assert forall b :: !InBatch(s.queue, order, b);
        assert PaidBy(s', s.nextBatch, order, out);
      }
    } else {
      if e.Advance? {
        AdvanceMoves(s, e, order, out);
      }
      forall b
        ensures PaidBy(s', b, order, out) == PaidBy(s, b, order, out)
      {
      }
    }
  }

  // ---------- one run of a batch at a time ----------

  /** Each run begins only when no other run of its batch is in progress. */
  ghost predicate OneAtATime(s: System, es: seq<Event>, out: Outcome)
    decreases |es|
  {
    es == [] || ((es[0].Begin? ==> forall r :: r in s.jobs ==> r.batch != es[0].r.batch) && OneAtATime(Step(s, es[0], out), es[1..], out))
  }

  /** A run's remaining orders are still in its batch, of which it is the only run. */
  ghost predicate Own(s: System) {
    && (forall r, order :: r in s.jobs && order in s.jobs[r].remaining ==> InBatch(s.queue, order, r.batch))
    && (forall r, q :: r in s.jobs && q in s.jobs && r.batch == q.batch ==> r == q)
  }

  lemma OwnStep(s: System, e: Event, out: Outcome)
    requires Inv(s, out) && Own(s) && (e.Begin? ==> forall r :: r in s.jobs ==> r.batch != e.r.batch)
    ensures Own(Step(s, e, out))
  {
    if e.Advance? && e.r in s.jobs {
      OwnAdvance(s, e.r, e.reply, e.now, out);
    } else if e.Cut? && Cuttable(s, e.orders) {
      CutKeeps(s, e.slotId, e.orders, e.tx, out);
    }
  }

  lemma OwnAdvance(s: System, r: RunId, reply: Reply, now: int, out: Outcome)
    requires Inv(s, out) && Own(s) && r in s.jobs
    ensures Own(AdvanceOf(s, r, reply, now, out))
  {
    var s' := AdvanceOf(s, r, reply, now, out);
    assert JobSound(s, r, s.jobs[r], out);
    forall q, order | q in s'.jobs && order in s'.jobs[q].remaining
      ensures InBatch(s'.queue, order, q.batch)
    {
      assert order in s.jobs[q].remaining && InBatch(s.queue, order, q.batch);
      if s'.queue != s.queue {
        var remaining := s.jobs[r].remaining;
        if q == r {
          assert s'.jobs[r].remaining == remaining[1..];
          assert forall i :: 0 <= i < |remaining[1..]| ==> remaining[1..][i] == remaining[i + 1];
        } else if order == remaining[0] {
          OwnHead(s, r, q);
        }
      }
    }
  }

  lemma OwnHead(s: System, r: RunId, q: RunId)
    requires Own(s) && r in s.jobs && q in s.jobs && s.jobs[r].remaining != [] && s.jobs[r].remaining[0] in s.jobs[q].remaining
    ensures q == r
  {
    assert InBatch(s.queue, s.jobs[r].remaining[0], r.batch);
  }

  lemma OwnTakesNothing(s: System, e: Event, order: int, out: Outcome)
    requires Own(s)
    ensures !TakesPaid(s, e, order, out)
  {
    if e.Advance? && e.r in s.jobs && s.jobs[e.r].remaining != [] {
      assert InBatch(s.queue, s.jobs[e.r].remaining[0], e.r.batch);
    }
  }

  lemma {:induction false} OwnNeverTakes(s: System, es: seq<Event>, order: int, out: Outcome)
    requires Inv(s, out) && Own(s) && OneAtATime(s, es, out) && !LeftPaid(s, order, out)
    ensures !PaysAgain(s, es, order, out, false) && !LeftPaid(Run(s, es, out), order, out)
    decreases |es|
  {
    if es != [] {
      StepKeeps(s, es[0], out);
      OwnStep(s, es[0], out);
      LeftStep(s, es[0], order, out);
      OwnTakesNothing(s, es[0], order, out);
      OwnNeverTakes(Step(s, es[0], out), es[1..], order, out);
    }
  }

  /** If a batch is never settled by two runs at once, an order is paid by one batch at
      most, and then stays in it and is settled only by it. */
  lemma PaidAndSettledOnce(es: seq<Event>, out: Outcome, order: int, b: nat, c: nat)
    requires OneAtATime(Empty, es, out) && PaidBy(Run(Empty, es, out), b, order, out)
    ensures var s := Run(Empty, es, out);
            && InBatch(s.queue, order, b)
            && (PaidBy(s, c, order, out) ==> c == b)
            && (order in s.ledger && s.ledger[order].SettledBy? ==> s.ledger[order] == SettledBy(b, out.at(b)))
  {
    OwnNeverTakes(Empty, es, order, out);
    PaidTwiceIff(es, order, out);
    RunKeeps(Empty, es, out);
    var s := Run(Empty, es, out);
    assert !PaidTwice(s, order, out);
    assert !LeftPaid(s, order, out);
    if order in s.ledger && s.ledger[order].SettledBy? {
      assert PaidBy(s, s.ledger[order].batch, order, out);
    }
  }

  lemma Next(s: System, es: seq<Event>, at: System, e: Event, to: System, out: Outcome) returns (es': seq<Event>)
    requires Run(s, es, out) == at && Step(at, e, out) == to
    ensures Run(s, es', out) == to && es' == es + [e]
  {
    es' := es + [e];
    RunAppend(s, es, [e], out);
    assert Run(to, [], out) == to;
    assert [e][1..] == [];
  }

  /** One order, cut `cut` times so far and now in batch `batch`, if any. */
  function Lone(order: int, batch: Option<nat>, since: int, cut: nat, jobs: map<RunId, Job>): System {
    System(map[order := Queued(0, "r", 1, batch, since)], 1, LoneBatches(order, cut), cut,
           map[order := InDispatch], map[order := Dispatching], jobs)
  }

  function LoneBatches(order: int, cut: nat): map<nat, Batch> {
    if cut == 0 then map[] else LoneBatches(order, cut - 1)[cut - 1 := Batch(1, [order], "t")]
  }

  /** A run in which it happens, whatever batches 1 and 2 come to, so long as batch 0
      failed to pay the order: two runs of batch 0 have listed it; the first requeues it,
      and it is cut into batch 1; the second requeues it out of batch 1, and it is cut
      into batch 2. */
  lemma OverlappingRunsPayTwice(order: int, out: Outcome) returns (es: seq<Event>)
    requires out.paid(0, order) == Some(false)
    ensures var s := Run(Empty, es, out);
            Pays(s.batches, 1, order) && Pays(s.batches, 2, order)
    ensures out.paid(1, order) == out.paid(2, order) == Some(true) ==> PaidTwice(Run(Empty, es, out), order, out)
  {
    var r, q, job := RunId(0, 0), RunId(0, 1), Job([order], false);
    es := ReachOverlap(order, out);
    es := Next(Empty, es, Lone(order, Some(0), 0, 1, map[r := job, q := job]), Advance(r, Unheard, 1), Lone(order, None, 1, 1, map[q := job]), out);
    es := CutLone(es, order, 1, 1, map[q := job], out);
    es := Next(Empty, es, Lone(order, Some(1), 1, 2, map[q := job]), Advance(q, Unheard, 2), Lone(order, None, 2, 2, map[]), out);
    es := CutLone(es, order, 2, 2, map[], out);
    var s := Lone(order, Some(2), 2, 3, map[]);
    assert s.batches[1] == s.batches[2] == Batch(1, [order], "t");
    if out.paid(1, order) == out.paid(2, order) == Some(true) {
      assert PaidBy(s, 1, order, out) && PaidBy(s, 2, order, out);
    }
  }

  lemma CutLone(es: seq<Event>, order: int, since: int, cut: nat, jobs: map<RunId, Job>, out: Outcome) returns (es': seq<Event>)
    requires Run(Empty, es, out) == Lone(order, None, since, cut, jobs)
    ensures Run(Empty, es', out) == Lone(order, Some(cut), since, cut + 1, jobs)
  {
    var s := Lone(order, None, since, cut, jobs);
    assert Cuttable(s, [order]);
    es' := Next(Empty, es, s, Cut(1, [order], "t"), Lone(order, Some(cut), since, cut + 1, jobs), out);
  }

  lemma ReachOverlap(order: int, out: Outcome) returns (es: seq<Event>)
    ensures Run(Empty, es, out) == Lone(order, Some(0), 0, 1, map[RunId(0, 0) := Job([order], false), RunId(0, 1) := Job([order], false)])
  {
    var r, q, job := RunId(0, 0), RunId(0, 1), Job([order], false);
    es := Next(Empty, [], Empty, Enqueue(order, "r", 1, 0), Lone(order, None, 0, 0, map[]), out);
    es := CutLone(es, order, 0, 0, map[], out);
    var s := Lone(order, Some(0), 0, 1, map[]);
    assert IsListing(s.queue, 0, [order]);
    es := Next(Empty, es, s, Begin(r, [order]), Lone(order, Some(0), 0, 1, map[r := job]), out);
    es := Next(Empty, es, Lone(order, Some(0), 0, 1, map[r := job]), Begin(q, [order]),
               Lone(order, Some(0), 0, 1, map[r := job, q := job]), out);
  }

  /** Nothing enqueued is lost: an order is QUEUED, or in exactly one batch, whose
      transaction pays it. */
  lemma {:induction false} NeverLost(s: System, es: seq<Event>, out: Outcome, order: int)
    requires Inv(s, out) && order in s.queue
    ensures var s' := Run(s, es, out);
            && order in s'.queue && s'.queue[order].recipient == s.queue[order].recipient && s'.queue[order].amount == s.queue[order].amount
            && (IsQueued(s'.queue, order) || (InBatch(s'.queue, order, s'.queue[order].batch.value)
                                              && Pays(s'.batches, s'.queue[order].batch.value, order)))
    decreases |es|
  {
    if es == [] {
      if !IsQueued(s.queue, order) {
        assert InBatch(s.queue, order, s.queue[order].batch.value);
      }
    } else {
      StepKeeps(s, es[0], out);
      StaysQueuedOrBatched(s, es[0], out, order);
      NeverLost(Step(s, es[0], out), es[1..], out, order);
    }
  }

  lemma StaysQueuedOrBatched(s: System, e: Event, out: Outcome, order: int)
    requires order in s.queue
    ensures var s' := Step(s, e, out);
            order in s'.queue && s'.queue[order].recipient == s.queue[order].recipient && s'.queue[order].amount == s.queue[order].amount
  {
  }

  // ---------- stopping and starting again ----------

  /** All the tables hold about one order. */
  datatype Cell = Cell(queued: Option<Queued>, ledger: Option<LedgerState>, local: Option<Local>)

  function CellOf(s: System, order: int): Cell {
    Cell(if order in s.queue then Some(s.queue[order]) else None,
         if order in s.ledger then Some(s.ledger[order]) else None,
         if order in s.local then Some(s.local[order]) else None)
  }

  /** When an order was requeued is left out of the comparison. */
  function Untimed(c: Cell): Cell {
    if c.queued.Some? then c.(queued := Some(c.queued.value.(since := 0))) else c
  }

  /** The cell once batch `b` has been handled. */
  function Handled(c: Cell, order: int, b: nat, out: Outcome): Cell {
    if c.queued.None? || c.queued.value.batch != Some(b) || out.paid(b, order).None? then Untimed(c)
    else if !out.paid(b, order).value then Untimed(c.(queued := Some(c.queued.value.(batch := None))))
    else
      var ledger := if c.ledger == Some(InDispatch) then Some(SettledBy(b, out.at(b))) else c.ledger;
      Untimed(c.(ledger := ledger,
                 local := if ledger == Some(SettledBy(b, out.at(b))) && c.local == Some(Dispatching) then Some(Settled) else c.local))
  }

  ghost predicate OnlyRuns(b: nat, es: seq<Event>) {
    forall e :: e in es ==> (e.Begin? || e.Advance? || e.Stop?) && e.r.batch == b
  }

  /** Nothing is left to do for the order. */
  predicate Steady(s: System, order: int, b: nat, out: Outcome) {
    Untimed(CellOf(s, order)) == Handled(CellOf(s, order), order, b, out)
  }

  /** Of its batch's orders, a run has yet to come to some, and the others need nothing
      more; an order it has yet to come to may meanwhile have been requeued. */
  ghost predicate Progress(s: System, b: nat, remaining: seq<int>, out: Outcome) {
    && (forall order :: InBatch(s.queue, order, b) && order !in remaining ==> Steady(s, order, b, out))
    && (forall order :: order in remaining ==> InBatch(s.queue, order, b) || (IsQueued(s.queue, order) && out.paid(b, order) == Some(false)))
  }

  ghost predicate AllProgress(s: System, b: nat, out: Outcome) {
    forall r :: r in s.jobs && r.batch == b ==> Progress(s, b, s.jobs[r].remaining, out)
  }

  /** What a statement of a run of batch `b` may do to `order`, and to no other. */
  ghost predicate Nudged(s: System, s': System, order: int, b: nat, out: Outcome) {
    && (forall o :: o != order ==> CellOf(s', o) == CellOf(s, o))
    && Handled(CellOf(s', order), order, b, out) == Handled(CellOf(s, order), order, b, out)
    && (InBatch(s'.queue, order, b) ==> InBatch(s.queue, order, b) && (Steady(s, order, b, out) ==> Steady(s', order, b, out)))
    && (InBatch(s'.queue, order, b) || (IsQueued(s'.queue, order) && out.paid(b, order) == Some(false)))
  }

  lemma SameCell(s: System, s': System, order: int, b: nat)
    requires CellOf(s', order) == CellOf(s, order)
    ensures InBatch(s'.queue, order, b) == InBatch(s.queue, order, b) && IsQueued(s'.queue, order) == IsQueued(s.queue, order)
    ensures order in s.queue ==> order in s'.queue && s'.queue[order] == s.queue[order]
  {
    assert order in s'.queue <==> CellOf(s', order).queued.Some?;
    assert order in s.queue <==> CellOf(s, order).queued.Some?;
  }

  lemma ProgressStays(s: System, s': System, order: int, b: nat, remaining: seq<int>, out: Outcome)
    requires Progress(s, b, remaining, out) && Nudged(s, s', order, b, out)
    ensures Progress(s', b, remaining, out)
  {
    forall o | o != order
      ensures InBatch(s'.queue, o, b) == InBatch(s.queue, o, b) && IsQueued(s'.queue, o) == IsQueued(s.queue, o)
      ensures Steady(s', o, b, out) == Steady(s, o, b, out)
    {
      SameCell(s, s', o, b);
    }
  }

  lemma RequeueNudges(s: System, order: int, b: nat, now: int, out: Outcome)
    requires (InBatch(s.queue, order, b) || IsQueued(s.queue, order)) && out.paid(b, order) == Some(false)
    ensures Nudged(s, s.(queue := Requeueing(s.queue, order, now)), order, b, out)
  {
  }

  lemma SettleNudges(s: System, order: int, b: nat, out: Outcome)
    requires InBatch(s.queue, order, b) && out.paid(b, order) == Some(true)
    ensures Nudged(s, s.(ledger := Settling(s.ledger, order, b, out.at(b))), order, b, out)
  {
  }

  lemma MarkNudges(s: System, order: int, b: nat, out: Outcome)
    requires InBatch(s.queue, order, b) && out.paid(b, order) == Some(true) && Obliged(s.ledger, order, b, out.at(b))
    ensures var s' := s.(local := Marking(s.local, order));
            Nudged(s, s', order, b, out) && Steady(s', order, b, out)
  {
  }

  lemma SameTables(s: System, s': System, order: int, b: nat, out: Outcome)
    requires s'.queue == s.queue && s'.ledger == s.ledger && s'.local == s.local
    ensures CellOf(s', order) == CellOf(s, order) && Steady(s', order, b, out) == Steady(s, order, b, out)
  {
  }

  /** The statement a run makes for its next order. */
  lemma AdvanceNudges(s: System, r: RunId, reply: Reply, now: int, out: Outcome)
    requires Inv(s, out) && r in s.jobs && Progress(s, r.batch, s.jobs[r].remaining, out)
    ensures var s' := AdvanceOf(s, r, reply, now, out);
            || (s'.jobs == s.jobs - {r} && s'.queue == s.queue && s'.ledger == s.ledger && s'.local == s.local)
            || (s.jobs[r].remaining != [] && Nudged(s, s', s.jobs[r].remaining[0], r.batch, out))
    ensures var s' := AdvanceOf(s, r, reply, now, out);
            r in s'.jobs ==>
              || s'.jobs[r].remaining == s.jobs[r].remaining
              || (s.jobs[r].remaining != [] && s'.jobs[r].remaining == s.jobs[r].remaining[1..]
                  && (InBatch(s'.queue, s.jobs[r].remaining[0], r.batch) ==> Steady(s', s.jobs[r].remaining[0], r.batch, out)))
  {
    var Job(remaining, atLedger) := s.jobs[r];
    assert JobSound(s, r, s.jobs[r], out);
    if remaining != [] && out.paid(r.batch, remaining[0]).Some? && !reply.Fails? {
      var order := remaining[0];
      assert order in remaining;
      if !out.paid(r.batch, order).value {
        RequeueNudges(s, order, r.batch, now, out);
      } else if !atLedger {
        SettleNudges(s, order, r.batch, out);
      } else {
        MarkNudges(s, order, r.batch, out);
      }
    }
  }

  lemma AdvanceProgresses(s: System, r: RunId, reply: Reply, now: int, out: Outcome)
    requires Inv(s, out) && r in s.jobs && AllProgress(s, r.batch, out)
    ensures var s' := AdvanceOf(s, r, reply, now, out);
            AllProgress(s', r.batch, out) && forall o :: Handled(CellOf(s', o), o, r.batch, out) == Handled(CellOf(s, o), o, r.batch, out)
  {
    var s', b, remaining := AdvanceOf(s, r, reply, now, out), r.batch, s.jobs[r].remaining;
    AdvanceNudges(s, r, reply, now, out);
    OtherJobs(s, r, reply, now, out);
    forall q | q in s'.jobs && q.batch == b
      ensures Progress(s', b, s'.jobs[q].remaining, out)
    {
      assert Progress(s, b, s.jobs[q].remaining, out);
      if remaining != [] && Nudged(s, s', remaining[0], b, out) {
        ProgressStays(s, s', remaining[0], b, s.jobs[q].remaining, out);
      } else {
        forall o ensures Steady(s', o, b, out) == Steady(s, o, b, out) { SameTables(s, s', o, b, out); }
      }
    }
  }

  lemma StepIsSteady(s: System, e: Event, b: nat, out: Outcome)
    requires Inv(s, out) && AllProgress(s, b, out) && (e.Begin? || e.Advance? || e.Stop?) && e.r.batch == b
    ensures var s' := Step(s, e, out);
            AllProgress(s', b, out) && forall o :: Handled(CellOf(s', o), o, b, out) == Handled(CellOf(s, o), o, b, out)
  {
    var s' := Step(s, e, out);
    if e.Advance? && e.r in s.jobs {
      AdvanceProgresses(s, e.r, e.reply, e.now, out);
    } else {
      forall o ensures CellOf(s', o) == CellOf(s, o) && Steady(s', o, b, out) == Steady(s, o, b, out) { SameTables(s, s', o, b, out); }
      forall q | q in s'.jobs && q.batch == b
        ensures Progress(s', b, s'.jobs[q].remaining, out)
      {
        assert q in s.jobs && s'.jobs[q] == s.jobs[q] ==> Progress(s, b, s.jobs[q].remaining, out);
      }
    }
  }

  /** Settling a batch can be stopped anywhere and started again any number of times,
      with runs overlapping, and with nothing else touching its orders: whenever a run
      gets to the end, the queue, the ledger and dispatch_state are in the one state that
      a single clean run reaches from where it all began. */
  lemma {:induction false} ResumptionIsClean(s: System, es: seq<Event>, b: nat, r: RunId, out: Outcome)
    requires Inv(s, out) && AllProgress(s, b, out) && OnlyRuns(b, es) && r.batch == b
    ensures var s' := Run(s, es, out);
            && (forall o :: Handled(CellOf(s', o), o, b, out) == Handled(CellOf(s, o), o, b, out))
            && (r in s'.jobs && s'.jobs[r].remaining == [] ==>
                  forall o :: Untimed(CellOf(s', o)) == Handled(CellOf(s, o), o, b, out))
    decreases |es|
  {
    if es == [] {
      if r in s.jobs && s.jobs[r].remaining == [] {
        assert Progress(s, b, [], out);
        forall o
          ensures Steady(s, o, b, out)
        {
          assert !InBatch(s.queue, o, b) ==> Handled(CellOf(s, o), o, b, out) == Untimed(CellOf(s, o));
        }
      }
    } else {
      var e := es[0];
      assert e in es;
      StepKeeps(s, e, out);
      StepIsSteady(s, e, b, out);
      ResumptionIsClean(Step(s, e, out), es[1..], b, r, out);
    }
  }

  // ---------- an order that cannot be completed ----------

  /** An order whose turn can be completed: its result is known, and if it was paid the
      ledger and dispatch_state will have it settled. */
  predicate Finishable(s: System, b: nat, order: int, out: Outcome) {
    && out.paid(b, order).Some?
    && (out.paid(b, order).value ==>
          && Obliged(Settling(s.ledger, order, b, out.at(b)), order, b, out.at(b))
          && Marked(Marking(s.local, order), order))
  }

  /** `x` is met before `y`. */
  predicate Before(remaining: seq<int>, x: int, y: int) {
    remaining == [] || remaining[0] == x || (remaining[0] != y && Before(remaining[1..], x, y))
  }

  lemma {:induction false} ListedBefore(queue: map<int, Queued>, listing: seq<int>, x: int, y: int)
    requires ById(queue, listing) && x in queue && y in queue && queue[x].id < queue[y].id
    requires y in listing ==> x in listing
    ensures Before(listing, x, y)
    decreases |listing|
  {
    if listing != [] && listing[0] != x {
      var rest := listing[1..];
      assert ById(queue, rest) by {
        assert forall i :: 0 <= i < |rest| ==> rest[i] == listing[i + 1];
      }
      if y in listing {
        var i :| 0 <= i < |listing| && listing[i] == x;
        assert listing[0] != y;
        assert rest[i - 1] == x;
      }
      ListedBefore(queue, rest, x, y);
    }
  }

  /** Every run of the batch comes to `x` before `y`, and `x` cannot be completed. */
  ghost predicate Blocked(s: System, b: nat, x: int, y: int, out: Outcome) {
    && InBatch(s.queue, x, b) && InBatch(s.queue, y, b) && s.queue[x].id < s.queue[y].id && !Finishable(s, b, x, out)
    && forall r :: r in s.jobs && r.batch == b ==> BlockedRun(s, s.jobs[r], b, x, y, out)
  }

  predicate BlockedRun(s: System, job: Job, b: nat, x: int, y: int, out: Outcome) {
    && Before(job.remaining, x, y)
    && (job.atLedger && job.remaining != [] && job.remaining[0] == x ==> Obliged(s.ledger, x, b, out.at(b)))
  }

  lemma StepBlocked(s: System, e: Event, b: nat, x: int, y: int, out: Outcome)
    requires Blocked(s, b, x, y, out) && (e.Begin? || e.Advance? || e.Stop?) && e.r.batch == b
    ensures Blocked(Step(s, e, out), b, x, y, out) && CellOf(Step(s, e, out), y) == CellOf(s, y)
  {
    var s' := Step(s, e, out);
    if e.Advance? && e.r in s.jobs {
      AdvanceBlocked(s, e.r, e.reply, e.now, x, y, out);
    } else {
      SameTables(s, s', y, b, out);
      if e.Begin? && s' != s {
        ListedBefore(s.queue, e.listing, x, y);
      }
    }
  }

  lemma AdvanceBlocked(s: System, r: RunId, reply: Reply, now: int, x: int, y: int, out: Outcome)
    requires r in s.jobs && Blocked(s, r.batch, x, y, out)
    ensures var s' := AdvanceOf(s, r, reply, now, out); Blocked(s', r.batch, x, y, out) && CellOf(s', y) == CellOf(s, y)
  {
    var s', b := AdvanceOf(s, r, reply, now, out), r.batch;
    assert BlockedRun(s, s.jobs[r], b, x, y, out);
    OtherJobs(s, r, reply, now, out);
    AdvanceBlockedTables(s, r, reply, now, x, y, out);
    forall q | q in s'.jobs && q.batch == b
      ensures BlockedRun(s', s'.jobs[q], b, x, y, out)
    {
      assert BlockedRun(s, s.jobs[q], b, x, y, out);
    }
  }

  lemma AdvanceBlockedTables(s: System, r: RunId, reply: Reply, now: int, x: int, y: int, out: Outcome)
    requires r in s.jobs && BlockedRun(s, s.jobs[r], r.batch, x, y, out) && x != y
    requires InBatch(s.queue, x, r.batch) && InBatch(s.queue, y, r.batch) && !Finishable(s, r.batch, x, out)
    ensures var s' := AdvanceOf(s, r, reply, now, out);
            && x in s'.queue && s'.queue[x] == s.queue[x] && CellOf(s', y) == CellOf(s, y)
            && y in s'.queue && s'.queue[y] == s.queue[y]
            && !Finishable(s', r.batch, x, out)
            && (Obliged(s.ledger, x, r.batch, out.at(r.batch)) ==> Obliged(s'.ledger, x, r.batch, out.at(r.batch)))
            && (r in s'.jobs ==> BlockedRun(s', s'.jobs[r], r.batch, x, y, out))
  {
    if s.jobs[r].remaining != [] {
      if s.jobs[r].remaining[0] == x {
        AtStuckOrder(s, r, reply, now, x, y, out);
      } else {
        BeforeStuckOrder(s, r, reply, now, x, y, out);
      }
    }
  }

  lemma AtStuckOrder(s: System, r: RunId, reply: Reply, now: int, x: int, y: int, out: Outcome)
    requires r in s.jobs && BlockedRun(s, s.jobs[r], r.batch, x, y, out) && x != y
    requires s.jobs[r].remaining != [] && s.jobs[r].remaining[0] == x
    requires InBatch(s.queue, x, r.batch) && !Finishable(s, r.batch, x, out)
    ensures var s' := AdvanceOf(s, r, reply, now, out);
            && s'.queue == s.queue && CellOf(s', y) == CellOf(s, y) && !Finishable(s', r.batch, x, out)
            && (Obliged(s.ledger, x, r.batch, out.at(r.batch)) ==> Obliged(s'.ledger, x, r.batch, out.at(r.batch)))
            && (r in s'.jobs ==> s'.jobs[r].remaining == s.jobs[r].remaining && BlockedRun(s', s'.jobs[r], r.batch, x, y, out))
  {
  }

  lemma BeforeStuckOrder(s: System, r: RunId, reply: Reply, now: int, x: int, y: int, out: Outcome)
    requires r in s.jobs && BlockedRun(s, s.jobs[r], r.batch, x, y, out) && x != y
    requires s.jobs[r].remaining != [] && s.jobs[r].remaining[0] != x
    ensures var s' := AdvanceOf(s, r, reply, now, out);
            && CellOf(s', y) == CellOf(s, y) && CellOf(s', x) == CellOf(s, x)
            && (x in s.queue ==> x in s'.queue && s'.queue[x] == s.queue[x])
            && (y in s.queue ==> y in s'.queue && s'.queue[y] == s.queue[y])
            && Finishable(s', r.batch, x, out) == Finishable(s, r.batch, x, out)
            && (Obliged(s.ledger, x, r.batch, out.at(r.batch)) ==> Obliged(s'.ledger, x, r.batch, out.at(r.batch)))
            && (r in s'.jobs ==> BlockedRun(s', s'.jobs[r], r.batch, x, y, out))
  {
    var s' := AdvanceOf(s, r, reply, now, out);
    StaysOrGoesOn(s, r, reply, now, out);
    OnlyFirstMoves(s, r, reply, now, x, out);
    OnlyFirstMoves(s, r, reply, now, y, out);
    SameCell(s, s', x, r.batch);
    SameCell(s, s', y, r.batch);
    SameFinish(s, s', r.batch, x, out);
  }

  lemma OnlyFirstMoves(s: System, r: RunId, reply: Reply, now: int, order: int, out: Outcome)
    requires r in s.jobs && s.jobs[r].remaining != [] && order != s.jobs[r].remaining[0]
    ensures var s' := AdvanceOf(s, r, reply, now, out);
            CellOf(s', order) == CellOf(s, order)
  {
  }

  lemma StaysOrGoesOn(s: System, r: RunId, reply: Reply, now: int, out: Outcome)
    requires r in s.jobs && s.jobs[r].remaining != []
    ensures var s' := AdvanceOf(s, r, reply, now, out);
            r in s'.jobs ==> || (s'.jobs[r].remaining == s.jobs[r].remaining)
                             || (s'.jobs[r].remaining == s.jobs[r].remaining[1..] && !s'.jobs[r].atLedger)
  {
  }

  /** An order that cannot be completed (no result for it, or refused by the ledger or by
      dispatch_state) stops the batch's every run, now and later, before the orders
      listed after it: nothing about those ever changes. */
  lemma {:induction false} StuckOrderBlocks(s: System, es: seq<Event>, b: nat, x: int, y: int, out: Outcome)
    requires Blocked(s, b, x, y, out) && OnlyRuns(b, es)
    ensures var s' := Run(s, es, out); Blocked(s', b, x, y, out) && CellOf(s', y) == CellOf(s, y)
    decreases |es|
  {
    if es != [] {
      assert es[0] in es;
      StepBlocked(s, es[0], b, x, y, out);
      StuckOrderBlocks(Step(s, es[0], out), es[1..], b, x, y, out);
    }
  }

  /** An order the ledger has settled by this batch can be passed again exactly with the
      timestamp it was settled with; with any other, no run of the batch ever gets past
      it, and the orders listed after it stay as they are. */
  lemma AnotherTimestampIsRefused(s: System, es: seq<Event>, b: nat, x: int, y: int, at: int, out: Outcome)
    requires x in s.ledger && s.ledger[x] == SettledBy(b, at) && out.paid(b, x) == Some(true) && Marked(s.local, x)
    requires InBatch(s.queue, x, b) && InBatch(s.queue, y, b) && s.queue[x].id < s.queue[y].id
    requires OnlyRuns(b, es) && forall r :: r in s.jobs ==> r.batch != b
    ensures Finishable(s, b, x, out) <==> out.at(b) == at
    ensures out.at(b) != at ==> CellOf(Run(s, es, out), y) == CellOf(s, y)
  {
    if out.at(b) != at {
      StuckOrderBlocks(s, es, b, x, y, out);
    }
  }

  /** So it is with an order the ledger has decided elsewhere. */
  lemma RefusedOrderBlocks(s: System, es: seq<Event>, b: nat, x: int, y: int, out: Outcome)
    requires x in s.ledger && s.ledger[x] == Elsewhere && out.paid(b, x) == Some(true)
    requires InBatch(s.queue, x, b) && InBatch(s.queue, y, b) && s.queue[x].id < s.queue[y].id
    requires OnlyRuns(b, es) && forall r :: r in s.jobs ==> r.batch != b
    ensures CellOf(Run(s, es, out), y) == CellOf(s, y) && !Finishable(Run(s, es, out), b, x, out)
  {
    StuckOrderBlocks(s, es, b, x, y, out);
  }

  // ---------- the code ----------

  /** Only run `r` is at work, and the statements it makes for an order are answered as
      `replies` says, by whether it is the one that marks the order settled. */
  ghost predicate Driven(s: System, r: RunId, es: seq<Event>, out: Outcome, replies: (int, bool) -> Reply)
    decreases |es|
  {
    es == [] || (Answered(s, r, es[0], replies) && Driven(Step(s, es[0], out), r, es[1..], out, replies))
  }

  ghost predicate Answered(s: System, r: RunId, e: Event, replies: (int, bool) -> Reply) {
    || (e.Begin? && e.r == r)
    || (e.Advance? && e.r == r && r in s.jobs
        && (s.jobs[r].remaining == [] || e.reply == replies(s.jobs[r].remaining[0], s.jobs[r].atLedger)))
  }

  lemma {:induction false} DrivenAppend(s: System, r: RunId, es: seq<Event>, more: seq<Event>, out: Outcome, replies: (int, bool) -> Reply)
    requires Driven(s, r, es, out, replies) && Driven(Run(s, es, out), r, more, out, replies)
    ensures Driven(s, r, es + more, out, replies) && Run(s, es + more, out) == Run(Run(s, es, out), more, out)
    decreases |es|
  {
    if es == [] {
      assert [] + more == more;
    } else {
      assert (es + more)[0] == es[0] && (es + more)[1..] == es[1..] + more;
      DrivenAppend(Step(s, es[0], out), r, es[1..], more, out, replies);
    }
  }

  /** One more event, answered as `replies` says, added to a run. */
  ghost function Then(s: System, es: seq<Event>, r: RunId, e: Event, out: Outcome, replies: (int, bool) -> Reply): (more: seq<Event>)
    requires Driven(s, r, es, out, replies) && Answered(Run(s, es, out), r, e, replies)
    ensures Run(s, more, out) == Step(Run(s, es, out), e, out) && Driven(s, r, more, out, replies)
  {
    assert [e][1..] == [];
    assert Run(Step(Run(s, es, out), e, out), [], out) == Step(Run(s, es, out), e, out);
    DrivenAppend(s, r, es, [e], out, replies);
    es + [e]
  }

  /** The order cannot be completed, or one of the calls made for it fails. */
  ghost predicate Stuck(s: System, b: nat, order: int, out: Outcome, replies: (int, bool) -> Reply) {
    !Finishable(s, b, order, out) || !replies(order, false).Fine? || (out.paid(b, order).value && !replies(order, true).Fine?)
  }

  /** The orders `done` could all be completed and have been, and no others have been
      touched. */
  ghost predicate GotThrough(s: System, s': System, done: seq<int>, b: nat, out: Outcome) {
    && (forall order :: order !in done ==> CellOf(s', order) == CellOf(s, order))
    && (forall order :: order in done ==> Finishable(s, b, order, out) && Untimed(CellOf(s', order)) == Handled(CellOf(s, order), order, b, out))
  }

  ghost predicate NoneStuck(s: System, done: seq<int>, b: nat, out: Outcome, replies: (int, bool) -> Reply) {
    forall order :: order in done ==> !Stuck(s, b, order, out, replies)
  }

  lemma NextInListing(s: System, s': System, listing: seq<int>, i: nat, b: nat, out: Outcome, replies: (int, bool) -> Reply)
    requires i < |listing| && NoRepeats(listing) && GotThrough(s, s', listing[..i], b, out)
    ensures listing[i..] == [listing[i]] + listing[i + 1..]
    ensures CellOf(s', listing[i]) == CellOf(s, listing[i])
    ensures Stuck(s', b, listing[i], out, replies) == Stuck(s, b, listing[i], out, replies)
    ensures InBatch(s'.queue, listing[i], b) == InBatch(s.queue, listing[i], b)
  {
    assert listing[i] !in listing[..i];
    SameFinish(s, s', b, listing[i], out);
  }

  lemma GotOneFurther(s: System, s1: System, s2: System, listing: seq<int>, i: nat, b: nat, out: Outcome, replies: (int, bool) -> Reply)
    requires i < |listing| && NoRepeats(listing) && GotThrough(s, s1, listing[..i], b, out)
    requires forall o :: o != listing[i] ==> CellOf(s2, o) == CellOf(s1, o)
    requires Untimed(CellOf(s2, listing[i])) == Handled(CellOf(s, listing[i]), listing[i], b, out)
    requires NoneStuck(s, listing[..i], b, out, replies) && !Stuck(s, b, listing[i], out, replies)
    ensures GotThrough(s, s2, listing[..i + 1], b, out) && NoneStuck(s, listing[..i + 1], b, out, replies)
  {
    assert listing[..i + 1] == listing[..i] + [listing[i]];
    assert listing[i] !in listing[..i];
  }

  lemma StopsHere(s: System, s1: System, s2: System, listing: seq<int>, i: nat, b: nat, out: Outcome, replies: (int, bool) -> Reply)
    requires i < |listing| && NoRepeats(listing) && GotThrough(s, s1, listing[..i], b, out) && NoneStuck(s, listing[..i], b, out, replies)
    requires Stuck(s, b, listing[i], out, replies) && forall o :: o != listing[i] ==> CellOf(s2, o) == CellOf(s1, o)
    ensures StopsAt(s, s2, listing, i, b, out, replies)
  {
    forall j | i < j < |listing|
      ensures CellOf(s2, listing[j]) == CellOf(s, listing[j])
    {
      assert listing[j] !in listing[..i];
    }
    forall j | 0 <= j < i
      ensures listing[j] in listing[..i] && listing[j] != listing[i]
    {
      assert listing[..i][j] == listing[j];
    }
  }

  lemma StopsAtEnd(s: System, s': System, listing: seq<int>, b: nat, out: Outcome, replies: (int, bool) -> Reply)
    requires GotThrough(s, s', listing, b, out) && NoneStuck(s, listing, b, out, replies)
    ensures StopsAt(s, s', listing, |listing|, b, out, replies)
  {
  }

  lemma SameFinish(s: System, s': System, b: nat, order: int, out: Outcome)
    requires CellOf(s', order) == CellOf(s, order)
    ensures Finishable(s', b, order, out) == Finishable(s, b, order, out)
    ensures InBatch(s'.queue, order, b) == InBatch(s.queue, order, b)
    ensures Obliged(s'.ledger, order, b, out.at(b)) == Obliged(s.ledger, order, b, out.at(b))
  {
    SameCell(s, s', order, b);
    assert order in s'.ledger <==> CellOf(s', order).ledger.Some?;
    assert order in s'.local <==> CellOf(s', order).local.Some?;
    assert order in s.ledger <==> CellOf(s, order).ledger.Some?;
    assert order in s.local <==> CellOf(s, order).local.Some?;
  }

  /** How many of the first `n` orders the batch paid. */
  function PaidCount(orders: seq<int>, n: nat, b: nat, out: Outcome): nat
    requires n <= |orders|
  {
    if n == 0 then 0 else PaidCount(orders, n - 1, b, out) + (if out.paid(b, orders[n - 1]) == Some(true) then 1 else 0)
  }

  class SweepStore {
    var queue: map<int, Queued>
    var nextRow: nat
    var batches: map<nat, Batch>
    var nextBatch: nat
    var ledger: map<int, LedgerState>
    var local: map<int, Local>
    ghost var jobs: map<RunId, Job>

    ghost function State(): System
      reads this
    {
      System(queue, nextRow, batches, nextBatch, ledger, local, jobs)
    }

    constructor ()
      ensures State() == Empty
    {
      queue, nextRow, batches, nextBatch, ledger, local, jobs := map[], 0, map[], 0, map[], map[], map[];
    }

    /** `AccumulateForBatch`, its order already dispatching: a second enqueue changes
        nothing. */
    method Enqueue(order: int, recipient: string, amount: int, now: int, ghost out: Outcome)
      modifies this`queue, this`nextRow, this`ledger, this`local
      ensures State() == Step(old(State()), Event.Enqueue(order, recipient, amount, now), out)
    {
      if order !in queue {
        queue, nextRow := queue[order := Queued(nextRow, recipient, amount, None, now)], nextRow + 1;
        if order !in ledger {
          ledger := ledger[order := InDispatch];
        }
        if order !in local {
          local := local[order := Dispatching];
        }
      }
    }

    /** `CutBatch` over what `ListQueued` returned: nothing until the window is full or
        its oldest order has waited long enough; else one batch of exactly the listed
        orders, even if its energy cannot then be reserved. */
    method CutBatch(slotId: int, queued: seq<int>, maxSize: nat, maxWait: int, now: int, tx: Option<string>, reserved: bool, ghost out: Outcome)
      returns (batch: Option<nat>)
      requires NoRepeats(queued) && (forall i :: 0 <= i < |queued| ==> IsQueued(queue, queued[i])) && |queued| <= maxSize
      modifies this`queue, this`batches, this`nextBatch
      ensures if queued == [] || (|queued| < maxSize && queued[0] in old(queue) && now - old(queue)[queued[0]].since < maxWait) || tx.None?
              then batch.None? && State() == old(State())
              else State() == Step(old(State()), Cut(slotId, queued, tx.value), out)
                   && batches == old(batches)[old(nextBatch) := Batch(slotId, queued, tx.value)]
                   && batch == (if reserved then Some(old(nextBatch)) else None)
      ensures forall order :: order in queued && batches != old(batches) ==> InBatch(queue, order, old(nextBatch))
    {
      if queued == [] {
        return None;
      }
      if |queued| < maxSize && now - queue[queued[0]].since < maxWait {
        return None;
      }
      if tx.None? {
        return None;
      }
      assert Cuttable(State(), queued);
      var b := nextBatch;
      queue, batches, nextBatch := Batching(queue, queued, b), batches[b := Batch(slotId, queued, tx.value)], b + 1;
      return if reserved then Some(b) else None;
    }

    /** One order's turn in `HandlePartialSettlement`. */
    method HandleOne(b: nat, ghost r: RunId, order: int, ghost rest: seq<int>, out: Outcome, replies: (int, bool) -> Reply, now: int)
      returns (done: Option<bool>, ghost es: seq<Event>)
      requires r.batch == b && r in jobs && jobs[r] == Job([order] + rest, false) && InBatch(queue, order, b)
      modifies this`queue, this`ledger, this`local, this`jobs
      ensures State() == Run(old(State()), es, out) && Driven(old(State()), r, es, out, replies)
      ensures done.Some? ==> jobs == old(jobs)[r := Job(rest, false)] && done == out.paid(b, order)
                             && Untimed(CellOf(State(), order)) == Handled(CellOf(old(State()), order), order, b, out)
      ensures done.None? <==> Stuck(old(State()), b, order, out, replies)
      ensures done.None? ==> jobs == old(jobs) - {r}
      ensures forall o :: o != order ==> CellOf(State(), o) == CellOf(old(State()), o)
    {
      ghost var before := State();
      assert ([order] + rest)[0] == order && ([order] + rest)[1..] == rest;
      var paid := out.paid(b, order);
      es := Then(before, [], r, Advance(r, replies(order, false), now), out, replies);
      if paid.None? || replies(order, false).Fails? {
        jobs := jobs - {r};
        return None, es;
      }
      if !paid.value {
        queue := Requeueing(queue, order, now);
        if replies(order, false).Unheard? {
          jobs := jobs - {r};
          return None, es;
        }
        jobs := jobs[r := Job(rest, false)];
        return Some(false), es;
      }
      ledger := Settling(ledger, order, b, out.at(b));
      if replies(order, false).Unheard? || !Obliged(ledger, order, b, out.at(b)) {
        jobs := jobs - {r};
        return None, es;
      }
      jobs := jobs[r := Job([order] + rest, true)];
      ghost var more: seq<Event>;
      done, more := MarkOne(b, r, order, rest, out, replies, now);
      DrivenAppend(before, r, es, more, out, replies);
      es := es + more;
    }

    /** The last statement of a paid order's turn. */
    method MarkOne(b: nat, ghost r: RunId, order: int, ghost rest: seq<int>, out: Outcome, replies: (int, bool) -> Reply, now: int)
      returns (done: Option<bool>, ghost es: seq<Event>)
      requires r.batch == b && r in jobs && jobs[r] == Job([order] + rest, true) && out.paid(b, order) == Some(true)
      modifies this`local, this`jobs
      ensures State() == Run(old(State()), es, out) && Driven(old(State()), r, es, out, replies)
      ensures done == if replies(order, true).Fine? && Marked(Marking(old(local), order), order) then Some(true) else None
      ensures local == if replies(order, true).Fails? then old(local) else Marking(old(local), order)
      ensures jobs == if done.Some? then old(jobs)[r := Job(rest, false)] else old(jobs) - {r}
    {
      assert ([order] + rest)[0] == order && ([order] + rest)[1..] == rest;
      es := Then(State(), [], r, Advance(r, replies(order, true), now), out, replies);
      if replies(order, true).Fails? {
        jobs := jobs - {r};
        return None, es;
      }
      local := Marking(local, order);
      if replies(order, true).Unheard? || !Marked(local, order) {
        jobs := jobs - {r};
        return None, es;
      }
      jobs := jobs[r := Job(rest, false)];
      return Some(true), es;
    }

    /** One pass of that loop, added to the run that began at `before`. */
    method HandleNext(b: nat, ghost r: RunId, listing: seq<int>, i: nat, out: Outcome, replies: (int, bool) -> Reply, now: int,
                      ghost before: System, ghost es: seq<Event>)
      returns (done: Option<bool>, ghost more: seq<Event>)
      requires i < |listing| && NoRepeats(listing) && (forall order :: order in listing ==> InBatch(before.queue, order, b)) && r.batch == b
      requires State() == Run(before, es, out) && Driven(before, r, es, out, replies) && jobs == before.jobs[r := Job(listing[i..], false)]
      requires GotThrough(before, State(), listing[..i], b, out) && NoneStuck(before, listing[..i], b, out, replies)
      modifies this`queue, this`ledger, this`local, this`jobs
      ensures State() == Run(before, more, out) && Driven(before, r, more, out, replies)
      ensures done.None? ==> jobs == before.jobs - {r} && StopsAt(before, State(), listing, i, b, out, replies)
      ensures done.Some? ==> done == out.paid(b, listing[i]) && jobs == before.jobs[r := Job(listing[i + 1..], false)]
                             && GotThrough(before, State(), listing[..i + 1], b, out) && NoneStuck(before, listing[..i + 1], b, out, replies)
    {
      var order := listing[i];
      ghost var s := State();
      NextInListing(before, s, listing, i, b, out, replies);
      done, more := HandleOne(b, r, order, listing[i + 1..], out, replies, now);
      DrivenAppend(before, r, es, more, out, replies);
      more := es + more;
      if done.None? {
        StopsHere(before, s, State(), listing, i, b, out, replies);
      } else {
        GotOneFurther(before, s, State(), listing, i, b, out, replies);
      }
    }

    /** The loop of `HandlePartialSettlement`. */
    method HandleAll(b: nat, ghost r: RunId, listing: seq<int>, out: Outcome, replies: (int, bool) -> Reply, now: int)
      returns (ok: bool, settled: nat, requeued: nat, ghost stopped: nat, ghost es: seq<Event>)
      requires NoRepeats(listing) && (forall order :: order in listing ==> InBatch(queue, order, b))
      requires r.batch == b && r in jobs && jobs[r] == Job(listing, false)
      modifies this`queue, this`ledger, this`local, this`jobs
      ensures State() == Run(old(State()), es, out) && Driven(old(State()), r, es, out, replies)
      ensures StopsAt(old(State()), State(), listing, stopped, b, out, replies) && (ok <==> stopped == |listing|)
      ensures settled == PaidCount(listing, stopped, b, out) && settled + requeued == stopped
      ensures jobs == if ok then old(jobs)[r := Job([], false)] else old(jobs) - {r}
    {
      ghost var before := State();
      settled, requeued, es := 0, 0, [];
      for i := 0 to |listing|
        invariant State() == Run(before, es, out) && Driven(before, r, es, out, replies)
        invariant jobs == before.jobs[r := Job(listing[i..], false)]
        invariant settled == PaidCount(listing, i, b, out) && settled + requeued == i
        invariant GotThrough(before, State(), listing[..i], b, out)
        invariant NoneStuck(before, listing[..i], b, out, replies)
      {
        var done;
        done, es := HandleNext(b, r, listing, i, out, replies, now, before, es);
        if done.None? {
          return false, settled, requeued, i, es;
        }
        if done.value {
          settled := settled + 1;
        } else {
          requeued := requeued + 1;
        }
      }
      assert listing[..|listing|] == listing && listing[|listing|..] == [];
      StopsAtEnd(before, State(), listing, b, out, replies);
      return true, settled, requeued, |listing|, es;
    }

    /** `HandlePartialSettlement`, over what `ListForBatch` returned: order by order, up to
        the first that cannot be completed or for which a call fails. The orders before
        it are handled, those after it are as they were. */
    method HandlePartialSettlement(b: nat, ghost r: RunId, listing: seq<int>, out: Outcome, replies: (int, bool) -> Reply, now: int)
      returns (ok: bool, settled: nat, requeued: nat, ghost stopped: nat, ghost es: seq<Event>)
      requires b in batches && r.batch == b && r !in jobs && IsListing(queue, b, listing)
      modifies this`queue, this`ledger, this`local, this`jobs
      ensures State() == Run(old(State()), es, out) && Driven(old(State()), r, es, out, replies) && jobs == old(jobs)
      ensures StopsAt(old(State()), State(), listing, stopped, b, out, replies) && (ok <==> stopped == |listing|)
      ensures settled == PaidCount(listing, stopped, b, out) && settled + requeued == stopped
      ensures ok ==> forall order :: Untimed(CellOf(State(), order)) == Handled(CellOf(old(State()), order), order, b, out)
    {
      ghost var before := State();
      es := Then(before, [], r, Begin(r, listing), out, replies);
      jobs := jobs[r := Job(listing, false)];
      ghost var begun := State();
      ghost var more: seq<Event>;
      ok, settled, requeued, stopped, more := HandleAll(b, r, listing, out, replies, now);
      DrivenAppend(before, r, es, more, out, replies);
      es := es + more;
      ghost var after := State();
      if ok {
        es := Then(before, es, r, Advance(r, Fine, now), out, replies);
        jobs := jobs - {r};
      }
      Concluded(before, begun, after, State(), r, listing, stopped, out, replies);
    }
  }

  /** The first `stopped` orders of the listing could be completed and have been; the next
      one, if any, could not; those after it, and all others, are untouched. */
  ghost predicate StopsAt(s: System, s': System, listing: seq<int>, stopped: nat, b: nat, out: Outcome, replies: (int, bool) -> Reply) {
    && stopped <= |listing|
    && (forall i :: 0 <= i < stopped ==> !Stuck(s, b, listing[i], out, replies)
                                         && Untimed(CellOf(s', listing[i])) == Handled(CellOf(s, listing[i]), listing[i], b, out))
    && (stopped < |listing| ==> Stuck(s, b, listing[stopped], out, replies))
    && (forall i :: stopped < i < |listing| ==> CellOf(s', listing[i]) == CellOf(s, listing[i]))
    && (forall order :: order !in listing ==> CellOf(s', order) == CellOf(s, order))
  }

  lemma AllHandled(s: System, s': System, listing: seq<int>, b: nat, out: Outcome, replies: (int, bool) -> Reply)
    requires IsListing(s.queue, b, listing) && StopsAt(s, s', listing, |listing|, b, out, replies)
    ensures forall order :: Untimed(CellOf(s', order)) == Handled(CellOf(s, order), order, b, out)
  {
    forall order
      ensures Untimed(CellOf(s', order)) == Handled(CellOf(s, order), order, b, out)
    {
      if order in listing {
        var i :| 0 <= i < |listing| && listing[i] == order;
      } else {
        assert !InBatch(s.queue, order, b);
      }
    }
  }

  /** What is true of the run's tables from its beginning to its end is true of the whole
      call, which adds only its coming and going. */
  lemma Concluded(s: System, begun: System, ended: System, s': System, r: RunId, listing: seq<int>, stopped: nat, out: Outcome,
                  replies: (int, bool) -> Reply)
    requires IsListing(s.queue, r.batch, listing) && StopsAt(begun, ended, listing, stopped, r.batch, out, replies)
    requires begun == Go(s, r, Job(listing, false)) && s' == ended.(jobs := s'.jobs)
    ensures StopsAt(s, s', listing, stopped, r.batch, out, replies)
    ensures stopped == |listing| ==> forall order :: Untimed(CellOf(s', order)) == Handled(CellOf(s, order), order, r.batch, out)
  {
    assert forall order :: CellOf(begun, order) == CellOf(s, order) && CellOf(s', order) == CellOf(ended, order);
    assert forall order :: Stuck(begun, r.batch, order, out, replies) == Stuck(s, r.batch, order, out, replies);
    assert StopsAt(s, s', listing, stopped, r.batch, out, replies);
    if stopped == |listing| {
      AllHandled(s, s', listing, r.batch, out, replies);
    }
  }
}
