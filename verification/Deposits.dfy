/** The life of one deposit, keyed by (tx_hash, log_index): what the watcher's memory,
    its deposits table, its orphan table and the ledger each hold about it, and every
    step that can change them, including crashes and lost replies
    (depositwatcher/internal/finality/finality.go, async_driver.go,
    depositwatcher/internal/deposits/deposits.go).

    Every step of the engine touches the state of one key only, or, for a restart,
    treats all keys alike. A run of the engine is therefore a run of each key's cell. */
module Deposits {
  import opened AsyncConfirmations
  import opened Wrappers

  // ---------- data ----------

  datatype Key = Key(txHash: Hash, logIndex: nat)

  datatype Classification = Exact | Overpay | Underpay | Dust | ZeroValue

  /** Everything a report to the ledger carries about a deposit. */
  datatype Deposit = Deposit(height: nat, blockTime: int, orderId: int, externalId: string, customerId: string,
                             amount: int, sender: string, address: string)

  datatype DepositStatus = Detected | Reported | Orphaned | Dropped

  datatype Row = Row(deposit: Deposit, cls: Classification, status: DepositStatus)

  /** An orphaned_deposits row; `reason` is the order state at detection. */
  datatype Orphan = Orphan(orderId: int, externalId: string, amount: int, reason: string)

  /** A pending candidate. Its CandidateConfirmations is kept as the history of votes
      that object has been shown to stand for. */
  datatype Candidate = Candidate(deposit: Deposit, cls: Classification, votes: seq<Vote>, alerted: bool)

  datatype Finalized = Finalized(deposit: Deposit, at: int)

  /** One key's state: memory (lost in a crash), tables, ledger entry. */
  datatype Cell = Cell(pending: Option<Candidate>, finalized: Option<Finalized>,
                       row: Option<Row>, orphan: Option<Orphan>, credit: Option<Deposit>)

  const Unseen := Cell(None, None, None, None, None)

  // ---------- what the outside world does ----------

  /** An insert that worked, one that did not, and one that did but whose
      confirmation never came back. */
  datatype SaveReply = Saved | SaveFailed | SaveReplyLost

  /** How the ledger meets one report: not at all; with the order still quoted, so open
      for it, and the reply lost or not; with the order funded; with the order past that. */
  datatype LedgerMood = Unreachable | ReplyLost | OrderOpen | OrderFunded | OrderClosed

  datatype LedgerAnswer = Accepted | Transient | Permanent

  /** The outside world during one `finalize` call. */
  datatype World = World(mood: LedgerMood, orderState: string, orphanSaved: bool, statusSaved: bool, now: int)

  /** What one provider's log re-query at the candidate's height came to. */
  datatype LogReply = LogError | Unparsable | NotThere | Found(amount: int)

  /** Ten minutes, in microseconds. */
  const FinalizedRetention := 600_000_000

  // ---------- steps ----------

  datatype Event =
    | Observed(d: Deposit, cls: Classification, save: SaveReply)
    | OrphanedAtScan(o: Orphan, saved: bool)
    | Finalize(w: World)
    | DropBeforeFinality(statusSaved: bool)
    | AsyncCheck(provider: string, finalizedHeight: nat, hash: Option<Hash>, logs: LogReply, w: World)
    | RecheckFinal(now: int, present: Option<bool>, reorgReported: bool)
    | Boot

  /** The two reports come to the same ledger entry: order, accounts, amount and time. */
  predicate SameEntry(d: Deposit, e: Deposit) {
    && d.externalId == e.externalId && d.orderId == e.orderId && d.customerId == e.customerId
    && d.amount == e.amount && d.blockTime == e.blockTime
  }

  /** The ledger. While the order is quoted or funded it is idempotent on the deposit's
      key: the same entry replays, another one is refused for good. Past that, and for a
      new entry once the order is funded, the transition itself is refused for good. */
  function Post(credit: Option<Deposit>, d: Deposit, mood: LedgerMood): (r: (Option<Deposit>, LedgerAnswer)) {
    match mood
    case Unreachable => (credit, Transient)
    case ReplyLost => (if credit.Some? then credit else Some(d), Transient)
    case OrderOpen => (if credit.Some? then credit else Some(d), if credit.Some? && !SameEntry(credit.value, d) then Permanent else Accepted)
    case OrderFunded => (credit, if credit.Some? && SameEntry(credit.value, d) then Accepted else Permanent)
    case OrderClosed => (credit, Permanent)
  }

  function WithStatus(row: Option<Row>, status: DepositStatus, saved: bool): Option<Row> {
    if row.Some? && saved then Some(row.value.(status := status)) else row
  }

  function Recorded(orphan: Option<Orphan>, o: Orphan): Option<Orphan> {
    if orphan.Some? then orphan else Some(o)
  }

  function Observe(c: Cell, d: Deposit, cls: Classification, save: SaveReply): Cell {
    if c.finalized.Some? || c.pending.Some? || cls.ZeroValue? || save.SaveFailed? then c
    else
      var row := if c.row.Some? then c.row else Some(Row(d, cls, Detected));
      if save.SaveReplyLost? || row.value.status != Detected then c.(row := row)
      else c.(row := row, pending := Some(Candidate(d, cls, [], false)))
  }

  function FinalizeCell(c: Cell, w: World): Cell
    requires c.pending.Some?
  {
    var d := c.pending.value.deposit;
    var (credit, answer) := Post(c.credit, d, w.mood);
    match answer
    case Transient => c.(credit := credit)
    case Permanent =>
      if !w.orphanSaved then c.(credit := credit)
      else c.(credit := credit, orphan := Recorded(c.orphan, Orphan(d.orderId, d.externalId, d.amount, w.orderState)),
              row := WithStatus(c.row, Orphaned, w.statusSaved), pending := None)
    case Accepted =>
      c.(credit := credit, row := WithStatus(c.row, Reported, w.statusSaved),
         finalized := Some(Finalized(d, w.now)), pending := None)
  }

  /** The observation an async check yields, if it yields one at all. */
  function ObservationOf(d: Deposit, e: Event): Option<Observation>
    requires e.AsyncCheck?
  {
    if d.height > e.finalizedHeight || e.hash.None? || e.logs.LogError? || e.logs.Unparsable? then None
    else Some(Observation(BlockId(d.height, e.hash.value), e.logs.Found?, d.orderId, if e.logs.Found? then e.logs.amount else 0))
  }

  /** What a candidate with these votes does next, given the status they add up to. */
  function Concluded(c: Cell, votes: seq<Vote>, status: Status, w: World): Cell
    requires c.pending.Some?
  {
    var voted := c.(pending := Some(c.pending.value.(votes := votes)));
    match status
    case QuorumReached => FinalizeCell(voted, w)
    case NotFound => voted.(pending := None)
    case DisagreementAlert => c.(pending := Some(c.pending.value.(votes := votes, alerted := true)))
    case Pending => voted
  }

  ghost function AsyncCheckCell(min: nat, c: Cell, e: Event): Cell
    requires e.AsyncCheck? && c.pending.Some?
  {
    var obs := ObservationOf(c.pending.value.deposit, e);
    if obs.None? then c
    else
      var votes := c.pending.value.votes + [Vote(e.provider, obs.value)];
      Concluded(c, votes, Outcome(min, votes), e.w)
  }

  ghost function Step(min: nat, c: Cell, e: Event): Cell {
    match e
    case Observed(d, cls, save) => Observe(c, d, cls, save)
    case OrphanedAtScan(o, saved) => if saved then c.(orphan := Recorded(c.orphan, o)) else c
    case Finalize(w) => if c.pending.Some? then FinalizeCell(c, w) else c
    case DropBeforeFinality(saved) =>
      if c.pending.Some? then c.(pending := None, row := WithStatus(c.row, Dropped, saved)) else c
    case AsyncCheck(_, _, _, _, _) => if c.pending.Some? then AsyncCheckCell(min, c, e) else c
    case RecheckFinal(now, present, reported) =>
      if c.finalized.Some? && (now - c.finalized.value.at > FinalizedRetention || (present == Some(false) && reported))
      then c.(finalized := None) else c
    case Boot =>
      c.(finalized := None,
         pending := if c.row.Some? && c.row.value.status == Detected
                    then Some(Candidate(c.row.value.deposit, c.row.value.cls, [], false)) else None)
  }

  ghost function Run(min: nat, c: Cell, es: seq<Event>): Cell
    decreases |es|
  {
    if es == [] then c else Run(min, Step(min, c, es[0]), es[1..])
  }

  /** This step calls OnFinal, that is, sends the ledger a report. */
  ghost predicate CallsLedger(min: nat, c: Cell, e: Event) {
    && c.pending.Some?
    && (e.Finalize?
        || (e.AsyncCheck? && var obs := ObservationOf(c.pending.value.deposit, e);
                             obs.Some? && Outcome(min, c.pending.value.votes + [Vote(e.provider, obs.value)]) == QuorumReached))
  }

  ghost function LedgerCalls(min: nat, c: Cell, es: seq<Event>): nat
    decreases |es|
  {
    if es == [] then 0
    else (if CallsLedger(min, c, es[0]) then 1 else 0) + LedgerCalls(min, Step(min, c, es[0]), es[1..])
  }

  lemma {:induction false} RunAppend(min: nat, c: Cell, es: seq<Event>, more: seq<Event>)
    ensures Run(min, c, es + more) == Run(min, Run(min, c, es), more)
    decreases |es|
  {
    if es == [] {
      assert es + more == more;
    } else {
      assert (es + more)[0] == es[0] && (es + more)[1..] == es[1..] + more;
      RunAppend(min, Step(min, c, es[0]), es[1..], more);
    }
  }

  lemma RunOne(min: nat, c: Cell, e: Event)
    ensures Run(min, c, [e]) == Step(min, c, e)
  {
    assert [e][1..] == [];
  }

  // ---------- what every step keeps ----------

  ghost predicate Decided(c: Cell) {
    c.row.Some? && c.row.value.status != Detected
  }

  /** Pending and finalized are disjoint; what is pending is stored and undecided;
      whatever is, or was recorded as, reported has been credited. */
  ghost predicate Sound(c: Cell) {
    && !(c.pending.Some? && c.finalized.Some?)
    && (c.pending.Some? ==> c.row.Some? && !Decided(c))
    && (c.finalized.Some? ==> c.row.Some? && c.row.value.status in {Detected, Reported} && c.credit.Some?)
    && (c.row.Some? && c.row.value.status == Reported ==> c.credit.Some?)
  }

  /** A step never loses a row, an orphan record or a credit, never rewrites what a
      deposit is, and moves its status once at most. */
  ghost predicate Remembers(c: Cell, c': Cell) {
    && (c.row.Some? ==> c'.row.Some? && c'.row.value.deposit == c.row.value.deposit)
    && (Decided(c) ==> c'.row == c.row)
    && (c.orphan.Some? ==> c'.orphan == c.orphan)
    && (c.credit.Some? ==> c'.credit == c.credit)
  }

  lemma StepKeeps(min: nat, c: Cell, e: Event)
    requires Sound(c)
    ensures Sound(Step(min, c, e)) && Remembers(c, Step(min, c, e))
  {
  }

  lemma {:induction false} RunKeeps(min: nat, c: Cell, es: seq<Event>)
    requires Sound(c)
    ensures Sound(Run(min, c, es)) && Remembers(c, Run(min, c, es))
    decreases |es|
  {
    if es != [] {
      StepKeeps(min, c, es[0]);
      RunKeeps(min, Step(min, c, es[0]), es[1..]);
    }
  }

  /** Once its stored status is REPORTED, ORPHANED or DROPPED, a deposit never becomes
      pending again and is never sent to the ledger again, whatever crashes, restarts,
      re-observations and lost replies follow. */
  lemma {:induction false} DecidedIsFinal(min: nat, c: Cell, es: seq<Event>)
    requires Sound(c) && Decided(c)
    ensures var c' := Run(min, c, es); c'.row == c.row && c'.pending.None? && c'.credit == c.credit
    ensures LedgerCalls(min, c, es) == 0
    decreases |es|
  {
    if es != [] {
      StepKeeps(min, c, es[0]);
      DecidedIsFinal(min, Step(min, c, es[0]), es[1..]);
    }
  }

  ghost function NewCredits(min: nat, c: Cell, es: seq<Event>): nat
    decreases |es|
  {
    if es == [] then 0
    else (if Step(min, c, es[0]).credit != c.credit then 1 else 0) + NewCredits(min, Step(min, c, es[0]), es[1..])
  }

  /** Exactly-once credit: over any run the ledger books at most one credit for the
      deposit, and exactly one if it ends up REPORTED. */
  lemma {:induction false} CreditedOnce(min: nat, c: Cell, es: seq<Event>)
    requires Sound(c)
    ensures NewCredits(min, c, es) == (if c.credit.None? && Run(min, c, es).credit.Some? then 1 else 0)
    ensures var c' := Run(min, c, es); c'.row.Some? && c'.row.value.status == Reported ==> c'.credit.Some?
    decreases |es|
  {
    RunKeeps(min, c, es);
    if es != [] {
      StepKeeps(min, c, es[0]);
      RunKeeps(min, Step(min, c, es[0]), es[1..]);
      CreditedOnce(min, Step(min, c, es[0]), es[1..]);
    }
  }

  /** After a restart exactly the stored, undecided deposits are pending. */
  lemma BootResumes(min: nat, c: Cell)
    requires Sound(c)
    ensures var c' := Step(min, c, Boot);
            && c'.finalized.None?
            && (c'.pending.Some? <==> c.row.Some? && c.row.value.status == Detected)
            && (c'.pending.Some? ==> c'.pending.value.deposit == c.row.value.deposit && c'.pending.value.votes == [])
  {
  }

  // ---------- the asynchronous driver ----------

  ghost predicate AsyncOnly(es: seq<Event>) {
    forall e :: e in es ==> !e.Finalize? && !e.DropBeforeFinality? && !e.Boot?
  }

  /** Every report the asynchronous driver sends is backed: no contradiction has ever
      been seen, and at least `min` providers' latest observations are PRESENT with one
      and the same block, order and amount. */
  lemma AsyncReportIsBacked(min: nat, c: Cell, e: Event) returns (votes: seq<Vote>, f: Facts)
    requires min >= 1 && e.AsyncCheck? && CallsLedger(min, c, e)
    ensures ObservationOf(c.pending.value.deposit, e).Some?
    ensures votes == c.pending.value.votes + [Vote(e.provider, ObservationOf(c.pending.value.deposit, e).value)]
    ensures !Disagreed(votes)
    ensures |PresentProviders(votes)| >= min
    ensures forall p :: p in PresentProviders(votes) ==> Latest(votes)[p].Seen() == f
  {
    votes := c.pending.value.votes + [Vote(e.provider, ObservationOf(c.pending.value.deposit, e).value)];
    LatestIsConsistent(votes);
    var q :| q in PresentProviders(votes);
    f := Latest(votes)[q].Seen();
    forall p | p in PresentProviders(votes)
      ensures Latest(votes)[p].Seen() == f
    {
      assert p != q ==> !Contradict(Latest(votes)[p], Latest(votes)[q]);
    }
  }

  /** Until a restart, a candidate whose providers disagreed stays pending: no further
      vote reports it, drops it or changes its record. */
  lemma {:induction false} DisagreementHolds(min: nat, c: Cell, es: seq<Event>)
    requires Sound(c) && c.pending.Some? && Disagreed(c.pending.value.votes) && AsyncOnly(es)
    ensures var c' := Run(min, c, es);
            && c'.pending.Some? && c'.pending.value.deposit == c.pending.value.deposit
            && Disagreed(c'.pending.value.votes)
            && c'.row == c.row && c'.credit == c.credit
    ensures LedgerCalls(min, c, es) == 0
    decreases |es|
  {
    if es != [] {
      var e := es[0];
      assert e in es;
      if e.AsyncCheck? && ObservationOf(c.pending.value.deposit, e).Some? {
        AlertIsTerminal(min, c.pending.value.votes, [Vote(e.provider, ObservationOf(c.pending.value.deposit, e).value)]);
      }
      StepKeeps(min, c, e);
      DisagreementHolds(min, Step(min, c, e), es[1..]);
    }
  }

  /** This step calls OnDisagreement. */
  ghost predicate Alerts(min: nat, c: Cell, e: Event) {
    && e.AsyncCheck? && c.pending.Some? && !c.pending.value.alerted
    && var obs := ObservationOf(c.pending.value.deposit, e);
       obs.Some? && Outcome(min, c.pending.value.votes + [Vote(e.provider, obs.value)]) == DisagreementAlert
  }

  ghost function AlertCount(min: nat, c: Cell, es: seq<Event>): nat
    decreases |es|
  {
    if es == [] then 0
    else (if Alerts(min, c, es[0]) then 1 else 0) + AlertCount(min, Step(min, c, es[0]), es[1..])
  }

  /** Between restarts a candidate alerts once, in the step its providers first
      disagree, and never again. */
  lemma {:induction false} AlertsOnce(min: nat, c: Cell, es: seq<Event>)
    requires Sound(c) && AsyncOnly(es)
    requires c.pending.Some? ==> (c.pending.value.alerted <==> Disagreed(c.pending.value.votes))
    ensures var c' := Run(min, c, es);
            && (c'.pending.Some? ==> (c'.pending.value.alerted <==> Disagreed(c'.pending.value.votes)))
            && AlertCount(min, c, es) ==
               (if c'.pending.Some? && c'.pending.value.alerted && !(c.pending.Some? && c.pending.value.alerted) then 1 else 0)
    decreases |es|
  {
    if es != [] {
      var e := es[0];
      assert e in es;
      var c1 := Step(min, c, e);
      StepKeeps(min, c, e);
      if c.pending.Some? && e.AsyncCheck? && ObservationOf(c.pending.value.deposit, e).Some? {
        DisagreedStep(c.pending.value.votes, Vote(e.provider, ObservationOf(c.pending.value.deposit, e).value));
      }
      assert c1.pending.Some? && c1.pending.value.votes == [] ==> !Disagreed([]);
      AlertsOnce(min, c1, es[1..]);
      if c1.pending.Some? && c1.pending.value.alerted {
        DisagreementHolds(min, c1, es[1..]);
      }
    }
  }

  /** The asynchronous drop leaves the stored row DETECTED, so a restart takes the
      deposit up again; the synchronous drop is for good. */
  lemma AsyncDropIsForgottenByBoot(min: nat, c: Cell, e: Event)
    requires Sound(c) && c.pending.Some? && e.AsyncCheck?
    requires Step(min, c, e).pending.None? && !CallsLedger(min, c, e)
    ensures var c' := Step(min, Step(min, c, e), Boot);
            c'.pending.Some? && c'.pending.value == Candidate(c.row.value.deposit, c.row.value.cls, [], false)
  {
  }

  // ---------- record against ledger ----------

  /** The same log is always attributed and decoded the same way. */
  ghost predicate Stable(es: seq<Event>, d: Deposit) {
    forall e :: e in es && e.Observed? ==> e.d == d
  }

  ghost predicate Matches(c: Cell, d: Deposit) {
    && Sound(c)
    && (c.row.Some? ==> c.row.value.deposit == d)
    && (c.pending.Some? ==> c.pending.value.deposit == d)
    && (c.credit.Some? ==> c.credit.value == d && c.row.Some?)
  }

  lemma {:induction false} MatchesRun(min: nat, c: Cell, es: seq<Event>, d: Deposit)
    requires Matches(c, d) && Stable(es, d)
    ensures Matches(Run(min, c, es), d)
    decreases |es|
  {
    if es != [] {
      StepKeeps(min, c, es[0]);
      assert es[0] in es;
      MatchesRun(min, Step(min, c, es[0]), es[1..], d);
    }
  }

  /** The deposits table and the ledger agree: a REPORTED deposit is credited with
      exactly the stored facts, nothing is credited that is not stored, and an ORPHANED
      one is not credited, unless its order had moved past funded when a booked report
      was sent again. */
  lemma RecordMatchesLedger(min: nat, es: seq<Event>, d: Deposit)
    requires Stable(es, d)
    ensures var c := Run(min, Unseen, es);
            && (c.row.Some? && c.row.value.status == Reported ==> c.credit == Some(c.row.value.deposit))
            && (c.row.Some? && c.row.value.status == Orphaned ==> (c.credit.Some? <==> ClosedAfterBooking(min, Unseen, es, false)))
            && (c.credit.Some? ==> c.row.Some? && c.credit == Some(c.row.value.deposit))
  {
    MatchesRun(min, Unseen, es, d);
    OrphanedYetCreditedIff(min, Unseen, es);
    RefusedIsClosed(min, Unseen, es, d);
  }

  /** This step reports the deposit to an order past funded, and the refusal is recorded. */
  ghost predicate Closes(min: nat, c: Cell, e: Event) {
    CallsLedger(min, c, e) && e.w.mood == OrderClosed && e.w.orphanSaved && e.w.statusSaved
  }

  /** After a report that booked (`booked`, or one of these events), one finds the order
      past funded. */
  ghost predicate ClosedAfterBooking(min: nat, c: Cell, es: seq<Event>, booked: bool)
    decreases |es|
  {
    es != [] && ((booked && Closes(min, c, es[0])) || ClosedAfterBooking(min, Step(min, c, es[0]), es[1..], booked || Books(min, c, es[0])))
  }

  lemma {:induction false} RefusedIsClosed(min: nat, c: Cell, es: seq<Event>, d: Deposit)
    requires Matches(c, d) && Stable(es, d)
    ensures EverRefusedThoughBooked(min, c, es) <==> ClosedAfterBooking(min, c, es, c.credit.Some?)
    decreases |es|
  {
    if es != [] {
      assert es[0] in es;
      StepKeeps(min, c, es[0]);
      CreditedStep(min, c, es[0]);
      RefusedIsClosed(min, Step(min, c, es[0]), es[1..], d);
    }
  }

  /** Whatever has gone wrong so far, a restart and one report finish an undecided
      deposit, credited as stored and marked REPORTED, if its order is still quoted, or
      funded by it. */
  lemma RecoveryCompletes(min: nat, es: seq<Event>, d: Deposit, w: World)
    requires Stable(es, d) && Run(min, Unseen, es).row.Some? && !Decided(Run(min, Unseen, es))
    requires w.statusSaved && (w.mood == OrderOpen || (w.mood == OrderFunded && Run(min, Unseen, es).credit.Some?))
    ensures var c := Run(min, Unseen, es + [Boot, Finalize(w)]);
            c.row.Some? && c.row.value.status == Reported && c.credit == Some(d) && c.row.value.deposit == d
  {
    var c := Run(min, Unseen, es);
    MatchesRun(min, Unseen, es, d);
    var booted := Step(min, c, Boot);
    assert booted.pending == Some(Candidate(d, c.row.value.cls, [], false)) && booted.row == c.row && booted.credit == c.credit;
    assert Post(booted.credit, d, w.mood) == (Some(d), Accepted);
    RunAppend(min, Unseen, es, [Boot, Finalize(w)]);
    assert [Boot, Finalize(w)][1..] == [Finalize(w)];
    RunOne(min, booted, Finalize(w));
  }

  /** This step reports a deposit the ledger has already booked, and is refused for good,
      because the order is past funded or because the entry is another than the one
      booked; the row is closed as ORPHANED. */
  ghost predicate RefusedThoughBooked(min: nat, c: Cell, e: Event) {
    && CallsLedger(min, c, e) && c.credit.Some? && e.w.orphanSaved && e.w.statusSaved
    && (e.w.mood == OrderClosed || (e.w.mood in {OrderOpen, OrderFunded} && !SameEntry(c.credit.value, c.pending.value.deposit)))
  }

  ghost predicate EverRefusedThoughBooked(min: nat, c: Cell, es: seq<Event>)
    decreases |es|
  {
    es != [] && (RefusedThoughBooked(min, c, es[0]) || EverRefusedThoughBooked(min, Step(min, c, es[0]), es[1..]))
  }

  /** A run can end with the deposit ORPHANED and credited: exactly if at some point of it
      the watcher reported again what the ledger had booked, was refused because the order
      had moved on or the log was now decoded otherwise, and recorded the refusal. */
  lemma {:induction false} OrphanedYetCreditedIff(min: nat, c: Cell, es: seq<Event>)
    requires Sound(c) && !Decided(c)
    ensures var c' := Run(min, c, es);
            (c'.row.Some? && c'.row.value.status == Orphaned && c'.credit.Some?) <==> EverRefusedThoughBooked(min, c, es)
    decreases |es|
  {
    if es != [] {
      var c1 := Step(min, c, es[0]);
      StepKeeps(min, c, es[0]);
      if Decided(c1) {
        DecidedIsFinal(min, c1, es[1..]);
        NeverCallsNeverRefused(min, c1, es[1..]);
      } else {
        OrphanedYetCreditedIff(min, c1, es[1..]);
      }
    }
  }

  lemma {:induction false} NeverCallsNeverRefused(min: nat, c: Cell, es: seq<Event>)
    requires LedgerCalls(min, c, es) == 0
    ensures !EverRefusedThoughBooked(min, c, es)
    decreases |es|
  {
    if es != [] {
      NeverCallsNeverRefused(min, Step(min, c, es[0]), es[1..]);
    }
  }

  /** And it happens: an insert whose confirmation is lost, a second look that decodes
      the log differently, a report whose reply is lost, and a crash. */
  lemma OrphanedYetCreditedWitness(d1: Deposit, d2: Deposit, w: World)
    requires !SameEntry(d1, d2) && w == World(OrderOpen, "quoted", true, true, 0)
    ensures var c := Run(1, Unseen, [Observed(d1, Exact, SaveReplyLost), Observed(d2, Exact, Saved),
                                     Finalize(w.(mood := ReplyLost)), Boot, Finalize(w)]);
            c.row.Some? && c.row.value.status == Orphaned && c.credit == Some(d2)
  {
    var c1 := Step(1, Unseen, Observed(d1, Exact, SaveReplyLost));
    assert c1 == Cell(None, None, Some(Row(d1, Exact, Detected)), None, None);
    var c2 := Step(1, c1, Observed(d2, Exact, Saved));
    assert c2 == c1.(pending := Some(Candidate(d2, Exact, [], false)));
    var c3 := Step(1, c2, Finalize(w.(mood := ReplyLost)));
    assert c3 == c2.(credit := Some(d2));
    var c4 := Step(1, c3, Boot);
    assert c4 == c3.(pending := Some(Candidate(d1, Exact, [], false)));
    var c5 := Step(1, c4, Finalize(w));
    assert c5.row.value.status == Orphaned && c5.credit == Some(d2);
    RunOfFive(1, Unseen, Observed(d1, Exact, SaveReplyLost), Observed(d2, Exact, Saved),
              Finalize(w.(mood := ReplyLost)), Boot, Finalize(w));
  }

  /** And, nothing being decoded differently: a report whose reply is lost, and a second
      one, sent when the order has already been screened. */
  lemma OrphanedOnceScreenedWitness(d: Deposit, w: World)
    requires w == World(OrderClosed, "screened", true, true, 0)
    ensures var c := Run(1, Unseen, [Observed(d, Exact, Saved), Finalize(w.(mood := ReplyLost)), Finalize(w)]);
            c.row.Some? && c.row.value.status == Orphaned && c.credit == Some(d) && c.row.value.deposit == d
  {
    RunOfThree(1, Unseen, Observed(d, Exact, Saved), Finalize(w.(mood := ReplyLost)), Finalize(w));
  }

  /** This step reports the deposit, and the order is still open for it: booked,
      whether or not the reply arrives. */
  ghost predicate Books(min: nat, c: Cell, e: Event) {
    CallsLedger(min, c, e) && e.w.mood in {ReplyLost, OrderOpen}
  }

  /** This step drops the deposit, and the status is stored. */
  ghost predicate Drops(c: Cell, e: Event) {
    c.pending.Some? && e == DropBeforeFinality(true)
  }

  ghost predicate EverBooks(min: nat, c: Cell, es: seq<Event>)
    decreases |es|
  {
    es != [] && (Books(min, c, es[0]) || EverBooks(min, Step(min, c, es[0]), es[1..]))
  }

  /** After a report that booked (`booked`, or one of these events), the run drops the
      deposit. */
  ghost predicate DropsBooked(min: nat, c: Cell, es: seq<Event>, booked: bool)
    decreases |es|
  {
    es != [] && ((booked && Drops(c, es[0])) || DropsBooked(min, Step(min, c, es[0]), es[1..], booked || Books(min, c, es[0])))
  }

  /** The ledger holds a credit exactly if some report met an open order, heard or not. */
  lemma {:induction false} CreditedIff(min: nat, c: Cell, es: seq<Event>)
    ensures Run(min, c, es).credit.Some? <==> c.credit.Some? || EverBooks(min, c, es)
    decreases |es|
  {
    if es != [] {
      CreditedIff(min, Step(min, c, es[0]), es[1..]);
    }
  }

  /** A run ends with the deposit DROPPED and credited exactly if it dropped the deposit
      after a report had met an open order: a report whose reply was lost, or one that
      was accepted and then forgotten in a restart because its status was not stored. */
  lemma DroppedYetCreditedIff(min: nat, es: seq<Event>)
    ensures var c := Run(min, Unseen, es);
            (c.row.Some? && c.row.value.status == Dropped && c.credit.Some?) <==> DropsBooked(min, Unseen, es, false)
    ensures var c := Run(min, Unseen, es);
            c.row.Some? && c.row.value.status == Dropped ==> (c.credit.Some? <==> EverBooks(min, Unseen, es))
  {
    DroppedRun(min, Unseen, es);
    CreditedIff(min, Unseen, es);
  }

  lemma {:induction false} DroppedRun(min: nat, c: Cell, es: seq<Event>)
    requires Sound(c) && !Decided(c)
    ensures var c' := Run(min, c, es);
            (c'.row.Some? && c'.row.value.status == Dropped && c'.credit.Some?) <==> DropsBooked(min, c, es, c.credit.Some?)
    decreases |es|
  {
    if es != [] {
      var c1 := Step(min, c, es[0]);
      StepKeeps(min, c, es[0]);
      CreditedStep(min, c, es[0]);
      if Decided(c1) {
        DecidedIsFinal(min, c1, es[1..]);
        DecidedNeverDrops(min, c1, es[1..], c1.credit.Some?);
      } else {
        DroppedRun(min, c1, es[1..]);
      }
    }
  }

  lemma CreditedStep(min: nat, c: Cell, e: Event)
    ensures Step(min, c, e).credit.Some? <==> c.credit.Some? || Books(min, c, e)
  {
  }

  lemma {:induction false} DecidedNeverDrops(min: nat, c: Cell, es: seq<Event>, booked: bool)
    requires Sound(c) && Decided(c)
    ensures !DropsBooked(min, c, es, booked)
    decreases |es|
  {
    if es != [] {
      StepKeeps(min, c, es[0]);
      DecidedNeverDrops(min, Step(min, c, es[0]), es[1..], booked || Books(min, c, es[0]));
    }
  }

  /** And it happens: a report whose reply is lost, then a reorg. No reorg report is
      ever sent for it. */
  lemma DroppedYetCreditedWitness(d: Deposit, w: World)
    requires w == World(ReplyLost, "quoted", true, true, 0)
    ensures var c := Run(1, Unseen, [Observed(d, Exact, Saved), Finalize(w), DropBeforeFinality(true)]);
            c.row.Some? && c.row.value.status == Dropped && c.credit == Some(d) && c.finalized.None?
  {
    RunOfThree(1, Unseen, Observed(d, Exact, Saved), Finalize(w), DropBeforeFinality(true));
  }

  /** So does this, though every reply arrived: the report is accepted, its status write
      fails, and after a restart the deposit is dropped. */
  lemma DroppedAfterRestartWitness(d: Deposit, w: World)
    requires w == World(OrderOpen, "quoted", true, false, 0)
    ensures var c1 := Run(1, Unseen, [Observed(d, Exact, Saved), Finalize(w)]);
            c1.finalized == Some(Finalized(d, 0)) && c1.pending.None?
    ensures var c := Run(1, Unseen, [Observed(d, Exact, Saved), Finalize(w), Boot, DropBeforeFinality(true)]);
            c.row.Some? && c.row.value.status == Dropped && c.credit == Some(d) && c.finalized.None?
  {
    var first := [Observed(d, Exact, Saved), Finalize(w)];
    assert first[1..] == [Finalize(w)];
    RunOne(1, Step(1, Unseen, first[0]), Finalize(w));
    assert first + [Boot, DropBeforeFinality(true)] == [Observed(d, Exact, Saved), Finalize(w), Boot, DropBeforeFinality(true)];
    RunAppend(1, Unseen, first, [Boot, DropBeforeFinality(true)]);
    var c := Run(1, Unseen, first);
    assert [Boot, DropBeforeFinality(true)][1..] == [DropBeforeFinality(true)];
    RunOne(1, Step(1, c, Boot), DropBeforeFinality(true));
  }

  lemma RunOfThree(min: nat, c: Cell, e1: Event, e2: Event, e3: Event)
    ensures Run(min, c, [e1, e2, e3]) == Step(min, Step(min, Step(min, c, e1), e2), e3)
  {
    var c1 := Step(min, c, e1);
    var c2 := Step(min, c1, e2);
    assert [e1, e2, e3][1..] == [e2, e3] && [e2, e3][1..] == [e3] && [e3][1..] == [];
    assert Run(min, c2, [e3]) == Step(min, c2, e3);
    assert Run(min, c1, [e2, e3]) == Run(min, c2, [e3]);
  }

  lemma RunOfFive(min: nat, c: Cell, e1: Event, e2: Event, e3: Event, e4: Event, e5: Event)
    ensures Run(min, c, [e1, e2, e3, e4, e5]) == Step(min, Step(min, Step(min, Step(min, Step(min, c, e1), e2), e3), e4), e5)
  {
    var c1 := Step(min, c, e1);
    var c2 := Step(min, c1, e2);
    assert [e1, e2, e3, e4, e5][1..] == [e2, e3, e4, e5] && [e2, e3, e4, e5][1..] == [e3, e4, e5];
    RunOfThree(min, c2, e3, e4, e5);
    assert Run(min, c1, [e2, e3, e4, e5]) == Run(min, c2, [e3, e4, e5]);
  }

  // ---------- which answers and which logs lead there ----------

  /** The check cast this vote: the provider was final at the deposit's height, gave the
      block's hash, and found the deposit in that block, or found it missing. */
  predicate Casts(e: Event, d: Deposit, v: Vote) {
    && e.AsyncCheck? && v.provider == e.provider && d.height <= e.finalizedHeight
    && e.hash.Some? && v.obs.block == BlockId(d.height, e.hash.value)
    && (v.obs.present ==> e.logs == Found(v.obs.amount) && v.obs.orderId == d.orderId)
    && (!v.obs.present ==> e.logs == NotThere)
  }

  /** The check says something about the deposit: its provider is final there, gave the
      block's hash, and looked. */
  predicate Says(e: Event, d: Deposit) {
    e.AsyncCheck? && d.height <= e.finalizedHeight && e.hash.Some? && (e.logs.Found? || e.logs.NotThere?)
  }

  /** What a check leads to: nothing, unless it says something; else one more vote, PRESENT
      exactly if the provider found the deposit, and then a report, a drop, an alert or
      nothing further, as the votes come out. */
  lemma CheckMeans(min: nat, c: Cell, e: Event)
    requires c.pending.Some? && e.AsyncCheck?
    ensures !Says(e, c.pending.value.deposit) ==> Step(min, c, e) == c && !CallsLedger(min, c, e)
    ensures Says(e, c.pending.value.deposit) ==>
              var v := Vote(e.provider, Observation(BlockId(c.pending.value.deposit.height, e.hash.value), e.logs.Found?,
                                                    c.pending.value.deposit.orderId, if e.logs.Found? then e.logs.amount else 0));
              var outcome, c' := Outcome(min, c.pending.value.votes + [v]), Step(min, c, e);
              && (CallsLedger(min, c, e) <==> outcome == QuorumReached)
              && (outcome == NotFound ==> c' == c.(pending := None))
              && (outcome == DisagreementAlert ==> c'.pending.Some? && c'.pending.value.alerted)
              && (outcome == Pending ==> c'.pending.Some? && c'.pending.value.alerted == c.pending.value.alerted)
              && (outcome in {DisagreementAlert, Pending} ==> c'.pending.value.votes == c.pending.value.votes + [v] && c' == c.(pending := c'.pending))
  {
  }

  ghost predicate WasCast(es: seq<Event>, d: Deposit, v: Vote) {
    exists e :: e in es && Casts(e, d, v)
  }

  ghost predicate AllCast(es: seq<Event>, c: Cell) {
    c.pending.Some? ==> forall v :: v in c.pending.value.votes ==> WasCast(es, c.pending.value.deposit, v)
  }

  lemma StepCasts(min: nat, past: seq<Event>, c: Cell, e: Event)
    requires AllCast(past, c)
    ensures AllCast(past + [e], Step(min, c, e))
  {
    var c' := Step(min, c, e);
    if c'.pending.Some? {
      var d := c'.pending.value.deposit;
      forall v | v in c'.pending.value.votes
        ensures WasCast(past + [e], d, v)
      {
        if c.pending.Some? && v in c.pending.value.votes {
          assert WasCast(past, d, v);
          var cast :| cast in past && Casts(cast, d, v);
          assert cast in past + [e];
        } else {
          assert e in past + [e] && Casts(e, d, v);
        }
      }
    }
  }

  /** Over every run, each vote a candidate has stands for a check of its provider. */
  lemma {:induction false} VotesWereCast(min: nat, past: seq<Event>, c: Cell, es: seq<Event>)
    requires AllCast(past, c)
    ensures AllCast(past + es, Run(min, c, es))
    decreases |es|
  {
    if es == [] {
      assert past + es == past;
    } else {
      StepCasts(min, past, c, es[0]);
      VotesWereCast(min, past + [es[0]], Step(min, c, es[0]), es[1..]);
      assert past + [es[0]] + es[1..] == past + es;
    }
  }

  /** In one of these checks, provider `p`, final at height `h`, gave `hash` as its block
      there and answered `logs`. */
  ghost predicate Answered(es: seq<Event>, p: string, h: nat, hash: Hash, logs: LogReply) {
    exists e :: e in es && e.AsyncCheck? && e.provider == p && h <= e.finalizedHeight && e.hash == Some(hash) && e.logs == logs
  }

  /** The step reports the deposit, or changes anything recorded about it. */
  ghost predicate Reports(min: nat, c: Cell, e: Event) {
    var c' := Step(min, c, e);
    CallsLedger(min, c, e) || c'.finalized != c.finalized || c'.row != c.row || c'.orphan != c.orphan || c'.credit != c.credit
  }

  /** Over every run: when the asynchronous driver reports a deposit, at least `min`
      providers, each final at its height, have given one and the same block hash there
      and found the deposit in it with one and the same amount. */
  lemma AsyncReportMeans(min: nat, es: seq<Event>, e: Event) returns (backers: set<string>, hash: Hash, amount: int)
    requires min >= 1 && e.AsyncCheck? && Reports(min, Run(min, Unseen, es), e)
    ensures Run(min, Unseen, es).pending.Some? && |backers| >= min
    ensures forall p :: p in backers ==> Answered(es + [e], p, Run(min, Unseen, es).pending.value.deposit.height, hash, Found(amount))
  {
    var c := Run(min, Unseen, es);
    assert CallsLedger(min, c, e);
    var votes, f := AsyncReportIsBacked(min, c, e);
    VotesWereCast(min, [], Unseen, es);
    assert [] + es == es;
    var d := c.pending.value.deposit;
    backers, hash, amount := PresentProviders(votes), f.block.hash, f.amount;
    LatestFromVotes(votes);
    forall p | p in backers
      ensures Answered(es + [e], p, d.height, hash, Found(amount))
    {
      var v := Vote(p, Latest(votes)[p]);
      VoteWasCast(es, e, c, votes, v);
    }
  }

  lemma VoteWasCast(es: seq<Event>, e: Event, c: Cell, votes: seq<Vote>, v: Vote)
    requires c.pending.Some? && AllCast(es, c) && e.AsyncCheck? && ObservationOf(c.pending.value.deposit, e).Some?
    requires votes == c.pending.value.votes + [Vote(e.provider, ObservationOf(c.pending.value.deposit, e).value)] && v in votes
    ensures Answered(es + [e], v.provider, c.pending.value.deposit.height, v.obs.block.hash, if v.obs.present then Found(v.obs.amount) else NotThere)
  {
    var d := c.pending.value.deposit;
    if v in c.pending.value.votes {
      assert WasCast(es, d, v);
      var cast :| cast in es && Casts(cast, d, v);
      assert cast in es + [e];
    } else {
      assert Casts(e, d, v) && e in es + [e];
    }
  }

  /** And when it drops a deposit, at least `min` providers, each final at its height,
      have not found it there. */
  lemma AsyncDropMeans(min: nat, es: seq<Event>, e: Event) returns (missing: set<string>)
    requires min >= 1 && e.AsyncCheck? && !Reports(min, Run(min, Unseen, es), e)
    requires Run(min, Unseen, es).pending.Some? && Step(min, Run(min, Unseen, es), e).pending.None?
    ensures |missing| >= min
    ensures forall p :: p in missing ==> exists hash :: Answered(es + [e], p, Run(min, Unseen, es).pending.value.deposit.height, hash, NotThere)
  {
    var c := Run(min, Unseen, es);
    var d := c.pending.value.deposit;
    var votes := c.pending.value.votes + [Vote(e.provider, ObservationOf(d, e).value)];
    VotesWereCast(min, [], Unseen, es);
    assert [] + es == es;
    assert Outcome(min, votes) == NotFound;
    missing := AbsentProviders(votes);
    LatestFromVotes(votes);
    forall p | p in missing
      ensures exists hash :: Answered(es + [e], p, d.height, hash, NotThere)
    {
      var v := Vote(p, Latest(votes)[p]);
      VoteWasCast(es, e, c, votes, v);
    }
  }

  /** So with fewer than `min` lying providers, an honest one found what is reported, in
      a block it calls final, and an honest one found missing what is dropped. */
  lemma AsyncAnswersAreHonest(min: nat, es: seq<Event>, e: Event, faulty: set<string>) returns (honest: string, hash: Hash)
    requires |faulty| < min && e.AsyncCheck? && Run(min, Unseen, es).pending.Some?
    requires Reports(min, Run(min, Unseen, es), e) || Step(min, Run(min, Unseen, es), e).pending.None?
    ensures honest !in faulty
    ensures var h := Run(min, Unseen, es).pending.value.deposit.height;
            if Reports(min, Run(min, Unseen, es), e) then exists amount :: Answered(es + [e], honest, h, hash, Found(amount))
            else Answered(es + [e], honest, h, hash, NotThere)
  {
    var h := Run(min, Unseen, es).pending.value.deposit.height;
    if Reports(min, Run(min, Unseen, es), e) {
      var backers, agreed, amount := AsyncReportMeans(min, es, e);
      honest := SomeHonest(backers, faulty, min);
      hash := agreed;
      assert Answered(es + [e], honest, h, hash, Found(amount));
    } else {
      var missing := AsyncDropMeans(min, es, e);
      honest := SomeHonest(missing, faulty, min);
      hash :| Answered(es + [e], honest, h, hash, NotThere);
    }
  }

  ghost predicate WasObserved(es: seq<Event>, d: Deposit, cls: Classification) {
    exists e :: e in es && e.Observed? && e.d == d && e.cls == cls && !e.save.SaveFailed?
  }

  ghost predicate WasSeen(es: seq<Event>, d: Deposit) {
    exists e :: e in es && e.Observed? && e.d == d
  }

  /** The orphan record was made at a scan, or is that of an observed deposit the ledger
      refused. */
  ghost predicate OrphanHasSource(es: seq<Event>, o: Orphan) {
    || OrphanedAtScan(o, true) in es
    || exists e :: e in es && e.Observed? && e.d.orderId == o.orderId && e.d.externalId == o.externalId && e.d.amount == o.amount
  }

  /** All that is held about a deposit was observed; what is closed as ORPHANED has its
      orphan record; and DROPPED was written by a drop before finality. */
  ghost predicate Accounted(es: seq<Event>, c: Cell) {
    && (c.row.Some? ==> WasObserved(es, c.row.value.deposit, c.row.value.cls))
    && (c.pending.Some? ==> WasSeen(es, c.pending.value.deposit))
    && (c.finalized.Some? ==> WasSeen(es, c.finalized.value.deposit))
    && (c.credit.Some? ==> WasSeen(es, c.credit.value))
    && (c.orphan.Some? ==> OrphanHasSource(es, c.orphan.value))
    && (c.row.Some? && c.row.value.status == Orphaned ==> c.orphan.Some?)
    && (c.row.Some? && c.row.value.status == Dropped ==> DropBeforeFinality(true) in es)
  }

  lemma MoreSources(es: seq<Event>, e: Event, c: Cell)
    requires Accounted(es, c)
    ensures Accounted(es + [e], c)
  {
    assert forall x :: x in es ==> x in es + [e];
    forall d | WasSeen(es, d)
      ensures WasSeen(es + [e], d)
    {
      var seen :| seen in es && seen.Observed? && seen.d == d;
      assert seen in es + [e];
    }
    forall d, cls | WasObserved(es, d, cls)
      ensures WasObserved(es + [e], d, cls)
    {
      var seen :| seen in es && seen.Observed? && seen.d == d && seen.cls == cls && !seen.save.SaveFailed?;
      assert seen in es + [e];
    }
    forall o | OrphanHasSource(es, o)
      ensures OrphanHasSource(es + [e], o)
    {
      if OrphanedAtScan(o, true) !in es {
        var seen :| seen in es && seen.Observed? && seen.d.orderId == o.orderId && seen.d.externalId == o.externalId && seen.d.amount == o.amount;
        assert seen in es + [e];
      }
    }
  }

  lemma StepAccounts(min: nat, past: seq<Event>, c: Cell, e: Event)
    requires Sound(c) && Accounted(past, c)
    ensures Accounted(past + [e], Step(min, c, e))
  {
    var es, c' := past + [e], Step(min, c, e);
    MoreSources(past, e, c);
    assert e in es;
    if e.Observed? {
      assert WasSeen(es, e.d);
      assert !e.save.SaveFailed? ==> WasObserved(es, e.d, e.cls);
    } else if e.Boot? {
      assert c.row.Some? ==> WasSeen(es, c.row.value.deposit) by {
        if c.row.Some? {
          assert WasObserved(es, c.row.value.deposit, c.row.value.cls);
        }
      }
    } else if (e.Finalize? || e.AsyncCheck?) && c.pending.Some? {
      var d := c.pending.value.deposit;
      assert WasSeen(es, d);
      var seen :| seen in es && seen.Observed? && seen.d == d;
      assert OrphanHasSource(es, Orphan(d.orderId, d.externalId, d.amount, e.w.orderState));
    }
  }

  /** Over every run, nothing recorded is made up. */
  lemma {:induction false} RunAccounts(min: nat, past: seq<Event>, c: Cell, es: seq<Event>)
    requires Sound(c) && Accounted(past, c)
    ensures Accounted(past + es, Run(min, c, es))
    decreases |es|
  {
    if es == [] {
      assert past + es == past;
    } else {
      StepKeeps(min, c, es[0]);
      StepAccounts(min, past, c, es[0]);
      RunAccounts(min, past + [es[0]], Step(min, c, es[0]), es[1..]);
      assert past + [es[0]] + es[1..] == past + es;
    }
  }
}
