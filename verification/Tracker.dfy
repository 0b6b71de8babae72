/** The finality tracker over its tables and the ledger, in both modes
    (depositwatcher/internal/finality/finality.go, async_driver.go). Each method is
    shown to take every deposit's cell through the steps Deposits defines, whatever
    order Go's maps are walked in. */
module Tracker {
  import opened Agreement
  import opened AsyncConfirmations
  import opened Deposits
  import opened Wrappers

  function Lookup<K, V>(m: map<K, V>, k: K): Option<V> {
    if k in m then Some(m[k]) else None
  }

  // ---------- tables and ledger ----------

  class DepositTable {
    var rows: map<Key, Row>

    constructor ()
      ensures rows == map[]
    {
      rows := map[];
    }

    /** `Save`: insert unless the key is there, and tell the stored status. */
    method Save(k: Key, d: Deposit, cls: Classification, reply: SaveReply) returns (r: Result<DepositStatus, ()>)
      modifies this
      ensures rows == if reply.SaveFailed? || k in old(rows) then old(rows) else old(rows)[k := Row(d, cls, Detected)]
      ensures r == if reply.Saved? then Ok(rows[k].status) else Err(())
    {
      if !reply.SaveFailed? && k !in rows {
        rows := rows[k := Row(d, cls, Detected)];
      }
      return if reply.Saved? then Ok(rows[k].status) else Err(());
    }

    method SetStatus(k: Key, status: DepositStatus, saved: bool)
      modifies this
      ensures rows == if saved && k in old(rows) then old(rows)[k := old(rows)[k].(status := status)] else old(rows)
    {
      if saved && k in rows {
        rows := rows[k := rows[k].(status := status)];
      }
    }

    method LoadDetected() returns (loaded: map<Key, Row>)
      ensures forall k :: k in loaded ==> k in rows && loaded[k] == rows[k] && loaded[k].status == Detected
      ensures forall k :: k in rows && k !in loaded ==> rows[k].status in {Reported, Orphaned, Dropped}
    {
      loaded := map k | k in rows && rows[k].status == Detected :: rows[k];
    }
  }

  class OrphanTable {
    var rows: map<Key, Orphan>

    constructor ()
      ensures rows == map[]
    {
      rows := map[];
    }

    /** `Record`, idempotent on the key. */
    method Record(k: Key, o: Orphan, saved: bool)
      modifies this
      ensures rows == if saved && k !in old(rows) then old(rows)[k := o] else old(rows)
    {
      if saved && k !in rows {
        rows := rows[k := o];
      }
    }
  }

  class Ledger {
    var entries: map<Key, Deposit>

    constructor ()
      ensures entries == map[]
    {
      entries := map[];
    }

    method Report(k: Key, d: Deposit, mood: LedgerMood) returns (answer: LedgerAnswer)
      modifies this
      ensures entries == Booked(old(entries), k, d, mood)
      ensures answer == Post(Lookup(old(entries), k), d, mood).1
    {
      answer := Post(Lookup(entries, k), d, mood).1;
      entries := Booked(entries, k, d, mood);
    }
  }

  function Booked(entries: map<Key, Deposit>, k: Key, d: Deposit, mood: LedgerMood): map<Key, Deposit> {
    var credit := Post(Lookup(entries, k), d, mood).0;
    if credit.Some? then entries[k := credit.value] else entries
  }

  // ---------- one tick's outside world ----------

  /** Every answer the chain, the database and the ledger give during one
      synchronous tick. */
  datatype SyncWorld = SyncWorld(
    finality: seq<NamedResult<(nat, Hash)>>,
    logsAt: nat -> seq<NamedResult<set<Key>>>,
    world: Key -> World,
    statusSaved: Key -> bool,
    recheckAt: nat -> seq<NamedResult<set<Key>>>,
    reorgReported: Key -> bool,
    now: int)

  datatype AsyncWorld = AsyncWorld(
    providers: seq<string>,
    finalized: string -> Option<nat>,
    hash: (string, Key) -> Option<Hash>,
    logs: (string, Key) -> LogReply,
    world: (string, Key) -> World,
    recheckAt: nat -> seq<NamedResult<set<Key>>>,
    reorgReported: Key -> bool,
    now: int)

  ghost predicate ProvidersDistinct(logsAt: nat -> seq<NamedResult<set<Key>>>) {
    forall h :: DistinctNames(logsAt(h))
  }

  /** Whether the providers agree that `k`'s log is there at height `h`, if they
      agree on anything. */
  ghost function Presence(logsAt: nat -> seq<NamedResult<set<Key>>>, min: int, h: nat, k: Key): Option<bool> {
    var v := VerdictOf(logsAt(h), min);
    if v.Agreed? then Some(k in v.winner) else None
  }

  /** What the finalization half of a synchronous tick does to one deposit. */
  ghost function Settled(env: SyncWorld, min: nat, height: nat, k: Key, c: Cell): Cell {
    if c.pending.None? || c.pending.value.deposit.height > height then c
    else
      match Presence(env.logsAt, min, c.pending.value.deposit.height, k)
      case None => c
      case Some(true) => Step(min, c, Finalize(env.world(k)))
      case Some(false) => Step(min, c, DropBeforeFinality(env.statusSaved(k)))
  }

  /** And the re-check half, shared with the asynchronous mode. */
  ghost function Rechecked(recheckAt: nat -> seq<NamedResult<set<Key>>>, reported: Key -> bool, now: int, min: nat, k: Key, c: Cell): Cell {
    if c.finalized.None? then c
    else Step(min, c, RecheckFinal(now, Presence(recheckAt, min, c.finalized.value.deposit.height, k), reported(k)))
  }

  /** A whole synchronous tick, for one deposit: without agreement on the finalized
      block nothing moves. */
  ghost function SyncTick(env: SyncWorld, min: nat, k: Key, c: Cell): Cell {
    var v := VerdictOf(env.finality, min);
    if !v.Agreed? then c
    else Rechecked(env.recheckAt, env.reorgReported, env.now, min, k, Settled(env, min, v.winner.0, k, c))
  }

  /** The first `n` providers' turns of an asynchronous tick, for one deposit. */
  ghost function Polled(env: AsyncWorld, min: nat, highWater: map<string, nat>, n: nat, k: Key, c: Cell): Cell
    requires n <= |env.providers|
  {
    if n == 0 then c
    else
      var p := env.providers[n - 1];
      var before := Polled(env, min, highWater, n - 1, k, c);
      if Heard(env, highWater, p)
      then Step(min, before, CheckOf(env, p, env.finalized(p).value, k))
      else before
  }

  /** One provider's turn with one deposit. */
  ghost function CheckOf(env: AsyncWorld, p: string, height: nat, k: Key): Event {
    AsyncCheck(p, height, env.hash(p, k), env.logs(p, k), env.world(p, k))
  }

  ghost function AsyncTick(env: AsyncWorld, min: nat, highWater: map<string, nat>, k: Key, c: Cell): Cell {
    Rechecked(env.recheckAt, env.reorgReported, env.now, min, k, Polled(env, min, highWater, |env.providers|, k, c))
  }

  /** The provider answered, and its finalized height has not regressed. */
  ghost predicate Heard(env: AsyncWorld, highWater: map<string, nat>, p: string) {
    env.finalized(p).Some? && (p in highWater ==> highWater[p] <= env.finalized(p).value)
  }

  // ---------- the tracker's state, as values ----------

  /** A pending candidate, short of the CandidateConfirmations it may point to. */
  datatype Tracked = Tracked(deposit: Deposit, cls: Classification, alerted: bool)

  datatype Contents = Contents(pending: map<Key, Tracked>, votes: map<Key, seq<Vote>>, finalized: map<Key, Finalized>,
                         rows: map<Key, Row>, orphans: map<Key, Orphan>, entries: map<Key, Deposit>)

  ghost function CellOf(s: Contents, k: Key): Cell {
    Cell(if k in s.pending
         then Some(Candidate(s.pending[k].deposit, s.pending[k].cls, if k in s.votes then s.votes[k] else [], s.pending[k].alerted))
         else None,
         Lookup(s.finalized, k), Lookup(s.rows, k), Lookup(s.orphans, k), Lookup(s.entries, k))
  }

  /** Nothing but `k`'s cell changed. */
  ghost predicate OnlyTouches(s: Contents, s': Contents, k: Key) {
    forall j :: j != k ==> CellOf(s', j) == CellOf(s, j)
  }

  function Forgetting(s: Contents, k: Key): Contents {
    s.(pending := s.pending - {k}, votes := s.votes - {k})
  }

  function Marking(s: Contents, k: Key, status: DepositStatus, saved: bool): Contents {
    if saved && k in s.rows then s.(rows := s.rows[k := s.rows[k].(status := status)]) else s
  }

  function Finalizing(s: Contents, k: Key, w: World): Contents
    requires k in s.pending
  {
    var d := s.pending[k].deposit;
    var posted := s.(entries := Booked(s.entries, k, d, w.mood));
    match Post(Lookup(s.entries, k), d, w.mood).1
    case Transient => posted
    case Permanent =>
      if !w.orphanSaved then posted
      else
        var o := Orphan(d.orderId, d.externalId, d.amount, w.orderState);
        Forgetting(Marking(posted.(orphans := if k in s.orphans then s.orphans else s.orphans[k := o]), k, Orphaned, w.statusSaved), k)
    case Accepted =>
      Forgetting(Marking(posted.(finalized := s.finalized[k := Finalized(d, w.now)]), k, Reported, w.statusSaved), k)
  }

  function Observing(s: Contents, k: Key, d: Deposit, cls: Classification, save: SaveReply): Contents {
    if k in s.finalized || k in s.pending || cls.ZeroValue? || save.SaveFailed? then s
    else
      var stored := if k in s.rows then s else s.(rows := s.rows[k := Row(d, cls, Detected)]);
      if save.SaveReplyLost? || stored.rows[k].status != Detected then stored
      else stored.(pending := s.pending[k := Tracked(d, cls, false)])
  }

  lemma ObservingCell(s: Contents, k: Key, d: Deposit, cls: Classification, save: SaveReply)
    requires s.votes.Keys <= s.pending.Keys
    ensures CellOf(Observing(s, k, d, cls, save), k) == Observe(CellOf(s, k), d, cls, save)
    ensures OnlyTouches(s, Observing(s, k, d, cls, save), k)
  {
    if !(k in s.finalized || k in s.pending || cls.ZeroValue? || save.SaveFailed?) {
      var stored := if k in s.rows then s else s.(rows := s.rows[k := Row(d, cls, Detected)]);
      StoringCell(s, k, Row(d, cls, Detected));
      TrackingCell(stored, k, Tracked(d, cls, false));
    }
  }

  lemma StoringCell(s: Contents, k: Key, row: Row)
    ensures var s' := if k in s.rows then s else s.(rows := s.rows[k := row]);
            CellOf(s', k) == CellOf(s, k).(row := if k in s.rows then CellOf(s, k).row else Some(row)) && OnlyTouches(s, s', k)
  {
  }

  lemma TrackingCell(s: Contents, k: Key, t: Tracked)
    requires k !in s.votes
    ensures var s' := s.(pending := s.pending[k := t]);
            CellOf(s', k) == CellOf(s, k).(pending := Some(Candidate(t.deposit, t.cls, [], t.alerted))) && OnlyTouches(s, s', k)
  {
  }

  function Starting(s: Contents, k: Key): Contents {
    if k in s.votes then s else s.(votes := s.votes[k := []])
  }

  function Voting(s: Contents, k: Key, v: Vote): Contents
    requires k in s.votes
  {
    s.(votes := s.votes[k := s.votes[k] + [v]])
  }

  function Concluding(s: Contents, k: Key, status: Status, w: World): Contents
    requires k in s.pending
  {
    match status
    case QuorumReached => Finalizing(s, k, w)
    case NotFound => Forgetting(s, k)
    case DisagreementAlert => s.(pending := s.pending[k := s.pending[k].(alerted := true)])
    case Pending => s
  }

  lemma NoVoteCell(min: nat, s: Contents, k: Key, e: Event)
    requires k in s.pending && e.AsyncCheck? && ObservationOf(s.pending[k].deposit, e).None?
    ensures AsyncCheckCell(min, CellOf(s, k), e) == CellOf(s, k)
  {
  }

  lemma VotedCell(min: nat, s: Contents, k: Key, e: Event, obs: Observation, status: Status)
    requires k in s.pending && e.AsyncCheck? && ObservationOf(s.pending[k].deposit, e) == Some(obs)
    requires status == Outcome(min, Starting(s, k).votes[k] + [Vote(e.provider, obs)])
    ensures var s' := Concluding(Voting(Starting(s, k), k, Vote(e.provider, obs)), k, status, e.w);
            CellOf(s', k) == AsyncCheckCell(min, CellOf(s, k), e) && OnlyTouches(s, s', k)
  {
    StartingCell(s, k);
    ConcludedCell(Starting(s, k), k, Vote(e.provider, obs), status, e.w);
  }

  lemma StartingCell(s: Contents, k: Key)
    requires k in s.pending
    ensures CellOf(Starting(s, k), k) == CellOf(s, k) && OnlyTouches(s, Starting(s, k), k)
    ensures CellOf(s, k).pending.value.votes == Starting(s, k).votes[k]
  {
  }

  lemma ConcludedCell(s: Contents, k: Key, v: Vote, status: Status, w: World)
    requires k in s.pending && k in s.votes
    ensures var s' := Concluding(Voting(s, k, v), k, status, w);
            && CellOf(s', k) == Concluded(CellOf(s, k), CellOf(s, k).pending.value.votes + [v], status, w)
            && OnlyTouches(s, s', k)
  {
    var voted := Voting(s, k, v);
    assert OnlyTouches(s, voted, k);
    match status
    case QuorumReached => FinalizingCell(voted, k, w);
    case NotFound => ForgettingCell(voted, k);
    case _ =>
  }

  lemma ForgettingCell(s: Contents, k: Key)
    ensures CellOf(Forgetting(s, k), k) == CellOf(s, k).(pending := None) && OnlyTouches(s, Forgetting(s, k), k)
  {
  }

  lemma MarkingCell(s: Contents, k: Key, status: DepositStatus, saved: bool)
    ensures CellOf(Marking(s, k, status, saved), k) == CellOf(s, k).(row := WithStatus(CellOf(s, k).row, status, saved))
    ensures OnlyTouches(s, Marking(s, k, status, saved), k)
  {
  }

  lemma BookingCell(s: Contents, k: Key, d: Deposit, mood: LedgerMood)
    ensures var s' := s.(entries := Booked(s.entries, k, d, mood));
            CellOf(s', k) == CellOf(s, k).(credit := Post(CellOf(s, k).credit, d, mood).0) && OnlyTouches(s, s', k)
  {
  }

  lemma FinalizingCell(s: Contents, k: Key, w: World)
    requires k in s.pending
    ensures CellOf(Finalizing(s, k, w), k) == FinalizeCell(CellOf(s, k), w)
    ensures OnlyTouches(s, Finalizing(s, k, w), k)
  {
    var d := s.pending[k].deposit;
    var s1 := s.(entries := Booked(s.entries, k, d, w.mood));
    BookingCell(s, k, d, w.mood);
    match Post(Lookup(s.entries, k), d, w.mood).1
    case Transient =>
    case Permanent =>
      if w.orphanSaved {
        var o := Orphan(d.orderId, d.externalId, d.amount, w.orderState);
        var s2 := s1.(orphans := if k in s.orphans then s.orphans else s.orphans[k := o]);
        OrphaningCell(s1, k, o);
        ClosingCell(s2, k, Orphaned, w.statusSaved);
      }
    case Accepted =>
      var s2 := s1.(finalized := s.finalized[k := Finalized(d, w.now)]);
      RememberingCell(s1, k, Finalized(d, w.now));
      ClosingCell(s2, k, Reported, w.statusSaved);
  }

  lemma OrphaningCell(s: Contents, k: Key, o: Orphan)
    ensures var s' := s.(orphans := if k in s.orphans then s.orphans else s.orphans[k := o]);
            CellOf(s', k) == CellOf(s, k).(orphan := Recorded(CellOf(s, k).orphan, o)) && OnlyTouches(s, s', k)
  {
  }

  lemma RememberingCell(s: Contents, k: Key, f: Finalized)
    ensures var s' := s.(finalized := s.finalized[k := f]);
            CellOf(s', k) == CellOf(s, k).(finalized := Some(f)) && OnlyTouches(s, s', k)
  {
  }

  lemma ClosingCell(s: Contents, k: Key, status: DepositStatus, saved: bool)
    ensures var s' := Forgetting(Marking(s, k, status, saved), k);
            CellOf(s', k) == CellOf(s, k).(row := WithStatus(CellOf(s, k).row, status, saved), pending := None) && OnlyTouches(s, s', k)
  {
    MarkingCell(s, k, status, saved);
    ForgettingCell(Marking(s, k, status, saved), k);
  }

  lemma DroppingCell(s: Contents, k: Key, saved: bool, min: nat)
    requires k in s.pending
    ensures CellOf(Marking(Forgetting(s, k), k, Dropped, saved), k) == Step(min, CellOf(s, k), DropBeforeFinality(saved))
    ensures OnlyTouches(s, Marking(Forgetting(s, k), k, Dropped, saved), k)
  {
  }

  // ---------- the tracker ----------

  class Tracker {
    const store: DepositTable
    const orphans: OrphanTable
    const ledger: Ledger
    const monitor: ProviderHeightMonitor
    const minAgreement: nat
    var pending: map<Key, Tracked>
    /** Each candidate's asyncConfirmations, once it has any. */
    var confirmations: map<Key, CandidateConfirmations>
    ghost var votes: map<Key, seq<Vote>>
    /** Every CandidateConfirmations this tracker has made. */
    ghost var made: set<CandidateConfirmations>
    var finalized: map<Key, Finalized>

    ghost predicate Valid()
      reads this, made
    {
      && minAgreement >= 1
      && confirmations.Keys == votes.Keys <= pending.Keys
      && (forall k :: k in confirmations ==>
            confirmations[k] in made && confirmations[k].Valid() && confirmations[k].minAgreement == minAgreement && confirmations[k].votes == votes[k])
      && (forall j, k :: j in confirmations && k in confirmations && confirmations[j] == confirmations[k] ==> j == k)
    }

    ghost function State(): Contents
      reads this, store, orphans, ledger
    {
      Contents(pending, votes, finalized, store.rows, orphans.rows, ledger.entries)
    }

    constructor (store: DepositTable, orphans: OrphanTable, ledger: Ledger, minAgreement: nat)
      requires minAgreement >= 1
      ensures Valid() && this.store == store && this.orphans == orphans && this.ledger == ledger && this.minAgreement == minAgreement
      ensures pending == map[] && finalized == map[] && votes == map[] && made == {}
      ensures fresh(monitor) && monitor.Valid() && monitor.readings == []
    {
      this.store, this.orphans, this.ledger, this.minAgreement := store, orphans, ledger, minAgreement;
      monitor := new ProviderHeightMonitor();
      pending, confirmations, votes, made, finalized := map[], map[], map[], {}, map[];
    }

    /** `OnLogObserved`: the deposit is stored before it is tracked. */
    method OnLogObserved(k: Key, d: Deposit, cls: Classification, save: SaveReply) returns (ok: bool)
      requires Valid()
      modifies this`pending, store
      ensures Valid() && State() == Observing(old(State()), k, d, cls, save)
      ensures ok <==> k in finalized || k in old(pending) || cls.ZeroValue? || save.Saved?
    {
      if k in finalized || k in pending {
        return true;
      }
      if cls.ZeroValue? {
        return true;
      }
      var saved := store.Save(k, d, cls, save);
      if saved.Err? {
        return false;
      }
      if saved.value != Detected {
        return true;
      }
      pending := pending[k := Tracked(d, cls, false)];
      return true;
    }

    /** `Restore`, as the process runs it before anything else. */
    method Restore()
      requires Valid() && pending == map[] && finalized == map[]
      modifies this`pending
      ensures Valid()
      ensures forall k :: CellOf(State(), k) == Step(minAgreement, CellOf(old(State()), k), Boot)
    {
      var loaded := store.LoadDetected();
      var todo := loaded.Keys;
      while todo != {}
        invariant todo <= loaded.Keys
        invariant pending == map k | k in loaded && k !in todo :: Tracked(loaded[k].deposit, loaded[k].cls, false)
      {
        var k :| k in todo;
        if k !in pending {
          pending := pending[k := Tracked(loaded[k].deposit, loaded[k].cls, false)];
        }
        todo := todo - {k};
      }
    }

    method Forget(k: Key)
      requires Valid()
      modifies this`pending, this`confirmations, this`votes
      ensures Valid()
      ensures State() == Forgetting(old(State()), k)
    {
      pending := pending - {k};
      confirmations, votes := confirmations - {k}, votes - {k};
    }

    /** `finalize`, with `HandleUnreportable`. */
    method FinalizeOne(k: Key, w: World)
      requires Valid() && k in pending
      modifies this`pending, this`confirmations, this`votes, this`finalized, store, orphans, ledger
      ensures Valid()
      ensures State() == Finalizing(old(State()), k, w)
    {
      var c := pending[k];
      var answer := ledger.Report(k, c.deposit, w.mood);
      match answer {
        case Transient =>
        case Permanent =>
          orphans.Record(k, Orphan(c.deposit.orderId, c.deposit.externalId, c.deposit.amount, w.orderState), w.orphanSaved);
          if w.orphanSaved {
            store.SetStatus(k, Orphaned, w.statusSaved);
            Forget(k);
          }
        case Accepted =>
          store.SetStatus(k, Reported, w.statusSaved);
          finalized := finalized[k := Finalized(c.deposit, w.now)];
          Forget(k);
      }
    }

    /** One candidate whose height's logs are agreed on: dropped if it is not among
        them, finalized if it is. */
    method SettleCandidate(env: SyncWorld, k: Key, ghost finalHeight: nat, ghost height: nat, logs: set<Key>)
      requires Valid() && k in pending && pending[k].deposit.height == height <= finalHeight
      requires VerdictOf(env.logsAt(height), minAgreement) == Agreed(logs)
      modifies this`pending, this`confirmations, this`votes, this`finalized, store, orphans, ledger
      ensures Valid()
      ensures CellOf(State(), k) == Settled(env, minAgreement, finalHeight, k, CellOf(old(State()), k))
      ensures OnlyTouches(old(State()), State(), k)
    {
      ghost var before := State();
      if k !in logs {
        Forget(k);
        store.SetStatus(k, Dropped, env.statusSaved(k));
      } else {
        FinalizeOne(k, env.world(k));
      }
      SettlingCell(env, minAgreement, finalHeight, k, before, logs);
    }

    /** The candidates at one height, once the providers agree on its logs. */
    method SettleHeight(env: SyncWorld, ready: map<Key, Tracked>, ghost finalHeight: nat, height: nat, logs: set<Key>)
      requires Valid() && height <= finalHeight && VerdictOf(env.logsAt(height), minAgreement) == Agreed(logs)
      requires forall k :: k in ready && ready[k].deposit.height == height ==> k in pending && pending[k] == ready[k]
      modifies this`pending, this`confirmations, this`votes, this`finalized, store, orphans, ledger
      ensures Valid()
      ensures SettledAmong(env, minAgreement, finalHeight, set k | k in ready && ready[k].deposit.height == height, old(State()), State())
    {
      var todo := set k | k in ready && ready[k].deposit.height == height;
      ghost var all := todo;
      while todo != {}
        invariant todo <= all
        invariant Valid()
        invariant SettledAmong(env, minAgreement, finalHeight, all - todo, old(State()), State())
      {
        var k :| k in todo;
        ghost var before := State();
        assert CellOf(before, k) == CellOf(old(State()), k);
        SettleCandidate(env, k, finalHeight, height, logs);
        SettleOneMore(env, minAgreement, finalHeight, all - todo, k, old(State()), before, State());
        assert all - (todo - {k}) == all - todo + {k};
        todo := todo - {k};
      }
    }

    /** The candidates at one height, whatever the providers say of it. */
    method SettleAt(env: SyncWorld, ready: map<Key, Tracked>, ghost finalHeight: nat, height: nat)
      requires Valid() && height <= finalHeight && DistinctNames(env.logsAt(height))
      requires forall k :: k in ready && ready[k].deposit.height == height ==> k in pending && pending[k] == ready[k]
      modifies this`pending, this`confirmations, this`votes, this`finalized, store, orphans, ledger
      ensures Valid()
      ensures SettledAmong(env, minAgreement, finalHeight, set k | k in ready && ready[k].deposit.height == height, old(State()), State())
    {
      var agreed, _, _ := ResolveAgreement(env.logsAt(height), minAgreement);
      if agreed.Agreed? {
        SettleHeight(env, ready, finalHeight, height, agreed.winner);
      } else {
        NothingSettles(env, minAgreement, finalHeight, (set k | k in ready && ready[k].deposit.height == height), height, State());
      }
    }

    /** Height by height, every candidate at or below the finalized one. */
    method SettleReady(env: SyncWorld, finalHeight: nat)
      requires Valid() && ProvidersDistinct(env.logsAt)
      modifies this`pending, this`confirmations, this`votes, this`finalized, store, orphans, ledger
      ensures Valid()
      ensures forall k :: CellOf(State(), k) == Settled(env, minAgreement, finalHeight, k, CellOf(old(State()), k))
    {
      var ready := map k | k in pending && pending[k].deposit.height <= finalHeight :: pending[k];
      var heights := set k | k in ready :: ready[k].deposit.height;
      ghost var done: set<Key> := {};
      while heights != {}
        invariant forall h :: h in heights ==> h <= finalHeight
        invariant Valid()
        invariant done == set k | k in ready && ready[k].deposit.height !in heights
        invariant SettledAmong(env, minAgreement, finalHeight, done, old(State()), State())
      {
        var height :| height in heights;
        ghost var batch := set k | k in ready && ready[k].deposit.height == height;
        ghost var before := State();
        UntouchedSoFar(env, minAgreement, finalHeight, done, batch, old(State()), before);
        SettleAt(env, ready, finalHeight, height);
        SettleBatch(env, minAgreement, finalHeight, done, batch, old(State()), before, State());
        heights := heights - {height};
        done := done + batch;
      }
      forall k
        ensures CellOf(State(), k) == Settled(env, minAgreement, finalHeight, k, CellOf(old(State()), k))
      {
        assert k in done <==> k in ready;
      }
    }

    /** `CheckFinality`: every deposit's cell takes its own step, independently of all
        others. */
    method CheckFinality(env: SyncWorld) returns (ok: bool)
      requires Valid() && DistinctNames(env.finality) && ProvidersDistinct(env.logsAt) && ProvidersDistinct(env.recheckAt)
      modifies this`pending, this`confirmations, this`votes, this`finalized, store, orphans, ledger
      ensures Valid()
      ensures ok <==> VerdictOf(env.finality, minAgreement).Agreed?
      ensures forall k :: CellOf(State(), k) == SyncTick(env, minAgreement, k, CellOf(old(State()), k))
    {
      var v, _, _ := ResolveAgreement(env.finality, minAgreement);
      if !v.Agreed? {
        return false;
      }
      SettleReady(env, v.winner.0);
      label settled:
      CheckPostFinalReorgs(env.recheckAt, env.reorgReported, env.now);
      forall k
        ensures CellOf(State(), k) == SyncTick(env, minAgreement, k, CellOf(old(State()), k))
      {
        assert CellOf(old@settled(State()), k) == Settled(env, minAgreement, v.winner.0, k, CellOf(old(State()), k));
      }
      return true;
    }

    /** `checkPostFinalReorgs`: forget what is past its retention, and report and forget
        what is no longer on chain. */
    method CheckPostFinalReorgs(recheckAt: nat -> seq<NamedResult<set<Key>>>, reported: Key -> bool, now: int)
      requires Valid() && ProvidersDistinct(recheckAt)
      modifies this`finalized
      ensures Valid()
      ensures forall k :: CellOf(State(), k) == Rechecked(recheckAt, reported, now, minAgreement, k, CellOf(old(State()), k))
      ensures forall k :: k in finalized <==> k in old(finalized) && !ToForget(recheckAt, reported, now, minAgreement, k, old(finalized)[k])
    {
      var kept := map k | k in finalized && now - finalized[k].at <= FinalizedRetention :: finalized[k];
      var gone := FindVanished(recheckAt, reported, kept);
      ghost var before := State();
      finalized := kept - gone;
      forall k
        ensures CellOf(State(), k) == Rechecked(recheckAt, reported, now, minAgreement, k, CellOf(before, k))
      {
        RecheckedCell(recheckAt, reported, now, minAgreement, k, before, kept, gone);
      }
      forall k
        ensures k in finalized <==> k in old(finalized) && !ToForget(recheckAt, reported, now, minAgreement, k, old(finalized)[k])
      {
        ForgottenMeans(recheckAt, reported, now, minAgreement, k, CellOf(before, k));
      }
    }

    /** Height by height, the finalized deposits no longer there whose reorg report
        went through. */
    method FindVanished(recheckAt: nat -> seq<NamedResult<set<Key>>>, reported: Key -> bool, kept: map<Key, Finalized>) returns (gone: set<Key>)
      requires ProvidersDistinct(recheckAt)
      ensures forall k :: k in kept ==> (k in gone <==> Vanished(recheckAt, reported, minAgreement, kept[k].deposit.height, k))
    {
      gone := {};
      var heights := set k | k in kept :: kept[k].deposit.height;
      while heights != {}
        invariant forall k :: k in kept && kept[k].deposit.height in heights ==> k !in gone
        invariant forall k :: k in kept && kept[k].deposit.height !in heights ==>
                                (k in gone <==> Vanished(recheckAt, reported, minAgreement, kept[k].deposit.height, k))
      {
        var height :| height in heights;
        var agreed, _, _ := ResolveAgreement(recheckAt(height), minAgreement);
        heights := heights - {height};
        if agreed.Agreed? {
          gone := gone + set k | k in kept && kept[k].deposit.height == height && k !in agreed.winner && reported(k);
        }
      }
    }

    /** `checkOneCandidateAsync`: one provider's own two look-ups become one vote. */
    method CheckOneCandidateAsync(k: Key, p: string, height: nat, hash: Option<Hash>, logs: LogReply, w: World)
      requires Valid() && k in pending && pending[k].deposit.height <= height
      modifies this`pending, this`confirmations, this`votes, this`finalized, this`made, store, orphans, ledger, made
      ensures Valid() && (forall c :: c in made ==> c in old(made) || fresh(c))
      ensures OnlyTouches(old(State()), State(), k)
      ensures CellOf(State(), k) == AsyncCheckCell(minAgreement, CellOf(old(State()), k), AsyncCheck(p, height, hash, logs, w))
    {
      ghost var before, e := State(), AsyncCheck(p, height, hash, logs, w);
      if hash.None? || logs.LogError? || logs.Unparsable? {
        NoVoteCell(minAgreement, before, k, e);
        return;
      }
      var d := pending[k].deposit;
      var obs := Observation(BlockId(d.height, hash.value), logs.Found?, d.orderId, if logs.Found? then logs.amount else 0);
      ghost var status := CastVote(k, p, obs, w);
      VotedCell(minAgreement, before, k, e, obs, status);
    }

    /** The vote is recorded, and what its outcome calls for is done. */
    method CastVote(k: Key, p: string, obs: Observation, w: World) returns (ghost outcome: Status)
      requires Valid() && k in pending
      modifies this`pending, this`confirmations, this`votes, this`finalized, this`made, store, orphans, ledger, made
      ensures Valid() && (forall c :: c in made ==> c in old(made) || fresh(c))
      ensures outcome == Outcome(minAgreement, Starting(old(State()), k).votes[k] + [Vote(p, obs)])
      ensures State() == Concluding(Voting(Starting(old(State()), k), k, Vote(p, obs)), k, outcome, w)
    {
      StartConfirmations(k);
      var status := RecordVote(k, p, obs);
      ConcludeVote(k, status, w);
      outcome := status;
    }

    method StartConfirmations(k: Key)
      requires Valid() && k in pending
      modifies this`confirmations, this`votes, this`made
      ensures Valid() && (forall c :: c in made ==> c in old(made) || fresh(c)) && k in confirmations
      ensures State() == Starting(old(State()), k)
    {
      if k !in confirmations {
        var started := new CandidateConfirmations(minAgreement);
        confirmations, votes, made := confirmations[k := started], votes[k := []], made + {started};
      }
    }

    method RecordVote(k: Key, p: string, obs: Observation) returns (status: Status)
      requires Valid() && k in confirmations
      modifies this`votes, confirmations[k]
      ensures Valid()
      ensures State() == Voting(old(State()), k, Vote(p, obs))
      ensures status == Outcome(minAgreement, old(votes)[k] + [Vote(p, obs)])
    {
      status := confirmations[k].RecordConfirmed(p, obs);
      votes := votes[k := votes[k] + [Vote(p, obs)]];
    }

    /** What follows from the status of the vote just recorded. */
    method ConcludeVote(k: Key, status: Status, w: World)
      requires Valid() && k in pending && k in votes
      modifies this`pending, this`confirmations, this`votes, this`finalized, store, orphans, ledger
      ensures Valid()
      ensures State() == Concluding(old(State()), k, status, w)
    {
      match status {
        case QuorumReached => FinalizeOne(k, w);
        case NotFound => Forget(k);
        case DisagreementAlert => pending := pending[k := pending[k].(alerted := true)];
        case Pending =>
      }
    }

    /** `checkOneProviderAsync`, for a provider that was heard: its turn with every
        candidate it has reached, in any order. */
    method CheckOneProviderAsync(env: AsyncWorld, p: string, height: nat)
      requires Valid()
      modifies this`pending, this`confirmations, this`votes, this`finalized, this`made, store, orphans, ledger, made
      ensures Valid() && (forall c :: c in made ==> c in old(made) || fresh(c))
      ensures PolledAmong(minAgreement, env, p, height, old(pending.Keys), old(State()), State())
    {
      var todo := pending.Keys;
      while todo != {}
        invariant todo <= old(pending.Keys)
        invariant Valid() && (forall c :: c in made ==> c in old(made) || fresh(c))
        invariant PolledAmong(minAgreement, env, p, height, old(pending.Keys) - todo, old(State()), State())
      {
        var k :| k in todo;
        ghost var done, before := old(pending.Keys) - todo, State();
        assert CellOf(before, k) == CellOf(old(State()), k);
        if k in pending && pending[k].deposit.height <= height {
          CheckOneCandidateAsync(k, p, height, env.hash(p, k), env.logs(p, k), env.world(p, k));
        } else {
          NotReachedCell(minAgreement, before, k, CheckOf(env, p, height, k));
        }
        PollOneMore(minAgreement, env, p, height, done, k, old(State()), before, State());
        todo := todo - {k};
        assert old(pending.Keys) - todo == done + {k};
      }
    }

    /** `CheckFinalityAsync`: provider by provider, then the shared re-check. */
    method CheckFinalityAsync(env: AsyncWorld)
      requires Valid() && monitor.Valid() && ProvidersDistinct(env.recheckAt)
      requires forall i, j :: 0 <= i < j < |env.providers| ==> env.providers[i] != env.providers[j]
      modifies this`pending, this`confirmations, this`votes, this`finalized, this`made, store, orphans, ledger, made, monitor
      ensures Valid() && monitor.Valid() && (forall c :: c in made ==> c in old(made) || fresh(c))
      ensures forall k :: CellOf(State(), k) == AsyncTick(env, minAgreement, old(monitor.max), k, CellOf(old(State()), k))
    {
      ghost var highWater := monitor.max;
      for i := 0 to |env.providers|
        invariant Valid() && monitor.Valid() && (forall c :: c in made ==> c in old(made) || fresh(c))
        invariant forall j :: i <= j < |env.providers| ==> Lookup(monitor.max, env.providers[j]) == Lookup(highWater, env.providers[j])
        invariant forall k :: CellOf(State(), k) == Polled(env, minAgreement, highWater, i, k, CellOf(old(State()), k))
      {
        var p := env.providers[i];
        ghost var before := State();
        var reported := env.finalized(p);
        if reported.Some? {
          var ok := CheckHeight(p, reported.value);
          assert ok == Heard(env, highWater, p);
          if ok {
            CheckOneProviderAsync(env, p, reported.value);
            PolledEveryone(minAgreement, env, p, reported.value, before, State());
          }
        }
      }
      label polled:
      CheckPostFinalReorgs(env.recheckAt, env.reorgReported, env.now);
      forall k
        ensures CellOf(State(), k) == AsyncTick(env, minAgreement, highWater, k, CellOf(old(State()), k))
      {
        assert CellOf(old@polled(State()), k) == Polled(env, minAgreement, highWater, |env.providers|, k, CellOf(old(State()), k));
      }
    }

    method CheckHeight(p: string, height: nat) returns (ok: bool)
      requires monitor.Valid()
      modifies monitor
      ensures monitor.Valid()
      ensures ok <==> (p in old(monitor.max) ==> old(monitor.max)[p] <= height)
      ensures monitor.max == if ok then old(monitor.max)[p := height] else old(monitor.max)
    {
      ok := monitor.Check(p, height);
    }
  }

  // ---------- loop bookkeeping ----------

  ghost predicate PolledAmong(min: nat, env: AsyncWorld, p: string, height: nat, done: set<Key>, s: Contents, s': Contents) {
    forall k :: CellOf(s', k) == if k in done then Step(min, CellOf(s, k), CheckOf(env, p, height, k)) else CellOf(s, k)
  }

  lemma PollOneMore(min: nat, env: AsyncWorld, p: string, height: nat, done: set<Key>, k: Key, s: Contents, s1: Contents, s2: Contents)
    requires PolledAmong(min, env, p, height, done, s, s1) && k !in done
    requires OnlyTouches(s1, s2, k) && CellOf(s2, k) == Step(min, CellOf(s, k), CheckOf(env, p, height, k))
    ensures PolledAmong(min, env, p, height, done + {k}, s, s2)
  {
  }

  lemma NotReachedCell(min: nat, s: Contents, k: Key, e: Event)
    requires e.AsyncCheck? && (k in s.pending ==> s.pending[k].deposit.height > e.finalizedHeight)
    ensures Step(min, CellOf(s, k), e) == CellOf(s, k)
  {
  }

  lemma PolledEveryone(min: nat, env: AsyncWorld, p: string, height: nat, s: Contents, s': Contents)
    requires PolledAmong(min, env, p, height, s.pending.Keys, s, s')
    ensures forall k :: CellOf(s', k) == Step(min, CellOf(s, k), CheckOf(env, p, height, k))
  {
    forall k
      ensures CellOf(s', k) == Step(min, CellOf(s, k), CheckOf(env, p, height, k))
    {
      if k !in s.pending {
        NotReachedCell(min, s, k, CheckOf(env, p, height, k));
      }
    }
  }

  lemma SettlingCell(env: SyncWorld, min: nat, finalHeight: nat, k: Key, s: Contents, logs: set<Key>)
    requires k in s.pending && s.pending[k].deposit.height <= finalHeight
    requires VerdictOf(env.logsAt(s.pending[k].deposit.height), min) == Agreed(logs)
    ensures var s' := if k !in logs then Marking(Forgetting(s, k), k, Dropped, env.statusSaved(k)) else Finalizing(s, k, env.world(k));
            CellOf(s', k) == Settled(env, min, finalHeight, k, CellOf(s, k)) && OnlyTouches(s, s', k)
  {
    assert Presence(env.logsAt, min, s.pending[k].deposit.height, k) == Some(k in logs);
    if k !in logs {
      DroppingCell(s, k, env.statusSaved(k), min);
    } else {
      FinalizingCell(s, k, env.world(k));
    }
  }

  /** Exactly the deposits in `done` have been settled. */
  ghost predicate SettledAmong(env: SyncWorld, min: nat, finalHeight: nat, done: set<Key>, s: Contents, s': Contents) {
    forall k :: CellOf(s', k) == if k in done then Settled(env, min, finalHeight, k, CellOf(s, k)) else CellOf(s, k)
  }

  lemma SettleOneMore(env: SyncWorld, min: nat, finalHeight: nat, done: set<Key>, k: Key, s: Contents, s1: Contents, s2: Contents)
    requires SettledAmong(env, min, finalHeight, done, s, s1) && k !in done
    requires OnlyTouches(s1, s2, k) && CellOf(s2, k) == Settled(env, min, finalHeight, k, CellOf(s, k))
    ensures SettledAmong(env, min, finalHeight, done + {k}, s, s2)
  {
  }

  lemma SettleBatch(env: SyncWorld, min: nat, finalHeight: nat, done: set<Key>, batch: set<Key>, s: Contents, s1: Contents, s2: Contents)
    requires SettledAmong(env, min, finalHeight, done, s, s1) && done !! batch
    requires SettledAmong(env, min, finalHeight, batch, s1, s2)
    ensures SettledAmong(env, min, finalHeight, done + batch, s, s2)
  {
    forall k
      ensures CellOf(s2, k) == if k in done + batch then Settled(env, min, finalHeight, k, CellOf(s, k)) else CellOf(s, k)
    {
      assert k in batch ==> CellOf(s1, k) == CellOf(s, k);
    }
  }

  /** Deposits whose turn is still to come are as pending as they were. */
  lemma UntouchedSoFar(env: SyncWorld, min: nat, finalHeight: nat, done: set<Key>, batch: set<Key>, s: Contents, s': Contents)
    requires SettledAmong(env, min, finalHeight, done, s, s') && done !! batch && batch <= s.pending.Keys
    ensures forall k :: k in batch ==> k in s'.pending && s'.pending[k] == s.pending[k]
  {
    forall k | k in batch
      ensures k in s'.pending && s'.pending[k] == s.pending[k]
    {
      assert CellOf(s', k) == CellOf(s, k);
    }
  }

  lemma NothingSettles(env: SyncWorld, min: nat, finalHeight: nat, batch: set<Key>, height: nat, s: Contents)
    requires !VerdictOf(env.logsAt(height), min).Agreed?
    requires forall k :: k in batch ==> k in s.pending && s.pending[k].deposit.height == height
    ensures SettledAmong(env, min, finalHeight, batch, s, s)
  {
  }

  lemma RecheckedCell(recheckAt: nat -> seq<NamedResult<set<Key>>>, reported: Key -> bool, now: int, min: nat, k: Key,
                      s: Contents, kept: map<Key, Finalized>, gone: set<Key>)
    requires kept == map j | j in s.finalized && now - s.finalized[j].at <= FinalizedRetention :: s.finalized[j]
    requires k in kept ==> (k in gone <==> Vanished(recheckAt, reported, min, kept[k].deposit.height, k))
    ensures CellOf(s.(finalized := kept - gone), k) == Rechecked(recheckAt, reported, now, min, k, CellOf(s, k))
  {
  }

  ghost predicate Vanished(recheckAt: nat -> seq<NamedResult<set<Key>>>, reported: Key -> bool, min: nat, height: nat, k: Key) {
    Presence(recheckAt, min, height, k) == Some(false) && reported(k)
  }

  // ---------- ticks are runs, and what backs a report ----------

  /** A synchronous tick is a run of at most two events per deposit, so everything
      proved about runs holds of ticks. */
  ghost function SyncEvents(env: SyncWorld, min: nat, k: Key, c: Cell): (es: seq<Event>)
    ensures SyncTick(env, min, k, c) == Run(min, c, es)
    ensures |es| <= 2 && forall e :: e in es ==> e.Finalize? || e.DropBeforeFinality? || e.RecheckFinal?
  {
    var v := VerdictOf(env.finality, min);
    if !v.Agreed? then []
    else
      var settle := SettleEvents(env, min, v.winner.0, k, c);
      var c1 := Settled(env, min, v.winner.0, k, c);
      RunAppend(min, c, settle, RecheckEvents(env.recheckAt, env.reorgReported, env.now, min, k, c1));
      settle + RecheckEvents(env.recheckAt, env.reorgReported, env.now, min, k, c1)
  }

  ghost function SettleEvents(env: SyncWorld, min: nat, height: nat, k: Key, c: Cell): (es: seq<Event>)
    ensures Settled(env, min, height, k, c) == Run(min, c, es)
    ensures |es| <= 1 && forall e :: e in es ==> e.Finalize? || e.DropBeforeFinality?
  {
    if c.pending.None? || c.pending.value.deposit.height > height then []
    else
      match Presence(env.logsAt, min, c.pending.value.deposit.height, k)
      case None => []
      case Some(true) => RunOne(min, c, Finalize(env.world(k))); [Finalize(env.world(k))]
      case Some(false) => RunOne(min, c, DropBeforeFinality(env.statusSaved(k))); [DropBeforeFinality(env.statusSaved(k))]
  }

  ghost function RecheckEvents(recheckAt: nat -> seq<NamedResult<set<Key>>>, reported: Key -> bool, now: int, min: nat, k: Key, c: Cell): (es: seq<Event>)
    ensures Rechecked(recheckAt, reported, now, min, k, c) == Run(min, c, es)
    ensures |es| <= 1 && forall e :: e in es ==> e.RecheckFinal?
  {
    if c.finalized.None? then []
    else
      var e := RecheckFinal(now, Presence(recheckAt, min, c.finalized.value.deposit.height, k), reported(k));
      RunOne(min, c, e);
      [e]
  }

  /** An asynchronous tick is a run of one check per heard provider and one re-check. */
  ghost function AsyncEvents(env: AsyncWorld, min: nat, highWater: map<string, nat>, k: Key, c: Cell): (es: seq<Event>)
    ensures AsyncTick(env, min, highWater, k, c) == Run(min, c, es)
    ensures forall e :: e in es ==> e.AsyncCheck? || e.RecheckFinal?
  {
    var polls := PollEvents(env, min, highWater, |env.providers|, k, c);
    var c1 := Polled(env, min, highWater, |env.providers|, k, c);
    RunAppend(min, c, polls, RecheckEvents(env.recheckAt, env.reorgReported, env.now, min, k, c1));
    polls + RecheckEvents(env.recheckAt, env.reorgReported, env.now, min, k, c1)
  }

  ghost function PollEvents(env: AsyncWorld, min: nat, highWater: map<string, nat>, n: nat, k: Key, c: Cell): (es: seq<Event>)
    requires n <= |env.providers|
    ensures Polled(env, min, highWater, n, k, c) == Run(min, c, es)
    ensures forall e :: e in es ==> e.AsyncCheck?
  {
    if n == 0 then []
    else
      var es := PollEvents(env, min, highWater, n - 1, k, c);
      var p := env.providers[n - 1];
      if !Heard(env, highWater, p) then es
      else
        var e := CheckOf(env, p, env.finalized(p).value, k);
        RunAppend(min, c, es, [e]);
        RunOne(min, Run(min, c, es), e);
        es + [e]
  }

  /** Ten minutes have passed since the report, or the providers agree on the logs at the
      deposit's height, it is not among them, and the ledger has taken the reorg report. */
  ghost predicate ToForget(recheckAt: nat -> seq<NamedResult<set<Key>>>, reported: Key -> bool, now: int, min: nat, k: Key, f: Finalized) {
    || now - f.at > 600_000_000
    || (VerdictOf(recheckAt(f.deposit.height), min).Agreed? && k !in VerdictOf(recheckAt(f.deposit.height), min).winner && reported(k))
  }

  lemma ForgottenMeans(recheckAt: nat -> seq<NamedResult<set<Key>>>, reported: Key -> bool, now: int, min: nat, k: Key, c: Cell)
    ensures var c' := Rechecked(recheckAt, reported, now, min, k, c);
            && c' == c.(finalized := c'.finalized)
            && (c'.finalized.Some? <==> c.finalized.Some? && !ToForget(recheckAt, reported, now, min, k, c.finalized.value))
  {
  }

  /** With fewer than `min` lying providers, a deposit forgotten within its retention is
      missing from the logs of some honest provider at its height. */
  lemma ForgottenIsGone(recheckAt: nat -> seq<NamedResult<set<Key>>>, reported: Key -> bool, now: int, min: nat, k: Key, c: Cell, faulty: set<string>)
    requires |faulty| < min && c.finalized.Some? && now - c.finalized.value.at <= 600_000_000
    requires Rechecked(recheckAt, reported, now, min, k, c).finalized.None?
    ensures reported(k)
    ensures exists r :: r in recheckAt(c.finalized.value.deposit.height) && r.name !in faulty && r.reply.Answer? && k !in r.reply.key
  {
    ForgottenMeans(recheckAt, reported, now, min, k, c);
    var h := c.finalized.value.deposit.height;
    var r := HonestBacker(recheckAt(h), min, VerdictOf(recheckAt(h), min).winner, faulty);
  }

  /** A pending deposit that the agreed finalized block has reached, and whose height's
      logs are agreed on, is reported if it is among them and dropped if not; no other is. */
  lemma SettledMeans(env: SyncWorld, min: nat, height: nat, k: Key, c: Cell)
    ensures var reached := c.pending.Some? && c.pending.value.deposit.height <= height
                           && VerdictOf(env.logsAt(c.pending.value.deposit.height), min).Agreed?;
            Settled(env, min, height, k, c)
              == if !reached then c
                 else if k in VerdictOf(env.logsAt(c.pending.value.deposit.height), min).winner then FinalizeCell(c, env.world(k))
                 else c.(pending := None, row := WithStatus(c.row, Dropped, env.statusSaved(k)))
  {
  }

  /** With fewer than `min` lying providers, every event of a synchronous tick is backed:
      a report, or a drop, is for a block some honest provider says is final, and a log
      that some honest provider sees there, or does not. */
  lemma SyncEventsAreBacked(env: SyncWorld, min: nat, k: Key, c: Cell, e: Event, faulty: set<string>)
    requires |faulty| < min && e in SyncEvents(env, min, k, c) && !e.RecheckFinal?
    ensures c.pending.Some? && (e.Finalize? || e.DropBeforeFinality?)
    ensures var h := c.pending.value.deposit.height;
            && (exists r :: r in env.finality && r.name !in faulty && r.reply.Answer? && h <= r.reply.key.0)
            && (exists r :: r in env.logsAt(h) && r.name !in faulty && r.reply.Answer? && (k in r.reply.key <==> e.Finalize?))
    ensures e == (if e.Finalize? then Finalize(env.world(k)) else DropBeforeFinality(env.statusSaved(k)))
  {
    var v := VerdictOf(env.finality, min);
    var c1 := Settled(env, min, v.winner.0, k, c);
    assert e in SettleEvents(env, min, v.winner.0, k, c) || e in RecheckEvents(env.recheckAt, env.reorgReported, env.now, min, k, c1);
    var h := c.pending.value.deposit.height;
    var r1 := HonestBacker(env.finality, min, v.winner, faulty);
    var r2 := HonestBacker(env.logsAt(h), min, VerdictOf(env.logsAt(h), min).winner, faulty);
  }

  /** An asynchronous tick asks each provider once at most, and only what that provider
      answers, at a height not below any it has given before, goes into its checks. */
  lemma AsyncEventsAreAnswers(env: AsyncWorld, min: nat, highWater: map<string, nat>, k: Key, c: Cell, e: Event)
    requires e in AsyncEvents(env, min, highWater, k, c) && e.AsyncCheck?
    ensures e.provider in env.providers && env.finalized(e.provider) == Some(e.finalizedHeight)
    ensures e.provider in highWater ==> highWater[e.provider] <= e.finalizedHeight
    ensures e.hash == env.hash(e.provider, k) && e.logs == env.logs(e.provider, k) && e.w == env.world(e.provider, k)
  {
    PollEventsAreAnswers(env, min, highWater, |env.providers|, k, c, e);
  }

  lemma {:induction false} PollEventsAreAnswers(env: AsyncWorld, min: nat, highWater: map<string, nat>, n: nat, k: Key, c: Cell, e: Event)
    requires n <= |env.providers| && e.AsyncCheck?
    ensures e in PollEvents(env, min, highWater, n, k, c) ==>
              && e.provider in env.providers[..n] && env.finalized(e.provider) == Some(e.finalizedHeight)
              && (e.provider in highWater ==> highWater[e.provider] <= e.finalizedHeight)
              && e.hash == env.hash(e.provider, k) && e.logs == env.logs(e.provider, k) && e.w == env.world(e.provider, k)
  {
    if n > 0 {
      PollEventsAreAnswers(env, min, highWater, n - 1, k, c, e);
      assert env.providers[..n] == env.providers[..n - 1] + [env.providers[n - 1]];
    }
  }

  /** The synchronous tick sends a report for `k`. */
  ghost predicate SyncReports(env: SyncWorld, min: nat, k: Key, c: Cell) {
    var v := VerdictOf(env.finality, min);
    && v.Agreed? && c.pending.Some? && c.pending.value.deposit.height <= v.winner.0
    && Presence(env.logsAt, min, c.pending.value.deposit.height, k) == Some(true)
  }

  /** With fewer than `min` lying providers, every synchronous report is for a block
      some honest provider says is final and a log some honest provider sees there. */
  lemma SyncReportIsBacked(env: SyncWorld, min: nat, k: Key, c: Cell, faulty: set<string>)
    requires SyncReports(env, min, k, c) && |faulty| < min
    ensures var h := c.pending.value.deposit.height;
            && (exists r :: r in env.finality && r.name !in faulty && r.reply.Answer? && h <= r.reply.key.0)
            && (exists r :: r in env.logsAt(h) && r.name !in faulty && r.reply.Answer? && k in r.reply.key)
  {
    var h := c.pending.value.deposit.height;
    var v, logs := VerdictOf(env.finality, min), VerdictOf(env.logsAt(h), min);
    var r1 := HonestBacker(env.finality, min, v.winner, faulty);
    var r2 := HonestBacker(env.logsAt(h), min, logs.winner, faulty);
  }
}
