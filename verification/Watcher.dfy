/** The watcher's engine: scanning agreed logs into deposits and orphans, advancing the
    persisted scan cursor, checking finality, crashing and restoring
    (depositwatcher/internal/candidates/candidates.go, loop.go,
    depositwatcher/internal/chain/classify.go, cursor.go).

    A process may die between any two writes of a tick. Every such death leaves what a
    tick leaves whose remaining calls fail, so a run with crashes at arbitrary points is
    a sequence of `RunTick`, with any replies, and `CrashAndRestart`. */
module Watcher {
  import opened Agreement
  import opened AsyncConfirmations
  import opened Deposits
  import opened Leases
  import opened Tracker
  import opened Wrappers

  const MaxBlocksPerTick := 10

  // ---------- data ----------

  datatype Payload = WrongShape | AmountOverflow | Transfer(to: string, sender: string, amount: nat)

  datatype Log = Log(key: Key, height: nat, payload: Payload)

  /** What the database, the header query and the order service answer while one log
      is processed. */
  datatype LogWorld = LogWorld(header: Option<int>, leases: Option<map<int, Lease>>, quoted: Option<int>,
                               save: SaveReply, orphanSave: SaveReply)

  /** `watched` is the watch set, if it could be read; `replies` are the providers'
      answers to the one log query, in canonical order. */
  datatype ScanWorld = ScanWorld(watched: Option<set<string>>, replies: seq<NamedResult<seq<Log>>>, each: nat -> LogWorld)

  datatype TickWorld = TickWorld(cursorsRead: bool, cursorCreated: SaveReply, scan: ScanWorld, cursorSaved: SaveReply,
                                 sync: SyncWorld, async: AsyncWorld)

  ghost predicate LeasesKeyed(w: LogWorld) {
    w.leases.Some? ==> forall o :: o in w.leases.value ==> w.leases.value[o].orderId == o
  }

  ghost predicate WellFormed(w: TickWorld) {
    && DistinctNames(w.scan.replies) && (forall i :: LeasesKeyed(w.scan.each(i)))
    && DistinctNames(w.sync.finality) && ProvidersDistinct(w.sync.logsAt) && ProvidersDistinct(w.sync.recheckAt)
    && ProvidersDistinct(w.async.recheckAt)
    && forall i, j :: 0 <= i < j < |w.async.providers| ==> w.async.providers[i] != w.async.providers[j]
  }

  // ---------- one log ----------

  function Classify(amount: int, quoted: int, dustFloor: int): (c: Classification)
    ensures c.ZeroValue? <==> amount == 0
    ensures c.Exact? <==> amount != 0 && amount == quoted
    ensures c.Overpay? <==> amount != 0 && amount > quoted
    ensures c.Dust? <==> amount != 0 && amount < quoted && amount < dustFloor
    ensures c.Underpay? <==> amount != 0 && dustFloor <= amount < quoted
  {
    if amount == 0 then ZeroValue
    else if amount == quoted then Exact
    else if amount > quoted then Overpay
    else if amount < dustFloor then Dust
    else Underpay
  }

  /** The event a transfer comes to, given its lease: nothing if the order's quote is
      needed and cannot be had. */
  function ScanEvent(log: Log, time: int, a: Attribution, w: LogWorld, dustFloor: int): Option<Event>
    requires log.payload.Transfer?
  {
    var Transfer(to, sender, amount) := log.payload;
    var saved := !w.orphanSave.SaveFailed?;
    match a
    case NoLease => Some(OrphanedAtScan(Orphan(0, "", amount, "no_lease"), saved))
    case Late(l) => Some(OrphanedAtScan(Orphan(l.orderId, l.externalId, amount, "address_retired"), saved))
    case Credited(l) =>
      if w.quoted.None? then None
      else
        var cls := Classify(amount, w.quoted.value, dustFloor);
        if cls.Dust? then Some(OrphanedAtScan(Orphan(l.orderId, l.externalId, amount, "dust"), saved))
        else Some(Observed(Deposit(log.height, time, l.orderId, l.externalId, l.customerId, amount, sender, l.address), cls, w.save))
  }

  ghost function Happen(min: nat, c: Cell, e: Option<Event>): Cell {
    if e.Some? then Step(min, c, e.value) else c
  }

  ghost predicate TransferComesTo(log: Log, time: int, w: LogWorld, dustFloor: int, e: Option<Event>)
    requires log.payload.Transfer?
  {
    if w.leases.None? then e == None
    else exists a :: IsAttribution(w.leases.value, log.payload.to, time, a) && e == ScanEvent(log, time, a, w, dustFloor)
  }

  /** The event, if any, a log comes to; `times` holds the block times already known. */
  ghost predicate ComesTo(log: Log, w: LogWorld, times: map<nat, int>, dustFloor: int, e: Option<Event>) {
    var time := if log.height in times then Some(times[log.height]) else w.header;
    if !log.payload.Transfer? || time.None? then e == None
    else TransferComesTo(log, time.value, w, dustFloor, e)
  }

  /** What may become of a log that a scan has passed. */
  predicate Handled(s: Contents, log: Log) {
    || log.payload.WrongShape?
    || (log.payload.Transfer? && log.payload.amount == 0)
    || log.key in s.rows
    || log.key in s.orphans
  }

  /** Every query and write made for one log is answered. */
  ghost predicate Answers(w: LogWorld) {
    w.header.Some? && w.leases.Some? && w.quoted.Some? && w.save.Saved? && w.orphanSave.Saved?
  }

  /** Why a log can fail a scan: an amount out of range, or an answer it did not get. */
  ghost predicate CanFail(log: Log, w: LogWorld) {
    !log.payload.WrongShape? && (log.payload.AmountOverflow? || !Answers(w))
  }

  /** Why a scan that got as far as `got` failed. */
  ghost predicate ScanFails(w: ScanWorld, min: nat, got: seq<Option<Event>>) {
    || w.watched.None?
    || (w.watched != Some({}) && !VerdictOf(w.replies, min).Agreed?)
    || (0 < |got| <= |AgreedLogs(w, min)| && CanFail(AgreedLogs(w, min)[|got| - 1], w.each(|got| - 1)))
  }

  /** Why the first half of a tick failed. */
  ghost predicate AdvanceFails(w: TickWorld, min: nat, cursor: Option<nat>, ingested: nat, got: seq<Option<Event>>) {
    if cursor.None? then !w.cursorCreated.Saved?
    else ingested > cursor.value && (ScanFails(w.scan, min, got) || !w.cursorSaved.Saved?)
  }

  /** Why a tick failed. */
  ghost predicate TickFails(w: TickWorld, min: nat, asyncFinality: bool, cursor: Option<nat>, ingested: nat, got: seq<Option<Event>>) {
    || !w.cursorsRead
    || AdvanceFails(w, min, cursor, ingested, got)
    || (!asyncFinality && !VerdictOf(w.sync.finality, min).Agreed?)
  }

  ghost predicate AllHandled(s: Contents, logs: seq<Log>) {
    forall log :: log in logs ==> Handled(s, log)
  }

  /** The block times known once the first `n` logs have been processed. */
  function TimesAfter(logs: seq<Log>, w: ScanWorld, n: nat): map<nat, int>
    requires n <= |logs|
  {
    if n == 0 then map[] else TimesWith(TimesAfter(logs, w, n - 1), logs[n - 1], w.each(n - 1))
  }

  function TimesWith(times: map<nat, int>, log: Log, w: LogWorld): map<nat, int> {
    if log.payload.Transfer? && log.height !in times && w.header.Some? then times[log.height := w.header.value] else times
  }

  /** What the logs came to, as far as the scan got: each the event its own block time
      and attribution imply. */
  ghost predicate ComeTo(logs: seq<Log>, w: ScanWorld, dustFloor: int, got: seq<Option<Event>>)
    decreases |got|
  {
    && |got| <= |logs|
    && (got == [] || var n := |got| - 1;
                     && ComeTo(logs, w, dustFloor, got[..n])
                     && ComesTo(logs[n], w.each(n), TimesAfter(logs, w, n), dustFloor, got[n]))
  }

  // ---------- every key's cell at once ----------

  ghost predicate AllSound(s: Contents) {
    forall k :: Sound(CellOf(s, k))
  }

  /** From `s` to `s'`, each key's cell has gone through its own events. */
  ghost predicate Evolved(min: nat, s: Contents, s': Contents, es: Key -> seq<Event>) {
    forall k :: CellOf(s', k) == Run(min, CellOf(s, k), es(k))
  }

  ghost function Nothing(): Key -> seq<Event> {
    k => []
  }

  ghost function Just(key: Key, e: Option<Event>): Key -> seq<Event> {
    k => if k == key && e.Some? then [e.value] else []
  }

  ghost function Joined(es: Key -> seq<Event>, more: Key -> seq<Event>): Key -> seq<Event> {
    k => es(k) + more(k)
  }

  ghost function EventsOf(logs: seq<Log>, got: seq<Option<Event>>): Key -> seq<Event>
    requires |logs| == |got|
  {
    if got == [] then Nothing()
    else Joined(EventsOf(logs[..|logs| - 1], got[..|got| - 1]), Just(logs[|logs| - 1].key, got[|got| - 1]))
  }

  const Empty := Contents(map[], map[], map[], map[], map[], map[])

  lemma OneEvent(min: nat, s: Contents, s': Contents, key: Key, e: Option<Event>)
    requires OnlyTouches(s, s', key) && CellOf(s', key) == Happen(min, CellOf(s, key), e)
    ensures Evolved(min, s, s', Just(key, e))
  {
    if e.Some? {
      RunOne(min, CellOf(s, key), e.value);
    }
  }

  lemma Then(min: nat, s: Contents, s1: Contents, s2: Contents, es: Key -> seq<Event>, more: Key -> seq<Event>)
    requires Evolved(min, s, s1, es) && Evolved(min, s1, s2, more)
    ensures Evolved(min, s, s2, Joined(es, more))
    ensures AllSound(s) ==> AllSound(s1) && AllSound(s2)
  {
    forall k
      ensures CellOf(s2, k) == Run(min, CellOf(s, k), es(k) + more(k))
      ensures Sound(CellOf(s, k)) ==> Sound(CellOf(s1, k)) && Sound(CellOf(s2, k))
    {
      RunAppend(min, CellOf(s, k), es(k), more(k));
      if Sound(CellOf(s, k)) {
        RunKeeps(min, CellOf(s, k), es(k));
        RunKeeps(min, CellOf(s1, k), more(k));
      }
    }
  }

  /** What has been handled stays handled, through scans, ticks and restarts. */
  lemma HandledRemain(min: nat, s: Contents, s': Contents, es: Key -> seq<Event>, logs: seq<Log>)
    requires AllSound(s) && Evolved(min, s, s', es) && AllHandled(s, logs)
    ensures AllHandled(s', logs)
  {
    forall log | log in logs
      ensures Handled(s', log)
    {
      RunKeeps(min, CellOf(s, log.key), es(log.key));
      assert CellOf(s', log.key).row.Some? <==> log.key in s'.rows;
      assert CellOf(s', log.key).orphan.Some? <==> log.key in s'.orphans;
    }
  }

  /** A scan, finished or not, took `s` to `s'`, its first logs coming to `got`. */
  ghost predicate CameTo(min: nat, dustFloor: int, w: ScanWorld, got: seq<Option<Event>>, s: Contents, s': Contents) {
    ComeTo(AgreedLogs(w, min), w, dustFloor, got) && Evolved(min, s, s', EventsOf(AgreedLogs(w, min)[..|got|], got))
  }

  /** A scan that began in `s0` has come to `got` for its first logs. */
  ghost predicate Scanned(min: nat, s0: Contents, s: Contents, logs: seq<Log>, w: ScanWorld, dustFloor: int,
                          times: map<nat, int>, got: seq<Option<Event>>) {
    && ComeTo(logs, w, dustFloor, got)
    && times == TimesAfter(logs, w, |got|)
    && AllSound(s) && Evolved(min, s0, s, EventsOf(logs[..|got|], got))
  }

  lemma OneMoreLog(min: nat, s0: Contents, s1: Contents, s2: Contents, logs: seq<Log>, w: ScanWorld, dustFloor: int,
                   times: map<nat, int>, got: seq<Option<Event>>, e: Option<Event>)
    requires AllSound(s0) && Scanned(min, s0, s1, logs, w, dustFloor, times, got) && |got| < |logs|
    requires ComesTo(logs[|got|], w.each(|got|), times, dustFloor, e)
    requires OnlyTouches(s1, s2, logs[|got|].key) && CellOf(s2, logs[|got|].key) == Happen(min, CellOf(s1, logs[|got|].key), e)
    ensures Scanned(min, s0, s2, logs, w, dustFloor, TimesWith(times, logs[|got|], w.each(|got|)), got + [e])
    ensures AllHandled(s1, logs[..|got|]) && Handled(s2, logs[|got|]) ==> AllHandled(s2, logs[..|got| + 1])
  {
    var n, log := |got|, logs[|got|];
    EvolveOneMore(min, s0, s1, s2, EventsOf(logs[..n], got), logs[..n], log, e);
    OneMoreEvent(logs, got, e);
    ComeToOneMore(logs, w, dustFloor, got, e);
  }

  lemma OneMoreEvent(logs: seq<Log>, got: seq<Option<Event>>, e: Option<Event>)
    requires |got| < |logs|
    ensures logs[..|got| + 1] == logs[..|got|] + [logs[|got|]]
    ensures EventsOf(logs[..|got| + 1], got + [e]) == Joined(EventsOf(logs[..|got|], got), Just(logs[|got|].key, e))
  {
    assert logs[..|got| + 1] == logs[..|got|] + [logs[|got|]];
    EventsOfLast(logs[..|got| + 1], logs[..|got|], logs[|got|], got + [e], got, e);
  }

  lemma EventsOfLast(logs: seq<Log>, done: seq<Log>, log: Log, got': seq<Option<Event>>, got: seq<Option<Event>>, e: Option<Event>)
    requires |done| == |got| && logs == done + [log] && got' == got + [e]
    ensures EventsOf(logs, got') == Joined(EventsOf(done, got), Just(log.key, e))
  {
    var n := |got|;
    assert logs[..n] == done && got'[..n] == got;
    assert logs[n] == log && got'[n] == e;
  }

  lemma ComeToOneMore(logs: seq<Log>, w: ScanWorld, dustFloor: int, got: seq<Option<Event>>, e: Option<Event>)
    requires ComeTo(logs, w, dustFloor, got) && |got| < |logs|
    requires ComesTo(logs[|got|], w.each(|got|), TimesAfter(logs, w, |got|), dustFloor, e)
    ensures ComeTo(logs, w, dustFloor, got + [e])
    ensures TimesAfter(logs, w, |got + [e]|) == TimesWith(TimesAfter(logs, w, |got|), logs[|got|], w.each(|got|))
  {
    assert (got + [e])[..|got|] == got;
  }

  lemma EvolveOneMore(min: nat, s: Contents, s1: Contents, s2: Contents, es: Key -> seq<Event>, done: seq<Log>, log: Log, e: Option<Event>)
    requires AllSound(s) && Evolved(min, s, s1, es)
    requires OnlyTouches(s1, s2, log.key) && CellOf(s2, log.key) == Happen(min, CellOf(s1, log.key), e)
    ensures Evolved(min, s, s2, Joined(es, Just(log.key, e))) && AllSound(s2)
    ensures AllHandled(s1, done) && Handled(s2, log) ==> AllHandled(s2, done + [log])
  {
    OneEvent(min, s1, s2, log.key, e);
    Then(min, s, s1, s2, es, Just(log.key, e));
    if AllHandled(s1, done) {
      HandledRemain(min, s1, s2, Just(log.key, e), done);
    }
  }

  ghost function SyncTrace(env: SyncWorld, min: nat, s: Contents): Key -> seq<Event> {
    k => SyncEvents(env, min, k, CellOf(s, k))
  }

  ghost function AsyncTrace(env: AsyncWorld, min: nat, highWater: map<string, nat>, s: Contents): Key -> seq<Event> {
    k => AsyncEvents(env, min, highWater, k, CellOf(s, k))
  }

  /** What a tick's finality check does to every deposit, in either mode. */
  ghost function FinalityTrace(w: TickWorld, async: bool, min: nat, highWater: map<string, nat>, s: Contents): Key -> seq<Event> {
    if async then AsyncTrace(w.async, min, highWater, s) else SyncTrace(w.sync, min, s)
  }

  ghost function Booting(): Key -> seq<Event> {
    k => [Boot]
  }

  lemma SyncEvolves(env: SyncWorld, min: nat, s: Contents, s': Contents)
    requires forall k :: CellOf(s', k) == SyncTick(env, min, k, CellOf(s, k))
    ensures Evolved(min, s, s', SyncTrace(env, min, s))
  {
    forall k
      ensures CellOf(s', k) == Run(min, CellOf(s, k), SyncTrace(env, min, s)(k))
    {
      var es := SyncEvents(env, min, k, CellOf(s, k));
    }
  }

  lemma AsyncEvolves(env: AsyncWorld, min: nat, highWater: map<string, nat>, s: Contents, s': Contents)
    requires forall k :: CellOf(s', k) == AsyncTick(env, min, highWater, k, CellOf(s, k))
    ensures Evolved(min, s, s', AsyncTrace(env, min, highWater, s))
  {
    forall k
      ensures CellOf(s', k) == Run(min, CellOf(s, k), AsyncTrace(env, min, highWater, s)(k))
    {
      var es := AsyncEvents(env, min, highWater, k, CellOf(s, k));
    }
  }

  /** A new process starts from the tables and the ledger alone, and so goes where the
      old one's `Boot` would have gone. */
  lemma BootEvolves(min: nat, s: Contents, s1: Contents, s': Contents)
    requires s1 == Contents(map[], map[], map[], s.rows, s.orphans, s.entries)
    requires forall k :: CellOf(s', k) == Step(min, CellOf(s1, k), Boot)
    ensures Evolved(min, s, s', Booting())
  {
    forall k
      ensures CellOf(s', k) == Run(min, CellOf(s, k), Booting()(k))
    {
      RunOne(min, CellOf(s, k), Boot);
      assert Step(min, CellOf(s1, k), Boot) == Step(min, CellOf(s, k), Boot);
    }
  }

  // ---------- where what is stored comes from ----------

  /** The block time a scan had for its log `i`: that of one header answer for the log's
      height, to this log or an earlier one. */
  ghost predicate TimeOf(logs: seq<Log>, w: ScanWorld, i: nat, time: int) {
    exists m :: 0 <= m <= i < |logs| && logs[m].height == logs[i].height && w.each(m).header == Some(time)
  }

  /** The lease is the latest on the wallet paid, and was still open at `time`. */
  predicate OpenLease(leases: map<int, Lease>, wallet: string, time: int, o: int) {
    IsLeaseAt(leases, wallet, time, o) && !(leases[o].status == Retired && time >= FloorSecond(leases[o].retiredAt))
  }

  /** The deposit is what the log says was paid, to the order whose lease was open then. */
  ghost predicate DepositFrom(log: Log, time: int, leases: map<int, Lease>, d: Deposit) {
    && log.payload.Transfer?
    && d.height == log.height && d.blockTime == time && d.amount == log.payload.amount && d.sender == log.payload.sender
    && exists o :: OpenLease(leases, log.payload.to, time, o)
                   && d.orderId == leases[o].orderId && d.externalId == leases[o].externalId
                   && d.customerId == leases[o].customerId && d.address == leases[o].address
  }

  /** The orphan record has the log's amount, and its reason holds of the leases: none had
      started; the latest had ended; or it was open and the payment was dust. */
  ghost predicate OrphanFrom(log: Log, time: int, leases: map<int, Lease>, quoted: Option<int>, dustFloor: int, o: Orphan) {
    && log.payload.Transfer? && o.amount == log.payload.amount
    && (o.reason == "no_lease" || o.reason == "address_retired" || o.reason == "dust")
    && (o.reason == "no_lease" ==> o.orderId == 0 && o.externalId == "" && forall l :: l in leases && leases[l].address == log.payload.to ==> leases[l].assignedAt > time + LeaseTimeTolerance)
    && (o.reason != "no_lease" ==> exists l :: IsLeaseAt(leases, log.payload.to, time, l)
                                               && o.orderId == leases[l].orderId && o.externalId == leases[l].externalId
                                               && (o.reason == "dust" <==> OpenLease(leases, log.payload.to, time, l)))
    && (o.reason == "dust" ==> quoted.Some? && 0 < o.amount < quoted.value && o.amount < dustFloor)
  }

  /** The event is what log `i` of a scan comes to. */
  ghost predicate FromLog(logs: seq<Log>, w: ScanWorld, dustFloor: int, i: nat, time: int, k: Key, e: Event) {
    && i < |logs| && logs[i].key == k && TimeOf(logs, w, i, time) && w.each(i).leases.Some?
    && match e
       case Observed(d, cls, _) =>
         && DepositFrom(logs[i], time, w.each(i).leases.value, d) && w.each(i).quoted.Some?
         && !cls.Dust? && cls == Classify(d.amount, w.each(i).quoted.value, dustFloor)
       case OrphanedAtScan(o, _) => OrphanFrom(logs[i], time, w.each(i).leases.value, w.each(i).quoted, dustFloor, o)
       case _ => false
  }

  ghost predicate HasLog(logs: seq<Log>, w: ScanWorld, dustFloor: int, k: Key, e: Event) {
    exists i, time :: FromLog(logs, w, dustFloor, i, time, k, e)
  }

  predicate IsScanEvent(e: Event) {
    e.Observed? || e.OrphanedAtScan?
  }

  lemma {:induction false} TimesAreHeaders(logs: seq<Log>, w: ScanWorld, n: nat, h: nat) returns (m: nat)
    requires n <= |logs| && h in TimesAfter(logs, w, n)
    ensures m < n && logs[m].height == h && w.each(m).header == Some(TimesAfter(logs, w, n)[h])
  {
    if h in TimesAfter(logs, w, n - 1) {
      m := TimesAreHeaders(logs, w, n - 1, h);
    } else {
      m := n - 1;
    }
  }

  lemma ComesFromLog(logs: seq<Log>, w: ScanWorld, dustFloor: int, i: nat, e: Event)
    requires i < |logs| && ComesTo(logs[i], w.each(i), TimesAfter(logs, w, i), dustFloor, Some(e))
    ensures HasLog(logs, w, dustFloor, logs[i].key, e)
  {
    var log, times := logs[i], TimesAfter(logs, w, i);
    var time := if log.height in times then times[log.height] else w.each(i).header.value;
    var m := i;
    if log.height in times {
      m := TimesAreHeaders(logs, w, i, log.height);
    }
    assert logs[m].height == logs[i].height && w.each(m).header == Some(time);
    assert TimeOf(logs, w, i, time);
    EventFromLog(log, w.each(i), time, dustFloor, e);
    assert FromLog(logs, w, dustFloor, i, time, log.key, e);
  }

  lemma EventFromLog(log: Log, w: LogWorld, time: int, dustFloor: int, e: Event)
    requires log.payload.Transfer? && TransferComesTo(log, time, w, dustFloor, Some(e))
    ensures w.leases.Some? && IsScanEvent(e)
    ensures e.Observed? ==> DepositFrom(log, time, w.leases.value, e.d) && w.quoted.Some? && !e.cls.Dust?
                            && e.cls == Classify(e.d.amount, w.quoted.value, dustFloor)
    ensures e.OrphanedAtScan? ==> OrphanFrom(log, time, w.leases.value, w.quoted, dustFloor, e.o)
  {
    var leases := w.leases.value;
    var a :| IsAttribution(leases, log.payload.to, time, a) && Some(e) == ScanEvent(log, time, a, w, dustFloor);
    if !a.NoLease? {
      var o := a.lease.orderId;
      assert IsLeaseAt(leases, log.payload.to, time, o) && a.lease == leases[o];
      assert a.Credited? <==> OpenLease(leases, log.payload.to, time, o);
    }
  }

  /** Every event of a scan is what one of its logs comes to. */
  lemma {:induction false} ScanEventsHaveLogs(logs: seq<Log>, w: ScanWorld, dustFloor: int, got: seq<Option<Event>>, k: Key, e: Event)
    requires ComeTo(logs, w, dustFloor, got)
    ensures e in EventsOf(logs[..|got|], got)(k) ==> IsScanEvent(e) && HasLog(logs, w, dustFloor, k, e)
    decreases |got|
  {
    if got != [] {
      var n := |got| - 1;
      ScanEventsHaveLogs(logs, w, dustFloor, got[..n], k, e);
      assert logs[..|got|][..n] == logs[..n] && logs[..|got|][n] == logs[n];
      if got[n].Some? {
        ComesFromLog(logs, w, dustFloor, n, got[n].value);
        ScanEventIs(logs, w, dustFloor, n, got[n].value);
      }
    }
  }

  lemma ScanEventIs(logs: seq<Log>, w: ScanWorld, dustFloor: int, i: nat, e: Event)
    requires i < |logs| && HasLog(logs, w, dustFloor, logs[i].key, e)
    ensures IsScanEvent(e)
  {
  }

  // ---------- scans and the cursor ----------

  /** Broken: the scan failed. Uncommitted: it finished, but the cursor did not move. */
  datatype ScanOutcome = Broken | Uncommitted | Committed

  datatype Scan = Scan(from: nat, to: nat, world: ScanWorld, outcome: ScanOutcome)

  /** The logs the scan was obliged to handle. */
  ghost function AgreedLogs(w: ScanWorld, min: nat): seq<Log> {
    var v := VerdictOf(w.replies, min);
    if w.watched == Some({}) || !v.Agreed? then [] else v.winner
  }

  ghost function Reached(start: nat, scans: seq<Scan>): nat {
    if scans == [] then start
    else if scans[|scans| - 1].outcome.Committed? then scans[|scans| - 1].to
    else Reached(start, scans[..|scans| - 1])
  }

  /** Each scan takes up right after the last one the cursor recorded, and covers one to
      ten blocks. */
  ghost predicate InStep(start: nat, scans: seq<Scan>) {
    forall i :: 0 <= i < |scans| ==>
      scans[i].from == Reached(start, scans[..i]) + 1 && scans[i].from <= scans[i].to < scans[i].from + MaxBlocksPerTick
  }

  lemma InStepAppend(start: nat, scans: seq<Scan>, s: Scan)
    requires InStep(start, scans)
    requires s.from == Reached(start, scans) + 1 && s.from <= s.to < s.from + MaxBlocksPerTick
    ensures InStep(start, scans + [s])
    ensures Reached(start, scans + [s]) == if s.outcome.Committed? then s.to else Reached(start, scans)
  {
    var more := scans + [s];
    assert more[..|scans|] == scans;
    forall i | 0 <= i < |scans|
      ensures more[..i] == scans[..i]
    {
    }
  }

  lemma {:induction false} ReachedGrows(start: nat, scans: seq<Scan>, i: nat, j: nat)
    requires InStep(start, scans) && i <= j <= |scans|
    ensures start <= Reached(start, scans[..i]) <= Reached(start, scans[..j])
    ensures forall n :: i <= n < j && scans[n].outcome.Committed? ==> scans[n].to <= Reached(start, scans[..j])
    ensures (forall n :: i <= n < j ==> !scans[n].outcome.Committed?) ==> Reached(start, scans[..i]) == Reached(start, scans[..j])
    decreases j
  {
    if i < j {
      ReachedGrows(start, scans, i, j - 1);
      ReachedStep(start, scans, j - 1);
    } else if j > 0 {
      ReachedGrows(start, scans, j - 1, j - 1);
      ReachedStep(start, scans, j - 1);
    }
  }

  lemma ReachedStep(start: nat, scans: seq<Scan>, n: nat)
    requires InStep(start, scans) && n < |scans|
    ensures Reached(start, scans[..n + 1]) == if scans[n].outcome.Committed? then scans[n].to else Reached(start, scans[..n])
    ensures Reached(start, scans[..n]) < scans[n].to
  {
    assert scans[..n + 1][..n] == scans[..n];
  }

  /** Whatever fails and whenever the process dies, a later scan either starts over
      where an earlier one started, because the cursor never recorded anything since,
      or lies wholly above every scan it did record. */
  lemma OnlyTheLastRangeRepeats(start: nat, scans: seq<Scan>, i: nat, j: nat)
    requires InStep(start, scans) && i < j < |scans|
    ensures (exists n :: i <= n < j && scans[n].outcome.Committed?) || scans[j].from == scans[i].from
    ensures forall n :: i <= n < j && scans[n].outcome.Committed? ==> scans[j].from > scans[n].to
  {
    ReachedGrows(start, scans, i, j);
  }

  /** Every height above the start and at or below the cursor lies in exactly one
      recorded scan. */
  lemma {:induction false} CoveredOnce(start: nat, scans: seq<Scan>, h: nat) returns (i: nat)
    requires InStep(start, scans) && start < h <= Reached(start, scans)
    ensures i < |scans| && scans[i].outcome.Committed? && scans[i].from <= h <= scans[i].to
    ensures forall j :: 0 <= j < |scans| && scans[j].outcome.Committed? && scans[j].from <= h <= scans[j].to ==> j == i
    decreases |scans|
  {
    var n := |scans| - 1;
    assert scans[..|scans|] == scans;
    if scans[n].outcome.Committed? && h >= scans[n].from {
      i := n;
      forall j | 0 <= j < n && scans[j].outcome.Committed?
        ensures scans[j].to < h
      {
        OnlyTheLastRangeRepeats(start, scans, j, n);
      }
    } else {
      var before := scans[..n];
      assert forall j :: 0 <= j < n ==> before[..j] == scans[..j];
      i := CoveredOnce(start, before, h);
      assert forall j :: 0 <= j < n ==> before[j] == scans[j];
    }
  }

  /** A finished scan read a watch set, which was empty or whose logs the providers
      agreed on, and left none of those logs behind. */
  ghost predicate Finished(s: Contents, w: ScanWorld, min: nat) {
    && w.watched.Some? && (w.watched.value == {} || VerdictOf(w.replies, min).Agreed?)
    && AllHandled(s, AgreedLogs(w, min))
  }

  ghost predicate ScansFinished(s: Contents, scans: seq<Scan>, min: nat) {
    forall i :: 0 <= i < |scans| && !scans[i].outcome.Broken? ==> Finished(s, scans[i].world, min)
  }

  /** At most the tick's own scan was added. */
  ghost predicate Logged(before: seq<Scan>, after: seq<Scan>, w: ScanWorld) {
    after == before || (|after| == |before| + 1 && before <= after && after[|before|].world == w)
  }

  /** The whole-run invariant: `trace` accounts for every deposit's state; the cursor
      has gone from `start`, in step, no further than ingestion; and every finished scan
      has left none of its agreed logs behind. */
  ghost predicate Sane(min: nat, s: Contents, trace: Key -> seq<Event>, cursor: Option<nat>, ingested: nat, start: nat, scans: seq<Scan>) {
    && Evolved(min, Empty, s, trace)
    && (cursor.None? ==> scans == [])
    && (cursor.Some? ==> InStep(start, scans) && cursor.value == Reached(start, scans) <= ingested)
    && ScansFinished(s, scans, min)
  }

  /** Every scan event in the trace is what a log of some recorded scan comes to. */
  ghost predicate Sourced(min: nat, dustFloor: int, trace: Key -> seq<Event>, scans: seq<Scan>) {
    forall k, e :: e in trace(k) && IsScanEvent(e) ==> HasScan(min, dustFloor, scans, k, e)
  }

  ghost predicate HasScan(min: nat, dustFloor: int, scans: seq<Scan>, k: Key, e: Event) {
    exists j :: 0 <= j < |scans| && HasLog(AgreedLogs(scans[j].world, min), scans[j].world, dustFloor, k, e)
  }

  lemma SourcedAfter(min: nat, dustFloor: int, trace: Key -> seq<Event>, es: Key -> seq<Event>, scans: seq<Scan>)
    requires Sourced(min, dustFloor, trace, scans) && forall k, e :: e in es(k) ==> !IsScanEvent(e)
    ensures Sourced(min, dustFloor, Joined(trace, es), scans)
  {
  }

  lemma SourcedAfterScan(min: nat, dustFloor: int, trace: Key -> seq<Event>, scans: seq<Scan>, scan: Scan, got: seq<Option<Event>>)
    requires Sourced(min, dustFloor, trace, scans) && ComeTo(AgreedLogs(scan.world, min), scan.world, dustFloor, got)
    ensures Sourced(min, dustFloor, Joined(trace, EventsOf(AgreedLogs(scan.world, min)[..|got|], got)), scans + [scan])
  {
    var logs := AgreedLogs(scan.world, min);
    var more := scans + [scan];
    assert more[|scans|] == scan;
    forall k, e | e in Joined(trace, EventsOf(logs[..|got|], got))(k) && IsScanEvent(e)
      ensures HasScan(min, dustFloor, more, k, e)
    {
      if e in trace(k) {
        assert HasScan(min, dustFloor, scans, k, e);
        var j :| 0 <= j < |scans| && HasLog(AgreedLogs(scans[j].world, min), scans[j].world, dustFloor, k, e);
        assert more[j] == scans[j];
      } else {
        ScanEventsHaveLogs(logs, scan.world, dustFloor, got, k, e);
      }
    }
  }

  /** Both run invariants, after one more scan. */
  lemma AllAfterScan(min: nat, dustFloor: int, s: Contents, s': Contents, trace: Key -> seq<Event>, got: seq<Option<Event>>,
                     cursor: nat, ingested: nat, start: nat, scans: seq<Scan>, scan: Scan) returns (after: Key -> seq<Event>)
    requires Sane(min, s, trace, Some(cursor), ingested, start, scans) && Sourced(min, dustFloor, trace, scans)
    requires CameTo(min, dustFloor, scan.world, got, s, s')
    requires scan.from == cursor + 1 && scan.to == NextCursor(cursor, ingested) > cursor
    requires scan.outcome.Broken? || Finished(s', scan.world, min)
    ensures Sane(min, s', after, Some(if scan.outcome.Committed? then scan.to else cursor), ingested, start, scans + [scan])
    ensures Sourced(min, dustFloor, after, scans + [scan])
  {
    var es := EventsOf(AgreedLogs(scan.world, min)[..|got|], got);
    after := Joined(trace, es);
    SaneAfterScan(min, s, s', trace, es, cursor, ingested, start, scans, scan);
    SourcedAfterScan(min, dustFloor, trace, scans, scan, got);
  }

  /** A deposit was paid, as recorded, by a log with this key in some recorded scan. */
  ghost predicate Paid(min: nat, scans: seq<Scan>, k: Key, d: Deposit) {
    exists j, i, time :: PaidIn(min, scans, j, i, time, k, d)
  }

  ghost predicate PaidIn(min: nat, scans: seq<Scan>, j: nat, i: nat, time: int, k: Key, d: Deposit) {
    && j < |scans|
    && var w, logs := scans[j].world, AgreedLogs(scans[j].world, min);
       && i < |logs| && logs[i].key == k && TimeOf(logs, w, i, time)
       && w.each(i).leases.Some? && DepositFrom(logs[i], time, w.each(i).leases.value, d)
  }

  /** The payment was recorded as an orphan by a scan, for a reason that held. */
  ghost predicate OrphanedIn(min: nat, dustFloor: int, scans: seq<Scan>, j: nat, i: nat, time: int, k: Key, o: Orphan) {
    && j < |scans|
    && var w, logs := scans[j].world, AgreedLogs(scans[j].world, min);
       && i < |logs| && logs[i].key == k && TimeOf(logs, w, i, time)
       && w.each(i).leases.Some? && OrphanFrom(logs[i], time, w.each(i).leases.value, w.each(i).quoted, dustFloor, o)
  }

  lemma ObservedIsPaid(min: nat, dustFloor: int, trace: Key -> seq<Event>, scans: seq<Scan>, k: Key, e: Event)
    requires Sourced(min, dustFloor, trace, scans) && e in trace(k) && e.Observed?
    ensures Paid(min, scans, k, e.d)
  {
    assert HasScan(min, dustFloor, scans, k, e);
    var j: nat :| j < |scans| && HasLog(AgreedLogs(scans[j].world, min), scans[j].world, dustFloor, k, e);
    var i, time :| FromLog(AgreedLogs(scans[j].world, min), scans[j].world, dustFloor, i, time, k, e);
    assert PaidIn(min, scans, j, i, time, k, e.d);
  }

  /** Nothing is made up. Over every run, with restarts and whatever failures: a stored
      deposit, or one credited at the ledger, was paid in exactly that amount, by that
      sender, at that height and time, by a log with its key that a scan's providers agreed
      on, to the wallet then leased to its order; and an orphan record has the amount of
      such a log, and either a reason that held or the order of a deposit so paid. */
  lemma NothingMadeUp(min: nat, dustFloor: int, s: Contents, trace: Key -> seq<Event>, scans: seq<Scan>, k: Key)
    requires Evolved(min, Empty, s, trace) && Sourced(min, dustFloor, trace, scans)
    ensures k in s.rows ==> Paid(min, scans, k, s.rows[k].deposit)
    ensures k in s.entries ==> Paid(min, scans, k, s.entries[k])
    ensures k in s.orphans ==>
              || (exists j, i, time :: OrphanedIn(min, dustFloor, scans, j, i, time, k, s.orphans[k]))
              || (exists d :: Paid(min, scans, k, d) && d.amount == s.orphans[k].amount && d.orderId == s.orphans[k].orderId && d.externalId == s.orphans[k].externalId)
    ensures k in s.rows && s.rows[k].status == Orphaned ==> k in s.orphans
  {
    var c, es := CellOf(s, k), trace(k);
    RunAccounts(min, [], Unseen, es);
    assert [] + es == es;
    assert c == Run(min, Unseen, es);
    assert (k in s.rows <==> c.row.Some?) && (k in s.entries <==> c.credit.Some?) && (k in s.orphans <==> c.orphan.Some?);
    if k in s.rows {
      var seen :| seen in es && seen.Observed? && seen.d == s.rows[k].deposit;
      ObservedIsPaid(min, dustFloor, trace, scans, k, seen);
    }
    if k in s.entries {
      var seen :| seen in es && seen.Observed? && seen.d == s.entries[k];
      ObservedIsPaid(min, dustFloor, trace, scans, k, seen);
    }
    if k in s.orphans {
      OrphansHaveSource(min, dustFloor, trace, scans, k, s.orphans[k]);
    }
  }

  lemma OrphansHaveSource(min: nat, dustFloor: int, trace: Key -> seq<Event>, scans: seq<Scan>, k: Key, o: Orphan)
    requires Sourced(min, dustFloor, trace, scans) && OrphanHasSource(trace(k), o)
    ensures || (exists j, i, time :: OrphanedIn(min, dustFloor, scans, j, i, time, k, o))
            || (exists d :: Paid(min, scans, k, d) && d.amount == o.amount && d.orderId == o.orderId && d.externalId == o.externalId)
  {
    var e := OrphanedAtScan(o, true);
    if e in trace(k) {
      assert HasScan(min, dustFloor, scans, k, e);
      var j: nat :| j < |scans| && HasLog(AgreedLogs(scans[j].world, min), scans[j].world, dustFloor, k, e);
      var i, time :| FromLog(AgreedLogs(scans[j].world, min), scans[j].world, dustFloor, i, time, k, e);
      assert OrphanedIn(min, dustFloor, scans, j, i, time, k, o);
    } else {
      var seen :| seen in trace(k) && seen.Observed? && seen.d.orderId == o.orderId && seen.d.externalId == o.externalId && seen.d.amount == o.amount;
      ObservedIsPaid(min, dustFloor, trace, scans, k, seen);
    }
  }

  lemma SaneIsSound(min: nat, s: Contents, trace: Key -> seq<Event>)
    requires Evolved(min, Empty, s, trace)
    ensures AllSound(s)
  {
    forall k
      ensures Sound(CellOf(s, k))
    {
      RunKeeps(min, Unseen, trace(k));
    }
  }

  lemma SaneAfter(min: nat, s: Contents, s': Contents, trace: Key -> seq<Event>, es: Key -> seq<Event>,
                  cursor: Option<nat>, ingested: nat, start: nat, scans: seq<Scan>)
    requires Sane(min, s, trace, cursor, ingested, start, scans) && Evolved(min, s, s', es)
    ensures Sane(min, s', Joined(trace, es), cursor, ingested, start, scans)
  {
    SaneIsSound(min, s, trace);
    Then(min, Empty, s, s', trace, es);
    forall i | 0 <= i < |scans| && !scans[i].outcome.Broken?
      ensures Finished(s', scans[i].world, min)
    {
      HandledRemain(min, s, s', es, AgreedLogs(scans[i].world, min));
    }
  }

  lemma SaneAfterScan(min: nat, s: Contents, s': Contents, trace: Key -> seq<Event>, es: Key -> seq<Event>,
                      cursor: nat, ingested: nat, start: nat, scans: seq<Scan>, scan: Scan)
    requires Sane(min, s, trace, Some(cursor), ingested, start, scans) && Evolved(min, s, s', es)
    requires scan.from == cursor + 1 && scan.to == NextCursor(cursor, ingested) > cursor
    requires scan.outcome.Broken? || Finished(s', scan.world, min)
    ensures Sane(min, s', Joined(trace, es), Some(if scan.outcome.Committed? then scan.to else cursor), ingested, start, scans + [scan])
  {
    SaneAfter(min, s, s', trace, es, Some(cursor), ingested, start, scans);
    InStepAppend(start, scans, scan);
  }

  /** No deposit is lost. With fewer than `min` lying providers, every log paying a
      wallet watched at the time, in a block above the start and at or below the cursor,
      is a stored deposit or an orphan record, or was worth nothing or not a transfer;
      `truth` gives the logs a chain range held, for a watch set, when its committed scan
      asked; a scan that had to be repeated may have seen others. */
  lemma NoDepositLost(min: nat, s: Contents, trace: Key -> seq<Event>, cursor: nat, ingested: nat, start: nat, scans: seq<Scan>,
                      h: nat, faulty: set<string>, truth: (nat, nat, set<string>) -> seq<Log>) returns (i: nat)
    requires Sane(min, s, trace, Some(cursor), ingested, start, scans) && start < h <= cursor && |faulty| < min
    requires forall j, r :: 0 <= j < |scans| && scans[j].outcome.Committed? && scans[j].world.watched.Some? && r in scans[j].world.replies
                            && r.name !in faulty && r.reply.Answer?
               ==> r.reply.key == truth(scans[j].from, scans[j].to, scans[j].world.watched.value)
    ensures i < |scans| && scans[i].outcome.Committed? && scans[i].from <= h <= scans[i].to && scans[i].world.watched.Some?
    ensures forall j :: 0 <= j < |scans| && scans[j].outcome.Committed? && scans[j].from <= h <= scans[j].to ==> j == i
    ensures scans[i].world.watched.value == {} || AllHandled(s, truth(scans[i].from, scans[i].to, scans[i].world.watched.value))
  {
    i := CoveredOnce(start, scans, h);
    assert Finished(s, scans[i].world, min);
    var w := scans[i].world;
    if w.watched.value != {} {
      var r := HonestBacker(w.replies, min, VerdictOf(w.replies, min).winner, faulty);
    }
  }

  /** The deposits table and the ledger agree about a log that was always decoded and
      attributed the same way. */
  lemma TablesMatchLedger(min: nat, s: Contents, trace: Key -> seq<Event>, k: Key, d: Deposit)
    requires Evolved(min, Empty, s, trace) && Stable(trace(k), d)
    ensures k in s.rows && s.rows[k].status == Reported ==> k in s.entries && s.entries[k] == s.rows[k].deposit == d
    ensures k in s.rows && s.rows[k].status == Orphaned ==> (k in s.entries <==> ClosedAfterBooking(min, Unseen, trace(k), false))
    ensures k in s.entries ==> k in s.rows && s.entries[k] == d
  {
    RecordMatchesLedger(min, trace(k), d);
    MatchesRun(min, Unseen, trace(k), d);
    var c := CellOf(s, k);
    assert c == Run(min, Unseen, trace(k));
    assert (k in s.rows <==> c.row.Some?) && (k in s.entries <==> c.credit.Some?);
  }

  /** Where one successful tick leaves the cursor. */
  function NextCursor(cursor: nat, ingested: nat): nat {
    if ingested <= cursor then cursor
    else if ingested - cursor > MaxBlocksPerTick then cursor + MaxBlocksPerTick
    else ingested
  }

  /** How a tick may move the cursor: a successful one to where it should be, a failed
      one there or nowhere. */
  ghost predicate TickMoves(before: Option<nat>, after: Option<nat>, ingested: nat, ok: bool) {
    var next := if before.None? then ingested else NextCursor(before.value, ingested);
    after == Some(next) || (!ok && after == before)
  }

  function CursorAfter(cursor: nat, ingested: nat, ticks: nat): nat {
    if ticks == 0 then cursor else NextCursor(CursorAfter(cursor, ingested, ticks - 1), ingested)
  }

  /** A fixed backlog is cleared by exactly a tenth as many successful ticks, rounded
      up: that many are enough, and fewer are not. */
  lemma {:induction false} BacklogClears(cursor: nat, ingested: nat, ticks: nat)
    requires cursor <= ingested
    ensures CursorAfter(cursor, ingested, ticks) <= ingested
    ensures CursorAfter(cursor, ingested, ticks) == ingested <==> ticks >= (ingested - cursor + 9) / 10
    ensures CursorAfter(cursor, ingested, ticks) < ingested ==> CursorAfter(cursor, ingested, ticks) == cursor + 10 * ticks
  {
    if ticks > 0 {
      BacklogClears(cursor, ingested, ticks - 1);
    }
  }

  // ---------- the engine ----------

  class Watcher {
    const store: DepositTable
    const orphans: OrphanTable
    const ledger: Ledger
    const minAgreement: nat
    const dustFloor: int
    const asyncFinality: bool
    var tracker: Tracker
    var ingested: nat
    var cursor: Option<nat>
    ghost var start: nat
    ghost var scans: seq<Scan>
    /** Everything that has happened to each deposit since the system was set up. */
    ghost var trace: Key -> seq<Event>

    ghost predicate Wired()
      reads this`tracker, tracker, tracker.monitor, tracker.made
    {
      && tracker.Valid() && tracker.monitor.Valid()
      && tracker.store == store && tracker.orphans == orphans && tracker.ledger == ledger
      && tracker.minAgreement == minAgreement
    }

    ghost function State(): Contents
      reads this`tracker, tracker, store, orphans, ledger
      requires tracker.store == store && tracker.orphans == orphans && tracker.ledger == ledger
    {
      tracker.State()
    }

    ghost predicate Valid()
      reads this, tracker, tracker.monitor, tracker.made, store, orphans, ledger
    {
      && Wired() && Sane(minAgreement, State(), trace, cursor, ingested, start, scans)
      && Sourced(minAgreement, dustFloor, trace, scans)
    }

    constructor (minAgreement: nat, dustFloor: int, asyncFinality: bool)
      requires minAgreement >= 1
      ensures Valid() && this.minAgreement == minAgreement && this.dustFloor == dustFloor && this.asyncFinality == asyncFinality
      ensures cursor.None? && ingested == 0 && forall k :: trace(k) == []
    {
      this.minAgreement, this.dustFloor, this.asyncFinality := minAgreement, dustFloor, asyncFinality;
      var deposits := new DepositTable();
      var orphaned := new OrphanTable();
      var book := new Ledger();
      store, orphans, ledger := deposits, orphaned, book;
      tracker := new Tracker(deposits, orphaned, book, minAgreement);
      ingested, cursor, start, scans := 0, None, 0, [];
      trace := Nothing();
    }

    /** `blockTimeFor`: one look at each block's header, within one scan. */
    method BlockTimeFor(height: nat, header: Option<int>, times: map<nat, int>) returns (time: Option<int>, times': map<nat, int>)
      ensures time == if height in times then Some(times[height]) else header
      ensures times' == if height !in times && header.Some? then times[height := header.value] else times
    {
      if height in times {
        return Some(times[height]), times;
      }
      if header.None? {
        return None, times;
      }
      return header, times[height := header.value];
    }

    /** `recordOrphan`. */
    method RecordOrphan(k: Key, o: Orphan, save: SaveReply) returns (ok: bool)
      requires Wired()
      modifies orphans
      ensures Wired() && OnlyTouches(old(State()), State(), k)
      ensures CellOf(State(), k) == Step(minAgreement, CellOf(old(State()), k), OrphanedAtScan(o, !save.SaveFailed?))
      ensures ok ==> k in orphans.rows
      ensures ok <==> save.Saved?
    {
      orphans.Record(k, o, !save.SaveFailed?);
      return save.Saved?;
    }

    /** `OnLogObserved`, as one step of the deposit's cell. */
    method ObserveDeposit(k: Key, d: Deposit, cls: Classification, save: SaveReply) returns (ok: bool)
      requires Wired() && Sound(CellOf(State(), k))
      modifies tracker`pending, store
      ensures Wired() && OnlyTouches(old(State()), State(), k)
      ensures CellOf(State(), k) == Step(minAgreement, CellOf(old(State()), k), Observed(d, cls, save))
      ensures ok ==> cls.ZeroValue? || k in store.rows
      ensures save.Saved? ==> ok
    {
      ObservingCell(State(), k, d, cls, save);
      ghost var before := State();
      ok := tracker.OnLogObserved(k, d, cls, save);
      assert CellOf(before, k).row.Some? <==> k in before.rows;
    }

    /** `processLog`, from the attribution on. */
    method ProcessAttributed(log: Log, time: int, a: Attribution, w: LogWorld) returns (ok: bool)
      requires Wired() && log.payload.Transfer? && Sound(CellOf(State(), log.key))
      modifies tracker`pending, store, orphans
      ensures Wired() && tracker.made == old(tracker.made)
      ensures OnlyTouches(old(State()), State(), log.key)
      ensures CellOf(State(), log.key) == Happen(minAgreement, CellOf(old(State()), log.key), ScanEvent(log, time, a, w, dustFloor))
      ensures ok ==> Handled(State(), log)
      ensures !ok ==> CanFail(log, w)
    {
      var Transfer(to, sender, amount) := log.payload;
      match a {
        case NoLease => ok := RecordOrphan(log.key, Orphan(0, "", amount, "no_lease"), w.orphanSave);
        case Late(l) => ok := RecordOrphan(log.key, Orphan(l.orderId, l.externalId, amount, "address_retired"), w.orphanSave);
        case Credited(l) =>
          if w.quoted.None? {
            return false;
          }
          var cls := Classify(amount, w.quoted.value, dustFloor);
          if cls.Dust? {
            ok := RecordOrphan(log.key, Orphan(l.orderId, l.externalId, amount, "dust"), w.orphanSave);
          } else {
            var d := Deposit(log.height, time, l.orderId, l.externalId, l.customerId, amount, sender, l.address);
            ok := ObserveDeposit(log.key, d, cls, w.save);
          }
      }
    }

    /** `processLog`, once the transfer's block time is known: it is attributed to the
        lease then open on its wallet, if any. */
    method ProcessTransfer(log: Log, time: int, w: LogWorld) returns (ok: bool, ghost e: Option<Event>)
      requires Wired() && log.payload.Transfer? && LeasesKeyed(w) && Sound(CellOf(State(), log.key))
      modifies tracker`pending, store, orphans
      ensures Wired() && tracker.made == old(tracker.made)
      ensures OnlyTouches(old(State()), State(), log.key)
      ensures CellOf(State(), log.key) == Happen(minAgreement, CellOf(old(State()), log.key), e)
      ensures TransferComesTo(log, time, w, dustFloor, e)
      ensures ok ==> Handled(State(), log)
      ensures !ok ==> CanFail(log, w)
    {
      if w.leases.None? {
        return false, None;
      }
      var a := Attribute(w.leases.value, log.payload.to, time);
      e := ScanEvent(log, time, a, w, dustFloor);
      ok := ProcessAttributed(log, time, a, w);
    }

    /** `processLog`. */
    method ProcessLog(log: Log, w: LogWorld, times: map<nat, int>) returns (ok: bool, times': map<nat, int>, ghost e: Option<Event>)
      requires Wired() && LeasesKeyed(w) && Sound(CellOf(State(), log.key))
      modifies tracker`pending, store, orphans
      ensures Wired() && tracker.made == old(tracker.made)
      ensures OnlyTouches(old(State()), State(), log.key)
      ensures CellOf(State(), log.key) == Happen(minAgreement, CellOf(old(State()), log.key), e)
      ensures ComesTo(log, w, times, dustFloor, e) && times' == TimesWith(times, log, w)
      ensures ok ==> Handled(State(), log)
      ensures !ok ==> CanFail(log, w)
    {
      times', e := times, None;
      if log.payload.WrongShape? {
        return true, times, e;
      }
      if log.payload.AmountOverflow? {
        return false, times, e;
      }
      var time: Option<int>;
      time, times' := BlockTimeFor(log.height, w.header, times);
      if time.None? {
        return false, times', e;
      }
      ok, e := ProcessTransfer(log, time.value, w);
    }

    /** `ScanRange`: the logs the providers agree on come, in order and up to the first
        that fails, to the events they imply; on success all have been handled. */
    method ScanRange(from: nat, to: nat, w: ScanWorld) returns (ok: bool, ghost got: seq<Option<Event>>)
      requires Wired() && AllSound(State()) && DistinctNames(w.replies) && forall i :: LeasesKeyed(w.each(i))
      modifies tracker`pending, store, orphans
      ensures Wired() && tracker.made == old(tracker.made)
      ensures ComeTo(AgreedLogs(w, minAgreement), w, dustFloor, got)
      ensures Evolved(minAgreement, old(State()), State(), EventsOf(AgreedLogs(w, minAgreement)[..|got|], got))
      ensures ok && from <= to ==> |got| == |AgreedLogs(w, minAgreement)| && Finished(State(), w, minAgreement)
      ensures !ok ==> ScanFails(w, minAgreement, got)
    {
      if from > to {
        return true, [];
      }
      if w.watched.None? {
        return false, [];
      }
      if w.watched.value == {} {
        return true, [];
      }
      var agreed, _, _ := ResolveAgreement(w.replies, minAgreement);
      if !agreed.Agreed? {
        return false, [];
      }
      ok, got := ScanLogs(agreed.winner, w);
    }

    /** The loop of `ScanRange`. */
    method ScanLogs(logs: seq<Log>, w: ScanWorld) returns (ok: bool, ghost got: seq<Option<Event>>)
      requires Wired() && AllSound(State()) && forall i :: LeasesKeyed(w.each(i))
      modifies tracker`pending, store, orphans
      ensures Wired() && tracker.made == old(tracker.made)
      ensures ComeTo(logs, w, dustFloor, got)
      ensures Evolved(minAgreement, old(State()), State(), EventsOf(logs[..|got|], got))
      ensures ok ==> |got| == |logs| && AllHandled(State(), logs)
      ensures !ok ==> 0 < |got| <= |logs| && CanFail(logs[|got| - 1], w.each(|got| - 1))
    {
      got := [];
      var times: map<nat, int> := map[];
      ghost var s0, s := State(), State();
      for i := 0 to |logs|
        invariant Wired() && tracker.made == old(tracker.made)
        invariant State() == s && |got| == i && Scanned(minAgreement, s0, s, logs, w, dustFloor, times, got)
        invariant AllHandled(s, logs[..i])
      {
        ghost var known := times;
        ghost var e: Option<Event>;
        ok, times, e := ProcessLog(logs[i], w.each(i), times);
        OneMoreLog(minAgreement, s0, s, State(), logs, w, dustFloor, known, got, e);
        s, got := State(), got + [e];
        if !ok {
          return false, got;
        }
      }
      assert logs[..|logs|] == logs;
      return true, got;
    }

    /** A fresh cursor starts at the ingested height. */
    method StartCursor(created: SaveReply) returns (ok: bool)
      requires Valid() && cursor.None?
      modifies this`cursor, this`start
      ensures Valid()
      ensures cursor == if created.SaveFailed? then None else Some(ingested)
      ensures cursor.Some? ==> start == ingested
      ensures ok <==> created.Saved?
    {
      if !created.SaveFailed? {
        cursor, start := Some(ingested), ingested;
      }
      return created.Saved?;
    }

    /** The cursor moves past a finished scan; `before` is the state the scan began in. */
    method CommitScan(to: nat, scanned: bool, saved: SaveReply, ghost w: ScanWorld, ghost before: Contents, ghost got: seq<Option<Event>>)
      requires Wired() && cursor.Some? && to == NextCursor(cursor.value, ingested) > cursor.value
      requires Sane(minAgreement, before, trace, cursor, ingested, start, scans) && CameTo(minAgreement, dustFloor, w, got, before, State())
      requires Sourced(minAgreement, dustFloor, trace, scans)
      requires scanned ==> Finished(State(), w, minAgreement)
      modifies this`cursor, this`scans, this`trace
      ensures Valid()
      ensures cursor == if scanned && !saved.SaveFailed? then Some(to) else old(cursor)
      ensures Logged(old(scans), scans, w) && scans != old(scans)
    {
      ghost var outcome := if !scanned then Broken else if saved.SaveFailed? then Uncommitted else Committed;
      ghost var scan := Scan(cursor.value + 1, to, w, outcome);
      ghost var after := AllAfterScan(minAgreement, dustFloor, before, State(), trace, got, cursor.value, ingested, start, scans, scan);
      trace, scans := after, scans + [scan];
      if scanned && !saved.SaveFailed? {
        cursor := Some(to);
      }
    }

    /** One bounded scan, and the cursor past it. */
    method ScanNext(w: ScanWorld, cursorSaved: SaveReply) returns (ok: bool, ghost got: seq<Option<Event>>)
      requires Valid() && cursor.Some? && cursor.value < ingested
      requires DistinctNames(w.replies) && forall i :: LeasesKeyed(w.each(i))
      modifies this`cursor, this`scans, this`trace, tracker`pending, store, orphans
      ensures Valid() && tracker.made == old(tracker.made)
      ensures CameTo(minAgreement, dustFloor, w, got, old(State()), State())
      ensures TickMoves(old(cursor), cursor, ingested, ok)
      ensures Logged(old(scans), scans, w) && scans != old(scans)
      ensures !ok ==> ScanFails(w, minAgreement, got) || !cursorSaved.Saved?
    {
      var last := cursor.value;
      var to := ingested;
      if to - last > MaxBlocksPerTick {
        to := last + MaxBlocksPerTick;
      }
      ghost var before := State();
      SaneIsSound(minAgreement, before, trace);
      ok, got := ScanRange(last + 1, to, w);
      CommitScan(to, ok, cursorSaved, w, before, got);
      ok := ok && cursorSaved.Saved?;
    }

    method CheckAsync(w: AsyncWorld)
      requires Wired() && ProvidersDistinct(w.recheckAt)
      requires forall i, j :: 0 <= i < j < |w.providers| ==> w.providers[i] != w.providers[j]
      modifies tracker, tracker.made, tracker.monitor, store, orphans, ledger
      ensures Wired() && (forall c :: c in tracker.made ==> c in old(tracker.made) || fresh(c))
      ensures Evolved(minAgreement, old(State()), State(), AsyncTrace(w, minAgreement, old(tracker.monitor.max), old(State())))
    {
      ghost var before, highWater := State(), tracker.monitor.max;
      tracker.CheckFinalityAsync(w);
      AsyncEvolves(w, minAgreement, highWater, before, State());
    }

    method CheckSync(w: SyncWorld) returns (ok: bool)
      requires Wired() && DistinctNames(w.finality) && ProvidersDistinct(w.logsAt) && ProvidersDistinct(w.recheckAt)
      modifies tracker, store, orphans, ledger
      ensures Wired() && (forall c :: c in tracker.made ==> c in old(tracker.made) || fresh(c))
      ensures Evolved(minAgreement, old(State()), State(), SyncTrace(w, minAgreement, old(State())))
      ensures ok <==> VerdictOf(w.finality, minAgreement).Agreed?
    {
      ghost var before := State();
      ok := tracker.CheckFinality(w);
      SyncEvolves(w, minAgreement, before, State());
    }

    /** The finality check in whichever mode is configured. */
    method CheckFinality(w: TickWorld) returns (ok: bool)
      requires Valid() && WellFormed(w)
      modifies this`trace, tracker, tracker.made, tracker.monitor, store, orphans, ledger
      ensures Valid() && (forall c :: c in tracker.made ==> c in old(tracker.made) || fresh(c))
      ensures Evolved(minAgreement, old(State()), State(), FinalityTrace(w, asyncFinality, minAgreement, old(tracker.monitor.max), old(State())))
      ensures ok <==> asyncFinality || VerdictOf(w.sync.finality, minAgreement).Agreed?
    {
      ghost var before, highWater := State(), tracker.monitor.max;
      if asyncFinality {
        CheckAsync(w.async);
        ok := true;
      } else {
        ok := CheckSync(w.sync);
      }
      ghost var es := FinalityTrace(w, asyncFinality, minAgreement, highWater, before);
      SaneAfter(minAgreement, before, State(), trace, es, cursor, ingested, start, scans);
      SourcedAfter(minAgreement, dustFloor, trace, es, scans);
      trace := Joined(trace, es);
    }

    /** The first half of `runTick`: the cursor, created if need be, and the next scan. */
    method Advance(w: TickWorld) returns (ok: bool, ghost got: seq<Option<Event>>)
      requires Valid() && DistinctNames(w.scan.replies) && forall i :: LeasesKeyed(w.scan.each(i))
      modifies this`cursor, this`start, this`scans, this`trace, tracker`pending, store, orphans
      ensures Valid() && tracker.made == old(tracker.made)
      ensures CameTo(minAgreement, dustFloor, w.scan, got, old(State()), State())
      ensures TickMoves(old(cursor), cursor, ingested, ok) && (old(cursor).Some? ==> start == old(start))
      ensures Logged(old(scans), scans, w.scan)
      ensures !ok ==> AdvanceFails(w, minAgreement, old(cursor), ingested, got)
    {
      ok, got := true, [];
      if cursor.None? {
        ok := StartCursor(w.cursorCreated);
      } else if ingested > cursor.value {
        ok, got := ScanNext(w.scan, w.cursorSaved);
      }
    }

    /** `runTick`: at most one scan, which takes the state to `scanned`; then, unless
        that failed, one finality check. */
    method RunTick(w: TickWorld) returns (ok: bool, ghost got: seq<Option<Event>>, ghost scanned: Contents)
      requires Valid() && WellFormed(w)
      modifies this`cursor, this`start, this`scans, this`trace, tracker, tracker.made, tracker.monitor, store, orphans, ledger
      ensures Valid() && (forall c :: c in tracker.made ==> c in old(tracker.made) || fresh(c))
      ensures TickMoves(old(cursor), cursor, ingested, ok) && (old(cursor).Some? ==> start == old(start))
      ensures Logged(old(scans), scans, w.scan)
      ensures CameTo(minAgreement, dustFloor, w.scan, got, old(State()), scanned)
      ensures (!ok && State() == scanned)
              || Evolved(minAgreement, scanned, State(), FinalityTrace(w, asyncFinality, minAgreement, old(tracker.monitor.max), scanned))
      ensures !ok ==> TickFails(w, minAgreement, asyncFinality, old(cursor), ingested, got)
    {
      scanned, got := State(), [];
      if !w.cursorsRead {
        return false, got, scanned;
      }
      ok, got := Advance(w);
      scanned := State();
      if ok {
        ok := CheckFinality(w);
      }
    }

    /** Ingestion vets further blocks. */
    method Ingest(height: nat)
      requires Valid() && height >= ingested
      modifies this`ingested
      ensures Valid() && ingested == height
    {
      ingested := height;
    }

    /** The process dies, and a new one restores what the deposits table says is still
        awaiting a report. Only the tables, the ledger and the cursor survive. */
    method CrashAndRestart()
      requires Valid()
      modifies this`tracker, this`trace
      ensures Valid() && fresh(tracker) && fresh(tracker.monitor) && fresh(tracker.made)
      ensures Evolved(minAgreement, old(State()), State(), Booting()) && trace == Joined(old(trace), Booting())
      ensures tracker.finalized == map[]
      ensures forall k :: k in tracker.pending <==> k in store.rows && store.rows[k].status == Detected
      ensures forall k :: k in tracker.pending ==> tracker.pending[k] == Tracked(store.rows[k].deposit, store.rows[k].cls, false)
    {
      ghost var before := State();
      tracker := new Tracker(store, orphans, ledger, minAgreement);
      ghost var blank := State();
      tracker.Restore();
      BootEvolves(minAgreement, before, blank, State());
      SaneAfter(minAgreement, before, State(), trace, Booting(), cursor, ingested, start, scans);
      SourcedAfter(minAgreement, dustFloor, trace, Booting(), scans);
      trace := Joined(trace, Booting());
      forall k
        ensures k in tracker.pending <==> k in store.rows && store.rows[k].status == Detected
        ensures k in tracker.pending ==> tracker.pending[k] == Tracked(store.rows[k].deposit, store.rows[k].cls, false)
      {
        assert CellOf(State(), k) == Step(minAgreement, CellOf(before, k), Boot);
      }
    }
  }
}
