/** Broadcasting one payout at most once: any number of concurrent `Broadcast` callers,
    freezes and confirmations over the dispatch_attempts rows, one SQL statement, one
    signer request or one chain call a step
    (dispatcher/internal/dispatch/broadcast.go, attempts.go, freeze.go). */
module Attempts {
  import opened Wrappers

  // ---------- data ----------

  /** SHA-256, taken as injective: a digest is its preimage, marked as hashed. */
  datatype Digest = Sha256(preimage: string)

  datatype Status = Built | Signed | Broadcast | Confirmed | Failed

  /** A dispatch_attempts row. `hash` is unsigned_tx_hash, `signed` the stored signature. */
  datatype Row = Row(orderId: int, slotId: int, number: int, hash: Digest,
                     signed: Option<string>, txid: Option<string>, status: Status)

  datatype Call = Call(orderId: int, slotId: int, number: int, tx: string)

  datatype Answer = Done(row: Row) | SignaturePending | SignatureRejected | Error

  /** Where a caller of `Broadcast` stands. Submitting and Committing are inside the
      transaction that holds the row's lock. */
  datatype PC =
    | Creating
    | Refetching
    | Reading(id: nat)
    | Requesting(id: nat)
    | Rejecting(id: nat)
    | Storing(id: nat, sig: string)
    | Rereading(id: nat)
    | Locking(id: nat)
    | Submitting(id: nat, sig: string)
    | Committing(id: nat, txid: string)
    | Finished(answer: Answer)

  datatype Caller = Caller(call: Call, pc: PC)

  datatype Submission = Submission(id: nat, tx: string, sig: string, accepted: bool)

  /** `sent` is every transaction handed to the chain, `rollbacks` every transaction
      undone after the chain had accepted its submission. */
  datatype System = System(rows: map<nat, Row>, nextId: nat, locks: map<nat, nat>, callers: map<nat, Caller>,
                           sent: seq<Submission>, rollbacks: multiset<nat>)

  datatype SignerReply = SignerError | Pending | Rejected | Approved(sig: string)

  /** A commit can fail, or succeed without the caller hearing of it. */
  datatype CommitReply = Committed | Undone | Unheard

  /** What the outside world answers to one step; each step looks at its own part. */
  datatype Env = Env(dbFails: bool, signer: SignerReply, decodes: bool, chain: Option<string>, commit: CommitReply)

  datatype Event =
    | Start(c: nat, call: Call)
    | Act(c: nat, env: Env)
    | Die(c: nat)
    | Fail(id: nat)
    | Confirm(id: nat)

  predicate Terminal(s: Status) {
    s.Broadcast? || s.Confirmed? || s.Failed?
  }

  // ---------- steps ----------

  ghost function RowOf(rows: map<nat, Row>, h: Digest): Option<nat> {
    if exists id :: id in rows && rows[id].hash == h then var id :| id in rows && rows[id].hash == h; Some(id) else None
  }

  ghost predicate NumberTaken(rows: map<nat, Row>, call: Call) {
    exists id :: id in rows && rows[id].orderId == call.orderId && rows[id].number == call.number
  }

  function NewRow(call: Call): Row {
    Row(call.orderId, call.slotId, call.number, Sha256(call.tx), None, None, Built)
  }

  function At(s: System, c: nat, pc: PC): System
    requires c in s.callers
  {
    s.(callers := s.callers[c := s.callers[c].(pc := pc)])
  }

  /** The caller leaves its transaction: the lock is released. */
  function Leave(s: System, c: nat, id: nat, answer: Answer): System
    requires c in s.callers
  {
    At(s.(locks := s.locks - {id}), c, Finished(answer))
  }

  /** A row just read: one to act on no further, one ready to broadcast, or one that
      needs a signature. */
  function AfterReading(row: Row, id: nat): PC {
    if Terminal(row.status) then Finished(Done(row)) else if row.status.Signed? then Locking(id) else Requesting(id)
  }

  function Signing(id: nat, reply: SignerReply): PC {
    match reply
    case SignerError => Finished(Error)
    case Pending => Finished(SignaturePending)
    case Rejected => Rejecting(id)
    case Approved(sig) => Storing(id, sig)
  }

  function MarkedFailed(s: System, id: nat): System {
    if id in s.rows && (s.rows[id].status.Built? || s.rows[id].status.Signed?)
    then s.(rows := s.rows[id := s.rows[id].(status := Failed)]) else s
  }

  /** An UPDATE that matches a locked row waits for the lock. */
  predicate Waits(s: System, id: nat) {
    id in s.locks && id in s.rows && (s.rows[id].status.Built? || s.rows[id].status.Signed?)
  }

  function IdOf(pc: PC): Option<nat> {
    if pc.Creating? || pc.Refetching? || pc.Finished? then None else Some(pc.id)
  }

  ghost function ActOf(s: System, c: nat, env: Env): System
    requires c in s.callers
  {
    var Caller(call, pc) := s.callers[c];
    if IdOf(pc).Some? && IdOf(pc).value !in s.rows then At(s, c, Finished(Error))
    else if env.dbFails && !pc.Requesting? && !pc.Submitting? && !pc.Committing? && !pc.Finished? then At(s, c, Finished(Error))
    else
      match pc
      case Creating =>
        if RowOf(s.rows, Sha256(call.tx)).Some? then At(s, c, Refetching)
        else if NumberTaken(s.rows, call) then At(s, c, Finished(Error))
        else At(s.(rows := s.rows[s.nextId := NewRow(call)], nextId := s.nextId + 1), c, Reading(s.nextId))
      case Refetching =>
        var found := RowOf(s.rows, Sha256(call.tx));
        if found.None? then At(s, c, Finished(Error))
        else if Terminal(s.rows[found.value].status) then At(s, c, Finished(Done(s.rows[found.value])))
        else At(s, c, Reading(found.value))
      case Reading(id) => At(s, c, AfterReading(s.rows[id], id))
      case Requesting(id) => At(s, c, Signing(id, env.signer))
      case Rejecting(id) =>
        if Waits(s, id) then s else At(MarkedFailed(s, id), c, Finished(SignatureRejected))
      case Storing(id, sig) =>
        if !s.rows[id].status.Built? then At(s, c, Rereading(id))
        else if Waits(s, id) then s
        else At(s.(rows := s.rows[id := s.rows[id].(status := Signed, signed := Some(sig))]), c, Locking(id))
      case Rereading(id) =>
        At(s, c, if Terminal(s.rows[id].status) then Finished(Done(s.rows[id])) else Locking(id))
      case Locking(id) =>
        if id in s.locks then s
        else if Terminal(s.rows[id].status) then At(s, c, Finished(Done(s.rows[id])))
        else if !s.rows[id].status.Signed? || s.rows[id].signed.None? then At(s, c, Finished(Error))
        else At(s.(locks := s.locks[id := c]), c, Submitting(id, s.rows[id].signed.value))
      case Submitting(id, sig) =>
        if !env.decodes then Leave(s, c, id, Error)
        else
          var sent := s.(sent := s.sent + [Submission(id, call.tx, sig, env.chain.Some?)]);
          if env.chain.None? then Leave(sent, c, id, Error) else At(sent, c, Committing(id, env.chain.value))
      case Committing(id, txid) =>
        if env.commit.Undone? then Leave(Undoing(s, id), c, id, Error)
        else Leave(Recording(s, id, txid), c, id, if env.commit.Committed? then Done(Recording(s, id, txid).rows[id]) else Error)
      case Finished(_) => s
  }

  function Recording(s: System, id: nat, txid: string): System
    requires id in s.rows
  {
    s.(rows := s.rows[id := s.rows[id].(status := Broadcast, txid := Some(txid))])
  }

  function Undoing(s: System, id: nat): System {
    s.(rollbacks := s.rollbacks + multiset{id})
  }

  /** A caller that dies takes its open transaction with it. */
  function DieOf(s: System, c: nat): System
    requires c in s.callers
  {
    var pc := s.callers[c].pc;
    var gone := s.(callers := s.callers - {c});
    if pc.Submitting? then gone.(locks := s.locks - {pc.id})
    else if pc.Committing? then Undoing(gone.(locks := s.locks - {pc.id}), pc.id)
    else gone
  }

  function ConfirmedRow(s: System, id: nat): System {
    if id in s.rows && s.rows[id].status.Broadcast? then s.(rows := s.rows[id := s.rows[id].(status := Confirmed)]) else s
  }

  ghost function Step(s: System, e: Event): System {
    match e
    case Start(c, call) => if c in s.callers then s else s.(callers := s.callers[c := Caller(call, Creating)])
    case Act(c, env) => if c in s.callers then ActOf(s, c, env) else s
    case Die(c) => if c in s.callers then DieOf(s, c) else s
    case Fail(id) => if Waits(s, id) then s else MarkedFailed(s, id)
    case Confirm(id) => ConfirmedRow(s, id)
  }

  ghost function Run(s: System, es: seq<Event>): System
    decreases |es|
  {
    if es == [] then s else Run(Step(s, es[0]), es[1..])
  }

  const Empty := System(map[], 0, map[], map[], [], multiset{})

  // ---------- invariants ----------

  /** A caller works on the row of its own transaction. */
  ghost predicate Located(s: System) {
    forall c :: c in s.callers && IdOf(s.callers[c].pc).Some? ==> LocatedCaller(s, s.callers[c])
  }

  ghost predicate LocatedCaller(s: System, caller: Caller)
    requires IdOf(caller.pc).Some?
  {
    var id := IdOf(caller.pc).value;
    id in s.rows && s.rows[id].hash == Sha256(caller.call.tx)
  }

  ghost predicate RowSound(r: Row) {
    && (r.status.Built? ==> r.signed.None? && r.txid.None?)
    && (r.status.Signed? ==> r.signed.Some? && r.txid.None?)
    && (r.status.Broadcast? || r.status.Confirmed? ==> r.signed.Some? && r.txid.Some?)
  }

  ghost predicate RowsSound(s: System) {
    && (forall id :: id in s.rows ==> id < s.nextId && RowSound(s.rows[id]))
    && (forall i, j :: i in s.rows && j in s.rows && s.rows[i].hash == s.rows[j].hash ==> i == j)
  }

  predicate Inside(pc: PC) {
    pc.Submitting? || pc.Committing?
  }

  /** Exactly the callers inside their transaction hold the locks, one each, on rows
      that stay SIGNED meanwhile. */
  ghost predicate LocksSound(s: System) {
    && (forall id :: id in s.locks ==> id in s.rows && s.rows[id].status.Signed?
                                       && s.locks[id] in s.callers && Inside(s.callers[s.locks[id]].pc) && s.callers[s.locks[id]].pc.id == id)
    && (forall c :: c in s.callers && Inside(s.callers[c].pc) ==> s.callers[c].pc.id in s.locks && s.locks[s.callers[c].pc.id] == c)
    && (forall c :: c in s.callers && s.callers[c].pc.Submitting? ==>
          var id := s.callers[c].pc.id; id in s.rows && s.rows[id].signed == Some(s.callers[c].pc.sig))
  }

  /** Whatever was submitted for an attempt is its recorded transaction under its
      recorded signature. */
  ghost predicate SentSound(s: System) {
    forall i :: 0 <= i < |s.sent| ==> SubmissionSound(s, s.sent[i])
  }

  ghost predicate SubmissionSound(s: System, sub: Submission) {
    && sub.id in s.rows && s.rows[sub.id].hash == Sha256(sub.tx) && s.rows[sub.id].signed == Some(sub.sig)
    && !s.rows[sub.id].status.Built?
  }

  function Accepted(sent: seq<Submission>, id: nat): nat {
    if sent == [] then 0
    else Accepted(sent[..|sent| - 1], id) + (if sent[|sent| - 1].id == id && sent[|sent| - 1].accepted then 1 else 0)
  }

  /** Accepted, and neither recorded yet nor undone. */
  ghost predicate InFlight(s: System, id: nat) {
    id in s.locks && s.locks[id] in s.callers && s.callers[s.locks[id]].pc.Committing?
  }

  ghost predicate OnChain(s: System, id: nat) {
    id in s.rows && (s.rows[id].status.Broadcast? || s.rows[id].status.Confirmed?)
  }

  /** The books: every accepted submission was undone, is in flight, or is recorded. */
  ghost predicate Accounted(s: System) {
    forall id :: Accepted(s.sent, id) == s.rollbacks[id] + (if InFlight(s, id) then 1 else 0) + (if OnChain(s, id) then 1 else 0)
  }

  ghost predicate Inv(s: System) {
    Located(s) && RowsSound(s) && LocksSound(s) && SentSound(s) && Accounted(s)
  }

  /** BUILT, then SIGNED, then BROADCAST, then CONFIRMED; or FAILED, from before
      BROADCAST. */
  predicate Ahead(s: Status, s': Status) {
    s.Built? || (s.Signed? && !s'.Built?) || (s.Broadcast? && s'.Confirmed?)
  }

  /** Rows are never lost or rewritten: a status only moves forward, and the signature
      is written once. */
  ghost predicate Forward(r: Row, r': Row) {
    && r' == r.(signed := r'.signed, txid := r'.txid, status := r'.status)
    && (r'.status == r.status || Ahead(r.status, r'.status))
    && (r.signed.Some? ==> r'.signed == r.signed)
    && (r.txid.Some? ==> r'.txid == r.txid)
  }

  ghost predicate AllForward(s: System, s': System) {
    && (forall id :: id in s.rows ==> id in s'.rows && Forward(s.rows[id], s'.rows[id]))
    && s.sent <= s'.sent && s.rollbacks <= s'.rollbacks
    && s.nextId <= s'.nextId
  }

  // ---------- every step keeps them ----------

  /** A caller moves on, outside any transaction. */
  lemma MoveKeeps(s: System, c: nat, pc: PC)
    requires Inv(s) && c in s.callers && !Inside(s.callers[c].pc) && !Inside(pc)
    requires IdOf(pc).Some? ==> LocatedCaller(s, s.callers[c].(pc := pc))
    ensures Inv(At(s, c, pc)) && AllForward(s, At(s, c, pc))
  {
    var s' := At(s, c, pc);
    forall id
      ensures InFlight(s', id) == InFlight(s, id)
    {
    }
  }

  /** One unlocked row moves forward without reaching or leaving the chain. */
  lemma RowKeeps(s: System, id: nat, row: Row)
    requires Inv(s) && id in s.rows && id !in s.locks && Forward(s.rows[id], row) && RowSound(row)
    requires OnChain(s, id) == (row.status.Broadcast? || row.status.Confirmed?)
    ensures var s' := s.(rows := s.rows[id := row]); Inv(s') && AllForward(s, s')
  {
    var s' := s.(rows := s.rows[id := row]);
    forall i | 0 <= i < |s.sent|
      ensures SubmissionSound(s', s.sent[i])
    {
      assert SubmissionSound(s, s.sent[i]);
    }
    forall j
      ensures InFlight(s', j) == InFlight(s, j) && OnChain(s', j) == OnChain(s, j)
    {
    }
  }

  lemma {:induction false} NoneAccepted(s: System, sent: seq<Submission>, id: nat)
    requires forall i :: 0 <= i < |sent| ==> SubmissionSound(s, sent[i])
    requires id !in s.rows
    ensures Accepted(sent, id) == 0
  {
    if sent != [] {
      assert SubmissionSound(s, sent[|sent| - 1]);
      NoneAccepted(s, sent[..|sent| - 1], id);
    }
  }

  lemma CreateKeeps(s: System, row: Row)
    requires Inv(s) && row.status.Built? && RowSound(row) && RowOf(s.rows, row.hash).None?
    ensures var s' := s.(rows := s.rows[s.nextId := row], nextId := s.nextId + 1); Inv(s') && AllForward(s, s')
  {
    var s' := s.(rows := s.rows[s.nextId := row], nextId := s.nextId + 1);
    assert s.nextId !in s.rows;
    SentStays(s, s');
    NewRowIsNew(s, s', row);
    forall j
      ensures InFlight(s', j) == InFlight(s, j) && OnChain(s', j) == OnChain(s, j)
    {
    }
  }

  /** What was submitted stays so, as long as rows keep their transfer and signature. */
  lemma SentStays(s: System, s': System)
    requires SentSound(s) && s'.sent == s.sent
    requires forall id :: id in s.rows ==> id in s'.rows && s'.rows[id].hash == s.rows[id].hash
                                           && (s.rows[id].signed.Some? ==> s'.rows[id].signed == s.rows[id].signed)
                                           && (s.rows[id].status.Built? || !s'.rows[id].status.Built?)
    ensures SentSound(s')
  {
    forall i | 0 <= i < |s.sent|
      ensures SubmissionSound(s', s.sent[i])
    {
      assert SubmissionSound(s, s.sent[i]);
    }
  }

  lemma NewRowIsNew(s: System, s': System, row: Row)
    requires RowsSound(s) && RowSound(row) && RowOf(s.rows, row.hash).None?
    requires s'.rows == s.rows[s.nextId := row] && s'.nextId == s.nextId + 1
    ensures RowsSound(s')
  {
    forall i | i in s.rows
      ensures s.rows[i].hash != row.hash
    {
    }
  }

  lemma EnterKeeps(s: System, c: nat, id: nat, sig: string)
    requires Inv(s) && c in s.callers && s.callers[c].pc == Locking(id)
    requires id !in s.locks && s.rows[id].status.Signed? && s.rows[id].signed == Some(sig)
    ensures var s' := At(s.(locks := s.locks[id := c]), c, Submitting(id, sig)); Inv(s') && AllForward(s, s')
  {
    var s' := At(s.(locks := s.locks[id := c]), c, Submitting(id, sig));
    forall j
      ensures InFlight(s', j) == InFlight(s, j)
    {
    }
  }

  lemma SubmitKeeps(s: System, c: nat, txid: string)
    requires Inv(s) && c in s.callers && s.callers[c].pc.Submitting?
    ensures var Caller(call, pc) := s.callers[c];
            var s' := At(s.(sent := s.sent + [Submission(pc.id, call.tx, pc.sig, true)]), c, Committing(pc.id, txid));
            Inv(s') && AllForward(s, s')
  {
    var Caller(call, pc) := s.callers[c];
    var sub := Submission(pc.id, call.tx, pc.sig, true);
    var s' := At(s.(sent := s.sent + [sub]), c, Committing(pc.id, txid));
    forall i | 0 <= i < |s'.sent|
      ensures SubmissionSound(s', s'.sent[i])
    {
      assert i < |s.sent| ==> SubmissionSound(s, s.sent[i]);
    }
    forall j
      ensures InFlight(s', j) == (InFlight(s, j) || j == pc.id)
      ensures Accepted(s'.sent, j) == Accepted(s.sent, j) + (if j == pc.id then 1 else 0)
    {
      assert s'.sent[..|s'.sent| - 1] == s.sent;
    }
    assert !InFlight(s, pc.id);
  }

  /** The chain refuses a submission. */
  lemma RefuseKeeps(s: System, c: nat)
    requires Inv(s) && c in s.callers && s.callers[c].pc.Submitting?
    ensures var Caller(call, pc) := s.callers[c];
            var s' := s.(sent := s.sent + [Submission(pc.id, call.tx, pc.sig, false)]); Inv(s') && AllForward(s, s')
  {
    var Caller(call, pc) := s.callers[c];
    var s' := s.(sent := s.sent + [Submission(pc.id, call.tx, pc.sig, false)]);
    forall i | 0 <= i < |s'.sent|
      ensures SubmissionSound(s', s'.sent[i])
    {
      assert i < |s.sent| ==> SubmissionSound(s, s.sent[i]);
    }
    forall j
      ensures InFlight(s', j) == InFlight(s, j)
      ensures Accepted(s'.sent, j) == Accepted(s.sent, j)
    {
      assert s'.sent[..|s'.sent| - 1] == s.sent;
    }
  }

  /** With nothing accepted, the lock goes. */
  lemma LeaveKeeps(s: System, c: nat, answer: Answer)
    requires Inv(s) && c in s.callers && s.callers[c].pc.Submitting?
    ensures var s' := Leave(s, c, s.callers[c].pc.id, answer); Inv(s') && AllForward(s, s')
  {
    var s' := Leave(s, c, s.callers[c].pc.id, answer);
    LeaveLocks(s, s', c, s.callers[c].pc.id);
    SentStays(s, s');
    forall j
      ensures InFlight(s', j) == InFlight(s, j)
    {
    }
  }

  lemma CommitKeeps(s: System, c: nat, answer: Answer)
    requires Inv(s) && c in s.callers && s.callers[c].pc.Committing?
    ensures var pc := s.callers[c].pc;
            pc.id in s.rows && Inv(Leave(Recording(s, pc.id, pc.txid), c, pc.id, answer))
            && AllForward(s, Leave(Recording(s, pc.id, pc.txid), c, pc.id, answer))
  {
    var pc := s.callers[c].pc;
    assert pc.id in s.locks && s.locks[pc.id] == c;
    var s' := Leave(Recording(s, pc.id, pc.txid), c, pc.id, answer);
    forall i | 0 <= i < |s.sent|
      ensures SubmissionSound(s', s.sent[i])
    {
      assert SubmissionSound(s, s.sent[i]);
    }
    forall j
      ensures InFlight(s', j) == (InFlight(s, j) && j != pc.id) && OnChain(s', j) == (OnChain(s, j) || j == pc.id)
    {
    }
    assert InFlight(s, pc.id) && !OnChain(s, pc.id);
    CommitLocks(s, c, answer);
  }

  lemma CommitLocks(s: System, c: nat, answer: Answer)
    requires Inv(s) && c in s.callers && s.callers[c].pc.Committing?
    requires s.callers[c].pc.id in s.rows
    ensures var pc := s.callers[c].pc;
            var s' := Leave(Recording(s, pc.id, pc.txid), c, pc.id, answer);
            LocksSound(s') && Located(s') && RowsSound(s')
  {
    var pc := s.callers[c].pc;
    var s' := Leave(Recording(s, pc.id, pc.txid), c, pc.id, answer);
    forall d | d in s'.callers && IdOf(s'.callers[d].pc).Some?
      ensures LocatedCaller(s', s'.callers[d])
    {
      assert LocatedCaller(s, s.callers[d]);
    }
  }

  lemma UndoKeeps(s: System, c: nat, answer: Answer)
    requires Inv(s) && c in s.callers && s.callers[c].pc.Committing?
    ensures var id := s.callers[c].pc.id;
            Inv(Leave(Undoing(s, id), c, id, answer)) && AllForward(s, Leave(Undoing(s, id), c, id, answer))
  {
    var id := s.callers[c].pc.id;
    var s' := Leave(Undoing(s, id), c, id, answer);
    LeaveLocks(s, s', c, id);
    SentStays(s, s');
    forall j
      ensures InFlight(s', j) == (InFlight(s, j) && j != id)
    {
    }
    assert InFlight(s, id);
  }

  /** A caller that leaves its transaction gives up exactly its own lock. */
  lemma LeaveLocks(s: System, s': System, c: nat, id: nat)
    requires LocksSound(s) && Located(s) && c in s.callers && Inside(s.callers[c].pc) && s.callers[c].pc.id == id
    requires s'.rows == s.rows && s'.locks == s.locks - {id}
    requires s'.callers.Keys == s.callers.Keys && s'.callers[c].pc.Finished?
    requires forall d :: d in s.callers && d != c ==> s'.callers[d] == s.callers[d]
    ensures LocksSound(s') && Located(s')
  {
    forall d | d in s'.callers && IdOf(s'.callers[d].pc).Some?
      ensures LocatedCaller(s', s'.callers[d])
    {
      assert LocatedCaller(s, s.callers[d]);
    }
  }

  /** A finished caller can be forgotten. */
  lemma ForgetKeeps(s: System, c: nat)
    requires Inv(s) && c in s.callers && !Inside(s.callers[c].pc)
    ensures var s' := s.(callers := s.callers - {c}); Inv(s') && AllForward(s, s')
  {
    var s' := s.(callers := s.callers - {c});
    forall j
      ensures InFlight(s', j) == InFlight(s, j)
    {
    }
  }

  lemma ActKeeps(s: System, c: nat, env: Env)
    requires Inv(s) && c in s.callers
    ensures Inv(ActOf(s, c, env)) && AllForward(s, ActOf(s, c, env))
  {
    var pc := s.callers[c].pc;
    assert IdOf(pc).Some? ==> LocatedCaller(s, s.callers[c]);
    if env.dbFails && !pc.Requesting? && !Inside(pc) && !pc.Finished? {
      MoveKeeps(s, c, Finished(Error));
    } else if pc.Creating? {
      CreatingKeeps(s, c, env);
    } else if pc.Rejecting? {
      FailKeeps(s, pc.id);
      if !Waits(s, pc.id) { MoveKeeps(MarkedFailed(s, pc.id), c, Finished(SignatureRejected)); }
    } else if pc.Storing? {
      StoringKeeps(s, c, env);
    } else if pc.Locking? {
      LockingKeeps(s, c, env);
    } else if pc.Submitting? {
      SubmittingKeeps(s, c, env);
    } else if pc.Committing? {
      CommittingKeeps(s, c, env);
    } else if !pc.Finished? {
      ReadingKeeps(s, c, env);
    }
  }

  /** The steps that only read, or only ask the signer. */
  lemma ReadingKeeps(s: System, c: nat, env: Env)
    requires Inv(s) && c in s.callers
    requires var pc := s.callers[c].pc; pc.Refetching? || pc.Reading? || pc.Requesting? || pc.Rereading?
    requires !env.dbFails || s.callers[c].pc.Requesting?
    ensures Inv(ActOf(s, c, env)) && AllForward(s, ActOf(s, c, env))
  {
    var Caller(call, pc) := s.callers[c];
    assert IdOf(pc).Some? ==> LocatedCaller(s, s.callers[c]);
    if pc.Refetching? {
      var found := RowOf(s.rows, Sha256(call.tx));
      if found.Some? && !Terminal(s.rows[found.value].status) { MoveKeeps(s, c, Reading(found.value)); }
      else if found.Some? { MoveKeeps(s, c, Finished(Done(s.rows[found.value]))); }
      else { MoveKeeps(s, c, Finished(Error)); }
    } else if pc.Requesting? {
      MoveKeeps(s, c, Signing(pc.id, env.signer));
    } else if pc.Reading? {
      MoveKeeps(s, c, AfterReading(s.rows[pc.id], pc.id));
    } else {
      MoveKeeps(s, c, if Terminal(s.rows[pc.id].status) then Finished(Done(s.rows[pc.id])) else Locking(pc.id));
    }
  }

  lemma CreatingKeeps(s: System, c: nat, env: Env)
    requires Inv(s) && c in s.callers && s.callers[c].pc.Creating? && !env.dbFails
    ensures Inv(ActOf(s, c, env)) && AllForward(s, ActOf(s, c, env))
  {
    var call := s.callers[c].call;
    if RowOf(s.rows, Sha256(call.tx)).Some? || NumberTaken(s.rows, call) {
      MoveKeeps(s, c, ActOf(s, c, env).callers[c].pc);
    } else {
      CreateKeeps(s, NewRow(call));
      MoveKeeps(s.(rows := s.rows[s.nextId := NewRow(call)], nextId := s.nextId + 1), c, Reading(s.nextId));
    }
  }

  lemma FailKeeps(s: System, id: nat)
    requires Inv(s)
    ensures Waits(s, id) || (Inv(MarkedFailed(s, id)) && AllForward(s, MarkedFailed(s, id)))
  {
    if !Waits(s, id) && MarkedFailed(s, id) != s {
      RowKeeps(s, id, s.rows[id].(status := Failed));
    }
  }

  lemma StoringKeeps(s: System, c: nat, env: Env)
    requires Inv(s) && c in s.callers && s.callers[c].pc.Storing? && !env.dbFails
    ensures Inv(ActOf(s, c, env)) && AllForward(s, ActOf(s, c, env))
  {
    var Storing(id, sig) := s.callers[c].pc;
    assert LocatedCaller(s, s.callers[c]);
    if !s.rows[id].status.Built? {
      MoveKeeps(s, c, Rereading(id));
    } else if !Waits(s, id) {
      var row := s.rows[id].(status := Signed, signed := Some(sig));
      RowKeeps(s, id, row);
      MoveKeeps(s.(rows := s.rows[id := row]), c, Locking(id));
    }
  }

  lemma LockingKeeps(s: System, c: nat, env: Env)
    requires Inv(s) && c in s.callers && s.callers[c].pc.Locking? && !env.dbFails
    ensures Inv(ActOf(s, c, env)) && AllForward(s, ActOf(s, c, env))
  {
    var id := s.callers[c].pc.id;
    assert LocatedCaller(s, s.callers[c]);
    if id !in s.locks {
      if Terminal(s.rows[id].status) || !s.rows[id].status.Signed? || s.rows[id].signed.None? {
        MoveKeeps(s, c, ActOf(s, c, env).callers[c].pc);
      } else {
        EnterKeeps(s, c, id, s.rows[id].signed.value);
      }
    }
  }

  lemma SubmittingKeeps(s: System, c: nat, env: Env)
    requires Inv(s) && c in s.callers && s.callers[c].pc.Submitting?
    ensures Inv(ActOf(s, c, env)) && AllForward(s, ActOf(s, c, env))
  {
    var Caller(call, pc) := s.callers[c];
    assert LocatedCaller(s, s.callers[c]);
    if !env.decodes {
      LeaveKeeps(s, c, Error);
    } else if env.chain.None? {
      RefuseKeeps(s, c);
      LeaveKeeps(s.(sent := s.sent + [Submission(pc.id, call.tx, pc.sig, false)]), c, Error);
    } else {
      SubmitKeeps(s, c, env.chain.value);
    }
  }

  lemma CommittingKeeps(s: System, c: nat, env: Env)
    requires Inv(s) && c in s.callers && s.callers[c].pc.Committing?
    ensures Inv(ActOf(s, c, env)) && AllForward(s, ActOf(s, c, env))
  {
    var Committing(id, txid) := s.callers[c].pc;
    assert LocatedCaller(s, s.callers[c]);
    if env.commit.Undone? {
      assert ActOf(s, c, env) == Leave(Undoing(s, id), c, id, Error);
      UndoKeeps(s, c, Error);
    } else {
      var answer := if env.commit.Committed? then Done(Recording(s, id, txid).rows[id]) else Error;
      assert ActOf(s, c, env) == Leave(Recording(s, id, txid), c, id, answer);
      CommitKeeps(s, c, answer);
    }
  }

  lemma StepKeeps(s: System, e: Event)
    requires Inv(s)
    ensures Inv(Step(s, e)) && AllForward(s, Step(s, e))
  {
    match e
    case Start(c, call) => StartKeeps(s, c, call);
    case Act(c, env) => if c in s.callers { ActKeeps(s, c, env); }
    case Die(c) => if c in s.callers { DieKeeps(s, c); }
    case Fail(id) => FailKeeps(s, id);
    case Confirm(id) =>
      if ConfirmedRow(s, id) != s {
        RowKeeps(s, id, s.rows[id].(status := Confirmed));
      }
  }

  lemma StartKeeps(s: System, c: nat, call: Call)
    requires Inv(s)
    ensures Inv(Step(s, Start(c, call))) && AllForward(s, Step(s, Start(c, call)))
  {
    var s' := Step(s, Start(c, call));
    if c !in s.callers {
      forall j
        ensures InFlight(s', j) == InFlight(s, j)
      {
      }
    }
  }

  lemma DieKeeps(s: System, c: nat)
    requires Inv(s) && c in s.callers
    ensures Inv(DieOf(s, c)) && AllForward(s, DieOf(s, c))
  {
    var pc := s.callers[c].pc;
    if pc.Submitting? {
      LeaveKeeps(s, c, Error);
      ForgetKeeps(Leave(s, c, pc.id, Error), c);
      assert Leave(s, c, pc.id, Error).callers - {c} == s.callers - {c};
    } else if pc.Committing? {
      UndoKeeps(s, c, Error);
      var undone := Leave(Undoing(s, pc.id), c, pc.id, Error);
      ForgetKeeps(undone, c);
      assert undone.callers - {c} == s.callers - {c};
    } else {
      ForgetKeeps(s, c);
    }
  }

  // ---------- whole runs ----------

  lemma ForwardThen(s: System, s1: System, s2: System)
    requires AllForward(s, s1) && AllForward(s1, s2)
    ensures AllForward(s, s2)
  {
    forall id | id in s.rows
      ensures id in s2.rows && Forward(s.rows[id], s2.rows[id])
    {
      assert Forward(s.rows[id], s1.rows[id]) && Forward(s1.rows[id], s2.rows[id]);
    }
  }

  lemma {:induction false} RunKeeps(s: System, es: seq<Event>)
    requires Inv(s)
    ensures Inv(Run(s, es)) && AllForward(s, Run(s, es))
    decreases |es|
  {
    if es == [] {
      assert forall id :: id in s.rows ==> Forward(s.rows[id], s.rows[id]);
    } else {
      var s1 := Step(s, es[0]);
      StepKeeps(s, es[0]);
      RunKeeps(s1, es[1..]);
      ForwardThen(s, s1, Run(s, es));
    }
  }

  /** Exactly-once broadcast. Whatever the interleaving of callers, freezes,
      confirmations, failures and deaths, an attempt's accepted submissions are those
      whose transaction was undone after the chain had accepted it, plus at most one;
      and all its submissions are one and the same signed transaction. */
  lemma BroadcastOnce(es: seq<Event>, id: nat)
    ensures var s := Run(Empty, es);
            && s.rollbacks[id] <= Accepted(s.sent, id) <= s.rollbacks[id] + 1
            && (OnChain(s, id) ==> Accepted(s.sent, id) == s.rollbacks[id] + 1)
            && forall i, j :: 0 <= i < |s.sent| && 0 <= j < |s.sent| && s.sent[i].id == s.sent[j].id == id
                 ==> s.sent[i].tx == s.sent[j].tx && s.sent[i].sig == s.sent[j].sig
  {
    RunKeeps(Empty, es);
    var s := Run(Empty, es);
    forall i, j | 0 <= i < |s.sent| && 0 <= j < |s.sent| && s.sent[i].id == s.sent[j].id == id
      ensures s.sent[i].tx == s.sent[j].tx && s.sent[i].sig == s.sent[j].sig
    {
      assert SubmissionSound(s, s.sent[i]) && SubmissionSound(s, s.sent[j]);
    }
    if InFlight(s, id) {
      assert s.rows[id].status.Signed?;
    }
  }

  /** Only a SIGNED attempt is ever handed to the chain. */
  lemma StepSubmits(s: System, e: Event) returns (more: seq<Submission>)
    requires Inv(s)
    ensures Step(s, e).sent == s.sent + more
    ensures forall sub :: sub in more ==> sub.id in s.rows && s.rows[sub.id].status.Signed?
  {
    more := [];
    if e.Act? && e.c in s.callers {
      more := ActSubmits(s, e.c, e.env);
    }
  }

  lemma ActSubmits(s: System, c: nat, env: Env) returns (more: seq<Submission>)
    requires LocksSound(s) && c in s.callers
    ensures ActOf(s, c, env).sent == s.sent + more
    ensures forall sub :: sub in more ==> sub.id in s.rows && s.rows[sub.id].status.Signed?
  {
    var Caller(call, pc) := s.callers[c];
    more := [];
    if pc.Submitting? {
      assert pc.id in s.locks;
      SubmittingIs(s, c, env);
      if env.decodes {
        more := [Submission(pc.id, call.tx, pc.sig, env.chain.Some?)];
      }
    }
  }

  /** From `s` to `s'`, nothing was submitted for the attempt, which stayed closed. */
  ghost predicate Quiet(s: System, s': System, id: nat) {
    && id in s.rows && id in s'.rows && Terminal(s.rows[id].status) && Terminal(s'.rows[id].status)
    && (s.rows[id].status.Failed? ==> s'.rows[id].status.Failed?)
    && s.sent <= s'.sent
    && forall i :: |s.sent| <= i < |s'.sent| ==> s'.sent[i].id != id
  }

  lemma QuietWhen(s: System, s': System, more: seq<Submission>, id: nat)
    requires id in s.rows && Terminal(s.rows[id].status) && AllForward(s, s') && s'.sent == s.sent + more
    requires forall sub :: sub in more ==> sub.id in s.rows && s.rows[sub.id].status.Signed?
    ensures Quiet(s, s', id)
  {
    assert Forward(s.rows[id], s'.rows[id]);
    forall i | |s.sent| <= i < |s'.sent|
      ensures s'.sent[i].id != id
    {
      assert s'.sent[i] == more[i - |s.sent|] && more[i - |s.sent|] in more;
    }
  }

  lemma StepIsQuiet(s: System, e: Event, id: nat)
    requires Inv(s) && id in s.rows && Terminal(s.rows[id].status)
    ensures Inv(Step(s, e)) && Quiet(s, Step(s, e), id)
  {
    StepKeeps(s, e);
    var more := StepSubmits(s, e);
    QuietWhen(s, Step(s, e), more, id);
  }

  /** An attempt that is FAILED, or already recorded on chain, is never submitted
      afterwards. */
  lemma {:induction false} NoSubmissionAfter(s: System, es: seq<Event>, id: nat)
    requires Inv(s) && id in s.rows && Terminal(s.rows[id].status)
    ensures Quiet(s, Run(s, es), id)
    decreases |es|
  {
    if es != [] {
      StepIsQuiet(s, es[0], id);
      NoSubmissionAfter(Step(s, es[0]), es[1..], id);
    }
  }

  // ---------- what callers are told ----------

  /** Every row a caller was given as its final answer was its own transfer's, closed,
      and has only moved forward since. */
  ghost predicate Answered(s: System, caller: Caller) {
    caller.pc.Finished? && caller.pc.answer.Done? ==>
      var row := caller.pc.answer.row;
      Terminal(row.status) && row.hash == Sha256(caller.call.tx) && exists id :: id in s.rows && Forward(row, s.rows[id])
  }

  ghost predicate AnswersHold(s: System) {
    forall c :: c in s.callers ==> Answered(s, s.callers[c])
  }

  lemma AnsweredStays(s: System, s': System, caller: Caller)
    requires Answered(s, caller) && AllForward(s, s')
    ensures Answered(s', caller)
  {
    if caller.pc.Finished? && caller.pc.answer.Done? {
      var id :| id in s.rows && Forward(caller.pc.answer.row, s.rows[id]);
      assert Forward(s.rows[id], s'.rows[id]);
    }
  }

  lemma OthersStay(s: System, c: nat, env: Env, d: nat)
    requires c in s.callers && d != c
    ensures var s' := ActOf(s, c, env); (d in s'.callers <==> d in s.callers) && (d in s.callers ==> s'.callers[d] == s.callers[d])
  {
  }

  lemma CallerAnswers(s: System, e: Event, c: nat)
    requires Inv(s) && AllForward(s, Step(s, e)) && c in Step(s, e).callers && (c in s.callers ==> Answered(s, s.callers[c]))
    ensures Answered(Step(s, e), Step(s, e).callers[c])
  {
    if e.Act? && e.c in s.callers {
      if e.c == c && !s.callers[c].pc.Finished? {
        ActAnswers(s, c, e.env);
        return;
      }
      if e.c != c {
        OthersStay(s, e.c, e.env, c);
      }
    }
    if c in s.callers {
      AnsweredStays(s, Step(s, e), s.callers[c]);
    }
  }

  lemma StepAnswers(s: System, e: Event)
    requires Inv(s) && AnswersHold(s)
    ensures AnswersHold(Step(s, e))
  {
    StepKeeps(s, e);
    forall c | c in Step(s, e).callers
      ensures Answered(Step(s, e), Step(s, e).callers[c])
    {
      CallerAnswers(s, e, c);
    }
  }

  lemma ActAnswers(s: System, c: nat, env: Env)
    requires Inv(s) && c in s.callers && !s.callers[c].pc.Finished?
    ensures c in ActOf(s, c, env).callers && Answered(ActOf(s, c, env), ActOf(s, c, env).callers[c])
  {
    var pc := s.callers[c].pc;
    assert IdOf(pc).Some? ==> LocatedCaller(s, s.callers[c]);
    var id := if pc.Refetching? then RowOf(s.rows, Sha256(s.callers[c].call.tx)) else IdOf(pc);
    GivenRow(s, c, env, id);
  }

  /** The row a caller is given is the one it stood at, as it then is. */
  lemma GivenRow(s: System, c: nat, env: Env, id: Option<nat>)
    requires c in s.callers && !s.callers[c].pc.Finished?
    requires id == if s.callers[c].pc.Refetching? then RowOf(s.rows, Sha256(s.callers[c].call.tx)) else IdOf(s.callers[c].pc)
    requires id.Some? && id.value in s.rows ==> s.rows[id.value].hash == Sha256(s.callers[c].call.tx)
    ensures c in ActOf(s, c, env).callers && Answered(ActOf(s, c, env), ActOf(s, c, env).callers[c])
  {
    var s' := ActOf(s, c, env);
    if s'.callers[c].pc.Finished? && s'.callers[c].pc.answer.Done? {
      assert s'.callers[c].pc.answer.row == s'.rows[id.value];
      assert Forward(s'.rows[id.value], s'.rows[id.value]);
    }
  }

  lemma {:induction false} RunAnswers(s: System, es: seq<Event>)
    requires Inv(s) && AnswersHold(s)
    ensures AnswersHold(Run(s, es))
    decreases |es|
  {
    if es != [] {
      StepKeeps(s, es[0]);
      StepAnswers(s, es[0]);
      RunAnswers(Step(s, es[0]), es[1..]);
    }
  }

  /** A caller told BROADCAST or CONFIRMED can rely on it: its transfer was accepted by
      the chain, and is recorded so for good. */
  lemma SuccessIsReal(es: seq<Event>, c: nat) returns (id: nat)
    requires var s := Run(Empty, es);
             c in s.callers && s.callers[c].pc.Finished? && s.callers[c].pc.answer.Done? && !s.callers[c].pc.answer.row.status.Failed?
    ensures var s := Run(Empty, es);
            id in s.rows && s.rows[id].hash == Sha256(s.callers[c].call.tx) && OnChain(s, id) && Accepted(s.sent, id) >= 1
  {
    var s := Run(Empty, es);
    RunAnswers(Empty, es);
    assert Answered(s, s.callers[c]);
    id :| id in s.rows && Forward(s.callers[c].pc.answer.row, s.rows[id]);
    BroadcastOnce(es, id);
  }

  // ---------- which answers lead there ----------

  /** This step fails the attempt from outside, or the signer rejects it to a caller. */
  ghost predicate Refuses(s: System, e: Event, id: nat) {
    e == Fail(id) || (e.Act? && e.c in s.callers && s.callers[e.c].pc == Requesting(id) && e.env.signer == Rejected)
  }

  ghost predicate EverRefused(s: System, es: seq<Event>, id: nat)
    decreases |es|
  {
    es != [] && (Refuses(s, es[0], id) || EverRefused(Step(s, es[0]), es[1..], id))
  }

  ghost predicate FailureDue(s: System, id: nat) {
    (id in s.rows && s.rows[id].status.Failed?) || exists c :: c in s.callers && s.callers[c].pc == Rejecting(id)
  }

  lemma OthersStand(s: System, c: nat, env: Env)
    requires c in s.callers
    ensures var s' := ActOf(s, c, env);
            forall d :: d in s'.callers && d != c ==> d in s.callers && s'.callers[d] == s.callers[d]
  {
    forall d | d != c
      ensures var s' := ActOf(s, c, env); (d in s'.callers <==> d in s.callers) && (d in s.callers ==> s'.callers[d] == s.callers[d])
    {
      OthersStay(s, c, env, d);
    }
  }

  lemma StepRefuses(s: System, e: Event, id: nat)
    requires FailureDue(Step(s, e), id)
    ensures FailureDue(s, id) || Refuses(s, e, id)
  {
    var s' := Step(s, e);
    if e.Act? && e.c in s.callers {
      OthersStand(s, e.c, e.env);
      ActRefuses(s, e.c, e.env, id);
      if c :| c in s'.callers && s'.callers[c].pc == Rejecting(id) {
        assert c != e.c ==> s.callers[c].pc == Rejecting(id);
      }
    } else if c :| c in s'.callers && s'.callers[c].pc == Rejecting(id) {
      assert s.callers[c].pc == Rejecting(id);
    }
  }

  lemma ActRefuses(s: System, c: nat, env: Env, id: nat)
    requires c in s.callers
    ensures var s' := ActOf(s, c, env);
            && c in s'.callers
            && (id in s'.rows && s'.rows[id].status.Failed? ==> (id in s.rows && s.rows[id].status.Failed?) || s.callers[c].pc == Rejecting(id))
            && (s'.callers[c].pc == Rejecting(id) ==> s.callers[c].pc == Rejecting(id) || (s.callers[c].pc == Requesting(id) && env.signer == Rejected))
  {
  }

  lemma {:induction false} RunRefuses(s: System, es: seq<Event>, id: nat)
    requires FailureDue(Run(s, es), id)
    ensures FailureDue(s, id) || EverRefused(s, es, id)
    decreases |es|
  {
    if es != [] {
      RunRefuses(Step(s, es[0]), es[1..], id);
      if FailureDue(Step(s, es[0]), id) {
        StepRefuses(s, es[0], id);
      }
    }
  }

  /** Over every run, an attempt is FAILED only if it was failed from outside, or the
      signer answered a caller's request for it with a rejection. */
  lemma FailedMeans(es: seq<Event>, id: nat)
    requires id in Run(Empty, es).rows && Run(Empty, es).rows[id].status.Failed?
    ensures EverRefused(Empty, es, id)
  {
    RunRefuses(Empty, es, id);
  }

  /** The signer approves the attempt to a caller, with this signature. */
  ghost predicate Approves(s: System, e: Event, id: nat, sig: string) {
    e.Act? && e.c in s.callers && s.callers[e.c].pc == Requesting(id) && e.env.signer == Approved(sig)
  }

  ghost predicate EverApproved(s: System, es: seq<Event>, id: nat, sig: string)
    decreases |es|
  {
    es != [] && (Approves(s, es[0], id, sig) || EverApproved(Step(s, es[0]), es[1..], id, sig))
  }

  ghost predicate SignatureDue(s: System, id: nat, sig: string) {
    (id in s.rows && s.rows[id].signed == Some(sig)) || exists c :: c in s.callers && s.callers[c].pc == Storing(id, sig)
  }

  lemma ActApproves(s: System, c: nat, env: Env, id: nat, sig: string)
    requires c in s.callers
    ensures var s' := ActOf(s, c, env);
            && c in s'.callers
            && (id in s'.rows && s'.rows[id].signed == Some(sig) ==>
                  (id in s.rows && s.rows[id].signed == Some(sig)) || s.callers[c].pc == Storing(id, sig))
            && (s'.callers[c].pc == Storing(id, sig) ==>
                  s.callers[c].pc == Storing(id, sig) || (s.callers[c].pc == Requesting(id) && env.signer == Approved(sig)))
  {
  }

  lemma StepApproves(s: System, e: Event, id: nat, sig: string)
    requires SignatureDue(Step(s, e), id, sig)
    ensures SignatureDue(s, id, sig) || Approves(s, e, id, sig)
  {
    var s' := Step(s, e);
    if e.Act? && e.c in s.callers {
      OthersStand(s, e.c, e.env);
      ActApproves(s, e.c, e.env, id, sig);
      if c :| c in s'.callers && s'.callers[c].pc == Storing(id, sig) {
        assert c != e.c ==> s.callers[c].pc == Storing(id, sig);
      }
    } else if c :| c in s'.callers && s'.callers[c].pc == Storing(id, sig) {
      assert s.callers[c].pc == Storing(id, sig);
    }
  }

  lemma {:induction false} RunApproves(s: System, es: seq<Event>, id: nat, sig: string)
    requires SignatureDue(Run(s, es), id, sig)
    ensures SignatureDue(s, id, sig) || EverApproved(s, es, id, sig)
    decreases |es|
  {
    if es != [] {
      RunApproves(Step(s, es[0]), es[1..], id, sig);
      if SignatureDue(Step(s, es[0]), id, sig) {
        StepApproves(s, es[0], id, sig);
      }
    }
  }

  /** The chain takes the attempt's submission from a caller, under this transaction id. */
  ghost predicate Takes(s: System, e: Event, id: nat, txid: string) {
    && e.Act? && e.c in s.callers && s.callers[e.c].pc.Submitting? && s.callers[e.c].pc.id == id
    && e.env.decodes && e.env.chain == Some(txid)
  }

  ghost predicate EverTaken(s: System, es: seq<Event>, id: nat, txid: string)
    decreases |es|
  {
    es != [] && (Takes(s, es[0], id, txid) || EverTaken(Step(s, es[0]), es[1..], id, txid))
  }

  ghost predicate TxidDue(s: System, id: nat, txid: string) {
    (id in s.rows && s.rows[id].txid == Some(txid)) || exists c :: c in s.callers && s.callers[c].pc == Committing(id, txid)
  }

  lemma ActTakes(s: System, c: nat, env: Env, id: nat, txid: string)
    requires c in s.callers
    ensures var s' := ActOf(s, c, env);
            && c in s'.callers
            && (id in s'.rows && s'.rows[id].txid == Some(txid) ==>
                  (id in s.rows && s.rows[id].txid == Some(txid)) || s.callers[c].pc == Committing(id, txid))
            && (s'.callers[c].pc == Committing(id, txid) ==>
                  s.callers[c].pc == Committing(id, txid)
                  || (s.callers[c].pc.Submitting? && s.callers[c].pc.id == id && env.decodes && env.chain == Some(txid)))
  {
  }

  lemma StepTakes(s: System, e: Event, id: nat, txid: string)
    requires TxidDue(Step(s, e), id, txid)
    ensures TxidDue(s, id, txid) || Takes(s, e, id, txid)
  {
    var s' := Step(s, e);
    if e.Act? && e.c in s.callers {
      OthersStand(s, e.c, e.env);
      ActTakes(s, e.c, e.env, id, txid);
      if c :| c in s'.callers && s'.callers[c].pc == Committing(id, txid) {
        assert c != e.c ==> s.callers[c].pc == Committing(id, txid);
      }
    } else if c :| c in s'.callers && s'.callers[c].pc == Committing(id, txid) {
      assert s.callers[c].pc == Committing(id, txid);
    }
  }

  lemma {:induction false} RunTakes(s: System, es: seq<Event>, id: nat, txid: string)
    requires TxidDue(Run(s, es), id, txid)
    ensures TxidDue(s, id, txid) || EverTaken(s, es, id, txid)
    decreases |es|
  {
    if es != [] {
      RunTakes(Step(s, es[0]), es[1..], id, txid);
      if TxidDue(Step(s, es[0]), id, txid) {
        StepTakes(s, es[0], id, txid);
      }
    }
  }

  /** Over every run, a stored signature was given by the signer for that attempt, and a
      stored transaction id by the chain for its submission. */
  lemma StoredWasGiven(es: seq<Event>, id: nat)
    requires id in Run(Empty, es).rows
    ensures var row := Run(Empty, es).rows[id];
            && (row.signed.Some? ==> EverApproved(Empty, es, id, row.signed.value))
            && (row.txid.Some? ==> EverTaken(Empty, es, id, row.txid.value))
  {
    var row := Run(Empty, es).rows[id];
    if row.signed.Some? {
      RunApproves(Empty, es, id, row.signed.value);
    }
    if row.txid.Some? {
      RunTakes(Empty, es, id, row.txid.value);
    }
  }

  // ---------- what one call comes to ----------

  /** How `Create` ends, from the rows as they were and the database's answers. */
  ghost predicate CreatedAs(rows: map<nat, Row>, nextId: nat, call: Call, world: PC -> Env, rows': map<nat, Row>, pc: PC) {
    if world(Creating).dbFails then pc == Finished(Error) && rows' == rows
    else if id :| id in rows && rows[id].hash == Sha256(call.tx) then
      && rows' == rows
      && pc == if world(Refetching).dbFails then Finished(Error)
               else if rows[id].status in {Built, Signed} then Reading(id) else Finished(Done(rows[id]))
    else if exists id :: id in rows && rows[id].orderId == call.orderId && rows[id].number == call.number then
      pc == Finished(Error) && rows' == rows
    else
      && pc == Reading(nextId)
      && rows' == rows[nextId := Row(call.orderId, call.slotId, call.number, Sha256(call.tx), None, None, Built)]
  }

  /** How `ensureSigned` ends, from the row as it was and the answers to the read, the
      signature request and the write that follows it. */
  ghost predicate SignedAs(rows: map<nat, Row>, id: nat, world: PC -> Env, rows': map<nat, Row>, pc: PC) {
    if world(Reading(id)).dbFails || id !in rows then pc == Finished(Error) && rows' == rows
    else
      match rows[id].status
      case Signed => pc == Locking(id) && rows' == rows
      case Built =>
        (match world(Requesting(id)).signer
         case SignerError => pc == Finished(Error) && rows' == rows
         case Pending => pc == Finished(SignaturePending) && rows' == rows
         case Rejected =>
           if world(Rejecting(id)).dbFails then pc == Finished(Error) && rows' == rows
           else pc == Finished(SignatureRejected) && rows' == rows[id := rows[id].(status := Failed)]
         case Approved(sig) =>
           if world(Storing(id, sig)).dbFails then pc == Finished(Error) && rows' == rows
           else pc == Locking(id) && rows' == rows[id := rows[id].(status := Signed, signed := Some(sig))])
      case _ => pc == Finished(Done(rows[id])) && rows' == rows
  }

  /** And how it ends from the signature request on, if the row may have moved since it was
      read. */
  ghost predicate StoredAs(rows: map<nat, Row>, id: nat, world: PC -> Env, rows': map<nat, Row>, pc: PC) {
    if id !in rows then pc == Finished(Error) && rows' == rows
    else
      match world(Requesting(id)).signer
      case SignerError => pc == Finished(Error) && rows' == rows
      case Pending => pc == Finished(SignaturePending) && rows' == rows
      case Rejected =>
        if world(Rejecting(id)).dbFails then pc == Finished(Error) && rows' == rows
        else
          && pc == Finished(SignatureRejected)
          && rows' == if rows[id].status in {Built, Signed} then rows[id := rows[id].(status := Failed)] else rows
      case Approved(sig) => PutAs(rows, id, sig, world, rows', pc)
  }

  /** A signature is stored over BUILT; over anything else, what is there is taken. */
  ghost predicate PutAs(rows: map<nat, Row>, id: nat, sig: string, world: PC -> Env, rows': map<nat, Row>, pc: PC)
    requires id in rows
  {
    if world(Storing(id, sig)).dbFails then pc == Finished(Error) && rows' == rows
    else if rows[id].status.Built? then pc == Locking(id) && rows' == rows[id := rows[id].(status := Signed, signed := Some(sig))]
    else
      && rows' == rows
      && pc == if world(Rereading(id)).dbFails then Finished(Error)
               else if rows[id].status.Signed? then Locking(id) else Finished(Done(rows[id]))
  }

  /** How `ensureBroadcast` ends, from the row as it was and the answers to the locking
      read, the submission and the commit. */
  ghost predicate BroadcastAs(s: System, id: nat, tx: string, world: PC -> Env, s': System, pc: PC) {
    if world(Locking(id)).dbFails || id !in s.rows then pc == Finished(Error) && s'.rows == s.rows && s'.sent == s.sent
    else if s.rows[id].status in {Status.Broadcast, Confirmed, Failed} then pc == Finished(Done(s.rows[id])) && s'.rows == s.rows && s'.sent == s.sent
    else if s.rows[id].status.Built? || s.rows[id].signed.None? then pc == Finished(Error) && s'.rows == s.rows && s'.sent == s.sent
    else
      var sig := s.rows[id].signed.value;
      var env := world(Submitting(id, sig));
      if !env.decodes then pc == Finished(Error) && s'.rows == s.rows && s'.sent == s.sent
      else
        && s'.sent == s.sent + [Submission(id, tx, sig, env.chain.Some?)]
        && if env.chain.None? || world(Committing(id, env.chain.value)).commit.Undone? then pc == Finished(Error) && s'.rows == s.rows
           else
             && s'.rows == s.rows[id := s.rows[id].(status := Status.Broadcast, txid := env.chain)]
             && pc == Finished(if world(Committing(id, env.chain.value)).commit.Committed? then Done(s'.rows[id]) else Error)
  }

  // ---------- one caller's code ----------

  /** Only caller `c` acts, and each step is answered as `world` answers where it stands. */
  ghost predicate Driven(s: System, c: nat, es: seq<Event>, world: PC -> Env)
    decreases |es|
  {
    es == [] || (c in s.callers && es[0] == Act(c, world(s.callers[c].pc)) && Driven(Step(s, es[0]), c, es[1..], world))
  }

  /** The dispatcher's code over the table. Each statement is one step of the machine;
      the ghost fields are the rest of the machine's state. A method returns where the
      Go function it models leaves its caller. */
  class Dispatcher {
    var rows: map<nat, Row>
    var nextId: nat
    ghost var locks: map<nat, nat>
    ghost var callers: map<nat, Caller>
    ghost var sent: seq<Submission>
    ghost var rollbacks: multiset<nat>

    ghost function State(): System
      reads this
    {
      System(rows, nextId, locks, callers, sent, rollbacks)
    }

    ghost predicate Stands(c: nat, call: Call, pc: PC)
      reads this
    {
      c in callers && callers[c] == Caller(call, pc)
    }

    constructor ()
      ensures State() == Empty
    {
      rows, nextId, locks, callers, sent, rollbacks := map[], 0, map[], map[], [], multiset{};
    }

    /** The INSERT of `Create`. */
    method Insert(ghost c: nat, call: Call, env: Env) returns (pc: PC)
      requires Stands(c, call, Creating)
      modifies this`rows, this`nextId, this`callers
      ensures State() == Step(old(State()), Act(c, env)) && Stands(c, call, pc) && (pc.Refetching? || pc.Reading? || pc.Finished?)
    {
      if env.dbFails {
        pc := Finished(Error);
      } else if exists id :: id in rows && rows[id].hash == Sha256(call.tx) {
        pc := Refetching;
      } else if exists id :: id in rows && rows[id].orderId == call.orderId && rows[id].number == call.number {
        pc := Finished(Error);
      } else {
        pc := Reading(nextId);
        rows, nextId := rows[nextId := NewRow(call)], nextId + 1;
      }
      callers := callers[c := Caller(call, pc)];
    }

    /** `getByUnsignedTxHash`. */
    method Refetch(ghost c: nat, call: Call, env: Env) returns (pc: PC)
      requires Stands(c, call, Refetching) && RowsSound(State())
      modifies this`callers
      ensures State() == Step(old(State()), Act(c, env)) && Stands(c, call, pc) && (pc.Reading? || pc.Finished?)
    {
      if env.dbFails {
        pc := Finished(Error);
      } else if id :| id in rows && rows[id].hash == Sha256(call.tx) {
        FoundIs(State(), id);
        pc := if Terminal(rows[id].status) then Finished(Done(rows[id])) else Reading(id);
      } else {
        pc := Finished(Error);
      }
      callers := callers[c := Caller(call, pc)];
    }

    /** The `Get` that begins `ensureSigned`. */
    method Read(ghost c: nat, call: Call, id: nat, env: Env) returns (pc: PC)
      requires Stands(c, call, Reading(id))
      modifies this`callers
      ensures State() == Step(old(State()), Act(c, env)) && Stands(c, call, pc)
      ensures pc == Requesting(id) || pc == Locking(id) || pc.Finished?
    {
      pc := if env.dbFails || id !in rows then Finished(Error) else AfterReading(rows[id], id);
      callers := callers[c := Caller(call, pc)];
    }

    method Request(ghost c: nat, call: Call, id: nat, env: Env) returns (pc: PC)
      requires Stands(c, call, Requesting(id))
      modifies this`callers
      ensures State() == Step(old(State()), Act(c, env)) && Stands(c, call, pc)
      ensures pc == Rejecting(id) || (pc.Storing? && pc.id == id) || pc.Finished?
    {
      pc := if id in rows then Signing(id, env.signer) else Finished(Error);
      callers := callers[c := Caller(call, pc)];
    }

    /** `MarkFailed`, after a rejection. */
    method Reject(ghost c: nat, call: Call, id: nat, env: Env) returns (pc: PC)
      requires Stands(c, call, Rejecting(id)) && id !in locks
      modifies this`rows, this`callers
      ensures State() == Step(old(State()), Act(c, env)) && Stands(c, call, pc) && pc.Finished?
    {
      pc := Finished(if env.dbFails || id !in rows then Error else SignatureRejected);
      if !env.dbFails && id in rows && (rows[id].status.Built? || rows[id].status.Signed?) {
        rows := rows[id := rows[id].(status := Failed)];
      }
      callers := callers[c := Caller(call, pc)];
    }

    /** `markSigned`. */
    method Store(ghost c: nat, call: Call, id: nat, sig: string, env: Env) returns (pc: PC)
      requires Stands(c, call, Storing(id, sig)) && id !in locks
      modifies this`rows, this`callers
      ensures State() == Step(old(State()), Act(c, env)) && Stands(c, call, pc)
      ensures pc == Rereading(id) || pc == Locking(id) || pc.Finished?
    {
      if env.dbFails || id !in rows {
        pc := Finished(Error);
      } else if rows[id].status.Built? {
        pc := Locking(id);
        rows := rows[id := rows[id].(status := Signed, signed := Some(sig))];
      } else {
        pc := Rereading(id);
      }
      callers := callers[c := Caller(call, pc)];
    }

    /** The `Get` after a `markSigned` that matched nothing. */
    method Reread(ghost c: nat, call: Call, id: nat, env: Env) returns (pc: PC)
      requires Stands(c, call, Rereading(id))
      modifies this`callers
      ensures State() == Step(old(State()), Act(c, env)) && Stands(c, call, pc) && (pc == Locking(id) || pc.Finished?)
    {
      pc := if env.dbFails || id !in rows then Finished(Error) else if Terminal(rows[id].status) then Finished(Done(rows[id])) else Locking(id);
      callers := callers[c := Caller(call, pc)];
    }

    /** `getForUpdate`, and the checks made under the lock. */
    method Lock(ghost c: nat, call: Call, id: nat, env: Env) returns (pc: PC)
      requires Stands(c, call, Locking(id)) && id !in locks
      modifies this`locks, this`callers
      ensures State() == Step(old(State()), Act(c, env)) && Stands(c, call, pc)
      ensures (pc.Submitting? && pc.id == id && id in rows) || pc.Finished?
    {
      if env.dbFails || id !in rows {
        pc := Finished(Error);
      } else if Terminal(rows[id].status) {
        pc := Finished(Done(rows[id]));
      } else if !rows[id].status.Signed? || rows[id].signed.None? {
        pc := Finished(Error);
      } else {
        pc := Submitting(id, rows[id].signed.value);
        locks := locks[id := c];
      }
      callers := callers[c := Caller(call, pc)];
    }

    /** The chain call. */
    method Submit(ghost c: nat, call: Call, id: nat, sig: string, env: Env) returns (pc: PC)
      requires Stands(c, call, Submitting(id, sig)) && id in rows
      modifies this`sent, this`locks, this`callers
      ensures State() == Step(old(State()), Act(c, env)) && Stands(c, call, pc)
      ensures (pc.Committing? && pc.id == id) || pc.Finished?
    {
      SubmittingIs(State(), c, env);
      if env.decodes {
        sent := sent + [Submission(id, call.tx, sig, env.chain.Some?)];
      }
      if env.decodes && env.chain.Some? {
        pc := Committing(id, env.chain.value);
      } else {
        pc := Finished(Error);
        locks := locks - {id};
      }
      callers := callers[c := Caller(call, pc)];
    }

    /** `markBroadcast`, and the commit. */
    method Commit(ghost c: nat, call: Call, id: nat, txid: string, env: Env) returns (pc: PC)
      requires Stands(c, call, Committing(id, txid)) && id in rows
      modifies this`rows, this`rollbacks, this`locks, this`callers
      ensures State() == Step(old(State()), Act(c, env)) && Stands(c, call, pc) && pc.Finished?
    {
      CommittingIs(State(), c, env);
      pc := Finished(Error);
      if env.commit.Undone? {
        rollbacks := rollbacks + multiset{id};
      } else {
        rows := rows[id := rows[id].(status := Status.Broadcast, txid := Some(txid))];
        if env.commit.Committed? {
          pc := Finished(Done(rows[id]));
        }
      }
      locks, callers := locks - {id}, callers[c := Caller(call, pc)];
    }

    /** `Create`. */
    method Create(ghost c: nat, call: Call, world: PC -> Env) returns (pc: PC, ghost es: seq<Event>)
      requires Stands(c, call, Creating) && RowsSound(State())
      modifies this`rows, this`nextId, this`callers
      ensures State() == Run(old(State()), es) && Driven(old(State()), c, es, world) && Stands(c, call, pc) && (pc.Reading? || pc.Finished?)
      ensures CreatedAs(old(rows), old(nextId), call, world, rows, pc)
    {
      ghost var before := State();
      es := Next(before, [], c, world);
      pc := Insert(c, call, world(Creating));
      if pc.Refetching? {
        es := Next(before, es, c, world);
        pc := Refetch(c, call, world(Refetching));
      }
    }

    /** `ensureSigned`. */
    method EnsureSigned(ghost c: nat, call: Call, id: nat, world: PC -> Env) returns (pc: PC, ghost es: seq<Event>)
      requires Stands(c, call, Reading(id)) && id !in locks
      modifies this`rows, this`callers
      ensures State() == Run(old(State()), es) && Driven(old(State()), c, es, world) && Stands(c, call, pc) && (pc == Locking(id) || pc.Finished?)
      ensures SignedAs(old(rows), id, world, rows, pc)
    {
      ghost var before := State();
      es := Next(before, [], c, world);
      pc := Read(c, call, id, world(Reading(id)));
      if pc == Requesting(id) {
        ghost var more: seq<Event>;
        pc, more := RequestAndStore(c, call, id, world);
        DrivenAppend(before, c, es, more, world);
        es := es + more;
      }
    }

    /** The second half of `ensureSigned`: a signature is asked for, and its answer stored,
        whatever may have become of the row. */
    method RequestAndStore(ghost c: nat, call: Call, id: nat, world: PC -> Env) returns (pc: PC, ghost es: seq<Event>)
      requires Stands(c, call, Requesting(id)) && id !in locks
      modifies this`rows, this`callers
      ensures State() == Run(old(State()), es) && Driven(old(State()), c, es, world) && Stands(c, call, pc) && (pc == Locking(id) || pc.Finished?)
      ensures StoredAs(old(rows), id, world, rows, pc)
    {
      ghost var before := State();
      es := Next(before, [], c, world);
      pc := Request(c, call, id, world(Requesting(id)));
      if pc == Rejecting(id) {
        es := Next(before, es, c, world);
        pc := Reject(c, call, id, world(pc));
      } else if pc.Storing? {
        ghost var more: seq<Event>;
        pc, more := StoreSignature(c, call, id, pc.sig, world);
        DrivenAppend(before, c, es, more, world);
        es := es + more;
      }
    }

    method StoreSignature(ghost c: nat, call: Call, id: nat, sig: string, world: PC -> Env) returns (pc: PC, ghost es: seq<Event>)
      requires Stands(c, call, Storing(id, sig)) && id !in locks && id in rows
      modifies this`rows, this`callers
      ensures State() == Run(old(State()), es) && Driven(old(State()), c, es, world) && Stands(c, call, pc) && (pc == Locking(id) || pc.Finished?)
      ensures PutAs(old(rows), id, sig, world, rows, pc)
    {
      ghost var before := State();
      es := Next(before, [], c, world);
      pc := Store(c, call, id, sig, world(Storing(id, sig)));
      if pc == Rereading(id) {
        es := Next(before, es, c, world);
        pc := Reread(c, call, id, world(Rereading(id)));
      }
    }

    /** `ensureBroadcast`. */
    method EnsureBroadcast(ghost c: nat, call: Call, id: nat, world: PC -> Env) returns (pc: PC, ghost es: seq<Event>)
      requires Stands(c, call, Locking(id)) && id !in locks
      modifies this`rows, this`rollbacks, this`sent, this`locks, this`callers
      ensures State() == Run(old(State()), es) && Driven(old(State()), c, es, world) && Stands(c, call, pc) && pc.Finished?
      ensures BroadcastAs(old(State()), id, call.tx, world, State(), pc)
    {
      ghost var before := State();
      es := Next(before, [], c, world);
      pc := Lock(c, call, id, world(Locking(id)));
      if pc.Submitting? {
        es := Next(before, es, c, world);
        pc := Submit(c, call, id, pc.sig, world(pc));
        if pc.Committing? {
          es := Next(before, es, c, world);
          pc := Commit(c, call, id, pc.txid, world(pc));
        }
      }
    }

    /** `Broadcast`, run alone: exactly the machine's steps for its caller, to the end. */
    method Broadcast(ghost c: nat, call: Call, world: PC -> Env) returns (answer: Answer, ghost es: seq<Event>)
      requires RowsSound(State()) && c !in callers && locks == map[]
      modifies this
      ensures c in callers && callers[c] == Caller(call, Finished(answer))
      ensures State() == Run(Step(old(State()), Start(c, call)), es) && Driven(Step(old(State()), Start(c, call)), c, es, world)
      ensures answer.SignaturePending? ==>
                exists id :: id in rows && rows[id].status.Built? && rows[id].hash == Sha256(call.tx) && world(Requesting(id)).signer == Pending
      ensures answer.SignatureRejected? ==>
                exists id :: id in rows && rows[id].status.Failed? && rows[id].hash == Sha256(call.tx) && world(Requesting(id)).signer == Rejected
    {
      callers := callers[c := Caller(call, Creating)];
      ghost var begun := State();
      ghost var more: seq<Event>;
      var pc;
      pc, es := Create(c, call, world);
      if pc.Reading? {
        var id := pc.id;
        pc, more := EnsureSigned(c, call, id, world);
        DrivenAppend(begun, c, es, more, world);
        es := es + more;
        if pc == Locking(id) {
          pc, more := EnsureBroadcast(c, call, id, world);
          DrivenAppend(begun, c, es, more, world);
          es := es + more;
        }
      }
      answer := pc.answer;
    }
  }

  lemma {:induction false} DrivenAppend(s: System, c: nat, es: seq<Event>, more: seq<Event>, world: PC -> Env)
    requires Driven(s, c, es, world) && Driven(Run(s, es), c, more, world)
    ensures Driven(s, c, es + more, world) && Run(s, es + more) == Run(Run(s, es), more)
    decreases |es|
  {
    if es == [] {
      assert [] + more == more;
    } else {
      assert (es + more)[0] == es[0] && (es + more)[1..] == es[1..] + more;
      DrivenAppend(Step(s, es[0]), c, es[1..], more, world);
    }
  }

  /** The step the caller takes next, added to those it has taken. */
  ghost function Next(s: System, es: seq<Event>, c: nat, world: PC -> Env): (more: seq<Event>)
    requires Driven(s, c, es, world) && c in Run(s, es).callers
    ensures Run(s, more) == Step(Run(s, es), Act(c, world(Run(s, es).callers[c].pc))) && Driven(s, c, more, world)
  {
    var e := Act(c, world(Run(s, es).callers[c].pc));
    assert [e][1..] == [];
    assert Run(Step(Run(s, es), e), []) == Step(Run(s, es), e);
    DrivenAppend(s, c, es, [e], world);
    es + [e]
  }

  lemma SubmittingIs(s: System, c: nat, env: Env)
    requires c in s.callers && s.callers[c].pc.Submitting? && s.callers[c].pc.id in s.rows
    ensures var Caller(call, pc) := s.callers[c];
            var sent := s.(sent := s.sent + [Submission(pc.id, call.tx, pc.sig, env.chain.Some?)]);
            ActOf(s, c, env) == if !env.decodes then Leave(s, c, pc.id, Error)
                                else if env.chain.None? then Leave(sent, c, pc.id, Error)
                                else At(sent, c, Committing(pc.id, env.chain.value))
  {
  }

  lemma CommittingIs(s: System, c: nat, env: Env)
    requires c in s.callers && s.callers[c].pc.Committing? && s.callers[c].pc.id in s.rows
    ensures var Committing(id, txid) := s.callers[c].pc;
            ActOf(s, c, env) == if env.commit.Undone? then Leave(Undoing(s, id), c, id, Error)
               else Leave(Recording(s, id, txid), c, id, if env.commit.Committed? then Done(Recording(s, id, txid).rows[id]) else Error)
  {
  }

  /** A transfer is recorded once, so a row found by its hash is the row. */
  lemma FoundIs(s: System, id: nat)
    requires RowsSound(s) && id in s.rows
    ensures RowOf(s.rows, s.rows[id].hash) == Some(id)
  {
  }
}
