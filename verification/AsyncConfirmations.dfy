/** Per-provider deposit confirmation (depositwatcher/internal/finality/async.go):
    one candidate's votes, their contradictions, and the status they add up to. */
module AsyncConfirmations {
  import opened Sets
  import opened Wrappers

  type Hash = int

  // ---------- data ----------

  datatype BlockId = BlockId(height: nat, hash: Hash)

  /** A PRESENT observation in full: the block and the deposit decoded there. */
  datatype Facts = Facts(block: BlockId, orderId: int, amount: int)

  datatype Observation = Observation(block: BlockId, present: bool, orderId: int, amount: int) {
    function Seen(): Facts {
      Facts(block, orderId, amount)
    }
  }

  datatype Vote = Vote(provider: string, obs: Observation)

  datatype Status = Pending | QuorumReached | NotFound | DisagreementAlert

  // ---------- reference semantics: what a history of votes means ----------

  /** Each provider's most recent observation. */
  ghost function Latest(votes: seq<Vote>): map<string, Observation> {
    if votes == [] then map[]
    else var v := votes[|votes| - 1]; Latest(votes[..|votes| - 1])[v.provider := v.obs]
  }

  /** Two observations no single chain history explains: different blocks at the
      target height, or the same block with different deposit facts. Presence
      against absence is not one of them. */
  ghost predicate Contradict(a: Observation, b: Observation) {
    a.block != b.block || (a.present && b.present && a.Seen() != b.Seen())
  }

  /** The vote at `i` contradicted what some other provider then stood by. */
  ghost predicate ContradictsAt(votes: seq<Vote>, i: nat)
    requires i < |votes|
  {
    exists q :: q in Latest(votes[..i]) && q != votes[i].provider && Contradict(votes[i].obs, Latest(votes[..i])[q])
  }

  ghost predicate Disagreed(votes: seq<Vote>) {
    exists i :: 0 <= i < |votes| && ContradictsAt(votes, i)
  }

  ghost function PresentProviders(votes: seq<Vote>): set<string> {
    set p | p in Latest(votes) && Latest(votes)[p].present
  }

  ghost function AbsentProviders(votes: seq<Vote>): set<string> {
    set p | p in Latest(votes) && !Latest(votes)[p].present
  }

  ghost function Outcome(min: nat, votes: seq<Vote>): Status {
    if Disagreed(votes) then DisagreementAlert
    else if |PresentProviders(votes)| >= min then QuorumReached
    else if |AbsentProviders(votes)| >= min then NotFound
    else Pending
  }

  // ---------- the mutable tracker ----------

  class CandidateConfirmations {
    const minAgreement: nat
    var presentByProvider: map<string, Facts>
    var absentByProvider: map<string, BlockId>
    var disagreement: bool
    /** The provider pair of the first disagreement ever recorded. */
    var disagreementNote: Option<(string, string)>
    ghost var votes: seq<Vote>

    ghost predicate Valid()
      reads this
    {
      && minAgreement >= 1
      && Holds(votes, presentByProvider, absentByProvider)
      && disagreement == Disagreed(votes) == disagreementNote.Some?
    }

    constructor (min: int)
      ensures Valid() && votes == []
      ensures minAgreement == if min < 1 then 1 else min
    {
      minAgreement := if min < 1 then 1 else min;
      presentByProvider, absentByProvider := map[], map[];
      disagreement, disagreementNote := false, None;
      votes := [];
    }

    /** Looks for another provider already standing by a different block, then for
        one standing by different facts; the maps are walked in arbitrary order. */
    method FindConflict(providerName: string, obs: Observation) returns (found: Option<string>)
      requires Valid()
      ensures found.Some? <==> ContradictsAt(votes + [Vote(providerName, obs)], |votes|)
    {
      var v := Vote(providerName, obs);
      assert (votes + [v])[..|votes|] == votes;
      found := None;
      var todo := presentByProvider.Keys;
      while todo != {}
        invariant todo <= presentByProvider.Keys
        invariant forall p :: p in presentByProvider.Keys - todo && p != providerName ==> presentByProvider[p].block == obs.block
      {
        var name :| name in todo;
        if name != providerName && presentByProvider[name].block != obs.block {
          assert Contradict(obs, Latest(votes)[name]);
          return Some(name);
        }
        todo := todo - {name};
      }
      todo := absentByProvider.Keys;
      while todo != {}
        invariant todo <= absentByProvider.Keys
        invariant forall p :: p in absentByProvider.Keys - todo && p != providerName ==> absentByProvider[p] == obs.block
      {
        var name :| name in todo;
        if name != providerName && absentByProvider[name] != obs.block {
          assert Contradict(obs, Latest(votes)[name]);
          return Some(name);
        }
        todo := todo - {name};
      }
      if obs.present {
        todo := presentByProvider.Keys;
        while todo != {}
          invariant todo <= presentByProvider.Keys
          invariant forall p :: p in presentByProvider.Keys - todo && p != providerName ==> presentByProvider[p] == obs.Seen()
        {
          var name :| name in todo;
          if name != providerName && presentByProvider[name] != obs.Seen() {
            assert Contradict(obs, Latest(votes)[name]);
            return Some(name);
          }
          todo := todo - {name};
        }
      }
      forall q | q in Latest(votes) && q != providerName
        ensures !Contradict(obs, Latest(votes)[q])
      {
        assert q in presentByProvider || q in absentByProvider;
      }
    }

    /** `RecordConfirmed`: one more vote, and the status the whole history now has. */
    method RecordConfirmed(providerName: string, obs: Observation) returns (status: Status)
      requires Valid()
      modifies this
      ensures Valid()
      ensures votes == old(votes) + [Vote(providerName, obs)]
      ensures status == Outcome(minAgreement, votes)
      ensures old(disagreement) ==> disagreementNote == old(disagreementNote)
    {
      var conflict := FindConflict(providerName, obs);
      DisagreedStep(votes, Vote(providerName, obs));
      if conflict.Some? && !disagreement {
        disagreement := true;
        disagreementNote := Some((providerName, conflict.value));
      }
      if obs.present {
        absentByProvider := absentByProvider - {providerName};
        presentByProvider := presentByProvider[providerName := obs.Seen()];
      } else {
        presentByProvider := presentByProvider - {providerName};
        absentByProvider := absentByProvider[providerName := obs.block];
      }
      votes := votes + [Vote(providerName, obs)];
      assert votes[..|votes| - 1] == old(votes);
      if conflict.Some? {
        return DisagreementAlert;
      }
      status := CurrentStatus();
    }

    /** `statusLocked`. */
    method CurrentStatus() returns (status: Status)
      requires Valid()
      ensures status == Outcome(minAgreement, votes)
    {
      assert presentByProvider.Keys == PresentProviders(votes);
      assert absentByProvider.Keys == AbsentProviders(votes);
      assert |presentByProvider| == |presentByProvider.Keys| && |absentByProvider| == |absentByProvider.Keys|;
      if disagreement {
        return DisagreementAlert;
      }
      if |presentByProvider| >= minAgreement {
        return QuorumReached;
      }
      if |absentByProvider| >= minAgreement {
        return NotFound;
      }
      return Pending;
    }
  }

  /** The two maps hold exactly each provider's latest observation. */
  ghost predicate Holds(votes: seq<Vote>, present: map<string, Facts>, absent: map<string, BlockId>) {
    && (forall p :: p in present <==> p in Latest(votes) && Latest(votes)[p].present)
    && (forall p :: p in absent <==> p in Latest(votes) && !Latest(votes)[p].present)
    && (forall p :: p in present ==> present[p] == Latest(votes)[p].Seen())
    && (forall p :: p in absent ==> absent[p] == Latest(votes)[p].block)
  }

  lemma DisagreedStep(votes: seq<Vote>, v: Vote)
    ensures Disagreed(votes + [v]) <==> Disagreed(votes) || ContradictsAt(votes + [v], |votes|)
  {
    var all := votes + [v];
    forall i | 0 <= i < |votes|
      ensures ContradictsAt(all, i) <==> ContradictsAt(votes, i)
    {
      assert all[..i] == votes[..i];
    }
    if Disagreed(votes) {
      var i :| 0 <= i < |votes| && ContradictsAt(votes, i);
      assert ContradictsAt(all, i);
    }
  }

  // ---------- what a history guarantees ----------

  /** An alert is terminal: no later vote clears or outvotes it. */
  lemma AlertIsTerminal(min: nat, votes: seq<Vote>, more: seq<Vote>)
    requires Outcome(min, votes) == DisagreementAlert
    ensures Outcome(min, votes + more) == DisagreementAlert
  {
    var i :| 0 <= i < |votes| && ContradictsAt(votes, i);
    assert (votes + more)[..i] == votes[..i];
    assert ContradictsAt(votes + more, i);
  }

  lemma {:induction false} LatestFromVotes(votes: seq<Vote>)
    ensures forall p :: p in Latest(votes) ==> Vote(p, Latest(votes)[p]) in votes
    ensures forall v :: v in votes ==> v.provider in Latest(votes)
  {
    if votes != [] {
      LatestFromVotes(votes[..|votes| - 1]);
      assert votes == votes[..|votes| - 1] + [votes[|votes| - 1]];
    }
  }

  /** Without a disagreement, everything the providers now stand by fits one chain. */
  lemma {:induction false} LatestIsConsistent(votes: seq<Vote>)
    requires !Disagreed(votes)
    ensures forall p, q :: p in Latest(votes) && q in Latest(votes) && p != q ==> !Contradict(Latest(votes)[p], Latest(votes)[q])
  {
    if votes != [] {
      var init, v := votes[..|votes| - 1], votes[|votes| - 1];
      assert votes == init + [v];
      DisagreedStep(init, v);
      LatestIsConsistent(init);
      assert votes[..|init|] == init;
      assert !ContradictsAt(votes, |init|);
    }
  }

  /** Fewer than `min` lying providers cannot bring about a quorum on facts the honest
      ones never saw: all facts behind a quorum are one fact, and it is vouched for. */
  lemma QuorumIsVouchedFor(min: nat, votes: seq<Vote>, faulty: set<string>, vouched: Facts -> bool)
    requires Outcome(min, votes) == QuorumReached
    requires |faulty| < min
    requires forall v :: v in votes && v.provider !in faulty && v.obs.present ==> vouched(v.obs.Seen())
    ensures exists f :: vouched(f) && forall p :: p in PresentProviders(votes) ==> Latest(votes)[p].Seen() == f
  {
    var honest := SomeHonest(PresentProviders(votes), faulty, min);
    LatestFromVotes(votes);
    LatestIsConsistent(votes);
    var f := Latest(votes)[honest].Seen();
    assert Vote(honest, Latest(votes)[honest]) in votes;
    forall p | p in PresentProviders(votes)
      ensures Latest(votes)[p].Seen() == f
    {
      assert p != honest ==> !Contradict(Latest(votes)[p], Latest(votes)[honest]);
    }
  }

  /** Nor can they have a deposit written off that no honest provider found missing. */
  lemma NotFoundIsVouchedFor(min: nat, votes: seq<Vote>, faulty: set<string>)
    requires Outcome(min, votes) == NotFound
    requires |faulty| < min
    ensures exists v :: v in votes && v.provider !in faulty && !v.obs.present
  {
    var honest := SomeHonest(AbsentProviders(votes), faulty, min);
    LatestFromVotes(votes);
    assert Vote(honest, Latest(votes)[honest]) in votes;
  }

  lemma SomeHonest(names: set<string>, faulty: set<string>, min: nat) returns (honest: string)
    requires |names| >= min > |faulty|
    ensures honest in names && honest !in faulty
  {
    if names <= faulty {
      SubsetSize(names, faulty);
      assert false;
    }
    honest :| honest in names && honest !in faulty;
  }

  // ---------- order independence ----------

  /** Each provider says one thing, however often it repeats it. */
  ghost predicate OneObservationEach(votes: seq<Vote>) {
    forall v, w :: v in votes && w in votes && v.provider == w.provider ==> v == w
  }

  ghost predicate Split(votes: set<Vote>) {
    exists v, w :: v in votes && w in votes && v.provider != w.provider && Contradict(v.obs, w.obs)
  }

  ghost function Voters(votes: set<Vote>, present: bool): set<string> {
    set v | v in votes && v.obs.present == present :: v.provider
  }

  /** The status of a set of votes, with no order in sight. */
  ghost function SetOutcome(min: nat, votes: set<Vote>): Status {
    if Split(votes) then DisagreementAlert
    else if |Voters(votes, true)| >= min then QuorumReached
    else if |Voters(votes, false)| >= min then NotFound
    else Pending
  }

  lemma OutcomeIsSetOutcome(min: nat, votes: seq<Vote>)
    requires OneObservationEach(votes)
    ensures Outcome(min, votes) == SetOutcome(min, Elements(votes))
  {
    VotersAreLatest(votes);
    if Disagreed(votes) {
      DisagreedMeansSplit(votes);
    }
    if Split(Elements(votes)) {
      SplitMeansDisagreed(votes);
    }
  }

  lemma VotersAreLatest(votes: seq<Vote>)
    requires OneObservationEach(votes)
    ensures PresentProviders(votes) == Voters(Elements(votes), true)
    ensures AbsentProviders(votes) == Voters(Elements(votes), false)
  {
    LatestFromVotes(votes);
    forall v | v in votes
      ensures Latest(votes)[v.provider] == v.obs
    {
      assert Vote(v.provider, Latest(votes)[v.provider]) in votes;
    }
    forall p | p in Latest(votes)
      ensures p in Voters(Elements(votes), Latest(votes)[p].present)
    {
      var v := Vote(p, Latest(votes)[p]);
      assert v in Elements(votes) && v.provider == p;
    }
  }

  lemma DisagreedMeansSplit(votes: seq<Vote>)
    requires Disagreed(votes)
    ensures Split(Elements(votes))
  {
    var i :| 0 <= i < |votes| && ContradictsAt(votes, i);
    var q :| q in Latest(votes[..i]) && q != votes[i].provider && Contradict(votes[i].obs, Latest(votes[..i])[q]);
    LatestFromVotes(votes[..i]);
    var v, w := votes[i], Vote(q, Latest(votes[..i])[q]);
    assert v in Elements(votes) && w in Elements(votes);
  }

  lemma SplitMeansDisagreed(votes: seq<Vote>)
    requires OneObservationEach(votes) && Split(Elements(votes))
    ensures Disagreed(votes)
  {
    var v, w :| v in Elements(votes) && w in Elements(votes) && v.provider != w.provider && Contradict(v.obs, w.obs);
    var i :| 0 <= i < |votes| && votes[i] == v;
    var j :| 0 <= j < |votes| && votes[j] == w;
    if i < j {
      LaterContradicts(votes, i, j);
    } else {
      LaterContradicts(votes, j, i);
    }
  }

  lemma LaterContradicts(votes: seq<Vote>, i: nat, j: nat)
    requires OneObservationEach(votes) && i < j < |votes|
    requires votes[i].provider != votes[j].provider && Contradict(votes[i].obs, votes[j].obs)
    ensures Disagreed(votes)
  {
    LatestFromVotes(votes[..j]);
    var p := votes[i].provider;
    assert votes[i] in votes[..j];
    assert Vote(p, Latest(votes[..j])[p]) in votes;
    assert ContradictsAt(votes, j);
  }

  /** When every provider votes one way, any order and any repetition of the same
      votes ends in the same status. */
  lemma OrderDoesNotMatter(min: nat, a: seq<Vote>, b: seq<Vote>)
    requires OneObservationEach(a) && Elements(a) == Elements(b)
    ensures Outcome(min, a) == Outcome(min, b)
  {
    assert forall v :: v in b <==> v in Elements(b);
    assert forall v :: v in a <==> v in Elements(a);
    OutcomeIsSetOutcome(min, a);
    OutcomeIsSetOutcome(min, b);
  }

  /** A provider that changes its own mind breaks this: the same three votes alert in
      one order and reach a quorum in another. */
  lemma OrderMattersWhenAProviderRecants()
    ensures var p0, p1, q1 := Vote("p", Observation(BlockId(7, 0), true, 1, 5)),
                              Vote("p", Observation(BlockId(7, 1), true, 1, 5)),
                              Vote("q", Observation(BlockId(7, 1), true, 1, 5));
            Outcome(2, [p0, p1, q1]) == QuorumReached && Outcome(2, [p0, q1, p1]) == DisagreementAlert
  {
    var o0, o1 := Observation(BlockId(7, 0), true, 1, 5), Observation(BlockId(7, 1), true, 1, 5);
    var p0, p1, q1 := Vote("p", o0), Vote("p", o1), Vote("q", o1);
    var good, bad := [p0, p1, q1], [p0, q1, p1];
    assert good[..0] == [] && good[..1] == [p0] && good[..2] == [p0, p1] && good[..3] == good;
    assert bad[..1] == [p0];
    assert [p0][..0] == [] && [p0, p1][..1] == [p0];
    assert Latest([p0]) == map["p" := o0];
    assert Latest([p0, p1]) == map["p" := o1];
    assert Latest(good) == map["p" := o1, "q" := o1];
    assert !ContradictsAt(good, 0) && !ContradictsAt(good, 1) && !ContradictsAt(good, 2);
    assert PresentProviders(good) == {"p", "q"};
    assert ContradictsAt(bad, 1);
  }

  // ---------- provider height monitor ----------

  /** `ProviderHeightMonitor`: per-provider high-water marks of finalized heights. */
  class ProviderHeightMonitor {
    var max: map<string, nat>
    ghost var readings: seq<(string, nat)>

    ghost predicate Valid()
      reads this
    {
      && (forall r :: r in readings ==> r.0 in max && r.1 <= max[r.0])
      && (forall p :: p in max ==> (p, max[p]) in readings)
    }

    constructor ()
      ensures Valid() && readings == []
    {
      max, readings := map[], [];
    }

    /** A reading is legitimate exactly when nothing higher was read from that
        provider before; a regression never lowers the bar. */
    method Check(providerName: string, height: nat) returns (ok: bool)
      requires Valid()
      modifies this
      ensures Valid() && readings == old(readings) + [(providerName, height)]
      ensures ok <==> forall r :: r in old(readings) && r.0 == providerName ==> r.1 <= height
      ensures ok ==> max == old(max)[providerName := height]
      ensures !ok ==> max == old(max)
    {
      readings := readings + [(providerName, height)];
      if providerName in max && height < max[providerName] {
        return false;
      }
      if providerName !in max || height > max[providerName] {
        max := max[providerName := height];
      }
      return true;
    }
  }
}
