/** The synchronous N-of-M agreement round every chain read goes through
    (depositwatcher/internal/chain/agreement.go), and the provider checks that
    guard it (depositwatcher/internal/chain/pool.go). */
module Agreement {
  import opened Sets
  import opened Wrappers

  // ---------- data ----------

  /** What one provider came back with: an answer, or a transport error. */
  datatype Reply<K> = Answer(key: K) | Fault(reason: string)

  datatype NamedResult<K> = NamedResult(name: string, reply: Reply<K>)

  /** Why a provider is marked failed for the round. */
  datatype Blame<K> = Transport(reason: string) | Outvoted(reported: K)

  datatype Verdict<K> = Agreed(winner: K) | NoAgreement | Ambiguous

  // ---------- the round, declaratively ----------

  ghost predicate DistinctNames<K(!new)>(results: seq<NamedResult<K>>) {
    forall i, j :: 0 <= i < j < |results| ==> results[i].name != results[j].name
  }

  ghost function Backers<K(!new)>(results: seq<NamedResult<K>>, k: K): set<string> {
    set r | r in results && r.reply == Answer(k) :: r.name
  }

  ghost function Keys<K(!new)>(results: seq<NamedResult<K>>): set<K> {
    set r | r in results && r.reply.Answer? :: r.reply.key
  }

  ghost predicate Reaches<K(!new)>(results: seq<NamedResult<K>>, min: int, k: K) {
    k in Keys(results) && |Backers(results, k)| >= min
  }

  /** `k` reached the threshold and strictly outnumbers every other answer. */
  ghost predicate Wins<K(!new)>(results: seq<NamedResult<K>>, min: int, k: K) {
    && Reaches(results, min, k)
    && forall other :: other in Keys(results) && other != k ==> |Backers(results, other)| < |Backers(results, k)|
  }

  /** The verdict a round must return: the unique largest group that reaches the
      threshold, or which of the two ways there is none. */
  ghost predicate IsVerdict<K(!new)>(results: seq<NamedResult<K>>, min: int, v: Verdict<K>) {
    match v
    case Agreed(w) => Wins(results, min, w)
    case NoAgreement => forall k :: !Reaches(results, min, k)
    case Ambiguous => (exists k :: Reaches(results, min, k)) && forall k :: !Wins(results, min, k)
  }

  /** The one verdict of a round (see VerdictUnique). */
  ghost function VerdictOf<K(!new)>(results: seq<NamedResult<K>>, min: int): (v: Verdict<K>)
    ensures IsVerdict(results, min, v)
  {
    if exists w :: Wins(results, min, w) then var w :| Wins(results, min, w); Agreed(w)
    else if exists k :: Reaches(results, min, k) then Ambiguous
    else NoAgreement
  }

  ghost function Succeeded<K(!new)>(results: seq<NamedResult<K>>, v: Verdict<K>): set<string> {
    if v.Agreed? then Backers(results, v.winner) else {}
  }

  /** Provider `n` failed the round, for reason `b`: it could not be reached, or it
      was on the wrong side of a round in which two different answers came back. */
  ghost predicate Blamed<K(!new)>(results: seq<NamedResult<K>>, v: Verdict<K>, n: string, b: Blame<K>) {
    match b
    case Transport(e) => NamedResult(n, Fault(e)) in results
    case Outvoted(k) =>
      && NamedResult(n, Answer(k)) in results
      && |Keys(results)| > 1
      && n !in Succeeded(results, v)
  }

  // ---------- the algorithm ----------

  ghost predicate GroupsOf<K(!new)>(results: seq<NamedResult<K>>, groups: map<K, seq<string>>) {
    && groups.Keys == Keys(results)
    && forall k :: k in groups ==> NoRepeats(groups[k]) && Elements(groups[k]) == Backers(results, k)
  }

  ghost predicate FaultsOf<K(!new)>(results: seq<NamedResult<K>>, failed: map<string, Blame<K>>) {
    && (forall n :: n in failed ==> failed[n].Transport? && NamedResult(n, Fault(failed[n].reason)) in results)
    && (forall r :: r in results && r.reply.Fault? ==> r.name in failed && failed[r.name] == Transport(r.reply.reason))
  }

  /** First loop: file each answer under its group, each error under its provider. */
  method Collect<K(==,!new)>(results: seq<NamedResult<K>>)
    returns (groups: map<K, seq<string>>, failed: map<string, Blame<K>>)
    requires DistinctNames(results)
    ensures GroupsOf(results, groups)
    ensures FaultsOf(results, failed)
  {
    groups, failed := map[], map[];
    for i := 0 to |results|
      invariant GroupsOf(results[..i], groups)
      invariant FaultsOf(results[..i], failed)
    {
      var r := results[i];
      assert results[..i + 1] == results[..i] + [r];
      match r.reply {
        case Fault(e) =>
          FileFault(results[..i], r, groups, failed);
          failed := failed[r.name := Transport(e)];
        case Answer(key) =>
          FileAnswer(results[..i], r, groups, failed);
          groups := groups[key := (if key in groups then groups[key] else []) + [r.name]];
      }
    }
    assert results[..|results|] == results;
  }

  lemma FileFault<K(!new)>(done: seq<NamedResult<K>>, r: NamedResult<K>, groups: map<K, seq<string>>, failed: map<string, Blame<K>>)
    requires GroupsOf(done, groups) && FaultsOf(done, failed)
    requires r.reply.Fault? && forall q :: q in done ==> q.name != r.name
    ensures GroupsOf(done + [r], groups)
    ensures FaultsOf(done + [r], failed[r.name := Transport(r.reply.reason)])
  {
    assert Keys(done + [r]) == Keys(done);
    forall k | k in groups
      ensures Backers(done + [r], k) == Backers(done, k)
    {
    }
  }

  lemma FileAnswer<K(!new)>(done: seq<NamedResult<K>>, r: NamedResult<K>, groups: map<K, seq<string>>, failed: map<string, Blame<K>>)
    requires GroupsOf(done, groups) && FaultsOf(done, failed)
    requires r.reply.Answer? && forall q :: q in done ==> q.name != r.name
    ensures var k := r.reply.key;
            GroupsOf(done + [r], groups[k := (if k in groups then groups[k] else []) + [r.name]])
    ensures FaultsOf(done + [r], failed)
  {
    var k := r.reply.key;
    var before := if k in groups then groups[k] else [];
    BackersWith(done, r);
    assert Elements(before) == Backers(done, k) && NoRepeats(before) by {
      if k !in groups {
        assert k !in Keys(done);
        assert Backers(done, k) == {};
      }
    }
    ElementsAppend(before, r.name);
  }

  /** One more answer adds its provider to its own group's backers, and to no other's. */
  lemma BackersWith<K(!new)>(done: seq<NamedResult<K>>, r: NamedResult<K>)
    requires r.reply.Answer? && forall q :: q in done ==> q.name != r.name
    ensures Keys(done + [r]) == Keys(done) + {r.reply.key}
    ensures r.name !in Backers(done, r.reply.key)
    ensures forall k :: Backers(done + [r], k) == if k == r.reply.key then Backers(done, k) + {r.name} else Backers(done, k)
  {
    forall k
      ensures Backers(done + [r], k) == if k == r.reply.key then Backers(done, k) + {r.name} else Backers(done, k)
    {
    }
  }

  /** Second loop: the largest group at or above the threshold, and whether two tie
      there. The groups are visited in an arbitrary order. */
  method FindWinner<K(==,!new)>(ghost results: seq<NamedResult<K>>, groups: map<K, seq<string>>, min: int)
    returns (v: Verdict<K>)
    requires GroupsOf(results, groups)
    ensures IsVerdict(results, min, v)
  {
    var todo := groups.Keys;
    var winner: Option<K>, winnerCount, ambiguous := None, 0, false;
    GroupSizes(results, groups);
    while todo != {}
      invariant todo <= groups.Keys
      invariant winner.None? <==> winnerCount == 0
      invariant winner.Some? ==> winner.value in groups.Keys - todo && |groups[winner.value]| == winnerCount >= min
      invariant forall k :: k in groups.Keys - todo && |groups[k]| >= min ==> |groups[k]| <= winnerCount
      invariant ambiguous <==> winner.Some? && exists k :: k in groups.Keys - todo && k != winner.value && |groups[k]| == winnerCount
    {
      var k :| k in todo;
      ghost var before := groups.Keys - todo;
      todo := todo - {k};
      assert groups.Keys - todo == before + {k};
      var count := |groups[k]|;
      assert count > 0;
      if count >= min {
        if winnerCount == 0 {
          winner, winnerCount := Some(k), count;
        } else if count == winnerCount {
          ambiguous := true;
        } else if count > winnerCount {
          winner, winnerCount, ambiguous := Some(k), count, false;
        }
      }
    }
    v := if ambiguous then Ambiguous else if winnerCount == 0 then NoAgreement else Agreed(winner.value);
    if ambiguous {
      assert Reaches(results, min, winner.value);
    }
  }

  /** Everyone blamed so far, once the groups in `todo` are still to be visited. */
  ghost predicate BlamedSoFar<K(!new)>(results: seq<NamedResult<K>>, v: Verdict<K>, todo: set<K>, failed: map<string, Blame<K>>) {
    && (forall n :: n in failed ==> Blamed(results, v, n, failed[n]) && (failed[n].Outvoted? ==> failed[n].reported !in todo))
    && (forall n, b :: Blamed(results, v, n, b) && (b.Outvoted? ==> b.reported !in todo) ==> n in failed && failed[n] == b)
  }

  /** One group's turn: its members join the winners or the failures. */
  method ApportionGroup<K(==)>(names: seq<string>, k: K, winning: set<string>, succeeded0: seq<string>, failed0: map<string, Blame<K>>)
    returns (succeeded: seq<string>, failed: map<string, Blame<K>>)
    ensures Elements(succeeded) == Elements(succeeded0) + Elements(names) * winning
    ensures failed == failed0 + (map n | n in Elements(names) - winning :: Outvoted(k))
  {
    succeeded, failed := succeeded0, failed0;
    for i := 0 to |names|
      invariant Elements(succeeded) == Elements(succeeded0) + Elements(names[..i]) * winning
      invariant failed == failed0 + (map n | n in Elements(names[..i]) - winning :: Outvoted(k))
    {
      var n := names[i];
      assert names[..i + 1] == names[..i] + [n];
      ElementsAppend(names[..i], n);
      if n in winning {
        ElementsAppend(succeeded, n);
        succeeded := succeeded + [n];
      } else {
        failed := failed[n := Outvoted(k)];
      }
    }
    assert names[..|names|] == names;
  }

  lemma BlameGroup<K(!new)>(results: seq<NamedResult<K>>, v: Verdict<K>, todo: set<K>, k: K, failed: map<string, Blame<K>>)
    requires DistinctNames(results) && |Keys(results)| > 1 && k in todo
    requires BlamedSoFar(results, v, todo, failed)
    ensures BlamedSoFar(results, v, todo - {k},
                        failed + (map n | n in Backers(results, k) - Succeeded(results, v) :: Outvoted(k)))
  {
    var after := failed + (map n | n in Backers(results, k) - Succeeded(results, v) :: Outvoted(k));
    forall n | n in Backers(results, k)
      ensures NamedResult(n, Answer(k)) in results
      ensures n !in failed
    {
      NameReportsOnce(results, n, k);
    }
    forall n, b | Blamed(results, v, n, b) && (b.Outvoted? ==> b.reported !in todo - {k})
      ensures n in after && after[n] == b
    {
      if b == Outvoted(k) {
        assert n in Backers(results, k);
      }
    }
  }

  /** Third part: who is credited and who is blamed. Only a round in which two
      different answers came back blames anyone who answered. */
  method Apportion<K(==,!new)>(ghost results: seq<NamedResult<K>>, groups: map<K, seq<string>>, v: Verdict<K>,
                               ghost min: int, faults: map<string, Blame<K>>)
    returns (succeeded: seq<string>, failed: map<string, Blame<K>>)
    requires DistinctNames(results) && GroupsOf(results, groups) && IsVerdict(results, min, v) && FaultsOf(results, faults)
    ensures Elements(succeeded) == Succeeded(results, v)
    ensures BlamedSoFar(results, v, {}, failed)
  {
    OnlyFaultsSoFar(results, v, faults);
    assert |groups| == |groups.Keys|;
    if |groups| > 1 {
      succeeded, failed := ApportionGroups(results, groups, v, faults);
    } else {
      succeeded := if v.Agreed? then groups[v.winner] else [];
      failed := faults;
    }
  }

  method ApportionGroups<K(==,!new)>(ghost results: seq<NamedResult<K>>, groups: map<K, seq<string>>, v: Verdict<K>, faults: map<string, Blame<K>>)
    returns (succeeded: seq<string>, failed: map<string, Blame<K>>)
    requires DistinctNames(results) && GroupsOf(results, groups) && |Keys(results)| > 1
    requires v.Agreed? ==> v.winner in groups
    requires BlamedSoFar(results, v, Keys(results), faults)
    ensures Elements(succeeded) == Succeeded(results, v)
    ensures BlamedSoFar(results, v, {}, failed)
  {
    succeeded, failed := [], faults;
    var winning := if v.Agreed? then set n | n in groups[v.winner] else {};
    assert winning == Succeeded(results, v);
    var todo := groups.Keys;
    while todo != {}
      invariant todo <= Keys(results)
      invariant Elements(succeeded) == if v.Agreed? && v.winner !in todo then Succeeded(results, v) else {}
      invariant BlamedSoFar(results, v, todo, failed)
    {
      var k :| k in todo;
      BlameGroup(results, v, todo, k, failed);
      GroupShare(results, groups, v, k);
      succeeded, failed := ApportionGroup(groups[k], k, winning, succeeded, failed);
      todo := todo - {k};
    }
  }

  lemma OnlyFaultsSoFar<K(!new)>(results: seq<NamedResult<K>>, v: Verdict<K>, faults: map<string, Blame<K>>)
    requires FaultsOf(results, faults)
    ensures BlamedSoFar(results, v, Keys(results), faults)
    ensures |Keys(results)| <= 1 ==> BlamedSoFar(results, v, {}, faults)
  {
    forall n, b | Blamed(results, v, n, b)
      ensures b.Outvoted? ==> b.reported in Keys(results) && |Keys(results)| > 1
      ensures b.Transport? ==> n in faults && faults[n] == b
    {
      if b.Outvoted? {
        var r := NamedResult(n, Answer(b.reported));
        assert r in results && r.reply.key in Keys(results);
      } else {
        var r: NamedResult<K> := NamedResult(n, Fault(b.reason));
        assert r in results && r.reply.Fault?;
      }
    }
  }

  lemma GroupShare<K(!new)>(results: seq<NamedResult<K>>, groups: map<K, seq<string>>, v: Verdict<K>, k: K)
    requires DistinctNames(results) && GroupsOf(results, groups) && k in groups
    ensures Elements(groups[k]) == Backers(results, k)
    ensures Elements(groups[k]) * Succeeded(results, v) == if v == Agreed(k) then Succeeded(results, v) else {}
  {
    if v.Agreed? && v.winner != k {
      BackersDisjoint(results, k, v.winner);
    }
  }

  /** `resolveAgreement`. Its answer does not depend on the order in which the
      groups map is walked: the verdict and the two provider sets are pinned down
      by the declarative round above. */
  method ResolveAgreement<K(==,!new)>(results: seq<NamedResult<K>>, minAgreement: int)
    returns (v: Verdict<K>, succeeded: seq<string>, failed: map<string, Blame<K>>)
    requires DistinctNames(results)
    ensures IsVerdict(results, minAgreement, v) && v == VerdictOf(results, minAgreement)
    ensures Elements(succeeded) == Succeeded(results, v)
    ensures forall n :: n in failed ==> Blamed(results, v, n, failed[n])
    ensures forall n, b :: Blamed(results, v, n, b) ==> n in failed && failed[n] == b
  {
    var groups, faults := Collect(results);
    v := FindWinner(results, groups, minAgreement);
    VerdictUnique(results, results, minAgreement, v, VerdictOf(results, minAgreement));
    succeeded, failed := Apportion(results, groups, v, minAgreement, faults);
  }

  // ---------- NewPool ----------

  datatype PoolError = TooFewProviders | EmptyName | NilClient(name: string) | DuplicateName(name: string) | ThresholdTooHigh(min: int, n: nat)

  /** One configured endpoint; `connected` is false for a nil client. */
  datatype Provider = Provider(name: string, connected: bool)

  ghost predicate PoolAccepts(providers: seq<Provider>, minConfigured: int, allowSingle: bool) {
    && (|providers| >= 2 || (allowSingle && |providers| == 1))
    && (forall p :: p in providers ==> p.name != "" && p.connected)
    && (forall i, j :: 0 <= i < j < |providers| ==> providers[i].name != providers[j].name)
    && minConfigured <= |providers|
  }

  /** `NewPool`: accepts exactly the configurations below, and every accepted one
      has distinct names and a threshold its providers can reach. */
  method NewPool(providers: seq<Provider>, minConfigured: int, allowSingle: bool) returns (r: Result<int, PoolError>)
    ensures r.Ok? <==> PoolAccepts(providers, minConfigured, allowSingle)
    ensures r.Ok? ==> 1 <= r.value <= |providers|
    ensures r.Ok? && (!allowSingle || |providers| >= 2) && minConfigured <= 0 ==> r.value == 2
    ensures r.Ok? && minConfigured > 0 ==> r.value == minConfigured
  {
    if |providers| < 2 && !(allowSingle && |providers| == 1) {
      return Err(TooFewProviders);
    }
    var seen: set<string> := {};
    for i := 0 to |providers|
      invariant seen == set p | p in providers[..i] :: p.name
      invariant forall p :: p in providers[..i] ==> p.name != "" && p.connected
      invariant forall a, b :: 0 <= a < b < i ==> providers[a].name != providers[b].name
    {
      var p := providers[i];
      assert p in providers;
      assert providers[..i + 1] == providers[..i] + [p];
      if p.name == "" {
        return Err(EmptyName);
      }
      if !p.connected {
        return Err(NilClient(p.name));
      }
      if p.name in seen {
        var q :| q in providers[..i] && q.name == p.name;
        return Err(DuplicateName(p.name));
      }
      assert forall a :: 0 <= a < i ==> providers[a] in providers[..i];
      seen := seen + {p.name};
    }
    assert providers[..|providers|] == providers;
    var min := minConfigured;
    if min <= 0 {
      min := 2;
      if allowSingle && |providers| == 1 {
        min := 1;
      }
    }
    if min > |providers| {
      return Err(ThresholdTooHigh(min, |providers|));
    }
    r := Ok(min);
  }

  // ---------- what a round guarantees ----------

  /** There is exactly one verdict: the answer is a function of the set of replies. */
  lemma VerdictUnique<K(!new)>(r1: seq<NamedResult<K>>, r2: seq<NamedResult<K>>, min: int, v1: Verdict<K>, v2: Verdict<K>)
    requires forall r :: r in r1 <==> r in r2
    requires IsVerdict(r1, min, v1) && IsVerdict(r2, min, v2)
    ensures v1 == v2
  {
    assert Keys(r1) == Keys(r2);
    assert forall k :: Backers(r1, k) == Backers(r2, k);
    assert forall k :: Reaches(r1, min, k) == Reaches(r2, min, k);
    forall k
      ensures Wins(r1, min, k) == Wins(r2, min, k)
    {
    }
    if v1.Agreed? && v2.Agreed? && v1.winner != v2.winner {
      assert false;
    }
  }

  /** With a majority threshold no round is ambiguous. */
  lemma MajorityNeverAmbiguous<K(!new)>(results: seq<NamedResult<K>>, min: int, v: Verdict<K>)
    requires DistinctNames(results) && IsVerdict(results, min, v)
    requires 2 * min > |results|
    ensures v != Ambiguous
  {
    if v == Ambiguous {
      var k :| Reaches(results, min, k);
      assert !Wins(results, min, k);
      var other :| other in Keys(results) && other != k && |Backers(results, other)| >= |Backers(results, k)|;
      BackersDisjoint(results, k, other);
      var names := set r | r in results :: r.name;
      assert Backers(results, k) + Backers(results, other) <= names;
      SubsetSize(Backers(results, k) + Backers(results, other), names);
      ImageSize(results);
    }
  }

  /** Fewer than `min` faulty providers cannot make a round agree on anything the
      honest ones do not vouch for. */
  lemma WinnerIsVouchedFor<K(!new)>(results: seq<NamedResult<K>>, min: int, w: K, faulty: set<string>, vouched: K -> bool)
    requires IsVerdict(results, min, Agreed(w))
    requires |faulty| < min
    requires forall r :: r in results && r.name !in faulty && r.reply.Answer? ==> vouched(r.reply.key)
    ensures vouched(w)
  {
    var r := HonestBacker(results, min, w, faulty);
  }

  lemma HonestBacker<K(!new)>(results: seq<NamedResult<K>>, min: int, w: K, faulty: set<string>) returns (r: NamedResult<K>)
    requires IsVerdict(results, min, Agreed(w))
    requires |faulty| < min
    ensures r in results && r.name !in faulty && r.reply == Answer(w)
  {
    if Backers(results, w) <= faulty {
      SubsetSize(Backers(results, w), faulty);
      assert false;
    }
    var n :| n in Backers(results, w) && n !in faulty;
    r :| r in results && r.reply == Answer(w) && r.name == n;
  }

  /** And they cannot stop agreement either, once the honest providers that answered
      give one answer, reach the threshold and outnumber them. */
  lemma HonestMajorityPrevails<K(!new)>(results: seq<NamedResult<K>>, min: int, v: Verdict<K>, k: K, faulty: set<string>)
    requires IsVerdict(results, min, v)
    requires forall r :: r in results && r.name !in faulty && r.reply.Answer? ==> r.reply.key == k
    requires |Backers(results, k)| >= min && |Backers(results, k)| > |faulty|
    ensures v == Agreed(k)
  {
    assert Wins(results, min, k) by {
      assert k in Keys(results) by {
        var n :| n in Backers(results, k);
        var r :| r in results && r.reply == Answer(k) && r.name == n;
      }
      forall other | other in Keys(results) && other != k
        ensures |Backers(results, other)| < |Backers(results, k)|
      {
        assert Backers(results, other) <= faulty;
        SubsetSize(Backers(results, other), faulty);
      }
    }
  }

  /** No provider is both credited and blamed, and the only ones left out of both are
      the members of a single group that fell short on its own. */
  lemma CreditAndBlamePartition<K(!new)>(results: seq<NamedResult<K>>, min: int, v: Verdict<K>, r: NamedResult<K>)
    requires DistinctNames(results) && IsVerdict(results, min, v) && r in results
    ensures r.name in Succeeded(results, v) ==> forall b :: !Blamed(results, v, r.name, b)
    ensures (r.name !in Succeeded(results, v) && forall b :: !Blamed(results, v, r.name, b))
            <==> (v == NoAgreement && r.reply.Answer? && Keys(results) == {r.reply.key})
  {
    match r.reply {
      case Fault(e) =>
        assert Blamed(results, v, r.name, Transport(e));
        if r.name in Succeeded(results, v) {
          NameReportsOnce(results, r.name, v.winner);
        }
      case Answer(k) =>
        assert k in Keys(results);
        NameReportsOnce(results, r.name, k);
        if |Keys(results)| > 1 {
          assert r.name in Succeeded(results, v) || Blamed(results, v, r.name, Outvoted(k));
        } else {
          assert Keys(results) == {k} by {
            SingletonOf(Keys(results), k);
          }
          if v == Ambiguous {
            var other :| Reaches(results, min, other);
            assert Wins(results, min, other);
          }
          if v.Agreed? {
            assert v.winner == k;
          }
        }
    }
  }

  // ---------- helpers ----------

  lemma NameReportsOnce<K(!new)>(results: seq<NamedResult<K>>, n: string, k: K)
    requires DistinctNames(results) && n in Backers(results, k)
    ensures forall r :: r in results && r.name == n ==> r == NamedResult(n, Answer(k))
  {
    var r0 :| r0 in results && r0.reply == Answer(k) && r0.name == n;
    var i :| 0 <= i < |results| && results[i] == r0;
  }

  lemma GroupSizes<K(!new)>(results: seq<NamedResult<K>>, groups: map<K, seq<string>>)
    requires GroupsOf(results, groups)
    ensures forall k :: k in groups ==> |groups[k]| == |Backers(results, k)| > 0
  {
    forall k | k in groups
      ensures |groups[k]| == |Backers(results, k)| > 0
    {
      ElementsSize(groups[k]);
      var r :| r in results && r.reply.Answer? && r.reply.key == k;
      assert r.name in Backers(results, k);
    }
  }

  lemma BackersDisjoint<K(!new)>(results: seq<NamedResult<K>>, a: K, b: K)
    requires DistinctNames(results) && a != b
    ensures Backers(results, a) !! Backers(results, b)
    ensures |Backers(results, a) + Backers(results, b)| == |Backers(results, a)| + |Backers(results, b)|
  {
    forall n | n in Backers(results, a)
      ensures n !in Backers(results, b)
    {
      NameReportsOnce(results, n, a);
    }
  }

  lemma {:induction false} ImageSize<K(!new)>(results: seq<NamedResult<K>>)
    ensures |set r | r in results :: r.name| <= |results|
  {
    if results == [] {
      assert (set r | r in results :: r.name) == {};
    } else {
      ImageSize(results[1..]);
      assert results == [results[0]] + results[1..];
      assert (set r | r in results :: r.name) == {results[0].name} + (set r | r in results[1..] :: r.name);
    }
  }
}
