/** The contributor ledger of the CognitoSync store: per contributor, the
    running total of rewards and the number of rewards, folded from the reward
    records of the history. */
module Incentives {
  import opened OrderedMaps
  import opened Slicing
  import opened Ranking
  import opened AuditTrail

  /** `{"total_rewards": ..., "contribution_count": ...}`. */
  datatype Profile = Profile(totalRewards: real, contributionCount: nat)

  /** `contributors`. */
  type ContributorLedger = OrderedMap<string, Profile>

  /** The profile a contributor starts from on a first reward. */
  const NewProfile: Profile := Profile(0.0, 0)

  /** One reward folded into the ledger: the profile is created at zero if
      missing, then gains the amount and one contribution. */
  function Credit(ledger: ContributorLedger, reward: RewardTransaction): (r: ContributorLedger)
    requires ledger.Valid()
    ensures r.Valid()
  {
    var p := ledger.Get(reward.contributorId, NewProfile);
    ledger.Put(reward.contributorId, Profile(p.totalRewards + reward.amount, p.contributionCount + 1))
  }

  /** A credit adds only its contributor, raises that contributor's total by
      the amount and count by one, starting from zero for a newcomer, and
      leaves every other contributor as it was. */
  lemma CreditEffect(ledger: ContributorLedger, reward: RewardTransaction)
    requires ledger.Valid()
    ensures var r, id := Credit(ledger, reward), reward.contributorId;
      && r.entries.Keys == ledger.entries.Keys + {id}
      && (var before := if id in ledger.entries then ledger.entries[id] else NewProfile;
          r.entries[id] == Profile(before.totalRewards + reward.amount, before.contributionCount + 1))
      && forall c :: c in ledger.entries && c != id ==> r.entries[c] == ledger.entries[c]
  {
  }

  /** The handler's own steps: create a zero profile for a newcomer, then add
      the amount to the stored profile and count the contribution; together
      they are one `Credit`. */
  method CreditInPlace(ledger: ContributorLedger, reward: RewardTransaction) returns (r: ContributorLedger)
    requires ledger.Valid()
    ensures r == Credit(ledger, reward)
  {
    var id := reward.contributorId;
    r := ledger;
    if id !in r.entries {
      r := r.Put(id, NewProfile);
    }
    var p := r.entries[id];
    p := p.(totalRewards := p.totalRewards + reward.amount);
    p := p.(contributionCount := p.contributionCount + 1);
    r := r.Put(id, p);
    if id !in ledger.entries {
      PutTwice(ledger, id, NewProfile, p);
    }
  }

  /** The ledger the reward records of `history` build up from an empty one. */
  function Replay(history: seq<HistoryRecord>): (r: ContributorLedger)
    ensures r.Valid()
  {
    if history == [] then Empty()
    else
      var before := Replay(history[..|history| - 1]);
      match history[|history| - 1]
      case Audit(_, _, _, _, _) => before
      case Reward(t) => Credit(before, t)
  }

  /** An audit entry leaves the ledger as it was. */
  lemma ReplayAudit(history: seq<HistoryRecord>, record: HistoryRecord)
    requires record.Audit?
    ensures Replay(history + [record]) == Replay(history)
  {
    assert (history + [record])[..|history|] == history;
  }

  /** Any run of audit entries leaves the ledger as it was. */
  lemma {:induction false} ReplayAudits(history: seq<HistoryRecord>, audits: seq<HistoryRecord>)
    requires forall i :: 0 <= i < |audits| ==> audits[i].Audit?
    ensures Replay(history + audits) == Replay(history)
  {
    if audits == [] {
      assert history + audits == history;
    } else {
      var n := |audits| - 1;
      ReplayAudits(history, audits[..n]);
      assert history + audits == (history + audits[..n]) + [audits[n]];
      ReplayAudit(history + audits[..n], audits[n]);
    }
  }

  /** A reward record credits its contributor. */
  lemma ReplayReward(history: seq<HistoryRecord>, ledger: ContributorLedger, reward: RewardTransaction)
    requires ledger == Replay(history)
    ensures ledger.Valid()
    ensures Replay(history + [Reward(reward)]) == Credit(ledger, reward)
  {
    assert (history + [Reward(reward)])[..|history|] == history;
  }

  /** The sum of the amounts rewarded to `c` in `history`. */
  function RewardSum(history: seq<HistoryRecord>, c: string): real
  {
    if history == [] then 0.0
    else
      var last := history[|history| - 1];
      RewardSum(history[..|history| - 1], c)
        + (if last.Reward? && last.transaction.contributorId == c then last.transaction.amount else 0.0)
  }

  /** The number of rewards to `c` in `history`. */
  function RewardCount(history: seq<HistoryRecord>, c: string): nat
  {
    if history == [] then 0
    else
      var last := history[|history| - 1];
      RewardCount(history[..|history| - 1], c)
        + (if last.Reward? && last.transaction.contributorId == c then 1 else 0)
  }

  /** Replaying the history gives each contributor the sum of the amounts and
      the number of the rewards addressed to it, whatever the rewards to
      others and the audit entries in between; and a contributor has a
      profile exactly when it has been rewarded. */
  lemma {:induction false} ReplayTotals(history: seq<HistoryRecord>, c: string)
    ensures c in Replay(history).entries <==> RewardCount(history, c) > 0
    ensures RewardCount(history, c) == 0 ==> RewardSum(history, c) == 0.0
    ensures c in Replay(history).entries ==>
              Replay(history).entries[c] == Profile(RewardSum(history, c), RewardCount(history, c))
  {
    if history != [] {
      ReplayTotals(history[..|history| - 1], c);
    }
  }

  /** The response of `get_contributors_stats`: each row is a contributor
      and its profile. */
  datatype ContributorBoard = ContributorBoard(topContributors: seq<(string, Profile)>, totalContributors: nat)

  /** The sort key of the contributor board. */
  function TotalOf(item: (string, Profile)): real
  {
    item.1.totalRewards
  }

  /** `get_contributors_stats`: profiles sorted by total rewards, highest
      first, ties in insertion order, cut at `limit` with Python's slice rules. */
  function TopContributors(ledger: ContributorLedger, limit: int): ContributorBoard
    requires ledger.Valid()
  {
    ContributorBoard(Slice(SortDescending(ledger.Items(), TotalOf), 0, limit), |ledger.entries|)
  }

  /** The board holds the first `limit` contributors by total rewards (with
      Python's slice rules, so a negative limit drops the last `-limit`),
      each with its own profile, highest total first; no contributor left
      out has a higher total than one listed; and among equal totals it keeps
      the order in which contributors were first rewarded. */
  lemma {:induction false} TopContributorsInOrder(ledger: ContributorLedger, limit: int, v: real)
    requires ledger.Valid()
    ensures var rows, items := TopContributors(ledger, limit).topContributors, ledger.Items();
      && |rows| == Bound(limit, |ledger.keys|)
      && Descending(rows, TotalOf)
      && (forall i :: 0 <= i < |rows| ==> rows[i].0 in ledger.entries && ledger.entries[rows[i].0] == rows[i].1)
      && (forall p, q :: p in items && p !in rows && q in rows ==> TotalOf(p) <= TotalOf(q))
      && WithKey(rows, TotalOf, v) <= WithKey(items, TotalOf, v)
    ensures TopContributors(ledger, limit).totalContributors == |ledger.keys|
  {
    var items := ledger.Items();
    var sorted := SortDescending(items, TotalOf);
    FirstElements(sorted, limit);
    SortedPrefix(items, Bound(limit, |items|), TotalOf, v);
    ItemsAreEntries(ledger, sorted[..Bound(limit, |items|)]);
    SizeIsKeyCount(ledger);
  }
}
