/** The reputation table of the CognitoSync store: entity to score, in
    first-insertion order, read with a neutral default. */
module Reputation {
  import opened Common
  import opened OrderedMaps
  import opened Slicing
  import opened Ranking

  /** `reputation_scores`. */
  type ReputationLedger = OrderedMap<string, real>

  /** The score of an entity nobody has rated. */
  const DefaultScore: real := 50.0

  datatype Standing = Trusted | Neutral | LowTrust

  /** The `status` band of a score: lower bounds inclusive. */
  function StandingOf(score: real): (s: Standing)
    ensures s == Trusted <==> score >= 75.0
    ensures s == Neutral <==> 50.0 <= score < 75.0
    ensures s == LowTrust <==> score < 50.0
  {
    if score >= 75.0 then Trusted else if score >= 50.0 then Neutral else LowTrust
  }

  /** The score and band `get_reputation` reports. */
  datatype ReputationView = ReputationView(entityId: string, reputationScore: real, status: Standing)

  /** `get_reputation`: the stored score, or 50.0 when the entity is unknown. */
  function GetReputation(scores: ReputationLedger, entityId: string): (r: ReputationView)
    ensures r.entityId == entityId
    ensures entityId in scores.entries ==> r.reputationScore == scores.entries[entityId]
    ensures entityId !in scores.entries ==> r.reputationScore == DefaultScore
    ensures r.status == StandingOf(r.reputationScore)
  {
    var score := scores.Get(entityId, DefaultScore);
    ReputationView(entityId, score, StandingOf(score))
  }

  /** An unknown entity reads as neutral, not as an error. */
  lemma UnknownIsNeutral(scores: ReputationLedger, entityId: string)
    requires entityId !in scores.entries
    ensures GetReputation(scores, entityId) == ReputationView(entityId, 50.0, Neutral)
  {
  }

  /** The `ReputationEntry` request model. */
  datatype ReputationEntry = ReputationEntry(
    entityId: string,
    entityType: string,
    reputationScore: real,
    contributions: int,
    accuracyRate: real,
    lastUpdated: Time)

  /** The score of a (entity, score) pair; the sort key of the leaderboard. */
  function ScoreOf(item: (string, real)): real
  {
    item.1
  }

  /** The response of `get_reputation_leaderboard`. */
  datatype Leaderboard = Leaderboard(leaderboard: seq<(string, real)>, totalContributors: nat)

  /** `get_reputation_leaderboard`: the items sorted by score, highest first,
      ties in insertion order, cut at `limit` with Python's slice rules. */
  function ReputationLeaderboard(scores: ReputationLedger, limit: int): Leaderboard
    requires scores.Valid()
  {
    Leaderboard(Slice(SortDescending(scores.Items(), ScoreOf), 0, limit), |scores.entries|)
  }

  /** The leaderboard holds the first `limit` rated entities by score (with
      Python's slice rules, so a negative limit drops the last `-limit`),
      each with its own score, in descending order of score; no entity left
      out scores above one listed; and among equal scores it keeps insertion
      order. The total counts every entity. */
  lemma {:induction false} LeaderboardIsTopInOrder(scores: ReputationLedger, limit: int, v: real)
    requires scores.Valid()
    ensures var board, items := ReputationLeaderboard(scores, limit).leaderboard, scores.Items();
      && |board| == Bound(limit, |scores.keys|)
      && Descending(board, ScoreOf)
      && (forall i :: 0 <= i < |board| ==> board[i].0 in scores.entries && scores.entries[board[i].0] == board[i].1)
      && (forall p, q :: p in items && p !in board && q in board ==> ScoreOf(p) <= ScoreOf(q))
      && WithKey(board, ScoreOf, v) <= WithKey(items, ScoreOf, v)
    ensures ReputationLeaderboard(scores, limit).totalContributors == |scores.keys|
  {
    var items := scores.Items();
    var sorted := SortDescending(items, ScoreOf);
    FirstElements(sorted, limit);
    SortedPrefix(items, Bound(limit, |items|), ScoreOf, v);
    ItemsAreEntries(scores, sorted[..Bound(limit, |items|)]);
    SizeIsKeyCount(scores);
  }

  /** The table A = 90, B = 90, C = 70, entered in that order. */
  function ExampleScores(): (scores: ReputationLedger)
    ensures scores.keys == ["A", "B", "C"]
  {
    OrderedMap(["A", "B", "C"], map["A" := 90.0, "B" := 90.0, "C" := 70.0])
  }

  /** On that table the top two are A then B: the tie at 90 keeps insertion order. */
  lemma LeaderboardExample()
    ensures ExampleScores().Valid()
    ensures ReputationLeaderboard(ExampleScores(), 2).leaderboard == [("A", 90.0), ("B", 90.0)]
  {
    ExampleItems();
    ExampleSorted();
  }

  lemma ExampleItems()
    ensures ExampleScores().Valid()
    ensures ExampleScores().Items() == [("A", 90.0), ("B", 90.0), ("C", 70.0)]
  {
    var scores := ExampleScores();
    assert "A" != "B" && "A" != "C" && "B" != "C";
    var items := scores.Items();
    assert items[0] == ("A", 90.0) && items[1] == ("B", 90.0) && items[2] == ("C", 70.0);
  }

  lemma ExampleSorted()
    ensures SortDescending([("A", 90.0), ("B", 90.0), ("C", 70.0)], ScoreOf)
         == [("A", 90.0), ("B", 90.0), ("C", 70.0)]
  {
    var a, b, c: (string, real) := ("A", 90.0), ("B", 90.0), ("C", 70.0);
    assert [a, b, c][1..] == [b, c] && [b, c][1..] == [c];
    assert SortDescending([c], ScoreOf) == [c];
    assert SortDescending([b, c], ScoreOf) == Insert(b, [c], ScoreOf) == [b, c];
  }
}
