/** The knowledge base of the CognitoSync store: entries keyed by their
    knowledge hash, in first-insertion order, and the read-only handlers over
    it (topic matching, cross-references, statistics, the dApp query). */
module KnowledgeBase {
  import opened Common
  import opened Text
  import opened OrderedMaps
  import opened Slicing

  /** One knowledge entry, as the `KnowledgeEntry` request model carries it. */
  datatype KnowledgeEntry = KnowledgeEntry(
    knowledgeHash: string,
    topic: string,
    summary: string,
    sources: seq<string>,
    verificationScore: real,
    createdAt: Time,
    updatedAt: Time,
    onChainTx: Option<string>)

  /** `knowledge_base`: knowledge hash to entry. */
  type KnowledgeLedger = OrderedMap<string, KnowledgeEntry>

  /** Entries scoring above this are offered as cross-references. */
  const CrossReferenceThreshold: real := 70.0

  /** `query.lower() in entry["topic"].lower()`. */
  predicate TopicMatches(entry: KnowledgeEntry, query: string)
  {
    Contains(Lower(entry.topic), Lower(query))
  }

  /** The entries whose topic matches `query`, in their order. */
  function Matches(entries: seq<KnowledgeEntry>, query: string): seq<KnowledgeEntry>
  {
    if entries == [] then []
    else
      var last := entries[|entries| - 1];
      if TopicMatches(last, query) then Matches(entries[..|entries| - 1], query) + [last]
      else Matches(entries[..|entries| - 1], query)
  }

  /** Exactly the matching entries are kept. */
  lemma {:induction false} MatchesExactly(entries: seq<KnowledgeEntry>, query: string)
    ensures |Matches(entries, query)| <= |entries|
    ensures forall e :: e in Matches(entries, query) <==> e in entries && TopicMatches(e, query)
  {
    if entries != [] {
      var init := entries[..|entries| - 1];
      MatchesExactly(init, query);
      assert entries == init + [entries[|entries| - 1]];
    }
  }

  /** Scanning one more entry adds it to the matches exactly when it matches. */
  lemma MatchesStep(entries: seq<KnowledgeEntry>, i: nat, query: string)
    requires i < |entries|
    ensures TopicMatches(entries[i], query) ==> Matches(entries[..i + 1], query) == Matches(entries[..i], query) + [entries[i]]
    ensures !TopicMatches(entries[i], query) ==> Matches(entries[..i + 1], query) == Matches(entries[..i], query)
  {
    assert entries[..i + 1][..i] == entries[..i];
  }

  /** The matches in a prefix of the entries are a prefix of all the matches. */
  lemma {:induction false} MatchesOfPrefix(entries: seq<KnowledgeEntry>, n: nat, query: string)
    requires n <= |entries|
    ensures Matches(entries[..n], query) <= Matches(entries, query)
  {
    if n < |entries| {
      var init := entries[..|entries| - 1];
      assert init[..n] == entries[..n];
      MatchesOfPrefix(init, n, query);
    } else {
      assert entries[..n] == entries;
    }
  }

  /** How many results `query` may return: the `>= limit` test follows the
      append, so a limit below one still admits one result. */
  function QueryCap(limit: int): nat
  {
    if limit < 1 then 1 else limit
  }

  /** The scan of `query_knowledge_base`: entries are tested in order and the
      scan stops once the results reach `limit`. The results are the first
      matches, as many as the limit allows (at least one, since the test
      follows the append). */
  method FirstMatches(values: seq<KnowledgeEntry>, topic: string, limit: int) returns (results: seq<KnowledgeEntry>)
    ensures results <= Matches(values, topic)
    ensures |results| == Min(|Matches(values, topic)|, QueryCap(limit))
  {
    results := [];
    var i := 0;
    while i < |values|
      invariant 0 <= i <= |values|
      invariant results == Matches(values[..i], topic)
      invariant |results| < QueryCap(limit)
    {
      var entry := values[i];
      MatchesStep(values, i, topic);
      if TopicMatches(entry, topic) {
        results := results + [entry];
        if |results| >= limit {
          MatchesOfPrefix(values, i + 1, topic);
          return;
        }
      }
      i := i + 1;
    }
    assert values[..i] == values;
  }

  /** The keys among `keys` whose entry scores above the threshold, in order. */
  function HighScoreKeys(keys: seq<string>, entries: map<string, KnowledgeEntry>): seq<string>
    requires forall i :: 0 <= i < |keys| ==> keys[i] in entries
  {
    if keys == [] then []
    else
      var last := keys[|keys| - 1];
      if entries[last].verificationScore > CrossReferenceThreshold then HighScoreKeys(keys[..|keys| - 1], entries) + [last]
      else HighScoreKeys(keys[..|keys| - 1], entries)
  }

  /** The cross-references of a new verification: every knowledge hash whose
      entry scores above 70, in knowledge-base order. */
  function CrossReferences(kb: KnowledgeLedger): seq<string>
    requires kb.Valid()
  {
    HighScoreKeys(kb.keys, kb.entries)
  }

  /** The cross-reference scan of `verify_knowledge`: every stored entry is
      visited in order and its hash kept when it scores above the threshold. */
  method ScanCrossReferences(kb: KnowledgeLedger) returns (refs: seq<string>)
    requires kb.Valid()
    ensures refs == CrossReferences(kb)
  {
    refs := [];
    var i := 0;
    while i < |kb.keys|
      invariant 0 <= i <= |kb.keys|
      invariant refs == HighScoreKeys(kb.keys[..i], kb.entries)
    {
      var h := kb.keys[i];
      if kb.entries[h].verificationScore > CrossReferenceThreshold {
        refs := refs + [h];
      }
      assert kb.keys[..i + 1][..i] == kb.keys[..i];
      i := i + 1;
    }
    assert kb.keys[..|kb.keys|] == kb.keys;
  }

  lemma {:induction false} HighScoreKeysExactly(keys: seq<string>, entries: map<string, KnowledgeEntry>)
    requires forall i :: 0 <= i < |keys| ==> keys[i] in entries
    requires NoDuplicates(keys)
    ensures forall h :: h in HighScoreKeys(keys, entries) <==>
              h in keys && entries[h].verificationScore > CrossReferenceThreshold
    ensures NoDuplicates(HighScoreKeys(keys, entries))
  {
    if keys != [] {
      var init := keys[..|keys| - 1];
      var last := keys[|keys| - 1];
      HighScoreKeysExactly(init, entries);
      assert keys == init + [last];
      assert last !in init;
      var before, after := HighScoreKeys(init, entries), HighScoreKeys(keys, entries);
      assert last !in before;
      forall i, j | 0 <= i < j < |after| ensures after[i] != after[j] {
        if j == |before| {
          assert after[j] == last && after[i] == before[i];
        } else {
          assert after[i] == before[i] && after[j] == before[j];
        }
      }
    }
  }

  /** A hash is a cross-reference exactly when its entry scores above 70,
      and none is listed twice. */
  lemma CrossReferencesExactly(kb: KnowledgeLedger)
    requires kb.Valid()
    ensures forall h :: h in CrossReferences(kb) <==>
              h in kb.entries && kb.entries[h].verificationScore > 70.0
    ensures NoDuplicates(CrossReferences(kb))
  {
    HighScoreKeysExactly(kb.keys, kb.entries);
  }

  /** The sum of the verification scores. */
  function ScoreSum(entries: seq<KnowledgeEntry>): real
  {
    if entries == [] then 0.0 else ScoreSum(entries[..|entries| - 1]) + entries[|entries| - 1].verificationScore
  }

  /** The total number of source URLs. */
  function SourceCount(entries: seq<KnowledgeEntry>): nat
  {
    if entries == [] then 0 else SourceCount(entries[..|entries| - 1]) + |entries[|entries| - 1].sources|
  }

  /** Summing over two runs of entries adds their sums. */
  lemma {:induction false} ScoreSumAppend(a: seq<KnowledgeEntry>, b: seq<KnowledgeEntry>)
    ensures ScoreSum(a + b) == ScoreSum(a) + ScoreSum(b)
  {
    if b != [] {
      var init := b[..|b| - 1];
      ScoreSumAppend(a, init);
      assert (a + b)[..|a + b| - 1] == a + init;
    } else {
      assert a + b == a;
    }
  }

  /** Counting the sources of two runs of entries adds their counts. */
  lemma {:induction false} SourceCountAppend(a: seq<KnowledgeEntry>, b: seq<KnowledgeEntry>)
    ensures SourceCount(a + b) == SourceCount(a) + SourceCount(b)
  {
    if b != [] {
      var init := b[..|b| - 1];
      SourceCountAppend(a, init);
      assert (a + b)[..|a + b| - 1] == a + init;
    } else {
      assert a + b == a;
    }
  }

  /** `max(updated_at ..., default=None)`. */
  function LatestUpdate(entries: seq<KnowledgeEntry>): (r: Option<Time>)
    ensures r.None? <==> entries == []
    ensures r.Some? ==> exists i :: 0 <= i < |entries| && entries[i].updatedAt == r.value
    ensures r.Some? ==> forall i :: 0 <= i < |entries| ==> entries[i].updatedAt <= r.value
  {
    if entries == [] then None
    else
      var init := entries[..|entries| - 1];
      var t := entries[|entries| - 1].updatedAt;
      match LatestUpdate(init)
      case None => Some(t)
      case Some(u) => if u >= t then Some(u) else Some(t)
  }

  /** The response of the statistics handler. */
  datatype KnowledgeStats = KnowledgeStats(
    totalEntries: nat,
    averageVerificationScore: real,
    totalSources: nat,
    lastUpdated: Option<Time>)

  /** `knowledge_base_stats`: the average divides by at least one, so an
      empty base averages 0. */
  function Stats(kb: KnowledgeLedger): (r: KnowledgeStats)
    requires kb.Valid()
    ensures r.totalEntries == |kb.entries| == |kb.Values()|
    ensures r.averageVerificationScore == Average(ScoreSum(kb.Values()), r.totalEntries)
    ensures r.totalSources == SourceCount(kb.Values())
    ensures r.lastUpdated == LatestUpdate(kb.Values())
  {
    SizeIsKeyCount(kb);
    var values := kb.Values();
    var n := |kb.entries|;
    var average := Average(ScoreSum(values), n);
    KnowledgeStats(n, average, SourceCount(values), LatestUpdate(values))
  }

  /** `total / max(count, 1)`. */
  function Average(total: real, count: nat): (r: real)
    ensures r * Max(count, 1) as real == total
  {
    total / Max(count, 1) as real
  }

  /** The statistics of an empty base: nothing, average 0, no last update. */
  lemma EmptyStats(kb: KnowledgeLedger)
    requires kb.Valid() && kb.entries == map[]
    ensures Stats(kb) == KnowledgeStats(0, 0.0, 0, None)
  {
    SizeIsKeyCount(kb);
  }

  /** The response of the dApp query handler. */
  datatype DappResponse = DappResponse(
    query: string,
    results: seq<KnowledgeEntry>,
    totalMatches: nat,
    confidenceScore: real)

  /** `dapp_query`: every matching entry and, as confidence, their average
      score (0 when there are none). */
  function DappQuery(kb: KnowledgeLedger, query: string): (r: DappResponse)
    requires kb.Valid()
    ensures r.query == query && r.totalMatches == |r.results|
    ensures r.results == Matches(kb.Values(), query)
    ensures forall e :: e in r.results <==> e in kb.entries.Values && TopicMatches(e, query)
    ensures r.results == [] ==> r.confidenceScore == 0.0
    ensures r.results != [] ==> r.confidenceScore == Average(ScoreSum(r.results), |r.results|)
  {
    var results := Matches(kb.Values(), query);
    MatchesExactly(kb.Values(), query);
    ValuesAreEntries(kb);
    var confidence := if results == [] then 0.0 else Average(ScoreSum(results), |results|);
    DappResponse(query, results, |results|, confidence)
  }

  /** The hashes among the first `n` keys whose entry matches `query`. */
  ghost function MatchingKeys(kb: KnowledgeLedger, n: nat, query: string): set<string>
    requires kb.Valid() && n <= |kb.keys|
  {
    set h | h in kb.keys[..n] && h in kb.entries && TopicMatches(kb.entries[h], query)
  }

  /** Scanning the first `n` entries finds one match per matching hash among the first `n` keys. */
  lemma {:induction false} MatchCountOfPrefix(kb: KnowledgeLedger, n: nat, query: string)
    requires kb.Valid() && n <= |kb.keys|
    ensures |Matches(kb.Values()[..n], query)| == |MatchingKeys(kb, n, query)|
  {
    var values := kb.Values();
    if n == 0 {
      assert values[..0] == [];
      assert MatchingKeys(kb, 0, query) == {};
    } else {
      MatchCountOfPrefix(kb, n - 1, query);
      MatchesStep(values, n - 1, query);
      MatchingKeysStep(kb, n, query);
    }
  }

  /** One more key adds itself to the matching hashes when its entry matches;
      it cannot already be there, since keys are distinct. */
  lemma MatchingKeysStep(kb: KnowledgeLedger, n: nat, query: string)
    requires kb.Valid() && 0 < n <= |kb.keys|
    ensures var h := kb.keys[n - 1];
      && (TopicMatches(kb.entries[h], query) ==>
            h !in MatchingKeys(kb, n - 1, query)
            && MatchingKeys(kb, n, query) == MatchingKeys(kb, n - 1, query) + {h})
      && (!TopicMatches(kb.entries[h], query) ==> MatchingKeys(kb, n, query) == MatchingKeys(kb, n - 1, query))
  {
    var h := kb.keys[n - 1];
    assert kb.keys[..n] == kb.keys[..n - 1] + [h];
    assert h !in kb.keys[..n - 1];
  }

  /** `total_matches` counts the stored hashes whose entry matches: each
      stored entry is reported once, however many entries look alike. */
  lemma DappQueryCountsStoredMatches(kb: KnowledgeLedger, query: string)
    requires kb.Valid()
    ensures DappQuery(kb, query).totalMatches
         == |set h | h in kb.entries && TopicMatches(kb.entries[h], query)|
  {
    MatchCountOfPrefix(kb, |kb.keys|, query);
    assert kb.Values()[..|kb.keys|] == kb.Values();
    assert kb.keys[..|kb.keys|] == kb.keys;
    assert MatchingKeys(kb, |kb.keys|, query) == set h | h in kb.entries && TopicMatches(kb.entries[h], query);
  }

  /** The values in key order are exactly the stored entries. */
  lemma ValuesAreEntries(kb: KnowledgeLedger)
    requires kb.Valid()
    ensures forall e :: e in kb.Values() <==> e in kb.entries.Values
  {
    forall e | e in kb.entries.Values ensures e in kb.Values() {
      var h :| h in kb.entries && kb.entries[h] == e;
      var i :| 0 <= i < |kb.keys| && kb.keys[i] == h;
      assert kb.Values()[i] == e;
    }
  }
}
