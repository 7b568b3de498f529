/** The in-memory store of the CognitoSync service and the HTTP handlers that
    update it: the verification cache, the knowledge base, the reputation
    table, the transaction history and the contributor ledger. */
module CognitoStore {
  import opened Common
  import opened OrderedMaps
  import opened KnowledgeBase
  import opened Reputation
  import opened AuditTrail
  import opened Incentives

  /** The actions the handlers record in the history. */
  const DataIngested: string := "data_ingested"
  const VerificationCompleted: string := "verification_completed"
  const KnowledgeAdded: string := "knowledge_added"
  const ReputationUpdated: string := "reputation_updated"

  /** The `VerifyRequest` model; the handler never reads `checkReputation`. */
  datatype VerifyRequest = VerifyRequest(url: string, crossReference: bool, checkReputation: bool)

  /** What the external verification agent returns for a URL. */
  datatype AgentReport = AgentReport(
    summary: string,
    reliabilityScore: real,
    biasLevel: int,
    verificationStatus: string,
    cardanoHash: string,
    biasAnalysis: map<string, string>)

  /** How the agent call raised: a `ValueError`, or any other exception. */
  datatype AgentFailure = ValueError(message: string) | OtherError(message: string)

  /** The `VerificationResult` model: the agent's report completed with
      cross-references, the source's reputation and the time. */
  datatype VerificationResult = VerificationResult(
    url: string,
    summary: string,
    reliabilityScore: real,
    biasLevel: int,
    verificationStatus: string,
    cardanoHash: string,
    biasAnalysis: map<string, string>,
    crossReferences: seq<string>,
    sourceReputation: real,
    timestamp: Time)

  /** The HTTP error a failed agent call becomes: 400 for a `ValueError`, 500 otherwise. */
  function FailureResponse(failure: AgentFailure): (e: HttpError)
    ensures e.status == if failure.ValueError? then 400 else 500
  {
    match failure
    case ValueError(message) => HttpError(400, message)
    case OtherError(message) => HttpError(500, "Verification failed: " + message)
  }

  /** The `DataSource` model. */
  datatype DataSource = DataSource(sourceType: string, sourceAddress: string, contentHash: string, timestamp: Time)

  /** The `DataIngestionResponse` model. */
  datatype IngestionResponse = IngestionResponse(
    sourcesProcessed: nat,
    successful: nat,
    failed: nat,
    errors: seq<string>,
    ingestionId: string)

  /** What the ingestion loop has counted so far, and the content hashes it has audited. */
  datatype Tally = Tally(successful: nat, failed: nat, errors: seq<string>, ingested: seq<string>)

  /** What one source adds to the tally: an "http" source calls the agent and
      succeeds (and is audited) unless the call raised; "ipfs" and "arweave"
      sources succeed untouched; any other type counts as neither. */
  function IngestStep(t: Tally, source: DataSource, agentError: Option<string>): Tally
  {
    if source.sourceType == "http" then
      match agentError
      case None => Tally(t.successful + 1, t.failed, t.errors, t.ingested + [source.contentHash])
      case Some(e) => Tally(t.successful, t.failed + 1, t.errors + [source.sourceAddress + ": " + e], t.ingested)
    else if source.sourceType == "ipfs" || source.sourceType == "arweave" then
      Tally(t.successful + 1, t.failed, t.errors, t.ingested)
    else
      t
  }

  /** The ingestion loop over `sources`; `agentErrors[i]` is what the agent
      call for source `i` raised, if anything (only "http" sources call it). */
  function Ingest(sources: seq<DataSource>, agentErrors: seq<Option<string>>): Tally
    requires |agentErrors| == |sources|
  {
    if sources == [] then Tally(0, 0, [], [])
    else
      var n := |sources| - 1;
      IngestStep(Ingest(sources[..n], agentErrors[..n]), sources[n], agentErrors[n])
  }

  /** Taking one more source takes one more step. */
  lemma IngestPrefix(sources: seq<DataSource>, agentErrors: seq<Option<string>>, i: nat)
    requires |agentErrors| == |sources| && i < |sources|
    ensures Ingest(sources[..i + 1], agentErrors[..i + 1])
         == IngestStep(Ingest(sources[..i], agentErrors[..i]), sources[i], agentErrors[i])
  {
    assert sources[..i + 1][..i] == sources[..i] && agentErrors[..i + 1][..i] == agentErrors[..i];
  }

  /** The number of sources of a type the loop knows: "http", "ipfs" or "arweave". */
  function KnownSources(sources: seq<DataSource>): nat
  {
    if sources == [] then 0
    else
      var t := sources[|sources| - 1].sourceType;
      KnownSources(sources[..|sources| - 1]) + (if t == "http" || t == "ipfs" || t == "arweave" then 1 else 0)
  }

  /** The content hashes of the "http" sources whose agent call returned, in source order. */
  function HttpSuccesses(sources: seq<DataSource>, agentErrors: seq<Option<string>>): seq<string>
    requires |agentErrors| == |sources|
  {
    if sources == [] then []
    else
      var n := |sources| - 1;
      if sources[n].sourceType == "http" && agentErrors[n].None? then
        HttpSuccesses(sources[..n], agentErrors[..n]) + [sources[n].contentHash]
      else HttpSuccesses(sources[..n], agentErrors[..n])
  }

  /** Every source of a known type counts as exactly one success or one
      failure, sources of any other type count as neither, each failure
      leaves one error message, and the audited hashes are exactly those of
      the "http" sources whose agent call returned, in source order. */
  lemma {:induction false} IngestAccounting(sources: seq<DataSource>, agentErrors: seq<Option<string>>)
    requires |agentErrors| == |sources|
    ensures var t := Ingest(sources, agentErrors);
      && t.successful + t.failed == KnownSources(sources) <= |sources|
      && t.failed == |t.errors|
      && t.ingested == HttpSuccesses(sources, agentErrors)
      && |t.ingested| <= t.successful
  {
    if sources != [] {
      var n := |sources| - 1;
      IngestAccounting(sources[..n], agentErrors[..n]);
    }
  }

  /** The audit entries the ingestion of `hashes` appends. */
  function IngestAudits(hashes: seq<string>, agentId: string, now: Time): (r: seq<HistoryRecord>)
    ensures |r| == |hashes|
    ensures forall i :: 0 <= i < |r| ==> r[i] == Audit(now, DataIngested, agentId, hashes[i], None)
  {
    seq(|hashes|, i requires 0 <= i < |hashes| => Audit(now, DataIngested, agentId, hashes[i], None))
  }

  /** Auditing one more hash appends one more entry. */
  lemma IngestAuditsAppend(hashes: seq<string>, hash: string, agentId: string, now: Time)
    ensures IngestAudits(hashes + [hash], agentId, now)
         == IngestAudits(hashes, agentId, now) + [Audit(now, DataIngested, agentId, hash, None)]
  {
  }

  class Store {
    /** `AGENT_IDENTIFIER`, read from the environment at start-up. */
    const agentId: string
    /** SHA-256 of a text, as a hex string. */
    const sha256: string -> string
    /** Python's `str` of a float, as an f-string renders the score. */
    const scoreText: real -> string

    var cache: map<string, VerificationResult>
    var knowledge: KnowledgeLedger
    var reputation: ReputationLedger
    var history: seq<HistoryRecord>
    var contributors: ContributorLedger

    /** Every knowledge entry sits under its own hash, every cached result under
        its own URL, and the contributor ledger is the fold of the reward
        records in the history. */
    ghost predicate Valid()
      reads this
    {
      && knowledge.Valid()
      && reputation.Valid()
      && (forall h | h in knowledge.entries :: knowledge.entries[h].knowledgeHash == h)
      && (forall u | u in cache :: cache[u].url == u)
      && contributors == Replay(history)
    }

    /** The store at start-up: every ledger empty. */
    constructor (agentId: string, sha256: string -> string, scoreText: real -> string)
      ensures Valid()
      ensures this.agentId == agentId && this.sha256 == sha256 && this.scoreText == scoreText
      ensures cache == map[] && history == []
      ensures knowledge == Empty() && reputation == Empty() && contributors == Empty()
    {
      this.agentId := agentId;
      this.sha256 := sha256;
      this.scoreText := scoreText;
      cache := map[];
      knowledge := Empty();
      reputation := Empty();
      history := [];
      contributors := Empty();
    }

    /** `verify_knowledge`. `agent` is what the agent call for the URL gave;
        it is consulted only on a cache miss. */
    method VerifyKnowledge(request: VerifyRequest, agent: Result<AgentReport, AgentFailure>, now: Time)
      returns (r: Result<VerificationResult, HttpError>)
      requires Valid()
      modifies this
      ensures Valid()
      ensures knowledge == old(knowledge) && reputation == old(reputation) && contributors == old(contributors)
      ensures request.url in old(cache) ==>
                r == Ok(old(cache)[request.url]) && cache == old(cache) && history == old(history)
      ensures request.url !in old(cache) && agent.Err? ==>
                r == Err(FailureResponse(agent.error)) && cache == old(cache) && history == old(history)
      ensures request.url !in old(cache) && agent.Ok? ==>
                var report := agent.value;
                && r == Ok(VerificationResult(
                     request.url, report.summary, report.reliabilityScore, report.biasLevel,
                     report.verificationStatus, report.cardanoHash, report.biasAnalysis,
                     if request.crossReference then CrossReferences(knowledge) else [],
                     reputation.Get(request.url, DefaultScore), now))
                && cache == old(cache)[request.url := r.value]
                && history == old(history) + [Audit(now, VerificationCompleted, agentId, report.cardanoHash, None)]
    {
      if request.url in cache {
        return Ok(cache[request.url]);
      }
      if agent.Err? {
        return Err(FailureResponse(agent.error));
      }
      var report := agent.value;
      var crossRefs: seq<string> := [];
      if request.crossReference {
        crossRefs := ScanCrossReferences(knowledge);
      }
      var sourceRep := reputation.Get(request.url, DefaultScore);
      var result := VerificationResult(
        request.url, report.summary, report.reliabilityScore, report.biasLevel,
        report.verificationStatus, report.cardanoHash, report.biasAnalysis,
        crossRefs, sourceRep, now);
      var record := Audit(now, VerificationCompleted, agentId, report.cardanoHash, None);
      ReplayAudit(history, record);
      cache, history := cache[request.url := result], history + [record];
      r := Ok(result);
    }

    /** `add_to_knowledge_base`: the whole entry replaces whatever sat under its
        hash, and one audit entry records it. */
    method AddToKnowledgeBase(entry: KnowledgeEntry, now: Time)
      requires Valid()
      modifies this
      ensures Valid()
      ensures knowledge == old(knowledge).Put(entry.knowledgeHash, entry)
      ensures history == old(history) + [Audit(now, KnowledgeAdded, agentId, entry.knowledgeHash, None)]
      ensures cache == old(cache) && reputation == old(reputation) && contributors == old(contributors)
    {
      var record := Audit(now, KnowledgeAdded, agentId, entry.knowledgeHash, None);
      ReplayAudit(history, record);
      knowledge, history := knowledge.Put(entry.knowledgeHash, entry), history + [record];
    }

    /** `query_knowledge_base`: the first matches among the entries, in
        knowledge-base order, as many as the limit allows. */
    method QueryKnowledgeBase(topic: string, limit: int) returns (results: seq<KnowledgeEntry>)
      requires Valid()
      ensures results <= Matches(knowledge.Values(), topic)
      ensures |results| == Slicing.Min(|Matches(knowledge.Values(), topic)|, QueryCap(limit))
    {
      results := FirstMatches(knowledge.Values(), topic, limit);
    }

    /** `update_reputation`: the score is overwritten and one audit entry,
        carrying the SHA-256 of the entity id followed by the score text, records it. */
    method UpdateReputation(entry: ReputationEntry, now: Time)
      requires Valid()
      modifies this
      ensures Valid()
      ensures reputation == old(reputation).Put(entry.entityId, entry.reputationScore)
      ensures history == old(history)
                + [Audit(now, ReputationUpdated, agentId, sha256(entry.entityId + scoreText(entry.reputationScore)), None)]
      ensures cache == old(cache) && knowledge == old(knowledge) && contributors == old(contributors)
    {
      var record := Audit(now, ReputationUpdated, agentId, sha256(entry.entityId + scoreText(entry.reputationScore)), None);
      ReplayAudit(history, record);
      reputation, history := reputation.Put(entry.entityId, entry.reputationScore), history + [record];
    }

    /** `distribute_reward`: the reward is appended to the history as it is,
        then folded into its contributor's profile. */
    method DistributeReward(reward: RewardTransaction)
      requires Valid()
      modifies this
      ensures Valid()
      ensures history == old(history) + [Reward(reward)]
      ensures contributors == Credit(old(contributors), reward)
      ensures cache == old(cache) && knowledge == old(knowledge) && reputation == old(reputation)
    {
      ReplayReward(history, contributors, reward);
      var credited := CreditInPlace(contributors, reward);
      history, contributors := history + [Reward(reward)], credited;
    }

    /** `ingest_data`: "http" sources go through the agent and are audited on
        success; "ipfs" and "arweave" sources count as successes untouched. */
    method IngestData(sources: seq<DataSource>, agentErrors: seq<Option<string>>, ingestionId: string, now: Time)
      returns (response: IngestionResponse)
      requires Valid()
      requires |agentErrors| == |sources|
      modifies this
      ensures Valid()
      ensures var t := Ingest(sources, agentErrors);
        && response == IngestionResponse(|sources|, t.successful, t.failed, t.errors, ingestionId)
        && history == old(history) + IngestAudits(t.ingested, agentId, now)
      ensures cache == old(cache) && knowledge == old(knowledge) && reputation == old(reputation)
      ensures contributors == old(contributors)
    {
      var successful, failed, errors := 0, 0, [];
      ghost var ingested: seq<string> := [];
      var i := 0;
      while i < |sources|
        invariant 0 <= i <= |sources|
        invariant Ingest(sources[..i], agentErrors[..i]) == Tally(successful, failed, errors, ingested)
        invariant history == old(history) + IngestAudits(ingested, agentId, now)
        invariant contributors == old(contributors)
        invariant cache == old(cache) && knowledge == old(knowledge) && reputation == old(reputation)
      {
        var source := sources[i];
        ghost var before := Tally(successful, failed, errors, ingested);
        IngestPrefix(sources, agentErrors, i);
        if source.sourceType == "http" {
          match agentErrors[i]
          case None =>
            successful := successful + 1;
            var record := Audit(now, DataIngested, agentId, source.contentHash, None);
            IngestAuditsAppend(ingested, source.contentHash, agentId, now);
            history := history + [record];
            ingested := ingested + [source.contentHash];
          case Some(e) =>
            failed := failed + 1;
            errors := errors + [source.sourceAddress + ": " + e];
        } else if source.sourceType == "ipfs" {
          successful := successful + 1;
        } else if source.sourceType == "arweave" {
          successful := successful + 1;
        }
        assert Tally(successful, failed, errors, ingested) == IngestStep(before, source, agentErrors[i]);
        i := i + 1;
      }
      assert sources[..i] == sources && agentErrors[..i] == agentErrors;
      ReplayAudits(old(history), IngestAudits(ingested, agentId, now));
      response := IngestionResponse(|sources|, successful, failed, errors, ingestionId);
    }
  }
}
