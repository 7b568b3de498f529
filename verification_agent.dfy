/** The verification agent of the CognitoSync service: it fetches a URL's
    text, summarises it, counts bias markers, scores reliability by length,
    hashes the text and derives a verdict from score and bias. Fetching,
    summarising and hashing are foreign calls and come in as parameters. */
module VerificationAgent {
  import opened Common
  import opened Text

  /** The phrases whose presence is read as a sign of bias. */
  const BiasMarkers: seq<string> :=
    ["always", "never", "everyone knows", "obviously", "clearly", "undeniably", "without a doubt"]

  /** A text is "verified" only with a score of at least this ... */
  const VerifiedMinScore: real := 75.0
  /** ... and fewer than this many bias markers. */
  const VerifiedBiasLimit: nat := 2

  datatype Status = Verified | NeedsReview

  /** How many of `markers` occur in `text`; each marker counts at most once. */
  function CountPresent(markers: seq<string>, text: string): (n: nat)
    ensures n <= |markers|
  {
    if markers == [] then 0
    else if Contains(text, markers[0]) then 1 + CountPresent(markers[1..], text)
    else CountPresent(markers[1..], text)
  }

  /** The members of `markers` that occur in `text`. */
  ghost function Present(markers: seq<string>, text: string): set<string>
  {
    set m | m in markers && Contains(text, m)
  }

  /** The bias markers that occur in the lower-cased text. */
  ghost function PresentMarkers(text: string): set<string>
  {
    Present(BiasMarkers, Lower(text))
  }

  /** `detect_bias`: the number of bias markers found in the lower-cased text. */
  function DetectBias(text: string): (n: nat)
    ensures n <= |BiasMarkers| == 7
  {
    CountPresent(BiasMarkers, Lower(text))
  }

  /** `reliability_score`: longer texts score higher, in three bands. */
  function ReliabilityScore(text: string): (r: real)
    ensures r == 60.0 || r == 75.0 || r == 90.0
    ensures r == 90.0 <==> |text| > 5000
    ensures r == 60.0 <==> |text| <= 1500
  {
    if |text| > 5000 then 90.0
    else if |text| > 1500 then 75.0
    else 60.0
  }

  /** The verdict rule of `verify`. */
  function StatusFor(score: real, bias: nat): (s: Status)
    ensures s == Verified <==> score >= 75.0 && bias < 2
  {
    if score >= VerifiedMinScore && bias < VerifiedBiasLimit then Verified else NeedsReview
  }

  /** The dictionary `verify` returns. */
  datatype Report = Report(
    url: string,
    summary: string,
    biasLevel: nat,
    reliabilityScore: real,
    verificationStatus: Status,
    cardanoHash: string,
    biasKeywordsFound: nat)

  /** Why `verify` raised: the fetch failed, or the summariser did. */
  datatype AgentError = FetchFailed(url: string, cause: string) | SummaryFailed(cause: string)

  /** `verify(url)`. `fetched` is what the HTTP fetch of `url` gave, `summarize`
      the language model's answer for a text and `digest` the SHA-256 hex digest. */
  function Verify(url: string, fetched: Result<string, string>,
                  summarize: string -> Result<string, string>,
                  digest: string -> string): (r: Result<Report, AgentError>)
    ensures fetched.Err? ==> r == Err(FetchFailed(url, fetched.error))
    ensures fetched.Ok? && summarize(fetched.value).Err? ==>
              r == Err(SummaryFailed(summarize(fetched.value).error))
    ensures r.Ok? <==> fetched.Ok? && summarize(fetched.value).Ok?
    ensures r.Ok? ==>
              var text := fetched.value;
              && r.value.url == url
              && r.value.summary == summarize(text).value
              && r.value.biasLevel == r.value.biasKeywordsFound == DetectBias(text)
              && r.value.reliabilityScore == ReliabilityScore(text)
              && r.value.cardanoHash == digest(text)
              && r.value.verificationStatus == StatusFor(r.value.reliabilityScore, r.value.biasLevel)
  {
    match fetched
    case Err(e) => Err(FetchFailed(url, e))
    case Ok(text) =>
      match summarize(text)
      case Err(e) => Err(SummaryFailed(e))
      case Ok(summary) =>
        var bias := DetectBias(text);
        var score := ReliabilityScore(text);
        Ok(Report(url, summary, bias, score, StatusFor(score, bias), digest(text), bias))
  }

  /** With distinct markers, the count is the size of the set of markers present. */
  lemma {:induction false} CountPresentIsSetSize(markers: seq<string>, text: string)
    requires forall i, j :: 0 <= i < j < |markers| ==> markers[i] != markers[j]
    ensures CountPresent(markers, text) == |Present(markers, text)|
  {
    if markers != [] {
      var rest := markers[1..];
      CountPresentIsSetSize(rest, text);
      assert markers == [markers[0]] + rest;
      assert markers[0] !in rest;
      var found, others := Present(markers, text), Present(rest, text);
      if Contains(text, markers[0]) {
        assert markers[0] !in others;
        assert found == {markers[0]} + others;
      } else {
        assert found == others;
      }
    }
  }

  /** `detect_bias` counts distinct markers: repeating a marker adds nothing. */
  lemma DetectBiasCountsDistinctMarkers(text: string)
    ensures DetectBias(text) == |PresentMarkers(text)|
  {
    var markers := BiasMarkers;
    assert forall i, j :: 0 <= i < j < |markers| ==> |markers[i]| != |markers[j]|;
    CountPresentIsSetSize(markers, Lower(text));
  }

  lemma {:induction false} CountPresentMonotone(markers: seq<string>, text: string, longer: string)
    requires forall m :: Contains(text, m) ==> Contains(longer, m)
    ensures CountPresent(markers, text) <= CountPresent(markers, longer)
  {
    if markers != [] {
      CountPresentMonotone(markers[1..], text, longer);
    }
  }

  /** Appending text never lowers the bias count. */
  lemma DetectBiasGrowsWithText(text: string, more: string)
    ensures DetectBias(text) <= DetectBias(text + more)
  {
    LowerAppend(text, more);
    assert Lower(text + more) == [] + Lower(text) + Lower(more);
    forall m | Contains(Lower(text), m) ensures Contains(Lower(text + more), m) {
      ContainsInLonger(Lower(text), m, [], Lower(more));
    }
    CountPresentMonotone(BiasMarkers, Lower(text), Lower(text + more));
  }

  /** A longer text never gets a lower reliability score. */
  lemma ReliabilityGrowsWithLength(a: string, b: string)
    requires |a| <= |b|
    ensures ReliabilityScore(a) <= ReliabilityScore(b)
  {
  }

  /** A better score or less bias never turns a verified verdict into a review. */
  lemma StatusMonotone(score: real, bias: nat, score': real, bias': nat)
    requires score <= score' && bias' <= bias
    ensures StatusFor(score, bias) == Verified ==> StatusFor(score', bias') == Verified
  {
  }

  /** The verdict of a successful `verify`, in terms of the fetched text alone:
      verified exactly when the text is longer than 1500 characters and holds
      at most one bias marker. */
  lemma VerifiedExactly(url: string, text: string,
                        summarize: string -> Result<string, string>, digest: string -> string)
    requires summarize(text).Ok?
    ensures Verify(url, Ok(text), summarize, digest).Ok?
    ensures (Verify(url, Ok(text), summarize, digest).value.verificationStatus == Verified)
        <==> (|text| > 1500 && DetectBias(text) < 2)
  {
  }

  /** The hash, scores and verdict depend on the fetched text alone: two
      successful verifications of the same text, for any URLs and summaries, agree. */
  lemma SameTextSameVerdict(url1: string, url2: string, text: string,
                            summarize1: string -> Result<string, string>,
                            summarize2: string -> Result<string, string>,
                            digest: string -> string)
    requires summarize1(text).Ok? && summarize2(text).Ok?
    ensures var r1, r2 := Verify(url1, Ok(text), summarize1, digest), Verify(url2, Ok(text), summarize2, digest);
      && r1.Ok? && r2.Ok?
      && r1.value.cardanoHash == r2.value.cardanoHash
      && r1.value.biasLevel == r2.value.biasLevel
      && r1.value.reliabilityScore == r2.value.reliabilityScore
      && r1.value.verificationStatus == r2.value.verificationStatus
  {
  }

  /** The thresholds on concrete inputs: a score of 80 with one marker is
      verified; with two or three markers, or with a score of 60, it is not. */
  lemma StatusExamples()
    ensures StatusFor(80.0, 1) == Verified
    ensures StatusFor(80.0, 2) == NeedsReview
    ensures StatusFor(80.0, 3) == NeedsReview
    ensures StatusFor(60.0, 0) == NeedsReview
  {
  }
}
