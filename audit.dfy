/** The transaction history of the CognitoSync store: one append-only list
    that holds both audit entries and reward records, and its two read-only
    handlers (a page of the trail, the entries of one action). */
module AuditTrail {
  import opened Common
  import opened Slicing

  /** The `RewardTransaction` request model, appended to the history as it is. */
  datatype RewardTransaction = RewardTransaction(
    contributorId: string,
    amount: real,
    reason: string,
    knowledgeHash: string,
    transactionHash: Option<string>,
    status: string)

  /** One element of `transaction_history`: an `AuditEntry` or a reward record.
      Only audit entries carry an action. */
  datatype HistoryRecord =
    | Audit(timestamp: Time, action: string, agentId: string, dataHash: string, onChainHash: Option<string>)
    | Reward(transaction: RewardTransaction)

  /** `record.get("action")`: reward records have no action key. */
  function ActionOf(record: HistoryRecord): Option<string>
  {
    match record
    case Audit(_, action, _, _, _) => Some(action)
    case Reward(_) => None
  }

  /** The response of `get_audit_trail`. */
  datatype TrailPage = TrailPage(totalEntries: nat, returned: nat, offset: int, limit: int, entries: seq<HistoryRecord>)

  /** `get_audit_trail`: `history[offset:offset+limit]` and the history's length. */
  function Trail(history: seq<HistoryRecord>, limit: int, offset: int): TrailPage
  {
    var page := Slice(history, offset, offset + limit);
    TrailPage(|history|, |page|, offset, limit, page)
  }

  /** A page holds the records from `offset` on, as many as `limit` asks for
      and the history still has, and reports the history's full length. */
  lemma TrailWindow(history: seq<HistoryRecord>, limit: int, offset: int)
    requires 0 <= offset && 0 <= limit
    ensures var page := Trail(history, limit, offset);
      && page.totalEntries == |history|
      && page.returned == |page.entries| == Min(limit, Max(|history| - offset, 0))
      && forall k :: 0 <= k < |page.entries| ==> page.entries[k] == history[offset + k]
  {
    SliceWindow(history, offset, limit);
  }

  /** For any offset and limit, as FastAPI passes them, a page is the run of the
      history between the two normalised bounds: a negative bound counts from
      the end, and a stop at or before the start gives an empty page. */
  lemma TrailAnyBounds(history: seq<HistoryRecord>, limit: int, offset: int)
    ensures var page, lo, hi := Trail(history, limit, offset), Bound(offset, |history|), Bound(offset + limit, |history|);
      && page.totalEntries == |history|
      && page.returned == |page.entries|
      && page.entries == history[lo..Max(lo, hi)]
  {
  }

  /** A negative limit from a non-negative offset: the page is empty unless
      `offset + limit` is itself negative, in which case it runs from `offset`
      up to the record that many places before the end. */
  lemma TrailNegativeLimit(history: seq<HistoryRecord>, limit: int, offset: int)
    requires 0 <= offset && limit < 0
    ensures var page, start := Trail(history, limit, offset), Min(offset, |history|);
      && (0 <= offset + limit ==> page.entries == [])
      && (offset + limit < 0 ==> page.entries == history[start..Max(start, |history| + offset + limit)])
  {
  }

  /** Page (o, n) followed by page (o + n, m) is page (o, n + m): no overlap, no gap. */
  lemma TrailPagesTile(history: seq<HistoryRecord>, offset: int, n: int, m: int)
    requires 0 <= offset && 0 <= n && 0 <= m
    ensures Trail(history, n, offset).entries + Trail(history, m, offset + n).entries
         == Trail(history, n + m, offset).entries
  {
    AdjacentSlices(history, offset, n, m);
  }

  /** An offset at or past the end gives an empty page, not an error. */
  lemma TrailPastEnd(history: seq<HistoryRecord>, limit: int, offset: int)
    requires offset >= |history|
    ensures Trail(history, limit, offset).entries == []
  {
  }

  /** The records whose action is `action`, in chronological order. */
  function WithAction(history: seq<HistoryRecord>, action: string): seq<HistoryRecord>
  {
    if history == [] then []
    else
      var last := history[|history| - 1];
      if ActionOf(last) == Some(action) then WithAction(history[..|history| - 1], action) + [last]
      else WithAction(history[..|history| - 1], action)
  }

  /** Exactly the audit entries of that action are kept; no reward record ever is. */
  lemma {:induction false} WithActionExactly(history: seq<HistoryRecord>, action: string)
    ensures forall r :: r in WithAction(history, action) <==> r in history && r.Audit? && r.action == action
  {
    if history != [] {
      WithActionExactly(history[..|history| - 1], action);
      assert history == history[..|history| - 1] + [history[|history| - 1]];
    }
  }

  /** The response of `audit_by_action`. */
  datatype ActionPage = ActionPage(action: string, count: nat, entries: seq<HistoryRecord>)

  /** `audit_by_action`: all records of the action are counted and the last
      `limit` returned, `filtered[-limit:]`. */
  function ByAction(history: seq<HistoryRecord>, action: string, limit: int): ActionPage
  {
    var filtered := WithAction(history, action);
    ActionPage(action, |filtered|, Slice(filtered, -limit, |filtered|))
  }

  /** For a positive limit the entries are the most recent `limit` records of
      the action, oldest first; a limit of 0 returns all of them, because
      `-0` is `0`; a negative limit drops the oldest `-limit` records instead.
      The count is always all of them. */
  lemma ByActionIsLatest(history: seq<HistoryRecord>, action: string, limit: int)
    ensures var page, filtered := ByAction(history, action, limit), WithAction(history, action);
      && page.count == |filtered|
      && (limit > 0 ==> page.entries == filtered[|filtered| - Min(limit, |filtered|)..])
      && (limit == 0 ==> page.entries == filtered)
      && (limit < 0 ==> page.entries == filtered[Min(-limit, |filtered|)..])
      && forall r :: r in page.entries ==> r.Audit? && r.action == action
  {
    var filtered := WithAction(history, action);
    WithActionExactly(history, action);
    SliceElements(filtered, -limit, |filtered|);
    if limit > 0 {
      LastElements(filtered, limit);
    } else if limit == 0 {
      MinusZeroTakesAll(filtered);
    }
  }
}
