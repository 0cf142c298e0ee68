/** Proof of coverage: REST history and the buffered stream together miss no trade since the anchor. */
module Coverage {
  import opened Lifecycle
  import opened Sequences

  datatype CoverageGap =
    | RestHistoryEmpty | WebsocketBufferEmpty | MixedSymbols | RestHistoryTooShallow | OverlapMissing

  datatype TradeCoverage = Unproven(reason: CoverageGap) | Proven(trades: seq<PublicTrade>)

  /** Exchange order: execution time, then sequence number, then trade id. */
  predicate KeyLe(a: PublicTrade, b: PublicTrade) {
    if a.executedAt != b.executedAt then a.executedAt < b.executedAt
    else if a.sequence != b.sequence then a.sequence < b.sequence
    else StringLe(a.tradeId, b.tradeId)
  }

  function Ids(trades: seq<PublicTrade>): set<string> {
    set x | x in trades :: x.tradeId
  }

  function Symbols(trades: seq<PublicTrade>): set<string> {
    set x | x in trades :: x.symbol
  }

  /** Stores a trade under its id: a known id keeps its place and takes the new value. */
  function Upsert(known: seq<PublicTrade>, trade: PublicTrade): seq<PublicTrade> {
    if known == [] then [trade]
    else if known[0].tradeId == trade.tradeId then [trade] + known[1..]
    else [known[0]] + Upsert(known[1..], trade)
  }

  function ById(known: seq<PublicTrade>, trades: seq<PublicTrade>): seq<PublicTrade>
    decreases |trades|
  {
    if trades == [] then known else ById(Upsert(known, trades[0]), trades[1..])
  }

  function Since(start: int): PublicTrade -> bool {
    (x: PublicTrade) => x.executedAt >= start
  }

  function MergeTradeCoverage(rest: seq<PublicTrade>, websocket: seq<PublicTrade>, start: int): TradeCoverage {
    if rest == [] then Unproven(RestHistoryEmpty)
    else if websocket == [] then Unproven(WebsocketBufferEmpty)
    else if Symbols(rest + websocket) != {rest[0].symbol} then Unproven(MixedSymbols)
    else if rest[0].executedAt > start then Unproven(RestHistoryTooShallow)
    else if Ids(rest) * Ids(websocket) == {} then Unproven(OverlapMissing)
    else Proven(Sort(KeyLe, ById([], Filter(Since(start), rest + websocket))))
  }

  // ---------- the exchange log ----------

  /** One symbol's trades in strict exchange order, with unique ids. */
  ghost predicate ExchangeLog(log: seq<PublicTrade>) {
    && StrictlySorted(KeyLe, log)
    && (forall i, j :: 0 <= i < j < |log| ==> log[i].tradeId != log[j].tradeId && log[i].symbol == log[j].symbol)
  }

  /** Two contiguous, non-empty windows of the log. */
  ghost predicate Windows(log: seq<PublicTrade>, a: nat, b: nat, c: nat, d: nat) {
    a < b <= |log| && c < d <= |log|
  }

  /** The position of the first trade at or after a time. */
  function FirstSince(log: seq<PublicTrade>, start: int): (k: nat)
    ensures k <= |log|
    ensures forall i :: 0 <= i < k ==> log[i].executedAt < start
    ensures k < |log| ==> log[k].executedAt >= start
  {
    if log == [] || log[0].executedAt >= start then 0 else 1 + FirstSince(log[1..], start)
  }

  lemma KeyLeOrder()
    ensures TotalPreorder(KeyLe)
    ensures forall x, y :: KeyLe(x, y) && KeyLe(y, x) ==> x.tradeId == y.tradeId
  {
    forall x, y ensures (KeyLe(x, y) || KeyLe(y, x)) && (KeyLe(x, y) && KeyLe(y, x) ==> x.tradeId == y.tradeId) {
      StringLeTotal(x.tradeId, y.tradeId);
    }
    forall x, y, z | KeyLe(x, y) && KeyLe(y, z) ensures KeyLe(x, z) {
      if StringLe(x.tradeId, y.tradeId) && StringLe(y.tradeId, z.tradeId) {
        StringLeTransitive(x.tradeId, y.tradeId, z.tradeId);
      }
    }
  }

  // ---------- what the dictionary holds ----------

  ghost predicate UniqueIds(trades: seq<PublicTrade>) {
    forall i, j :: 0 <= i < j < |trades| ==> trades[i].tradeId != trades[j].tradeId
  }

  lemma {:induction false} UpsertMembers(known: seq<PublicTrade>, trade: PublicTrade)
    requires UniqueIds(known) && forall x :: x in known && x.tradeId == trade.tradeId ==> x == trade
    ensures forall x :: x in Upsert(known, trade) <==> x in known || x == trade
    ensures UniqueIds(Upsert(known, trade))
  {
    if known != [] {
      assert known == [known[0]] + known[1..];
      assert known[0] in known;
      if known[0].tradeId != trade.tradeId {
        UpsertMembers(known[1..], trade);
        var rest := Upsert(known[1..], trade);
        forall j | 0 <= j < |rest| ensures rest[j].tradeId != known[0].tradeId {
          assert rest[j] in rest;
          assert forall k :: 0 <= k < |known[1..]| ==> known[1..][k] == known[k + 1];
        }
      }
    }
  }

  lemma {:induction false} ByIdMembers(known: seq<PublicTrade>, trades: seq<PublicTrade>)
    requires UniqueIds(known)
    requires forall x, y :: x in known + trades && y in known + trades && x.tradeId == y.tradeId ==> x == y
    ensures forall x :: x in ById(known, trades) <==> x in known || x in trades
    ensures UniqueIds(ById(known, trades))
    decreases |trades|
  {
    if trades != [] {
      assert trades[0] in trades && trades == [trades[0]] + trades[1..];
      UpsertMembers(known, trades[0]);
      ByIdMembers(Upsert(known, trades[0]), trades[1..]);
    }
  }

  // ---------- soundness ----------

  /** Both windows have the shared id, so they overlap in the log and their union is contiguous. */
  lemma WindowsOverlap(log: seq<PublicTrade>, a: nat, b: nat, c: nat, d: nat)
    requires ExchangeLog(log) && Windows(log, a, b, c, d) && Ids(log[a..b]) * Ids(log[c..d]) != {}
    ensures c < b && a < d
  {
    var id :| id in Ids(log[a..b]) * Ids(log[c..d]);
    var x :| x in log[a..b] && x.tradeId == id;
    var y :| y in log[c..d] && y.tradeId == id;
    var i :| 0 <= i < |log[a..b]| && log[a..b][i] == x;
    var j :| 0 <= j < |log[c..d]| && log[c..d][j] == y;
    assert log[a + i].tradeId == log[c + j].tradeId;
    assert a + i == c + j;
  }

  lemma LogMembersUnique(log: seq<PublicTrade>)
    requires ExchangeLog(log)
    ensures forall x, y :: x in log && y in log && x.tradeId == y.tradeId ==> x == y
  {
  }

  lemma SinceIsSuffix(log: seq<PublicTrade>, start: int, i: nat)
    requires ExchangeLog(log) && i < |log|
    ensures log[i].executedAt >= start <==> i >= FirstSince(log, start)
  {
    var k := FirstSince(log, start);
    if k < i {
      assert KeyLe(log[k], log[i]);
    }
  }

  lemma SliceStrict(log: seq<PublicTrade>, i: nat, j: nat)
    requires ExchangeLog(log) && i <= j <= |log|
    ensures StrictlySorted(KeyLe, log[i..j])
  {
  }

  /** The log positions the two windows reach, from the anchor on. */
  function SliceStart(log: seq<PublicTrade>, a: nat, b: nat, c: nat, d: nat, start: int): (k: nat)
    requires Windows(log, a, b, c, d)
    ensures k <= SliceEnd(b, d)
  {
    var first, lo := FirstSince(log, start), if a < c then a else c;
    if first < lo then lo else if first > SliceEnd(b, d) then SliceEnd(b, d) else first
  }

  function SliceEnd(b: nat, d: nat): nat {
    if b < d then d else b
  }

  lemma RecentInSlice(log: seq<PublicTrade>, a: nat, b: nat, c: nat, d: nat, start: int, x: PublicTrade)
    requires ExchangeLog(log) && Windows(log, a, b, c, d) && c < b && a < d
    requires x in log[a..b] + log[c..d] && x.executedAt >= start
    ensures x in log[SliceStart(log, a, b, c, d, start)..SliceEnd(b, d)]
  {
    hide ExchangeLog;
    var from, hi := SliceStart(log, a, b, c, d, start), SliceEnd(b, d);
    var i := WindowIndex(log, a, b, c, d, x);
    SinceIsSuffix(log, start, i);
    assert log[from..hi][i - from] == x;
  }

  lemma SliceIsRecent(log: seq<PublicTrade>, a: nat, b: nat, c: nat, d: nat, start: int, x: PublicTrade)
    requires ExchangeLog(log) && Windows(log, a, b, c, d) && c < b && a < d
    requires x in log[SliceStart(log, a, b, c, d, start)..SliceEnd(b, d)]
    ensures x in log[a..b] + log[c..d] && x.executedAt >= start
  {
    hide ExchangeLog;
    var from, hi := SliceStart(log, a, b, c, d, start), SliceEnd(b, d);
    var i: nat :| i < |log[from..hi]| && log[from..hi][i] == x;
    SinceIsSuffix(log, start, from + i);
    InWindow(log, a, b, c, d, from + i);
  }

  lemma WindowIndex(log: seq<PublicTrade>, a: nat, b: nat, c: nat, d: nat, x: PublicTrade) returns (i: nat)
    requires Windows(log, a, b, c, d) && x in log[a..b] + log[c..d]
    ensures (a <= i < b || c <= i < d) && log[i] == x
  {
    if x in log[a..b] {
      var k: nat :| k < |log[a..b]| && log[a..b][k] == x;
      i := a + k;
    } else {
      var k: nat :| k < |log[c..d]| && log[c..d][k] == x;
      i := c + k;
    }
  }

  lemma InWindow(log: seq<PublicTrade>, a: nat, b: nat, c: nat, d: nat, i: nat)
    requires Windows(log, a, b, c, d) && (a <= i < b || c <= i < d)
    ensures log[i] in log[a..b] + log[c..d]
  {
    if a <= i < b { assert log[a..b][i - a] == log[i]; } else { assert log[c..d][i - c] == log[i]; }
  }

  /** The merged trades are exactly the log's trades from the anchor, or the windows' start, to the windows' end. */
  lemma MergedIsSlice(log: seq<PublicTrade>, a: nat, b: nat, c: nat, d: nat, start: int)
    requires ExchangeLog(log) && Windows(log, a, b, c, d)
    requires MergeTradeCoverage(log[a..b], log[c..d], start).Proven?
    ensures MergeTradeCoverage(log[a..b], log[c..d], start).trades
            == log[SliceStart(log, a, b, c, d, start)..SliceEnd(b, d)]
  {
    WindowsOverlap(log, a, b, c, d);
    var both := log[a..b] + log[c..d];
    var recent := Filter(Since(start), both);
    var slice := log[SliceStart(log, a, b, c, d, start)..SliceEnd(b, d)];
    forall x ensures x in recent <==> x in slice {
      if x in recent { RecentInSlice(log, a, b, c, d, start, x); }
      if x in slice { SliceIsRecent(log, a, b, c, d, start, x); }
    }
    SliceStrict(log, SliceStart(log, a, b, c, d, start), SliceEnd(b, d));
    SortedById(log, recent, slice);
  }

  lemma SortedById(log: seq<PublicTrade>, recent: seq<PublicTrade>, slice: seq<PublicTrade>)
    requires ExchangeLog(log) && StrictlySorted(KeyLe, slice)
    requires forall x :: x in recent <==> x in slice
    requires forall x :: x in slice ==> x in log
    ensures Sort(KeyLe, ById([], recent)) == slice
  {
    LogMembersUnique(log);
    ByIdMembers([], recent);
    KeyLeOrder();
    var merged := ById([], recent);
    SortStrict(KeyLe, merged);
    SortMembers(KeyLe, merged);
    StrictlySortedUnique(KeyLe, Sort(KeyLe, merged), slice);
  }

  /** Nothing the exchange could have logged from the anchor to the windows' end is missing, repeated or misplaced. */
  ghost predicate Complete(rest: seq<PublicTrade>, websocket: seq<PublicTrade>, start: int)
    requires MergeTradeCoverage(rest, websocket, start).Proven?
  {
    forall log, a, b, c, d | ExchangeLog(log) && Windows(log, a, b, c, d) && log[a..b] == rest
      && log[c..d] == websocket ::
      MergeTradeCoverage(rest, websocket, start).trades == FromAnchor(log, start, SliceEnd(b, d))
  }

  function FromAnchor(log: seq<PublicTrade>, start: int, end: nat): seq<PublicTrade>
    requires end <= |log|
  {
    var first := FirstSince(log, start);
    log[(if first < end then first else end)..end]
  }

  lemma EarlyWindowIsComplete(log: seq<PublicTrade>, a: nat, b: nat, c: nat, d: nat, start: int)
    requires ExchangeLog(log) && Windows(log, a, b, c, d)
    requires MergeTradeCoverage(log[a..b], log[c..d], start).Proven?
    requires log[a].executedAt < start || log[c].executedAt < start
    ensures MergeTradeCoverage(log[a..b], log[c..d], start).trades == FromAnchor(log, start, SliceEnd(b, d))
  {
    MergedIsSlice(log, a, b, c, d, start);
    SinceIsSuffix(log, start, a);
    SinceIsSuffix(log, start, c);
  }

  /** An id longer than every id in the log. */
  function FreshId(trades: seq<PublicTrade>): (id: string)
    ensures forall x :: x in trades ==> |x.tradeId| < |id|
  {
    if trades == [] then "x"
    else
      var rest := FreshId(trades[1..]);
      if |rest| <= |trades[0].tradeId| then trades[0].tradeId + "x" else rest
  }

  /** A log in which the windows start right at the anchor and one more trade, at the anchor's time, precedes them. */
  function LogWithEarlierTrade(log: seq<PublicTrade>, lo: nat): seq<PublicTrade>
    requires lo < |log|
  {
    [log[lo].(tradeId := FreshId(log), sequence := log[lo].sequence - 1)] + log[lo..]
  }

  lemma EarlierTradeFits(log: seq<PublicTrade>, lo: nat)
    requires ExchangeLog(log) && lo < |log|
    ensures ExchangeLog(LogWithEarlierTrade(log, lo))
  {
    var x, longer := log[lo].(tradeId := FreshId(log), sequence := log[lo].sequence - 1), LogWithEarlierTrade(log, lo);
    forall j | 1 <= j < |longer|
      ensures KeyLe(x, longer[j]) && !KeyLe(longer[j], x) && x.tradeId != longer[j].tradeId
              && x.symbol == longer[j].symbol
    {
      var i := lo + j - 1;
      assert longer[j] == log[i] && log[i] in log;
      assert i > lo ==> KeyLe(log[lo], log[i]);
    }
    forall i, j | 1 <= i < j < |longer|
      ensures KeyLe(longer[i], longer[j]) && !KeyLe(longer[j], longer[i])
      ensures longer[i].tradeId != longer[j].tradeId && longer[i].symbol == longer[j].symbol
    {
      assert longer[i] == log[lo + i - 1] && longer[j] == log[lo + j - 1];
    }
  }

  /**
   * A proven merge is complete for every log it can come from if and only if one of the windows starts strictly
   * before the anchor; when the first trade carries the anchor's own time, an earlier one at that time may be missing.
   */
  lemma CoverageCompleteIff(log: seq<PublicTrade>, a: nat, b: nat, c: nat, d: nat, start: int)
    requires ExchangeLog(log) && Windows(log, a, b, c, d)
    requires MergeTradeCoverage(log[a..b], log[c..d], start).Proven?
    ensures Complete(log[a..b], log[c..d], start)
            <==> log[a..b][0].executedAt < start || log[c..d][0].executedAt < start
  {
    var rest, websocket := log[a..b], log[c..d];
    if rest[0].executedAt < start || websocket[0].executedAt < start {
      forall log', a', b', c', d' | ExchangeLog(log') && Windows(log', a', b', c', d')
                                    && log'[a'..b'] == rest && log'[c'..d'] == websocket
        ensures MergeTradeCoverage(rest, websocket, start).trades == FromAnchor(log', start, SliceEnd(b', d'))
      {
        assert log'[a'] == rest[0] && log'[c'] == websocket[0];
        EarlyWindowIsComplete(log', a', b', c', d', start);
      }
    } else {
      MissedTrade(log, a, b, c, d, start);
    }
  }

  lemma MissedTrade(log: seq<PublicTrade>, a: nat, b: nat, c: nat, d: nat, start: int)
    requires ExchangeLog(log) && Windows(log, a, b, c, d)
    requires MergeTradeCoverage(log[a..b], log[c..d], start).Proven?
    requires log[a].executedAt == start && log[c].executedAt >= start
    ensures !Complete(log[a..b], log[c..d], start)
  {
    hide ExchangeLog, MergeTradeCoverage, LogWithEarlierTrade, Complete, SliceStart, FromAnchor, KeyLe;
    StartsAtAnchor(log, a, c, start);
    var lo := if a < c then a else c;
    var longer := LogWithEarlierTrade(log, lo);
    EarlierTradeFits(log, lo);
    ShiftedWindow(log, lo, a, b);
    ShiftedWindow(log, lo, c, d);
    var a', b', c', d' := a - lo + 1, b - lo + 1, c - lo + 1, d - lo + 1;
    MergedIsSlice(longer, a', b', c', d', start);
    OneMore(longer, a', b', c', d', start);
    Refutes(log[a..b], log[c..d], start, longer, a', b', c', d');
  }

  lemma ShiftedWindow(log: seq<PublicTrade>, lo: nat, i: nat, j: nat)
    requires lo <= i < j <= |log|
    ensures |LogWithEarlierTrade(log, lo)| == |log| - lo + 1
    ensures LogWithEarlierTrade(log, lo)[i - lo + 1..j - lo + 1] == log[i..j]
    ensures LogWithEarlierTrade(log, lo)[0].executedAt == log[lo].executedAt
  {
  }

  lemma OneMore(log: seq<PublicTrade>, a: nat, b: nat, c: nat, d: nat, start: int)
    requires Windows(log, a, b, c, d) && a > 0 && c > 0 && (a == 1 || c == 1) && log[0].executedAt >= start
    ensures |FromAnchor(log, start, SliceEnd(b, d))| == |log[SliceStart(log, a, b, c, d, start)..SliceEnd(b, d)]| + 1
  {
    assert FirstSince(log, start) == 0;
  }

  lemma Refutes(rest: seq<PublicTrade>, websocket: seq<PublicTrade>, start: int,
                log: seq<PublicTrade>, a: nat, b: nat, c: nat, d: nat)
    requires MergeTradeCoverage(rest, websocket, start).Proven?
    requires ExchangeLog(log) && Windows(log, a, b, c, d) && log[a..b] == rest && log[c..d] == websocket
    requires MergeTradeCoverage(rest, websocket, start).trades != FromAnchor(log, start, SliceEnd(b, d))
    ensures !Complete(rest, websocket, start)
  {
    hide ExchangeLog, MergeTradeCoverage;
  }

  lemma StartsAtAnchor(log: seq<PublicTrade>, a: nat, c: nat, start: int)
    requires ExchangeLog(log) && a < |log| && c < |log|
    requires log[a].executedAt == start && log[c].executedAt >= start
    ensures log[if a < c then a else c].executedAt == start
  {
    assert c < a ==> KeyLe(log[c], log[a]);
  }
}
