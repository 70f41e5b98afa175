/** The query service: turns filter arguments given as strings into a
    `SearchQuery`, runs the store's search, and builds the canned alert queries,
    the question answering, the reclassification pass, the custom-criteria match
    and the statistics on top of it. "Now" is a parameter; one day is 86400
    seconds. */
module Query {
  import opened Wrappers
  import opened Seqs
  import opened Models
  import opened Store
  import opened Oracles

  const SecondsPerDay: int := 86400

  /** The keyword arguments of `FeedbackQueryService.search`; enum filters come
      as their value strings. */
  datatype SearchArgs = SearchArgs(
    queryText: Option<string>,
    sources: Option<seq<string>>,
    sentiments: Option<seq<string>>,
    topics: Option<seq<string>>,
    urgencyLevels: Option<seq<string>>,
    intents: Option<seq<string>>,
    subscriptionTypes: Option<seq<string>>,
    minMrr: Option<real>,
    maxMrr: Option<real>,
    minNps: Option<int>,
    maxNps: Option<int>,
    daysBack: Option<int>,
    limit: int)

  /** `search()` with every argument at its default. */
  function NoArgs(): SearchArgs {
    SearchArgs(None, None, None, None, None, None, None, None, None, None, None, None, 20)
  }

  // ------------------------------------------------------- building the query

  /** `[E(s) for s in ss]`, where `E(s)` raises `ValueError` for an unknown value. */
  function ParseAll<T>(ss: seq<string>, parse: string -> Option<T>): (r: Option<seq<T>>)
    ensures r.Some? ==> |r.value| == |ss| && forall k :: 0 <= k < |ss| ==> parse(ss[k]) == Some(r.value[k])
    ensures r.None? <==> exists k :: 0 <= k < |ss| && parse(ss[k]).None?
  {
    if ss == [] then Some([])
    else
      match parse(ss[0])
      case None => None
      case Some(x) =>
        match ParseAll(ss[1..], parse)
        case None =>
          var k :| 0 <= k < |ss[1..]| && parse(ss[1..][k]).None?;
          assert parse(ss[k + 1]).None?;
          None
        case Some(xs) =>
          assert forall k :: 1 <= k < |ss| ==> ss[k] == ss[1..][k - 1];
          Some([x] + xs)
  }

  /** `[E(s) for s in xs] if xs else None`: an absent or empty list is no filter. */
  function ParseList<T>(xs: Option<seq<string>>, parse: string -> Option<T>): (r: Result<Option<seq<T>>>)
    ensures r.Failure? <==> Truthy(xs) && exists k :: 0 <= k < |xs.value| && parse(xs.value[k]).None?
    ensures r.Success? ==> (r.value.Some? <==> Truthy(xs))
    ensures r.Success? && r.value.Some? ==>
              |r.value.value| == |xs.value|
              && forall k :: 0 <= k < |xs.value| ==> parse(xs.value[k]) == Some(r.value.value[k])
  {
    if !Truthy(xs) then Success(None)
    else match ParseAll(xs.value, parse)
      case Some(v) => Success(Some(v))
      case None => Failure("ValueError")
  }

  /** `start_date`: `now - timedelta(days=days_back)` only when `days_back` is
      truthy, so 0 and None both mean no date bound. */
  function StartDate(daysBack: Option<int>, now: Timestamp): (r: Option<Timestamp>)
    ensures r.None? <==> daysBack.None? || daysBack.value == 0
    ensures r.Some? ==> r.value == now - daysBack.value * SecondsPerDay
  {
    if daysBack.Some? && daysBack.value != 0 then Some(now - daysBack.value * SecondsPerDay) else None
  }

  /** The `SearchQuery` `search` builds; an unknown enum value is the
      `ValueError` the enum constructor raises. */
  function BuildQuery(a: SearchArgs, now: Timestamp): (r: Result<SearchQuery>)
    ensures r.Success? <==> ParseList(a.sources, SourceFromValue).Success?
                            && ParseList(a.sentiments, SentimentFromValue).Success?
                            && ParseList(a.urgencyLevels, UrgencyFromValue).Success?
                            && ParseList(a.intents, IntentFromValue).Success?
    ensures r.Success? ==>
              && r.value.queryText == a.queryText && r.value.topics == a.topics
              && r.value.subscriptionTypes == a.subscriptionTypes
              && r.value.minMrr == a.minMrr && r.value.maxMrr == a.maxMrr
              && r.value.minNps == a.minNps && r.value.maxNps == a.maxNps
              && r.value.industries.None? && r.value.endDate.None?
              && r.value.startDate == StartDate(a.daysBack, now)
              && r.value.limit == a.limit && r.value.offset == 0
  {
    var sources := ParseList(a.sources, SourceFromValue);
    var sentiments := ParseList(a.sentiments, SentimentFromValue);
    var urgencies := ParseList(a.urgencyLevels, UrgencyFromValue);
    var intents := ParseList(a.intents, IntentFromValue);
    if sources.Failure? || sentiments.Failure? || urgencies.Failure? || intents.Failure? then Failure("ValueError")
    else Success(SearchQuery(a.queryText, sources.value, sentiments.value, a.topics, urgencies.value,
                             intents.value, a.subscriptionTypes, a.minMrr, a.maxMrr, None, a.minNps,
                             a.maxNps, StartDate(a.daysBack, now), None, a.limit, 0))
  }

  /** The query embedding is requested only for a non-empty query text. */
  function QueryEmbedding(ai: AIService, text: Option<string>): (r: Option<seq<real>>)
    ensures r.Some? <==> Truthy(text)
  {
    if Truthy(text) then Some(ai.embed(text.value)) else None
  }

  /** What `FeedbackQueryService.search` returns on the given tables. */
  function SearchOutcome(t: Tables, a: SearchArgs, now: Timestamp, ai: AIService,
                         sim: (seq<real>, seq<real>) -> real): Result<SearchResult> {
    match BuildQuery(a, now)
    case Failure(e) => Failure(e)
    case Success(q) => Success(SearchSpec(t, q, QueryEmbedding(ai, a.queryText), sim))
  }

  /** Without a query text `search` never reranks: its items come newest first. */
  lemma NoTextNewestFirst(t: Tables, a: SearchArgs, now: Timestamp, ai: AIService,
                          sim: (seq<real>, seq<real>) -> real)
    requires !Truthy(a.queryText)
    ensures SearchOutcome(t, a, now, ai, sim).Success? ==> SortedBy(SearchOutcome(t, a, now, ai, sim).value.items, ItemAge)
  {
    if BuildQuery(a, now).Success? {
      var q := BuildQuery(a, now).value;
      SearchOrder(t, q, QueryEmbedding(ai, a.queryText), sim);
    }
  }

  // ----------------------------------------------------------- alert queries

  /** `get_churn_risks`: negative sentiment and churn intent from users with at
      least `min_mrr` (default 100) over `days_back` days (default 30). */
  function ChurnRiskArgs(minMrr: real, daysBack: int, limit: int): SearchArgs {
    NoArgs().(sentiments := Some(["negative"]), intents := Some(["churn_risk"]), minMrr := Some(minMrr),
              daysBack := Some(daysBack), limit := limit)
  }

  /** `get_urgent_issues`: high urgency (default 7 days). */
  function UrgentArgs(subscriptionTypes: Option<seq<string>>, daysBack: int, limit: int): SearchArgs {
    NoArgs().(urgencyLevels := Some(["high"]), subscriptionTypes := subscriptionTypes,
              daysBack := Some(daysBack), limit := limit)
  }

  /** `get_upsell_opportunities`: upsell intent, on the free and starter plans
      unless other (non-empty) plans are given. */
  function UpsellArgs(subscriptionTypes: Option<seq<string>>, daysBack: int, limit: int): SearchArgs {
    NoArgs().(intents := Some(["upsell_opportunity"]),
              subscriptionTypes := if Truthy(subscriptionTypes) then subscriptionTypes else Some(["free", "starter"]),
              daysBack := Some(daysBack), limit := limit)
  }

  /** `get_detractor_feedback`: NPS responses scored at most `max_nps` (default 6). */
  function DetractorArgs(maxNps: int, daysBack: int, limit: int): SearchArgs {
    NoArgs().(sources := Some(["nps"]), maxNps := Some(maxNps), daysBack := Some(daysBack), limit := limit)
  }

  /** `get_promoter_feedback`: NPS responses scored at least `min_nps` (default 9). */
  function PromoterArgs(minNps: int, daysBack: int, limit: int): SearchArgs {
    NoArgs().(sources := Some(["nps"]), minNps := Some(minNps), daysBack := Some(daysBack), limit := limit)
  }

  lemma ParseSingle<T>(v: string, parse: string -> Option<T>)
    requires parse(v).Some?
    ensures ParseAll([v], parse) == Some([parse(v).value])
  {
    var x := parse(v).value;
    assert [v][0] == v && [v][1..] == [];
    assert ParseAll([v][1..], parse) == Some([]);
    assert [x] + [] == [x];
  }

  /** The date bound every alert applies. */
  predicate Recent(it: FeedbackItem, daysBack: int, now: Timestamp) {
    daysBack != 0 ==> it.createdAt >= now - daysBack * SecondsPerDay
  }

  /** The churn query asks for negative sentiment AND churn intent AND enough MRR. */
  lemma ChurnRiskMeaning(minMrr: real, daysBack: int, limit: int, now: Timestamp, it: FeedbackItem)
    ensures BuildQuery(ChurnRiskArgs(minMrr, daysBack, limit), now).Success?
    ensures ItemMatches(it, BuildQuery(ChurnRiskArgs(minMrr, daysBack, limit), now).value)
            <==> && it.classification.Some? && it.classification.value.sentiment == Negative
                 && it.classification.value.intent == ChurnRisk
                 && it.userProfile.Some? && it.userProfile.value.mrr.Some?
                 && it.userProfile.value.mrr.value >= minMrr
                 && Recent(it, daysBack, now)
  {
    ParseSingle("negative", SentimentFromValue);
    ParseSingle("churn_risk", IntentFromValue);
  }

  /** The urgent query asks for high urgency, within the given plans if any. */
  lemma UrgentMeaning(subscriptionTypes: Option<seq<string>>, daysBack: int, limit: int, now: Timestamp,
                      it: FeedbackItem)
    ensures BuildQuery(UrgentArgs(subscriptionTypes, daysBack, limit), now).Success?
    ensures ItemMatches(it, BuildQuery(UrgentArgs(subscriptionTypes, daysBack, limit), now).value)
            <==> && it.classification.Some? && it.classification.value.urgency == High
                 && (Truthy(subscriptionTypes) ==>
                       it.userProfile.Some? && InList(it.userProfile.value.subscriptionType, subscriptionTypes.value))
                 && Recent(it, daysBack, now)
  {
    ParseSingle("high", UrgencyFromValue);
  }

  /** The upsell query asks for upsell intent from the given plans, the free and
      starter plans when none are given. */
  lemma UpsellMeaning(subscriptionTypes: Option<seq<string>>, daysBack: int, limit: int, now: Timestamp,
                      it: FeedbackItem)
    ensures BuildQuery(UpsellArgs(subscriptionTypes, daysBack, limit), now).Success?
    ensures var plans := if Truthy(subscriptionTypes) then subscriptionTypes.value else ["free", "starter"];
            ItemMatches(it, BuildQuery(UpsellArgs(subscriptionTypes, daysBack, limit), now).value)
            <==> && it.classification.Some? && it.classification.value.intent == UpsellOpportunity
                 && it.userProfile.Some? && InList(it.userProfile.value.subscriptionType, plans)
                 && Recent(it, daysBack, now)
  {
    ParseSingle("upsell_opportunity", IntentFromValue);
  }

  /** The detractor and promoter queries ask for NPS responses at most `max_nps`
      and at least `min_nps`; a response without a score is neither. */
  lemma NpsAlertMeaning(maxNps: int, minNps: int, daysBack: int, limit: int, now: Timestamp, it: FeedbackItem)
    ensures BuildQuery(DetractorArgs(maxNps, daysBack, limit), now).Success?
    ensures BuildQuery(PromoterArgs(minNps, daysBack, limit), now).Success?
    ensures ItemMatches(it, BuildQuery(DetractorArgs(maxNps, daysBack, limit), now).value)
            <==> it.source == Nps && it.npsScore.Some? && it.npsScore.value <= maxNps && Recent(it, daysBack, now)
    ensures ItemMatches(it, BuildQuery(PromoterArgs(minNps, daysBack, limit), now).value)
            <==> it.source == Nps && it.npsScore.Some? && it.npsScore.value >= minNps && Recent(it, daysBack, now)
  {
    ParseSingle("nps", SourceFromValue);
  }

  /** `get_topic_summary`'s search: the topic, at most 50 items. */
  function TopicArgs(topic: string, daysBack: int): SearchArgs {
    NoArgs().(topics := Some([topic]), daysBack := Some(daysBack), limit := 50)
  }

  /** `get_statistics`'s search: everything, at most 1000 items. */
  function StatisticsArgs(daysBack: int): SearchArgs {
    NoArgs().(daysBack := Some(daysBack), limit := 1000)
  }

  /** `get_topic_summary`'s instruction to the answering model. */
  function TopicPrompt(topic: string): string {
    "Summarize the key themes and issues in feedback about " + topic
    + ". Include specific examples and prioritize by frequency and impact."
  }

  const NoMatchAnswer: string := "No matching feedback found for your query."

  function NoTopicAnswer(topic: string): string { "No feedback found for topic: " + topic }

  // ---------------------------------------------------------- reclassification

  function ItemId(it: FeedbackItem): string { it.id }

  /** The classifier call `reclassify_all` makes for one item. */
  function ClassifyItem(ai: AIService, it: FeedbackItem): Classification {
    ai.classify(it.text, it.userProfile, it.npsScore, it.source.Value())
  }

  /** The rows after `reclassify_all` has updated the first items of its batch. */
  function ReclassifyRows(rows: seq<FeedbackRow>, items: seq<FeedbackItem>, ai: AIService): seq<FeedbackRow> {
    if items == [] then rows
    else
      var last := items[|items| - 1];
      UpdateRows(ReclassifyRows(rows, items[..|items| - 1], ai), last.id, ClassifyItem(ai, last))
  }

  /** With distinct ids, each row named by an item of the batch carries that
      item's new classification and every other row is unchanged. */
  lemma {:induction false} ReclassifyRowsEffect(rows: seq<FeedbackRow>, items: seq<FeedbackItem>, ai: AIService)
    requires KeysDistinct(items, ItemId)
    ensures |ReclassifyRows(rows, items, ai)| == |rows|
    ensures forall k, j :: 0 <= k < |rows| && 0 <= j < |items| && items[j].id == rows[k].id ==>
              ReclassifyRows(rows, items, ai)[k] == Reclassified(rows[k], ClassifyItem(ai, items[j]))
    ensures forall k :: 0 <= k < |rows| && (forall j :: 0 <= j < |items| ==> items[j].id != rows[k].id) ==>
              ReclassifyRows(rows, items, ai)[k] == rows[k]
  {
    if items != [] {
      var n := |items| - 1;
      var init, last := items[..n], items[n];
      assert KeysDistinct(init, ItemId) by {
        forall a, b | 0 <= a < b < |init| ensures ItemId(init[a]) != ItemId(init[b]) {
          assert init[a] == items[a] && init[b] == items[b];
        }
      }
      ReclassifyRowsEffect(rows, init, ai);
      var before := ReclassifyRows(rows, init, ai);
      forall k, j | 0 <= k < |rows| && 0 <= j < |items| && items[j].id == rows[k].id
        ensures ReclassifyRows(rows, items, ai)[k] == Reclassified(rows[k], ClassifyItem(ai, items[j]))
      {
        if j == n {
          forall j' | 0 <= j' < |init| ensures init[j'].id != rows[k].id {
            assert ItemId(items[j']) != ItemId(items[n]);
          }
        } else {
          assert ItemId(items[j]) != ItemId(items[n]);
          assert init[j] == items[j];
        }
      }
      forall k | 0 <= k < |rows| && (forall j :: 0 <= j < |items| ==> items[j].id != rows[k].id)
        ensures ReclassifyRows(rows, items, ai)[k] == rows[k]
      {
        forall j' | 0 <= j' < |init| ensures init[j'].id != rows[k].id {
          assert init[j'] == items[j'];
        }
      }
    }
  }

  /** The batch `get_all_for_reclassification` returns names each stored row at
      most once, so the effect above applies to `reclassify_all`. */
  lemma ReclassificationBatchDistinct(t: Tables, n: int)
    requires KeysDistinct(t.rows, RowId)
    ensures KeysDistinct(AllForReclassification(t, n), ItemId)
  {
    var sorted := NewestFirst(t.rows);
    KeysDistinctPermutation(t.rows, sorted, RowId);
    var rows := SqlLimit(sorted, n);
    var items := AllForReclassification(t, n);
    assert items == Map(rows, DecodeAnonymous);
    forall a, b | 0 <= a < b < |items| ensures ItemId(items[a]) != ItemId(items[b]) {
      assert rows[a] == sorted[a] && rows[b] == sorted[b];
      assert RowId(sorted[a]) != RowId(sorted[b]);
    }
  }

  // ----------------------------------------------------- custom-criteria match

  /** `{item.id: item for item in items}`: a later item replaces an earlier one
      with the same id. */
  function ItemMap(items: seq<FeedbackItem>): (m: map<string, FeedbackItem>)
    ensures forall it | it in items :: it.id in m
    ensures forall id | id in m :: m[id] in items && m[id].id == id
  {
    if items == [] then map[]
    else
      var last := items[|items| - 1];
      var m := ItemMap(items[..|items| - 1]);
      assert items == items[..|items| - 1] + [last];
      m[last.id := last]
  }

  /** The `(item, matches, reason)` triples of `find_by_custom_criteria`; an id
      the model answered for that is not among the items is a `KeyError`. */
  function CustomMatches(items: seq<FeedbackItem>, results: seq<(string, bool, string)>)
    : (r: Result<seq<(FeedbackItem, bool, string)>>)
    ensures r.Failure? <==> exists k :: 0 <= k < |results| && results[k].0 !in ItemMap(items)
    ensures r.Success? ==> |r.value| == |results|
    ensures r.Success? ==>
              forall k :: 0 <= k < |results| ==>
                (r.value[k].0 in items && r.value[k].0.id == results[k].0
                 && r.value[k].1 == results[k].1 && r.value[k].2 == results[k].2)
  {
    var m := ItemMap(items);
    if exists k :: 0 <= k < |results| && results[k].0 !in m then Failure("KeyError")
    else Success(seq(|results|, k requires 0 <= k < |results| => (m[results[k].0], results[k].1, results[k].2)))
  }

  /** With ids that are distinct and a model that answers once per item under
      its id, every answer is paired with the item it was asked about. */
  lemma CustomMatchesPairUp(items: seq<FeedbackItem>, results: seq<(string, bool, string)>)
    requires KeysDistinct(items, ItemId)
    requires |results| == |items| && forall k :: 0 <= k < |items| ==> results[k].0 == items[k].id
    ensures CustomMatches(items, results).Success?
    ensures forall k :: 0 <= k < |items| ==> CustomMatches(items, results).value[k].0 == items[k]
  {
    ItemMapDistinct(items);
  }

  /** With distinct ids no item is replaced: each id maps to its own item. */
  lemma {:induction false} ItemMapDistinct(items: seq<FeedbackItem>)
    requires KeysDistinct(items, ItemId)
    ensures forall k :: 0 <= k < |items| ==> ItemMap(items)[items[k].id] == items[k]
  {
    if items != [] {
      var n := |items| - 1;
      var init := items[..n];
      assert KeysDistinct(init, ItemId) by {
        forall a, b | 0 <= a < b < |init| ensures ItemId(init[a]) != ItemId(init[b]) {
          assert init[a] == items[a] && init[b] == items[b];
        }
      }
      ItemMapDistinct(init);
      assert items == init + [items[n]];
      forall k | 0 <= k < n ensures ItemMap(items)[items[k].id] == items[k] {
        assert ItemId(items[k]) != ItemId(items[n]);
        assert init[k] == items[k];
      }
    }
  }

  /** On a store whose ids are distinct, and with a model that answers once
      per item under its id, `find_by_custom_criteria` cannot fail and pairs each
      verdict with the item it judged. */
  lemma CustomCriteriaPairs(t: Tables, n: int, ai: AIService, criteria: string)
    requires KeysDistinct(t.rows, RowId)
    requires MatchesPerItem(ai)
    ensures var items := AllForReclassification(t, n);
            && CustomMatches(items, ai.customMatch(items, criteria)).Success?
            && forall k :: 0 <= k < |items| ==> CustomMatches(items, ai.customMatch(items, criteria)).value[k].0 == items[k]
  {
    var items := AllForReclassification(t, n);
    ReclassificationBatchDistinct(t, n);
    CustomMatchesPairUp(items, ai.customMatch(items, criteria));
  }

  // -------------------------------------------------------------- statistics

  /** The counters of `get_statistics` and the list of NPS scores seen. */
  datatype Counters = Counters(
    bySentiment: map<string, int>,
    bySource: map<string, int>,
    byTopic: map<string, int>,
    byUrgency: map<string, int>,
    byIntent: map<string, int>,
    npsScores: seq<int>)

  datatype Statistics = Statistics(
    totalCount: int,
    bySentiment: map<string, int>,
    bySource: map<string, int>,
    byTopic: map<string, int>,
    byUrgency: map<string, int>,
    byIntent: map<string, int>,
    avgNps: Option<real>)

  /** `d.get(k, 0)` */
  function Get(m: map<string, int>, k: string): int { if k in m then m[k] else 0 }

  /** `d[k] = d.get(k, 0) + 1` */
  function Bump(m: map<string, int>, k: string): map<string, int> { m[k := Get(m, k) + 1] }

  const SentimentKeys: set<string> := {"positive", "neutral", "negative"}
  const UrgencyKeys: set<string> := {"low", "medium", "high"}

  /** The keys `get_statistics` sets up front for sentiments and urgencies. */
  predicate Preset(c: Counters) {
    && "positive" in c.bySentiment && "neutral" in c.bySentiment && "negative" in c.bySentiment
    && "low" in c.byUrgency && "medium" in c.byUrgency && "high" in c.byUrgency
  }

  function InitialCounters(): Counters {
    Counters(map["positive" := 0, "neutral" := 0, "negative" := 0], map[], map[],
             map["low" := 0, "medium" := 0, "high" := 0], map[], [])
  }

  /** The inner loop over an item's topics. */
  function CountTopics(m: map<string, int>, topics: seq<string>): map<string, int> {
    if topics == [] then m else Bump(CountTopics(m, topics[..|topics| - 1]), topics[|topics| - 1])
  }

  lemma CountTopicsStep(m: map<string, int>, topics: seq<string>, j: int)
    requires 0 <= j < |topics|
    ensures CountTopics(m, topics[..j + 1]) == Bump(CountTopics(m, topics[..j]), topics[j])
  {
    assert topics[..j + 1][..j] == topics[..j];
  }

  /** One pass of the loop body of `get_statistics`. */
  function CountItem(c: Counters, it: FeedbackItem): Counters {
    var c1 := c.(bySource := Bump(c.bySource, it.source.Value()),
                 npsScores := if it.npsScore.Some? then c.npsScores + [it.npsScore.value] else c.npsScores);
    match it.classification
    case None => c1
    case Some(cl) =>
      c1.(bySentiment := Bump(c1.bySentiment, cl.sentiment.Value()),
          byTopic := CountTopics(c1.byTopic, cl.topics),
          byUrgency := Bump(c1.byUrgency, cl.urgency.Value()),
          byIntent := Bump(c1.byIntent, cl.intent.Value()))
  }

  /** The counters after the loop has seen `items`. */
  function Tally(items: seq<FeedbackItem>): Counters {
    if items == [] then InitialCounters() else CountItem(Tally(items[..|items| - 1]), items[|items| - 1])
  }

  lemma TallyStep(items: seq<FeedbackItem>, i: int)
    requires 0 <= i < |items|
    ensures Tally(items[..i + 1]) == CountItem(Tally(items[..i]), items[i])
  {
    assert items[..i + 1][..i] == items[..i];
  }

  function Sum(xs: seq<int>): int {
    if xs == [] then 0 else Sum(xs[..|xs| - 1]) + xs[|xs| - 1]
  }

  /** `sum(nps_scores) / len(nps_scores)` when there is a score, else None. */
  function Average(xs: seq<int>): (r: Option<real>)
    ensures r.None? <==> xs == []
    ensures r.Some? ==> r.value * (|xs| as real) == Sum(xs) as real
  {
    if xs == [] then None else Some(Sum(xs) as real / |xs| as real)
  }

  function Classified(items: seq<FeedbackItem>): nat {
    if items == [] then 0
    else Classified(items[..|items| - 1]) + (if items[|items| - 1].classification.Some? then 1 else 0)
  }

  /** What one pass of the loop body does to each counter. */
  lemma CountItemEffect(c: Counters, it: FeedbackItem)
    ensures CountItem(c, it).bySource == Bump(c.bySource, it.source.Value())
    ensures CountItem(c, it).npsScores
            == if it.npsScore.Some? then c.npsScores + [it.npsScore.value] else c.npsScores
    ensures it.classification.None? ==>
              CountItem(c, it).bySentiment == c.bySentiment && CountItem(c, it).byUrgency == c.byUrgency
    ensures it.classification.Some? ==>
              && CountItem(c, it).bySentiment == Bump(c.bySentiment, it.classification.value.sentiment.Value())
              && CountItem(c, it).byUrgency == Bump(c.byUrgency, it.classification.value.urgency.Value())
              && CountItem(c, it).byTopic == CountTopics(c.byTopic, it.classification.value.topics)
              && CountItem(c, it).byIntent == Bump(c.byIntent, it.classification.value.intent.Value())
    ensures it.classification.None? ==> CountItem(c, it).byTopic == c.byTopic && CountItem(c, it).byIntent == c.byIntent
  {
  }

  lemma GetBump(m: map<string, int>, k: string, k': string)
    ensures Get(Bump(m, k), k') == Get(m, k') + if k == k' then 1 else 0
  {
  }

  function SourceOf(it: FeedbackItem): string { it.source.Value() }

  /** The per-source counter starts empty, so its keys are exactly the sources
      of the items counted. */
  lemma {:induction false} SourceKeysSeen(items: seq<FeedbackItem>)
    ensures Tally(items).bySource.Keys == set it | it in items :: SourceOf(it)
  {
    if items != [] {
      var init, last := items[..|items| - 1], items[|items| - 1];
      SourceKeysSeen(init);
      assert items == init + [last];
      CountItemEffect(Tally(init), last);
      ImageSnoc(init, last, SourceOf);
    }
  }

  /** The per-source counts add up to the number of items counted, and only
      source values are keys. */
  lemma {:induction false} SourceCountsSum(items: seq<FeedbackItem>)
    ensures var m := Tally(items).bySource;
            && Get(m, "nps") + Get(m, "zendesk") + Get(m, "intercom") + Get(m, "email") + Get(m, "other") == |items|
            && m.Keys <= {"nps", "zendesk", "intercom", "email", "other"}
  {
    if items != [] {
      var init, last := items[..|items| - 1], items[|items| - 1];
      SourceCountsSum(init);
      var m0 := Tally(init).bySource;
      CountItemEffect(Tally(init), last);
      var v := last.source.Value();
      assert v in {"nps", "zendesk", "intercom", "email", "other"};
      GetBump(m0, v, "nps");
      GetBump(m0, v, "zendesk");
      GetBump(m0, v, "intercom");
      GetBump(m0, v, "email");
      GetBump(m0, v, "other");
    }
  }

  /** The per-sentiment and per-urgency counts each add up to the number of
      classified items, and keep exactly their three preset keys. */
  lemma {:induction false} ClassifiedCountsSum(items: seq<FeedbackItem>)
    ensures var c := Tally(items);
            && c.bySentiment.Keys == SentimentKeys && c.byUrgency.Keys == UrgencyKeys
            && c.bySentiment["positive"] + c.bySentiment["neutral"] + c.bySentiment["negative"] == Classified(items)
            && c.byUrgency["low"] + c.byUrgency["medium"] + c.byUrgency["high"] == Classified(items)
  {
    if items != [] {
      var init, last := items[..|items| - 1], items[|items| - 1];
      ClassifiedCountsSum(init);
      CountItemEffect(Tally(init), last);
    }
  }

  predicate HasScore(it: FeedbackItem) { it.npsScore.Some? }

  /** The NPS scores collected are those of the items that have one, in order,
      so the average is None exactly when no item has a score. */
  lemma {:induction false} NpsScoresCollected(items: seq<FeedbackItem>)
    ensures Tally(items).npsScores == []  <==> forall it | it in items :: it.npsScore.None?
    ensures forall s | s in Tally(items).npsScores :: exists it | it in items :: it.npsScore == Some(s)
  {
    if items != [] {
      var init, last := items[..|items| - 1], items[|items| - 1];
      NpsScoresCollected(init);
      var before := Tally(init).npsScores;
      assert Tally(items).npsScores == if last.npsScore.Some? then before + [last.npsScore.value] else before;
      assert items == init + [last];
      assert forall it | it in init :: it in items;
    }
  }

  /** The list `avg_nps` averages: the scores of exactly the items that have
      one, each once, in item order. */
  lemma {:induction false} NpsScoresInOrder(items: seq<FeedbackItem>)
    ensures var scored := Filter(items, HasScore);
            && |Tally(items).npsScores| == |scored|
            && forall k :: 0 <= k < |scored| ==> scored[k].npsScore == Some(Tally(items).npsScores[k])
  {
    if items != [] {
      var init, last := items[..|items| - 1], items[|items| - 1];
      assert items == init + [last];
      NpsScoresInOrder(init);
      FilterSnoc(init, last, HasScore);
      CountItemEffect(Tally(init), last);
    }
  }

  /** The body of the counting loop of `get_statistics`, for one item. */
  method CountOne(c0: Counters, it: FeedbackItem) returns (c: Counters)
    requires Preset(c0)
    ensures c == CountItem(c0, it)
  {
    CountItemEffect(c0, it);
    var source := it.source.Value();
    var bySource := c0.bySource[source := Get(c0.bySource, source) + 1];
    var npsScores := c0.npsScores;
    if it.npsScore.Some? {
      npsScores := npsScores + [it.npsScore.value];
    }
    if it.classification.None? {
      return Counters(c0.bySentiment, bySource, c0.byTopic, c0.byUrgency, c0.byIntent, npsScores);
    }
    var cl := it.classification.value;
    var sentiment := cl.sentiment.Value();
    var bySentiment := c0.bySentiment[sentiment := c0.bySentiment[sentiment] + 1];
    var byTopic := c0.byTopic;
    var j := 0;
    while j < |cl.topics|
      invariant 0 <= j <= |cl.topics|
      invariant byTopic == CountTopics(c0.byTopic, cl.topics[..j])
    {
      CountTopicsStep(c0.byTopic, cl.topics, j);
      byTopic := byTopic[cl.topics[j] := Get(byTopic, cl.topics[j]) + 1];
      j := j + 1;
    }
    assert cl.topics[..j] == cl.topics;
    var urgency := cl.urgency.Value();
    var byUrgency := c0.byUrgency[urgency := c0.byUrgency[urgency] + 1];
    var intent := cl.intent.Value();
    var byIntent := c0.byIntent[intent := Get(c0.byIntent, intent) + 1];
    c := Counters(bySentiment, bySource, byTopic, byUrgency, byIntent, npsScores);
  }

  /** The counting loop of `get_statistics`. */
  method CountFeedback(items: seq<FeedbackItem>) returns (c: Counters)
    ensures c == Tally(items)
  {
    c := InitialCounters();
    var i := 0;
    while i < |items|
      invariant 0 <= i <= |items|
      invariant Tally(items[..i]) == c
    {
      TallyStep(items, i);
      ClassifiedCountsSum(items[..i]);
      c := CountOne(c, items[i]);
      i := i + 1;
    }
    assert items[..|items|] == items;
  }

  // ---------------------------------------------------------- the service

  class FeedbackQueryService {
    const db: FeedbackStore
    const ai: AIService

    constructor(db: FeedbackStore, ai: AIService)
      ensures this.db == db && this.ai == ai
    {
      this.db := db;
      this.ai := ai;
    }

    /** `search`: builds the query, asks for the query embedding only with a
        non-empty query text, and runs the store's search. */
    method Search(a: SearchArgs, now: Timestamp) returns (r: Result<SearchResult>)
      ensures r == SearchOutcome(db.State(), a, now, ai, db.similarity)
    {
      var q := BuildQuery(a, now);
      if q.Failure? {
        return Failure(q.error);
      }
      var emb: Option<seq<real>> := None;
      if a.queryText.Some? && a.queryText.value != "" {
        emb := Some(ai.embed(a.queryText.value));
      }
      var res := db.Search(q.value, emb);
      r := Success(res);
    }

    /** `ask`: searches with the question as query text and at most 30 items;
        with no item found it answers a fixed sentence instead of asking the model. */
    method Ask(question: string, filters: SearchArgs, now: Timestamp) returns (r: Result<string>)
      ensures match SearchOutcome(db.State(), filters.(queryText := Some(question), limit := 30), now, ai, db.similarity)
              case Failure(e) => r == Failure(e)
              case Success(res) => r == Success(if res.items == [] then NoMatchAnswer else ai.answer(question, res.items))
    {
      var res := Search(filters.(queryText := Some(question), limit := 30), now);
      if res.Failure? {
        return Failure(res.error);
      }
      if res.value.items == [] {
        return Success(NoMatchAnswer);
      }
      r := Success(ai.answer(question, res.value.items));
    }

    /** `get_churn_risks`; an argument left out is `None`. */
    method GetChurnRisks(minMrr: Option<real>, daysBack: Option<int>, limit: Option<int>, now: Timestamp)
      returns (r: Result<SearchResult>)
      ensures r == SearchOutcome(db.State(), ChurnRiskArgs(minMrr.GetOr(100.0), daysBack.GetOr(30), limit.GetOr(20)),
                                 now, ai, db.similarity)
    {
      r := Search(ChurnRiskArgs(minMrr.GetOr(100.0), daysBack.GetOr(30), limit.GetOr(20)), now);
    }

    method GetUrgentIssues(subscriptionTypes: Option<seq<string>>, daysBack: Option<int>, limit: Option<int>,
                           now: Timestamp) returns (r: Result<SearchResult>)
      ensures r == SearchOutcome(db.State(), UrgentArgs(subscriptionTypes, daysBack.GetOr(7), limit.GetOr(20)),
                                 now, ai, db.similarity)
    {
      r := Search(UrgentArgs(subscriptionTypes, daysBack.GetOr(7), limit.GetOr(20)), now);
    }

    method GetUpsellOpportunities(subscriptionTypes: Option<seq<string>>, daysBack: Option<int>, limit: Option<int>,
                                  now: Timestamp) returns (r: Result<SearchResult>)
      ensures r == SearchOutcome(db.State(), UpsellArgs(subscriptionTypes, daysBack.GetOr(30), limit.GetOr(20)),
                                 now, ai, db.similarity)
    {
      r := Search(UpsellArgs(subscriptionTypes, daysBack.GetOr(30), limit.GetOr(20)), now);
    }

    method GetDetractorFeedback(maxNps: Option<int>, daysBack: Option<int>, limit: Option<int>, now: Timestamp)
      returns (r: Result<SearchResult>)
      ensures r == SearchOutcome(db.State(), DetractorArgs(maxNps.GetOr(6), daysBack.GetOr(30), limit.GetOr(20)),
                                 now, ai, db.similarity)
    {
      r := Search(DetractorArgs(maxNps.GetOr(6), daysBack.GetOr(30), limit.GetOr(20)), now);
    }

    method GetPromoterFeedback(minNps: Option<int>, daysBack: Option<int>, limit: Option<int>, now: Timestamp)
      returns (r: Result<SearchResult>)
      ensures r == SearchOutcome(db.State(), PromoterArgs(minNps.GetOr(9), daysBack.GetOr(30), limit.GetOr(20)),
                                 now, ai, db.similarity)
    {
      r := Search(PromoterArgs(minNps.GetOr(9), daysBack.GetOr(30), limit.GetOr(20)), now);
    }

    /** `get_topic_summary`: at most 50 items on the topic; with none found, a
        fixed sentence naming the topic instead of the model's summary. */
    method GetTopicSummary(topic: string, daysBack: Option<int>, now: Timestamp) returns (r: string)
      ensures var out := SearchOutcome(db.State(), TopicArgs(topic, daysBack.GetOr(30)), now, ai, db.similarity);
              && out.Success?
              && r == if out.value.items == [] then NoTopicAnswer(topic) else ai.answer(TopicPrompt(topic), out.value.items)
    {
      var res := Search(TopicArgs(topic, daysBack.GetOr(30)), now);
      if res.Failure? {
        assert false;
        return "";
      }
      if res.value.items == [] {
        return NoTopicAnswer(topic);
      }
      r := ai.answer(TopicPrompt(topic), res.value.items);
    }

    /** `reclassify_all`: classifies each of the `batch_size` (default 100)
        newest items again and stores the result; returns how many it did. */
    method ReclassifyAll(batchSize: Option<int>) returns (count: int)
      modifies db
      ensures count == |AllForReclassification(old(db.State()), batchSize.GetOr(100))|
      ensures db.rows == ReclassifyRows(old(db.rows), AllForReclassification(old(db.State()), batchSize.GetOr(100)), ai)
      ensures db.profiles == old(db.profiles)
    {
      var items := AllForReclassification(db.State(), batchSize.GetOr(100));
      count := 0;
      while count < |items|
        invariant 0 <= count <= |items|
        invariant db.rows == ReclassifyRows(old(db.rows), items[..count], ai)
        invariant db.profiles == old(db.profiles)
      {
        var item := items[count];
        var classification := ai.classify(item.text, item.userProfile, item.npsScore, item.source.Value());
        db.UpdateClassification(item.id, classification);
        assert items[..count + 1][..count] == items[..count];
        count := count + 1;
      }
      assert items[..count] == items;
    }

    /** `find_by_custom_criteria`: the model's verdict on each of the `limit`
        newest items, paired back with the items by id. */
    method FindByCustomCriteria(criteria: string, limit: Option<int>)
      returns (r: Result<seq<(FeedbackItem, bool, string)>>)
      ensures var items := AllForReclassification(db.State(), limit.GetOr(50));
              r == CustomMatches(items, ai.customMatch(items, criteria))
    {
      var items := AllForReclassification(db.State(), limit.GetOr(50));
      var results := ai.customMatch(items, criteria);
      r := CustomMatches(items, results);
    }

    /** `get_statistics`: counts over at most 1000 items of the last `days_back`
        days (default 30), by source, sentiment, topic, urgency and intent, and
        the mean NPS score. */
    method GetStatistics(daysBack: Option<int>, now: Timestamp) returns (stats: Statistics)
      ensures var out := SearchOutcome(db.State(), StatisticsArgs(daysBack.GetOr(30)), now, ai, db.similarity);
              && out.Success?
              && var c := Tally(out.value.items);
                 stats == Statistics(out.value.totalCount, c.bySentiment, c.bySource, c.byTopic, c.byUrgency,
                                     c.byIntent, Average(c.npsScores))
    {
      var all := Search(StatisticsArgs(daysBack.GetOr(30)), now);
      if all.Failure? {
        assert false;
        return Statistics(0, map[], map[], map[], map[], map[], None);
      }
      var c := CountFeedback(all.value.items);
      var avg: Option<real> := None;
      if c.npsScores != [] {
        avg := Some(Sum(c.npsScores) as real / |c.npsScores| as real);
      }
      stats := Statistics(all.value.totalCount, c.bySentiment, c.bySource, c.byTopic, c.byUrgency, c.byIntent, avg);
    }
  }
}
