/** The SQLite feedback store, with its two tables held in memory: `user_profiles`
    as a map from user id to profile (the primary key), `feedback` as the list of
    rows in insertion order. The SQL the store issues becomes functions over these
    tables: a filter is a conjunction of row predicates with SQL's NULL rules, an
    `ORDER BY created_at DESC` is a stable sort, a `LIMIT` is `Seqs.SqlLimit`.
    Cosine similarity is a function the store is built with. */
module Store {
  import opened Wrappers
  import opened Seqs
  import opened Models

  /** One row of the `feedback` table; `None` is SQL NULL. An enum column holds
      its member: the text stored is the member's value, which parses back to the
      same member (`Models.EnumRoundTrips`). `topics` and `embedding` stand for
      the JSON text they are stored as. */
  datatype FeedbackRow = FeedbackRow(
    id: string,
    text: string,
    source: FeedbackSource,
    createdAt: Timestamp,
    userId: Option<string>,
    sentiment: Option<Sentiment>,
    topics: Option<seq<string>>,
    urgency: Option<Urgency>,
    intent: Option<Intent>,
    summary: Option<string>,
    confidence: Option<real>,
    npsScore: Option<int>,
    ticketId: Option<string>,
    ticketPriority: Option<string>,
    embedding: Option<seq<real>>)

  datatype Tables = Tables(profiles: map<string, UserProfile>, rows: seq<FeedbackRow>)

  function RowId(r: FeedbackRow): string { r.id }

  /** Python truthiness of an optional string or list: present and non-empty. */
  predicate Truthy<T>(o: Option<seq<T>>) { o.Some? && |o.value| > 0 }

  /** A row with this id exists (the primary key rejects a second one). */
  predicate HasRow(rows: seq<FeedbackRow>, id: string) {
    exists r | r in rows :: r.id == id
  }

  /** The classification columns are all NULL or all set, as every write leaves them. */
  predicate WellFormed(r: FeedbackRow) {
    && r.topics.Some? == r.sentiment.Some?
    && r.urgency.Some? == r.sentiment.Some?
    && r.intent.Some? == r.sentiment.Some?
    && r.summary.Some? == r.sentiment.Some?
    && r.confidence.Some? == r.sentiment.Some?
  }

  // ------------------------------------------------------------- writing rows

  /** The row `insert_feedback` writes for an item: the profile's user id only
      when a profile is attached, the six classification columns only when a
      classification is, and the embedding only when it is a non-empty list. */
  function EncodeRow(it: FeedbackItem): (r: FeedbackRow)
    ensures WellFormed(r)
    ensures r.id == it.id && r.createdAt == it.createdAt
    ensures r.userId.Some? <==> it.userProfile.Some?
    ensures r.sentiment.Some? <==> it.classification.Some?
    ensures r.embedding.Some? ==> |r.embedding.value| > 0
  {
    var c := it.classification;
    FeedbackRow(
      it.id, it.text, it.source, it.createdAt,
      if it.userProfile.Some? then Some(it.userProfile.value.userId) else None,
      if c.Some? then Some(c.value.sentiment) else None,
      if c.Some? then Some(c.value.topics) else None,
      if c.Some? then Some(c.value.urgency) else None,
      if c.Some? then Some(c.value.intent) else None,
      if c.Some? then Some(c.value.summary) else None,
      if c.Some? then Some(c.value.confidence) else None,
      it.npsScore, it.ticketId, it.ticketPriority,
      if Truthy(it.embedding) then it.embedding else None)
  }

  /** The id `insert_feedback` stores: the item's own, or a fresh one when it is empty. */
  function StoredId(it: FeedbackItem, freshId: string): string {
    if it.id == "" then freshId else it.id
  }

  /** The profile table after `insert_user_profile` of an optional profile
      (`INSERT OR REPLACE` keyed by user id). */
  function Upsert(profiles: map<string, UserProfile>, p: Option<UserProfile>): map<string, UserProfile> {
    match p
    case Some(pr) => profiles[pr.userId := pr]
    case None => profiles
  }

  /** The tables after `insert_feedback`: the profile is upserted first, and
      committed even when the row insert then fails on a duplicate id. */
  ghost function AfterInsert(t: Tables, it: FeedbackItem, freshId: string): Tables {
    var id := StoredId(it, freshId);
    Tables(Upsert(t.profiles, it.userProfile),
           if HasRow(t.rows, id) then t.rows else t.rows + [EncodeRow(it.(id := id))])
  }

  /** The row after `update_classification`: the six classification columns only. */
  function Reclassified(r: FeedbackRow, c: Classification): FeedbackRow {
    r.(sentiment := Some(c.sentiment), topics := Some(c.topics), urgency := Some(c.urgency),
       intent := Some(c.intent), summary := Some(c.summary), confidence := Some(c.confidence))
  }

  /** `UPDATE feedback SET <classification> WHERE id = ?` */
  function UpdateRows(rows: seq<FeedbackRow>, id: string, c: Classification): (r: seq<FeedbackRow>)
    ensures |r| == |rows|
    ensures forall k :: 0 <= k < |rows| && rows[k].id != id ==> r[k] == rows[k]
    ensures forall k :: 0 <= k < |rows| && rows[k].id == id ==> r[k] == Reclassified(rows[k], c)
  {
    seq(|rows|, k requires 0 <= k < |rows| => if rows[k].id == id then Reclassified(rows[k], c) else rows[k])
  }

  // ------------------------------------------------------------- reading rows

  /** `_row_to_feedback`: a classification only when the sentiment column is set,
      with urgency `low`, intent `general_feedback`, no topics, an empty summary
      and confidence 0.0 standing in for NULL columns; an embedding only when the
      column is set; the profile is the user row passed in, if any. */
  function DecodeRow(r: FeedbackRow, user: Option<UserProfile>): (it: FeedbackItem)
    ensures it.id == r.id && it.text == r.text && it.source == r.source && it.createdAt == r.createdAt
    ensures it.userProfile == user
    ensures it.classification.Some? <==> r.sentiment.Some?
    ensures it.npsScore == r.npsScore && it.ticketId == r.ticketId && it.ticketPriority == r.ticketPriority
  {
    var cls :=
      if r.sentiment.None? then None
      else Some(Classification(
        r.sentiment.value,
        r.topics.GetOr([]),
        r.urgency.GetOr(Low),
        r.intent.GetOr(GeneralFeedback),
        r.summary.GetOr(""),       // `or ""` also maps "" to ""
        r.confidence.GetOr(0.0))); // `or 0.0` also maps 0.0 to 0.0
    FeedbackItem(r.id, r.text, r.source, r.createdAt, user, cls, r.embedding,
                 r.npsScore, r.ticketId, r.ticketPriority)
  }

  /** The profile a read attaches: the one whose user id is the row's, looked up
      only when that id is a non-empty string. */
  function LinkedProfile(r: FeedbackRow, profiles: map<string, UserProfile>): Option<UserProfile> {
    if r.userId.Some? && r.userId.value != "" && r.userId.value in profiles
    then Some(profiles[r.userId.value]) else None
  }

  /** The profile `LEFT JOIN user_profiles u ON f.user_id = u.user_id` joins,
      which the profile filters test. */
  function JoinedProfile(r: FeedbackRow, profiles: map<string, UserProfile>): Option<UserProfile> {
    if r.userId.Some? && r.userId.value in profiles then Some(profiles[r.userId.value]) else None
  }

  function Decoder(profiles: map<string, UserProfile>): FeedbackRow -> FeedbackItem {
    r => DecodeRow(r, LinkedProfile(r, profiles))
  }

  /** `get_feedback`: the item stored under `id`, with its linked profile. */
  function GetFeedback(t: Tables, id: string): (r: Option<FeedbackItem>)
    ensures r.Some? ==> r.value.id == id
    ensures r.None? <==> !HasRow(t.rows, id)
  {
    match IndexOf(t.rows, RowId, id)
    case Some(k) => Some(DecodeRow(t.rows[k], LinkedProfile(t.rows[k], t.profiles)))
    case None =>
      assert forall r | r in t.rows :: r.id != id;
      None
  }

  /** `ORDER BY created_at DESC` as a stable sort on the negated time. */
  function RowAge(r: FeedbackRow): real { -(r.createdAt as real) }

  function ItemAge(it: FeedbackItem): real { -(it.createdAt as real) }

  function NewestFirst(rows: seq<FeedbackRow>): (r: seq<FeedbackRow>)
    ensures multiset(r) == multiset(rows)
    ensures SortedBy(r, RowAge)
  {
    SortBy(rows, RowAge)
  }

  /** A row read without joining its profile. */
  function DecodeAnonymous(r: FeedbackRow): FeedbackItem { DecodeRow(r, None) }

  /** Decoding keeps the `created_at` order. */
  lemma DecodedInOrder(rows: seq<FeedbackRow>)
    requires SortedBy(rows, RowAge)
    ensures SortedBy(Map(rows, DecodeAnonymous), ItemAge)
  {
    var r := Map(rows, DecodeAnonymous);
    forall i, j | 0 <= i < j < |r| ensures ItemAge(r[i]) <= ItemAge(r[j]) {
      assert r[i].createdAt == rows[i].createdAt && r[j].createdAt == rows[j].createdAt;
    }
  }

  /** `get_all_for_reclassification(n)`: the `n` newest rows (all of them for a
      negative `n`), read without their profiles. */
  function AllForReclassification(t: Tables, n: int): (r: seq<FeedbackItem>)
    ensures n >= 0 ==> |r| == Min(n, |t.rows|)
    ensures n < 0 ==> |r| == |t.rows|
    ensures forall it | it in r :: it.userProfile.None?
    ensures forall it | it in r :: exists row | row in t.rows :: it == DecodeRow(row, None)
    ensures SortedBy(r, ItemAge)
  {
    var sorted := NewestFirst(t.rows);
    var rows := SqlLimit(sorted, n);
    assert forall row | row in rows :: row in sorted;
    SqlLimitSorted(sorted, RowAge, n);
    DecodedInOrder(rows);
    Map(rows, DecodeAnonymous)
  }

  /** The rows `get_all_for_reclassification(n)` reads are the newest: a row
      left out is not newer than any row read. */
  lemma ReclassificationNewest(t: Tables, n: int)
    ensures var r := AllForReclassification(t, n);
            forall row, it | row in t.rows && DecodeAnonymous(row) !in r && it in r :: row.createdAt <= it.createdAt
  {
    var sorted := NewestFirst(t.rows);
    assert forall row | row in t.rows :: row in multiset(sorted);
    MapLimitKeepsLeast(sorted, RowAge, n, DecodeAnonymous, ItemAge);
  }

  // ------------------------------------------------------------------ search

  predicate InList<T(==)>(v: Option<T>, allowed: seq<T>) { v.Some? && v.value in allowed }

  /** The `WHERE` clause `search` builds: one condition per supplied filter (a list
      filter only when the list is non-empty), ANDed; a NULL column fails every
      condition on it, and the profile conditions fail without a joined profile. */
  predicate RowMatches(r: FeedbackRow, profiles: map<string, UserProfile>, q: SearchQuery) {
    var u := JoinedProfile(r, profiles);
    && (Truthy(q.sources) ==> r.source in q.sources.value)
    && (Truthy(q.sentiments) ==> InList(r.sentiment, q.sentiments.value))
    && (Truthy(q.topics) ==> r.topics.Some? && exists tp | tp in q.topics.value :: tp in r.topics.value)
    && (Truthy(q.urgencyLevels) ==> InList(r.urgency, q.urgencyLevels.value))
    && (Truthy(q.intents) ==> InList(r.intent, q.intents.value))
    && (Truthy(q.subscriptionTypes) ==> u.Some? && InList(u.value.subscriptionType, q.subscriptionTypes.value))
    && (q.minMrr.Some? ==> u.Some? && u.value.mrr.Some? && u.value.mrr.value >= q.minMrr.value)
    && (q.maxMrr.Some? ==> u.Some? && u.value.mrr.Some? && u.value.mrr.value <= q.maxMrr.value)
    && (Truthy(q.industries) ==> u.Some? && InList(u.value.industry, q.industries.value))
    && (q.minNps.Some? ==> r.npsScore.Some? && r.npsScore.value >= q.minNps.value)
    && (q.maxNps.Some? ==> r.npsScore.Some? && r.npsScore.value <= q.maxNps.value)
    && (q.startDate.Some? ==> r.createdAt >= q.startDate.value)
    && (q.endDate.Some? ==> r.createdAt <= q.endDate.value)
  }

  /** What the filters mean for a feedback item: each supplied filter holds, an
      unclassified item fails every classification filter, and an item without a
      profile fails every profile filter. */
  predicate ItemMatches(it: FeedbackItem, q: SearchQuery) {
    var c, u := it.classification, it.userProfile;
    && (Truthy(q.sources) ==> it.source in q.sources.value)
    && (Truthy(q.sentiments) ==> c.Some? && c.value.sentiment in q.sentiments.value)
    && (Truthy(q.topics) ==> c.Some? && exists tp | tp in q.topics.value :: tp in c.value.topics)
    && (Truthy(q.urgencyLevels) ==> c.Some? && c.value.urgency in q.urgencyLevels.value)
    && (Truthy(q.intents) ==> c.Some? && c.value.intent in q.intents.value)
    && (Truthy(q.subscriptionTypes) ==> u.Some? && InList(u.value.subscriptionType, q.subscriptionTypes.value))
    && (q.minMrr.Some? ==> u.Some? && u.value.mrr.Some? && u.value.mrr.value >= q.minMrr.value)
    && (q.maxMrr.Some? ==> u.Some? && u.value.mrr.Some? && u.value.mrr.value <= q.maxMrr.value)
    && (Truthy(q.industries) ==> u.Some? && InList(u.value.industry, q.industries.value))
    && (q.minNps.Some? ==> it.npsScore.Some? && it.npsScore.value >= q.minNps.value)
    && (q.maxNps.Some? ==> it.npsScore.Some? && it.npsScore.value <= q.maxNps.value)
    && (q.startDate.Some? ==> it.createdAt >= q.startDate.value)
    && (q.endDate.Some? ==> it.createdAt <= q.endDate.value)
  }

  function Matching(t: Tables, q: SearchQuery): (r: seq<FeedbackRow>)
    ensures |r| <= |t.rows|
    ensures forall row | row in r :: row in t.rows && RowMatches(row, t.profiles, q)
    ensures forall row | row in t.rows && RowMatches(row, t.profiles, q) :: row in r
  {
    Filter(t.rows, (row: FeedbackRow) => RowMatches(row, t.profiles, q))
  }

  /** The similarity of an item to the query embedding; 0.0 without an embedding. */
  function Score(sim: (seq<real>, seq<real>) -> real, e: seq<real>, it: FeedbackItem): real {
    if Truthy(it.embedding) then sim(e, it.embedding.value) else 0.0
  }

  function Scored(sim: (seq<real>, seq<real>) -> real, e: seq<real>): FeedbackItem -> (FeedbackItem, real) {
    it => (it, Score(sim, e, it))
  }

  /** `sort(key=lambda x: x[1], reverse=True)` on `(item, score)` pairs. */
  function ScoreKey(p: (FeedbackItem, real)): real { -p.1 }

  function RankKey(sim: (seq<real>, seq<real>) -> real, e: seq<real>): FeedbackItem -> real {
    it => -Score(sim, e, it)
  }

  /** `[item for item, _ in pairs]` */
  function Firsts(pairs: seq<(FeedbackItem, real)>): (r: seq<FeedbackItem>)
    ensures |r| == |pairs| && forall k :: 0 <= k < |r| ==> r[k] == pairs[k].0
  {
    seq(|pairs|, k requires 0 <= k < |pairs| => pairs[k].0)
  }

  /** Sorting `(item, score)` pairs by descending score and dropping the scores
      sorts the items by descending score. */
  lemma RerankPairs(items: seq<FeedbackItem>, sim: (seq<real>, seq<real>) -> real, e: seq<real>)
    ensures Firsts(SortBy(Map(items, Scored(sim, e)), ScoreKey)) == SortBy(items, RankKey(sim, e))
  {
    var sc, rk := Scored(sim, e), RankKey(sim, e);
    SortByMap(items, sc, ScoreKey, rk);
    var target := SortBy(items, rk);
    var sorted := SortBy(Map(items, sc), ScoreKey);
    assert sorted == Map(target, sc);
    forall k | 0 <= k < |target| ensures Firsts(sorted)[k] == target[k] {
      assert sorted[k] == sc(target[k]);
    }
  }

  /** The rerank happens only with both a non-empty query embedding and a non-empty query text. */
  predicate Reranks(q: SearchQuery, qEmb: Option<seq<real>>) {
    Truthy(qEmb) && Truthy(q.queryText)
  }

  /** The matching items in `created_at` descending order: sorting the rows and
      then converting them is sorting the converted items. */
  lemma OrderedItems(t: Tables, q: SearchQuery)
    ensures Map(NewestFirst(Matching(t, q)), Decoder(t.profiles))
            == SortBy(Map(Matching(t, q), Decoder(t.profiles)), ItemAge)
  {
    SortByMap(Matching(t, q), Decoder(t.profiles), ItemAge, RowAge);
  }

  /** The full result list of `search` before the slice: the matching items
      newest first, reordered by descending similarity when `Reranks` (a stable
      sort, so equal scores stay newest first); always a permutation of the
      matching items. */
  function Ranked(t: Tables, q: SearchQuery, qEmb: Option<seq<real>>,
                  sim: (seq<real>, seq<real>) -> real): (r: seq<FeedbackItem>)
    ensures |r| == |Matching(t, q)|
    ensures multiset(r) == multiset(Map(Matching(t, q), Decoder(t.profiles)))
    ensures !Reranks(q, qEmb) ==> SortedBy(r, ItemAge)
    ensures Reranks(q, qEmb) ==> SortedBy(r, RankKey(sim, qEmb.value))
  {
    OrderedItems(t, q);
    var items := Map(NewestFirst(Matching(t, q)), Decoder(t.profiles));
    if Reranks(q, qEmb) then SortBy(items, RankKey(sim, qEmb.value)) else items
  }

  /** `search`: the `[offset, offset + limit)` slice of `Ranked`; the total
      counts every matching row. */
  function SearchSpec(t: Tables, q: SearchQuery, qEmb: Option<seq<real>>,
                      sim: (seq<real>, seq<real>) -> real): (r: SearchResult)
    ensures r.totalCount == |Matching(t, q)| <= |t.rows|
    ensures r.query == q && r.summary.None?
    ensures 0 <= q.offset && 0 <= q.limit ==> |r.items| <= q.limit
  {
    SearchResult(PySlice(Ranked(t, q, qEmb, sim), q.offset, q.offset + q.limit), |Matching(t, q)|, q, None)
  }

  // ----------------------------------------------------- properties of reads

  /** A stored item reads back as written, except that an empty embedding list
      was stored as NULL and the profile is whatever the read attaches. */
  lemma RowRoundTrip(it: FeedbackItem, user: Option<UserProfile>)
    ensures DecodeRow(EncodeRow(it), user)
            == it.(userProfile := user, embedding := if Truthy(it.embedding) then it.embedding else None)
  {
    if it.classification.Some? {
      var c := it.classification.value;
      assert DecodeRow(EncodeRow(it), user).classification
             == Some(Classification(c.sentiment, c.topics, c.urgency, c.intent, c.summary, c.confidence));
    }
  }

  /** The row-to-item defaults: a row with only a sentiment reads as that sentiment
      with no topics, urgency `low`, intent `general_feedback`, an empty summary
      and confidence 0.0; a row without a sentiment reads unclassified whatever
      its other classification columns hold. */
  lemma DecodeDefaults(r: FeedbackRow, user: Option<UserProfile>)
    ensures r.sentiment.Some? && r.topics.None? && r.urgency.None? && r.intent.None?
            && r.summary.None? && r.confidence.None?
            ==> DecodeRow(r, user).classification
                == Some(Classification(r.sentiment.value, [], Low, GeneralFeedback, "", 0.0))
    ensures r.sentiment.None? ==> DecodeRow(r, user).classification.None?
    ensures r.embedding.None? <==> DecodeRow(r, user).embedding.None?
  {
  }

  /** The SQL conditions mean what they say about the item read back: for a
      well-formed row whose user id is not the empty string, the row passes the
      `WHERE` clause exactly when the item passes every supplied filter. */
  lemma RowMatchesItem(r: FeedbackRow, profiles: map<string, UserProfile>, q: SearchQuery)
    requires WellFormed(r) && r.userId != Some("")
    ensures RowMatches(r, profiles, q) <==> ItemMatches(Decoder(profiles)(r), q)
  {
    var it := Decoder(profiles)(r);
    assert JoinedProfile(r, profiles) == it.userProfile;
    if r.sentiment.Some? {
      assert it.classification.value.topics == r.topics.value;
      assert Some(it.classification.value.urgency) == r.urgency;
      assert Some(it.classification.value.intent) == r.intent;
    }
  }

  /** A query filter changes nothing but the rows kept: paging does not change
      which rows match. */
  lemma MatchingIgnoresPaging(t: Tables, q: SearchQuery, limit: int, offset: int)
    ensures Matching(t, q.(limit := limit, offset := offset)) == Matching(t, q)
  {
    var q2 := q.(limit := limit, offset := offset);
    FilterSame(t.rows, (row: FeedbackRow) => RowMatches(row, t.profiles, q2),
               (row: FeedbackRow) => RowMatches(row, t.profiles, q));
  }

  /** `search` with no filter matches every row. */
  lemma NoFiltersMatchAll(t: Tables, q: SearchQuery, qEmb: Option<seq<real>>, sim: (seq<real>, seq<real>) -> real)
    requires NoFilters(q)
    ensures Matching(t, q) == t.rows
    ensures SearchSpec(t, q, qEmb, sim).totalCount == |t.rows|
  {
    FilterAll(t.rows, (row: FeedbackRow) => RowMatches(row, t.profiles, q));
  }

  /** Every item `search` returns is read from a stored row that passes the
      filters. */
  lemma SearchSound(t: Tables, q: SearchQuery, qEmb: Option<seq<real>>, sim: (seq<real>, seq<real>) -> real)
    ensures forall it | it in SearchSpec(t, q, qEmb, sim).items ::
              exists row | row in t.rows :: RowMatches(row, t.profiles, q) && it == Decoder(t.profiles)(row)
  {
    var m := Matching(t, q);
    var all := Map(m, Decoder(t.profiles));
    var ranked := Ranked(t, q, qEmb, sim);
    forall it | it in SearchSpec(t, q, qEmb, sim).items
      ensures exists row | row in t.rows :: RowMatches(row, t.profiles, q) && it == Decoder(t.profiles)(row)
    {
      assert it in ranked;
      assert it in multiset(all);
      var k :| 0 <= k < |all| && all[k] == it;
      assert m[k] in m;
    }
  }

  /** With stored rows as the store writes them, every returned item passes
      every supplied filter. */
  lemma SearchItemsMatch(t: Tables, q: SearchQuery, qEmb: Option<seq<real>>, sim: (seq<real>, seq<real>) -> real)
    requires forall row | row in t.rows :: WellFormed(row) && row.userId != Some("")
    ensures forall it | it in SearchSpec(t, q, qEmb, sim).items :: ItemMatches(it, q)
  {
    SearchSound(t, q, qEmb, sim);
    forall it | it in SearchSpec(t, q, qEmb, sim).items ensures ItemMatches(it, q) {
      var row :| row in t.rows && RowMatches(row, t.profiles, q) && it == Decoder(t.profiles)(row);
      RowMatchesItem(row, t.profiles, q);
    }
  }

  /** A page from offset 0 that is at least as long as the match count holds
      all the matching items, each once: the rerank only permutes them. */
  lemma SearchComplete(t: Tables, q: SearchQuery, qEmb: Option<seq<real>>, sim: (seq<real>, seq<real>) -> real)
    requires q.offset == 0 && q.limit >= |Matching(t, q)|
    ensures multiset(SearchSpec(t, q, qEmb, sim).items) == multiset(Map(Matching(t, q), Decoder(t.profiles)))
    ensures |SearchSpec(t, q, qEmb, sim).items| == SearchSpec(t, q, qEmb, sim).totalCount
  {
    var ranked := Ranked(t, q, qEmb, sim);
    assert SearchSpec(t, q, qEmb, sim).items == ranked[0..|ranked|];
    assert ranked[0..|ranked|] == ranked;
  }

  /** The page is in `created_at` descending order, or in similarity descending
      order when the search reranks. */
  lemma SearchOrder(t: Tables, q: SearchQuery, qEmb: Option<seq<real>>, sim: (seq<real>, seq<real>) -> real)
    ensures !Reranks(q, qEmb) ==> SortedBy(SearchSpec(t, q, qEmb, sim).items, ItemAge)
    ensures Reranks(q, qEmb) ==> SortedBy(SearchSpec(t, q, qEmb, sim).items, RankKey(sim, qEmb.value))
  {
    if Reranks(q, qEmb) {
      SlicedSorted(Ranked(t, q, qEmb, sim), RankKey(sim, qEmb.value), q.offset, q.offset + q.limit);
    } else {
      SlicedSorted(Ranked(t, q, qEmb, sim), ItemAge, q.offset, q.offset + q.limit);
    }
  }

  /** Paging slices one fixed ordered list and leaves the total alone: whatever
      the offset and limit, the page is that stretch of the query's `Ranked`
      list and the total is the same. */
  lemma SearchPaging(t: Tables, q: SearchQuery, qEmb: Option<seq<real>>,
                     sim: (seq<real>, seq<real>) -> real, limit: int, offset: int)
    requires 0 <= offset && 0 <= limit
    ensures var r, page := Ranked(t, q, qEmb, sim), SearchSpec(t, q.(limit := limit, offset := offset), qEmb, sim);
            && page.totalCount == SearchSpec(t, q, qEmb, sim).totalCount
            && page.items == r[Min(offset, |r|)..Min(offset + limit, |r|)]
  {
    var q2 := q.(limit := limit, offset := offset);
    MatchingIgnoresPaging(t, q, limit, offset);
    assert Reranks(q2, qEmb) == Reranks(q, qEmb);
    var r := Ranked(t, q, qEmb, sim);
    assert Ranked(t, q2, qEmb, sim) == r;
    assert SearchSpec(t, q2, qEmb, sim).items == PySlice(r, offset, offset + limit);
  }

  /** The profile filters let through only items that come back with a profile,
      when no stored row has the empty string as its user id. */
  lemma ProfileFiltersNeedProfile(t: Tables, q: SearchQuery, qEmb: Option<seq<real>>, sim: (seq<real>, seq<real>) -> real)
    requires forall row | row in t.rows :: row.userId != Some("")
    requires Truthy(q.subscriptionTypes) || q.minMrr.Some? || q.maxMrr.Some? || Truthy(q.industries)
    ensures forall it | it in SearchSpec(t, q, qEmb, sim).items :: it.userProfile.Some?
  {
    SearchSound(t, q, qEmb, sim);
  }

  // ---------------------------------------------------- properties of writes

  /** `insert_feedback` then `get_feedback` on the stored id: the item comes back
      under that id (never empty when the fresh id is not), with the profile it
      was stored with when its user id is non-empty. */
  lemma InsertThenGet(t: Tables, it: FeedbackItem, freshId: string)
    requires !HasRow(t.rows, StoredId(it, freshId))
    ensures freshId != "" ==> StoredId(it, freshId) != ""
    ensures GetFeedback(AfterInsert(t, it, freshId), StoredId(it, freshId))
            == Some(it.(id := StoredId(it, freshId),
                        userProfile := if it.userProfile.Some? && it.userProfile.value.userId != ""
                                       then it.userProfile else None,
                        embedding := if Truthy(it.embedding) then it.embedding else None))
  {
    var id := StoredId(it, freshId);
    var t2 := AfterInsert(t, it, freshId);
    var row := EncodeRow(it.(id := id));
    assert t2.rows == t.rows + [row];
    RowRoundTrip(it.(id := id), LinkedProfile(row, t2.profiles));
  }

  /** Every write keeps the primary key: ids stay distinct. */
  lemma WritesKeepIdsDistinct(t: Tables, it: FeedbackItem, freshId: string, id: string, c: Classification)
    requires KeysDistinct(t.rows, RowId)
    ensures KeysDistinct(AfterInsert(t, it, freshId).rows, RowId)
    ensures KeysDistinct(UpdateRows(t.rows, id, c), RowId)
  {
    var sid := StoredId(it, freshId);
    if !HasRow(t.rows, sid) {
      forall m | 0 <= m < |t.rows| ensures RowId(t.rows[m]) != RowId(EncodeRow(it.(id := sid))) {
        assert t.rows[m] in t.rows;
      }
      KeysDistinctAppend(t.rows, EncodeRow(it.(id := sid)), RowId);
    }
    var u := UpdateRows(t.rows, id, c);
    forall i, j | 0 <= i < j < |u| ensures RowId(u[i]) != RowId(u[j]) {
      assert RowId(u[i]) == RowId(t.rows[i]) && RowId(u[j]) == RowId(t.rows[j]);
    }
  }

  /** `update_classification` then `get_feedback`: the item under `id` now has
      exactly the new classification and is otherwise as before; every other id
      reads as before, and an unknown id leaves the rows as they were. */
  lemma UpdateThenGet(t: Tables, id: string, c: Classification, other: string)
    requires other != id
    ensures var t2 := Tables(t.profiles, UpdateRows(t.rows, id, c));
            && (GetFeedback(t, id).Some? ==>
                  GetFeedback(t2, id) == Some(GetFeedback(t, id).value.(classification := Some(c))))
            && GetFeedback(t2, other) == GetFeedback(t, other)
    ensures !HasRow(t.rows, id) ==> UpdateRows(t.rows, id, c) == t.rows
  {
    var t2 := Tables(t.profiles, UpdateRows(t.rows, id, c));
    IndexOfSameKeys(t, t2, id, c, id);
    IndexOfSameKeys(t, t2, id, c, other);
    if !HasRow(t.rows, id) {
      forall k | 0 <= k < |t.rows| ensures t2.rows[k] == t.rows[k] {
        assert t.rows[k] in t.rows;
      }
    }
  }

  lemma IndexOfSameKeys(t: Tables, t2: Tables, id: string, c: Classification, x: string)
    requires t2 == Tables(t.profiles, UpdateRows(t.rows, id, c))
    ensures IndexOf(t2.rows, RowId, x) == IndexOf(t.rows, RowId, x)
  {
    var a, b := IndexOf(t.rows, RowId, x), IndexOf(t2.rows, RowId, x);
    assert forall k :: 0 <= k < |t.rows| ==> RowId(t2.rows[k]) == RowId(t.rows[k]);
    if a.Some? && b.Some? {
      assert !(a.value < b.value) && !(b.value < a.value);
    }
  }

  // ---------------------------------------------------------- the store object

  class FeedbackStore {
    var profiles: map<string, UserProfile>
    var rows: seq<FeedbackRow>
    const similarity: (seq<real>, seq<real>) -> real

    function State(): Tables
      reads this
    {
      Tables(profiles, rows)
    }

    /** `initialize` on an empty database file. */
    constructor(similarity: (seq<real>, seq<real>) -> real)
      ensures State() == Tables(map[], [])
      ensures this.similarity == similarity
    {
      profiles := map[];
      rows := [];
      this.similarity := similarity;
    }

    /** `insert_user_profile`: `INSERT OR REPLACE` keyed by user id. */
    method InsertUserProfile(p: UserProfile)
      modifies this
      ensures profiles == old(profiles)[p.userId := p]
      ensures rows == old(rows)
    {
      profiles := profiles[p.userId := p];
    }

    /** `insert_feedback`: fills in a fresh id when the item's is empty, upserts the
        item's profile, then inserts the row; a duplicate id is the primary key's
        `IntegrityError`, raised after the profile was committed. */
    method InsertFeedback(it: FeedbackItem, freshId: string) returns (r: Result<string>)
      modifies this
      ensures State() == AfterInsert(old(State()), it, freshId)
      ensures r == if HasRow(old(rows), StoredId(it, freshId)) then Failure("IntegrityError")
                   else Success(StoredId(it, freshId))
    {
      var id := if it.id == "" then freshId else it.id;
      if it.userProfile.Some? {
        InsertUserProfile(it.userProfile.value);
      }
      if HasRow(rows, id) {
        r := Failure("IntegrityError");
      } else {
        rows := rows + [EncodeRow(it.(id := id))];
        r := Success(id);
      }
    }

    /** `update_classification`: rewrites the classification columns of the row
        with this id; no row with it, no change and no error. */
    method UpdateClassification(id: string, c: Classification)
      modifies this
      ensures rows == UpdateRows(old(rows), id, c)
      ensures profiles == old(profiles)
    {
      rows := UpdateRows(rows, id, c);
    }

    /** `search`: the database returns the count and the ordered matching rows,
        which are converted, reranked when `Reranks`, and sliced. */
    method Search(q: SearchQuery, qEmb: Option<seq<real>>) returns (res: SearchResult)
      ensures res == SearchSpec(State(), q, qEmb, similarity)
    {
      var total := |Matching(State(), q)|;
      var found := NewestFirst(Matching(State(), q));
      var items := Convert(found, profiles);
      if Truthy(qEmb) && Truthy(q.queryText) {
        items := Rerank(items, qEmb.value);
      }
      items := PySlice(items, q.offset, q.offset + q.limit);
      res := SearchResult(items, total, q, None);
    }

    /** The loop of `search` that turns each joined row into an item, attaching
        the profile only when the joined user id is non-empty. */
    method Convert(found: seq<FeedbackRow>, ps: map<string, UserProfile>) returns (items: seq<FeedbackItem>)
      ensures items == Map(found, Decoder(ps))
    {
      items := [];
      var i := 0;
      while i < |found|
        invariant 0 <= i <= |found| && |items| == i
        invariant forall k :: 0 <= k < i ==> items[k] == DecodeRow(found[k], LinkedProfile(found[k], ps))
      {
        var row := found[i];
        var user := if row.userId.Some? && row.userId.value != "" && row.userId.value in ps
                    then Some(ps[row.userId.value]) else None;
        items := items + [DecodeRow(row, user)];
        i := i + 1;
      }
    }

    /** The rerank of `search`: pairs each item with its score (0.0 without an
        embedding), sorts the pairs by score descending, and keeps the items. */
    method Rerank(items: seq<FeedbackItem>, e: seq<real>) returns (ranked: seq<FeedbackItem>)
      ensures ranked == SortBy(items, RankKey(similarity, e))
    {
      var scored: seq<(FeedbackItem, real)> := [];
      var j := 0;
      while j < |items|
        invariant 0 <= j <= |items| && |scored| == j
        invariant forall k :: 0 <= k < j ==> scored[k] == (items[k], Score(similarity, e, items[k]))
      {
        var it := items[j];
        var score := if Truthy(it.embedding) then similarity(e, it.embedding.value) else 0.0;
        scored := scored + [(it, score)];
        j := j + 1;
      }
      assert scored == Map(items, Scored(similarity, e));
      RerankPairs(items, similarity, e);
      ranked := Firsts(SortBy(scored, ScoreKey));
    }
  }
}
