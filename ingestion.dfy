/** The ingestion pipeline: builds feedback items from raw records, embeds and
    classifies them through the AI service, and stores them. Ids (`uuid4`),
    the current time and the parsing of dates and numbers are parameters; file
    reading is left out, so a CSV file is its sequence of rows and a JSON export
    its sequence of tickets. */
module Ingestion {
  import opened Wrappers
  import opened Seqs
  import opened Models
  import opened Store
  import opened Oracles

  /** One record given to `ingest_batch`: a dictionary with a `text` key and
      optional other keys (`item.get(k)` is None for a missing key). */
  datatype RawItem = RawItem(
    text: string,
    userId: Option<string>,
    email: Option<string>,
    subscriptionType: Option<string>,
    mrr: Option<real>,
    companyName: Option<string>,
    industry: Option<string>,
    npsScore: Option<int>,
    ticketId: Option<string>,
    ticketPriority: Option<string>,
    createdAt: Option<string>)

  /** A record with only a text. */
  function TextOnly(text: string): RawItem {
    RawItem(text, None, None, None, None, None, None, None, None, None, None)
  }

  // ------------------------------------------------------------ single items

  /** The item `ingest_single` builds and stores; a datetime is always truthy,
      so only an absent `created_at` becomes now. */
  function SingleItem(ai: AIService, text: string, source: FeedbackSource, profile: Option<UserProfile>,
                      npsScore: Option<int>, ticketId: Option<string>, ticketPriority: Option<string>,
                      createdAt: Option<Timestamp>, skip: bool, id: string, now: Timestamp): (it: FeedbackItem)
    ensures it.id == id && it.text == text && it.source == source && it.userProfile == profile
    ensures it.createdAt == if createdAt.Some? then createdAt.value else now
    ensures it.embedding == Some(ai.embed(text))
    ensures it.classification.None? <==> skip
    ensures !skip ==> it.classification == Some(ai.classify(text, profile, npsScore, source.Value()))
    ensures it.npsScore == npsScore && it.ticketId == ticketId && it.ticketPriority == ticketPriority
  {
    FeedbackItem(id, text, source, createdAt.GetOr(now), profile,
                 if skip then None else Some(ai.classify(text, profile, npsScore, source.Value())),
                 Some(ai.embed(text)), npsScore, ticketId, ticketPriority)
  }

  // ----------------------------------------------------------------- batches

  /** The profile `ingest_batch` builds for a record with a non-empty user id. */
  function BatchProfile(raw: RawItem): (p: Option<UserProfile>)
    ensures p.Some? <==> Truthy(raw.userId)
    ensures p.Some? ==> p.value.userId == raw.userId.value && p.value.email == raw.email
                        && p.value.subscriptionType == raw.subscriptionType && p.value.mrr == raw.mrr
                        && p.value.signupDate.None? && p.value.customTraits == map[]
  {
    if Truthy(raw.userId) then
      Some(UserProfile(raw.userId.value, raw.email, raw.subscriptionType, raw.mrr, raw.companyName,
                       raw.industry, None, map[]))
    else None
  }

  function Texts(items: seq<RawItem>): (r: seq<string>)
    ensures |r| == |items| && forall k :: 0 <= k < |items| ==> r[k] == items[k].text
  {
    seq(|items|, k requires 0 <= k < |items| => items[k].text)
  }

  /** The embedding service answers one embedding per text. */
  ghost predicate EmbedsEach(ai: AIService) {
    forall ts: seq<string> :: |ai.embedBatch(ts)| == |ts|
  }

  /** The batch embedding gives each text the embedding it would get alone. */
  ghost predicate BatchAgreesWithSingle(ai: AIService) {
    forall ts: seq<string>, k :: 0 <= k < |ts| && k < |ai.embedBatch(ts)| ==> ai.embedBatch(ts)[k] == ai.embed(ts[k])
  }

  /** The embeddings `ingest_batch` obtains: one `generate_embeddings_batch`
      call per run of `batch_size` consecutive texts. */
  function EmbedChunks(texts: seq<string>, batchSize: int, ai: AIService): (r: seq<seq<real>>)
    requires batchSize > 0 && EmbedsEach(ai)
    ensures |r| == |texts|
    decreases |texts|
  {
    if texts == [] then []
    else
      var n := Min(batchSize, |texts|);
      ai.embedBatch(texts[..n]) + EmbedChunks(texts[n..], batchSize, ai)
  }

  /** Batching is invisible when the batch embedding agrees with the single one:
      every text gets its own embedding whatever the batch size. */
  lemma {:induction false} EmbedChunksTransparent(texts: seq<string>, batchSize: int, ai: AIService)
    requires batchSize > 0 && EmbedsEach(ai) && BatchAgreesWithSingle(ai)
    ensures forall k :: 0 <= k < |texts| ==> EmbedChunks(texts, batchSize, ai)[k] == ai.embed(texts[k])
    decreases |texts|
  {
    if texts != [] {
      var n := Min(batchSize, |texts|);
      EmbedChunksTransparent(texts[n..], batchSize, ai);
      var head := ai.embedBatch(texts[..n]);
      forall k | 0 <= k < |texts| ensures EmbedChunks(texts, batchSize, ai)[k] == ai.embed(texts[k]) {
        if k < n {
          assert texts[..n][k] == texts[k];
        } else {
          assert texts[n..][k - n] == texts[k];
        }
      }
    }
  }

  /** The item `ingest_batch` builds for one record. */
  function BatchItem(ai: AIService, raw: RawItem, source: FeedbackSource, skip: bool, id: string,
                     embedding: seq<real>, now: Timestamp, parseTime: string -> Timestamp): (it: FeedbackItem)
    ensures it.id == id && it.text == raw.text && it.source == source
    ensures it.userProfile == BatchProfile(raw)
    ensures it.createdAt == if Truthy(raw.createdAt) then parseTime(raw.createdAt.value) else now
    ensures it.embedding == Some(embedding)
    ensures it.classification.None? <==> skip
    ensures it.npsScore == raw.npsScore && it.ticketId == raw.ticketId && it.ticketPriority == raw.ticketPriority
  {
    var profile := BatchProfile(raw);
    FeedbackItem(id, raw.text, source,
                 if Truthy(raw.createdAt) then parseTime(raw.createdAt.value) else now,
                 profile,
                 if skip then None else Some(ai.classify(raw.text, profile, raw.npsScore, source.Value())),
                 Some(embedding), raw.npsScore, raw.ticketId, raw.ticketPriority)
  }

  /** What `ingest_batch` returns: one item per record, in order; a negative
      batch size makes `range` empty. `nows[k]` is the clock reading taken
      while building item `k`, used when its record has no date. */
  function BatchItems(ai: AIService, items: seq<RawItem>, source: FeedbackSource, skip: bool, batchSize: int,
                      ids: seq<string>, nows: seq<Timestamp>, parseTime: string -> Timestamp): (r: seq<FeedbackItem>)
    requires batchSize != 0 && EmbedsEach(ai) && |ids| == |nows| == |items|
    ensures batchSize < 0 ==> r == []
    ensures batchSize > 0 ==> |r| == |items|
  {
    if batchSize < 0 then []
    else
      var embeddings := EmbedChunks(Texts(items), batchSize, ai);
      seq(|items|, k requires 0 <= k < |items| =>
        BatchItem(ai, items[k], source, skip, ids[k], embeddings[k], nows[k], parseTime))
  }

  /** The profile table after each item's profile was upserted in turn. */
  function UpsertAll(profiles: map<string, UserProfile>, items: seq<FeedbackItem>): map<string, UserProfile> {
    if items == [] then profiles
    else Upsert(UpsertAll(profiles, items[..|items| - 1]), items[|items| - 1].userProfile)
  }

  /** Ids that a batch can store: present, pairwise distinct, and new to the table. */
  ghost predicate FreshIds(ids: seq<string>, rows: seq<FeedbackRow>) {
    && (forall k :: 0 <= k < |ids| ==> ids[k] != "" && !HasRow(rows, ids[k]))
    && (forall a, b :: 0 <= a < b < |ids| ==> ids[a] != ids[b])
  }

  /** The next id of a fresh run is not yet stored after the earlier items. */
  lemma StillFresh(rows: seq<FeedbackRow>, done: seq<FeedbackItem>, ids: seq<string>, k: int)
    requires FreshIds(ids, rows) && 0 <= k < |ids| && |done| == k
    requires forall m :: 0 <= m < k ==> done[m].id == ids[m]
    ensures !HasRow(rows + Map(done, EncodeRow), ids[k])
  {
    var all := rows + Map(done, EncodeRow);
    forall r | r in all ensures r.id != ids[k] {
      var m :| 0 <= m < |all| && all[m] == r;
      if m < |rows| {
        assert r in rows;
      } else {
        assert r == EncodeRow(done[m - |rows|]);
      }
    }
  }

  /** Every item of a batch is returned with its record's text and its own id,
      carries a profile exactly when the record has a user id, and is
      classified exactly when classification is not skipped. */
  lemma BatchItemsShape(ai: AIService, items: seq<RawItem>, source: FeedbackSource, skip: bool, batchSize: int,
                        ids: seq<string>, nows: seq<Timestamp>, parseTime: string -> Timestamp)
    requires batchSize > 0 && EmbedsEach(ai) && |ids| == |nows| == |items|
    ensures var r := BatchItems(ai, items, source, skip, batchSize, ids, nows, parseTime);
            forall k :: 0 <= k < |items| ==>
              && r[k].id == ids[k] && r[k].text == items[k].text && r[k].source == source
              && (r[k].userProfile.Some? <==> Truthy(items[k].userId))
              && (r[k].classification.None? <==> skip)
              && r[k].embedding == Some(EmbedChunks(Texts(items), batchSize, ai)[k])
              && r[k].createdAt == if Truthy(items[k].createdAt) then parseTime(items[k].createdAt.value) else nows[k]
  {
  }

  // --------------------------------------------------------- file mappers

  /** `row.get(column)` on a CSV row or a JSON object. */
  function Get(row: map<string, string>, column: string): (r: Option<string>)
    ensures r.Some? <==> column in row
    ensures r.Some? ==> r.value == row[column]
  {
    if column in row then Some(row[column]) else None
  }

  /** The configurable column names of `ingest_nps_csv`. */
  datatype NpsColumns = NpsColumns(text: string, score: string, userId: string, email: string, date: string)

  function DefaultNpsColumns(): NpsColumns { NpsColumns("response", "score", "user_id", "email", "date") }

  /** The record built from one CSV row with a non-empty response. */
  function NpsRecord(row: map<string, string>, cols: NpsColumns, parseInt: string -> int): (raw: RawItem)
    requires Truthy(Get(row, cols.text))
    ensures raw.text == row[cols.text] && |raw.text| > 0
    ensures raw.npsScore.Some? <==> Truthy(Get(row, cols.score))
    ensures raw.npsScore.Some? ==> raw.npsScore.value == parseInt(row[cols.score])
    ensures raw.userId == Get(row, cols.userId) && raw.email == Get(row, cols.email)
    ensures raw.createdAt == Get(row, cols.date)
  {
    TextOnly(row[cols.text]).(
      npsScore := if Truthy(Get(row, cols.score)) then Some(parseInt(row[cols.score])) else None,
      userId := Get(row, cols.userId),
      email := Get(row, cols.email),
      createdAt := Get(row, cols.date))
  }

  /** The records of a CSV file: rows without a response are skipped. */
  function NpsRecords(rows: seq<map<string, string>>, cols: NpsColumns, parseInt: string -> int): (r: seq<RawItem>)
    ensures |r| <= |rows|
    ensures forall raw | raw in r :: |raw.text| > 0
  {
    if rows == [] then []
    else
      var rest := NpsRecords(rows[..|rows| - 1], cols, parseInt);
      var row := rows[|rows| - 1];
      if Truthy(Get(row, cols.text)) then rest + [NpsRecord(row, cols, parseInt)] else rest
  }

  /** A row is kept exactly when it has a response: with every row answered,
      every row becomes a record, in order. */
  lemma {:induction false} NpsRecordsAllAnswered(rows: seq<map<string, string>>, cols: NpsColumns,
                                                 parseInt: string -> int)
    requires forall row | row in rows :: Truthy(Get(row, cols.text))
    ensures |NpsRecords(rows, cols, parseInt)| == |rows|
    ensures forall k :: 0 <= k < |rows| ==> NpsRecords(rows, cols, parseInt)[k] == NpsRecord(rows[k], cols, parseInt)
  {
    if rows != [] {
      var init := rows[..|rows| - 1];
      assert forall row | row in init :: row in rows;
      NpsRecordsAllAnswered(init, cols, parseInt);
      var last := rows[|rows| - 1];
      assert last in rows;
      var rest := NpsRecords(init, cols, parseInt);
      assert NpsRecords(rows, cols, parseInt) == rest + [NpsRecord(last, cols, parseInt)];
      forall k | 0 <= k < |rows| ensures NpsRecords(rows, cols, parseInt)[k] == NpsRecord(rows[k], cols, parseInt) {
        if k < |init| {
          assert rows[k] == init[k];
        }
      }
    }
  }

  /** The keep-test of `ingest_nps_csv`: the response column is present and non-empty. */
  function Answered(cols: NpsColumns): map<string, string> -> bool {
    row => Truthy(Get(row, cols.text))
  }

  /** Which rows `ingest_nps_csv` keeps: exactly the answered ones, in order, each
      turned into its record. */
  lemma {:induction false} NpsRecordsKept(rows: seq<map<string, string>>, cols: NpsColumns, parseInt: string -> int)
    ensures var kept, r := Filter(rows, Answered(cols)), NpsRecords(rows, cols, parseInt);
            && |r| == |kept|
            && forall k :: 0 <= k < |r| ==> Answered(cols)(kept[k]) && r[k] == NpsRecord(kept[k], cols, parseInt)
  {
    if rows != [] {
      var init, last := rows[..|rows| - 1], rows[|rows| - 1];
      assert rows == init + [last];
      NpsRecordsKept(init, cols, parseInt);
      FilterSnoc(init, last, Answered(cols));
    }
  }

  /** The requester object of a Zendesk ticket. */
  datatype Requester = Requester(id: Option<string>, email: Option<string>)

  /** A ticket of a Zendesk JSON export; `id` holds the text `str()` gives the
      JSON id when there is one. */
  datatype ZendeskTicket = ZendeskTicket(
    id: Option<string>,
    description: Option<string>,
    priority: Option<string>,
    requester: Option<Requester>,
    createdAt: Option<string>)

  /** The record built from one ticket: a missing description is the empty
      text and a missing id becomes the text "None". */
  function ZendeskRecord(t: ZendeskTicket): (raw: RawItem)
    ensures raw.text == t.description.GetOr("")
    ensures raw.ticketId == Some(if t.id.Some? then t.id.value else "None")
    ensures raw.ticketPriority == t.priority && raw.createdAt == t.createdAt
    ensures raw.userId == (if t.requester.Some? then t.requester.value.id else None)
    ensures raw.email == (if t.requester.Some? then t.requester.value.email else None)
    ensures raw.npsScore.None? && raw.mrr.None?
  {
    var req := t.requester.GetOr(Requester(None, None));
    TextOnly(t.description.GetOr("")).(
      ticketId := Some(if t.id.Some? then t.id.value else "None"),
      ticketPriority := t.priority,
      userId := req.id,
      email := req.email,
      createdAt := t.createdAt)
  }

  /** The profile built from one row of a profile CSV with a non-empty user id;
      a non-empty `mrr` is parsed as a float. */
  function CsvProfile(row: map<string, string>, parseReal: string -> real): (p: UserProfile)
    requires Truthy(Get(row, "user_id"))
    ensures p.userId == row["user_id"]
    ensures p.mrr.Some? <==> Truthy(Get(row, "mrr"))
    ensures p.mrr.Some? ==> p.mrr.value == parseReal(row["mrr"])
    ensures p.email == Get(row, "email") && p.subscriptionType == Get(row, "subscription_type")
    ensures p.signupDate.None? && p.customTraits == map[]
  {
    UserProfile(row["user_id"], Get(row, "email"), Get(row, "subscription_type"),
                if Truthy(Get(row, "mrr")) then Some(parseReal(row["mrr"])) else None,
                Get(row, "company_name"), Get(row, "industry"), None, map[])
  }

  /** The profiles of a profile CSV: rows without a user id are skipped. */
  function CsvProfiles(rows: seq<map<string, string>>, parseReal: string -> real): (r: seq<UserProfile>)
    ensures |r| <= |rows|
  {
    if rows == [] then []
    else
      var rest := CsvProfiles(rows[..|rows| - 1], parseReal);
      var row := rows[|rows| - 1];
      if Truthy(Get(row, "user_id")) then rest + [CsvProfile(row, parseReal)] else rest
  }

  /** The keep-test of `ingest_user_profiles_csv`: a present, non-empty user id. */
  predicate HasUserId(row: map<string, string>) { Truthy(Get(row, "user_id")) }

  /** Which rows a profile import keeps: exactly those with a user id, in order,
      each turned into its profile. */
  lemma {:induction false} CsvProfilesKept(rows: seq<map<string, string>>, parseReal: string -> real)
    ensures var kept, r := Filter(rows, HasUserId), CsvProfiles(rows, parseReal);
            && |r| == |kept|
            && forall k :: 0 <= k < |r| ==> HasUserId(kept[k]) && r[k] == CsvProfile(kept[k], parseReal)
  {
    if rows != [] {
      var init, last := rows[..|rows| - 1], rows[|rows| - 1];
      assert rows == init + [last];
      CsvProfilesKept(init, parseReal);
      FilterSnoc(init, last, HasUserId);
    }
  }

  /** The profile table after each profile was written in turn (`INSERT OR REPLACE`). */
  function PutProfiles(profiles: map<string, UserProfile>, ps: seq<UserProfile>): map<string, UserProfile> {
    if ps == [] then profiles
    else
      var last := ps[|ps| - 1];
      PutProfiles(profiles, ps[..|ps| - 1])[last.userId := last]
  }

  /** After an import every user id of the file is present, keyed to the last
      row that named it; other users keep their profiles. */
  lemma {:induction false} PutProfilesEffect(profiles: map<string, UserProfile>, ps: seq<UserProfile>)
    ensures forall k :: 0 <= k < |ps| ==> ps[k].userId in PutProfiles(profiles, ps)
    ensures forall k :: 0 <= k < |ps| && (forall m :: k < m < |ps| ==> ps[m].userId != ps[k].userId) ==>
              PutProfiles(profiles, ps)[ps[k].userId] == ps[k]
    ensures forall u | u in profiles && (forall k :: 0 <= k < |ps| ==> ps[k].userId != u) ::
              u in PutProfiles(profiles, ps) && PutProfiles(profiles, ps)[u] == profiles[u]
  {
    if ps != [] {
      var n := |ps| - 1;
      var init := ps[..n];
      PutProfilesEffect(profiles, init);
      forall k | 0 <= k < n ensures init[k] == ps[k] { }
    }
  }
  /** The state of a profile import after its first `i` rows: the profiles
      counted and written are those of these rows. */
  ghost predicate ProfilesImported(rows: seq<map<string, string>>, i: int, parseReal: string -> real,
                                   profiles0: map<string, UserProfile>, count: int,
                                   profiles: map<string, UserProfile>) {
    && 0 <= i <= |rows|
    && count == |CsvProfiles(rows[..i], parseReal)|
    && profiles == PutProfiles(profiles0, CsvProfiles(rows[..i], parseReal))
  }

  /** One more CSV row: its profile, if it has a user id, is the next one put. */
  lemma CsvStep(rows: seq<map<string, string>>, i: nat, parseReal: string -> real, profiles: map<string, UserProfile>)
    requires i < |rows|
    ensures var done := CsvProfiles(rows[..i], parseReal);
            if Truthy(Get(rows[i], "user_id")) then
              var p := CsvProfile(rows[i], parseReal);
              && CsvProfiles(rows[..i + 1], parseReal) == done + [p]
              && PutProfiles(profiles, done + [p]) == PutProfiles(profiles, done)[p.userId := p]
            else CsvProfiles(rows[..i + 1], parseReal) == done
  {
    assert rows[..i + 1][..i] == rows[..i];
    var done := CsvProfiles(rows[..i], parseReal);
    if Truthy(Get(rows[i], "user_id")) {
      var p := CsvProfile(rows[i], parseReal);
      assert (done + [p])[..|done|] == done;
    }
  }


  // ------------------------------------------------------------ the ingester

  class FeedbackIngester {
    const db: FeedbackStore
    const ai: AIService

    constructor(db: FeedbackStore, ai: AIService)
      ensures this.db == db && this.ai == ai
    {
      this.db := db;
      this.ai := ai;
    }

    /** `ingest_single`: embeds the text, classifies it unless told not to, and
        stores the item under the fresh id. */
    method IngestSingle(text: string, source: FeedbackSource, profile: Option<UserProfile>,
                        npsScore: Option<int>, ticketId: Option<string>, ticketPriority: Option<string>,
                        createdAt: Option<Timestamp>, skip: bool, id: string, now: Timestamp)
      returns (feedback: FeedbackItem)
      requires id != "" && !HasRow(db.rows, id)
      modifies db
      ensures feedback == SingleItem(ai, text, source, profile, npsScore, ticketId, ticketPriority,
                                     createdAt, skip, id, now)
      ensures db.rows == old(db.rows) + [EncodeRow(feedback)]
      ensures db.profiles == Upsert(old(db.profiles), profile)
    {
      feedback := FeedbackItem(id, text, source, if createdAt.Some? then createdAt.value else now, profile,
                               None, None, npsScore, ticketId, ticketPriority);
      feedback := feedback.(embedding := Some(ai.embed(text)));
      if !skip {
        feedback := feedback.(classification := Some(ai.classify(text, profile, npsScore, source.Value())));
      }
      var _ := db.InsertFeedback(feedback, id);
    }

    /** The first part of the inner loop of `ingest_batch`: the profile and the
        item of one record, classified unless told not to. */
    method BuildItem(item: RawItem, source: FeedbackSource, skip: bool, id: string, embedding: seq<real>,
                     now: Timestamp, parseTime: string -> Timestamp) returns (feedback: FeedbackItem)
      ensures feedback == BatchItem(ai, item, source, skip, id, embedding, now, parseTime)
    {
      var profile: Option<UserProfile> := None;
      if item.userId.Some? && item.userId.value != "" {
        profile := Some(UserProfile(item.userId.value, item.email, item.subscriptionType, item.mrr,
                                    item.companyName, item.industry, None, map[]));
      }
      assert profile == BatchProfile(item);
      feedback := FeedbackItem(
        id, item.text, source,
        if item.createdAt.Some? && item.createdAt.value != "" then parseTime(item.createdAt.value) else now,
        profile, None, Some(embedding), item.npsScore, item.ticketId, item.ticketPriority);
      if !skip {
        feedback := feedback.(classification := Some(ai.classify(item.text, profile, item.npsScore, source.Value())));
      }
    }

    /** The body of the inner loop of `ingest_batch`: builds one record's item
        and stores it under its fresh id. */
    method IngestRecord(item: RawItem, source: FeedbackSource, skip: bool, id: string, embedding: seq<real>,
                        now: Timestamp, parseTime: string -> Timestamp) returns (feedback: FeedbackItem)
      requires id != "" && !HasRow(db.rows, id)
      modifies db
      ensures feedback == BatchItem(ai, item, source, skip, id, embedding, now, parseTime)
      ensures db.rows == old(db.rows) + [EncodeRow(feedback)]
      ensures db.profiles == Upsert(old(db.profiles), feedback.userProfile)
    {
      feedback := BuildItem(item, source, skip, id, embedding, now, parseTime);
      InsertFresh(db.State(), feedback);
      var _ := db.InsertFeedback(feedback, id);
    }

    /** The inner loop of `ingest_batch`: stores the items of the records from
        `i` to `end`, whose embeddings were obtained together, after `done`. */
    method IngestRun(items: seq<RawItem>, i: int, end: int, source: FeedbackSource, skip: bool, ids: seq<string>,
                     ghost all: seq<seq<real>>, embeddings: seq<seq<real>>, nows: seq<Timestamp>,
                     parseTime: string -> Timestamp, done: seq<FeedbackItem>,
                     ghost rows0: seq<FeedbackRow>, ghost profiles0: map<string, UserProfile>)
      returns (results: seq<FeedbackItem>)
      requires 0 <= i <= end <= |items| == |ids| == |nows| == |all| && |done| == i
      requires |embeddings| == end - i && FreshIds(ids, rows0)
      requires forall m :: 0 <= m < end - i ==> embeddings[m] == all[i + m]
      requires Built(ai, items, source, skip, ids, all, nows, parseTime, done)
      requires db.rows == rows0 + Map(done, EncodeRow) && db.profiles == UpsertAll(profiles0, done)
      modifies db
      ensures |results| == end && Built(ai, items, source, skip, ids, all, nows, parseTime, results)
      ensures db.rows == rows0 + Map(results, EncodeRow) && db.profiles == UpsertAll(profiles0, results)
    {
      results := done;
      var j := 0;
      while j < end - i
        invariant 0 <= j <= end - i && |results| == i + j
        invariant Built(ai, items, source, skip, ids, all, nows, parseTime, results)
        invariant db.rows == rows0 + Map(results, EncodeRow)
        invariant db.profiles == UpsertAll(profiles0, results)
      {
        StillFresh(rows0, results, ids, i + j);
        var feedback := IngestRecord(items[i + j], source, skip, ids[i + j], embeddings[j], nows[i + j], parseTime);
        Extend(ai, items, source, skip, ids, all, nows, parseTime, results, feedback);
        Appended(rows0, profiles0, results, feedback);
        results := results + [feedback];
        j := j + 1;
      }
    }

    /** The body of the outer loop of `ingest_batch`: embeds the next chunk of
        `batch_size` texts together and stores its items. */
    method IngestChunk(items: seq<RawItem>, i: int, source: FeedbackSource, skip: bool, batchSize: int,
                       ids: seq<string>, nows: seq<Timestamp>, parseTime: string -> Timestamp,
                       ghost all: seq<seq<real>>, done: seq<FeedbackItem>,
                       ghost rows0: seq<FeedbackRow>, ghost profiles0: map<string, UserProfile>)
      returns (results: seq<FeedbackItem>, end: int)
      requires |ids| == |nows| == |items| && FreshIds(ids, rows0) && i < |items|
      requires BatchProgress(ai, items, source, skip, batchSize, ids, nows, parseTime, all, i, done,
                             rows0, profiles0, db.rows, db.profiles)
      modifies db
      ensures i < end && BatchProgress(ai, items, source, skip, batchSize, ids, nows, parseTime, all, end, results,
                                       rows0, profiles0, db.rows, db.profiles)
    {
      end := Min(i + batchSize, |items|);
      var embeddings := ai.embedBatch(Texts(items[i..end]));
      ChunkStep(items, i, batchSize, ai, all);
      results := IngestRun(items, i, end, source, skip, ids, all, embeddings, nows, parseTime, done,
                           rows0, profiles0);
    }

    /** `ingest_batch`: embeds the texts `batch_size` at a time, then builds,
        classifies and stores each item in order. */
    method IngestBatch(items: seq<RawItem>, source: FeedbackSource, skip: bool, batchSize: int,
                       ids: seq<string>, nows: seq<Timestamp>, parseTime: string -> Timestamp)
      returns (results: seq<FeedbackItem>)
      requires batchSize != 0
      requires EmbedsEach(ai)
      requires |ids| == |nows| == |items| && FreshIds(ids, db.rows)
      modifies db
      ensures results == BatchItems(ai, items, source, skip, batchSize, ids, nows, parseTime)
      ensures db.rows == old(db.rows) + Map(results, EncodeRow)
      ensures db.profiles == UpsertAll(old(db.profiles), results)
    {
      results := [];
      if batchSize < 0 {
        assert Map(results, EncodeRow) == [];
        return;
      }
      ghost var all := EmbedChunks(Texts(items), batchSize, ai);
      var i := 0;
      assert items[0..] == items;
      assert Map(results, EncodeRow) == [];
      while i < |items|
        invariant BatchProgress(ai, items, source, skip, batchSize, ids, nows, parseTime, all, i, results,
                                old(db.rows), old(db.profiles), db.rows, db.profiles)
        decreases |items| - i
      {
        results, i := IngestChunk(items, i, source, skip, batchSize, ids, nows, parseTime, all, results,
                                  old(db.rows), old(db.profiles));
      }
      BatchItemsPointwise(ai, items, source, skip, batchSize, ids, nows, parseTime, results);
    }

    /** `ingest_nps_csv`: the answered rows as NPS records, in one batch run of 10. */
    method IngestNpsCsv(rows: seq<map<string, string>>, cols: NpsColumns, parseInt: string -> int,
                        ids: seq<string>, nows: seq<Timestamp>, parseTime: string -> Timestamp)
      returns (results: seq<FeedbackItem>)
      requires EmbedsEach(ai)
      requires |ids| == |nows| == |NpsRecords(rows, cols, parseInt)| && FreshIds(ids, db.rows)
      modifies db
      ensures results == BatchItems(ai, NpsRecords(rows, cols, parseInt), Nps, false, 10, ids, nows, parseTime)
      ensures db.rows == old(db.rows) + Map(results, EncodeRow)
      ensures db.profiles == UpsertAll(old(db.profiles), results)
    {
      var items: seq<RawItem> := [];
      var i := 0;
      while i < |rows|
        invariant 0 <= i <= |rows|
        invariant items == NpsRecords(rows[..i], cols, parseInt)
      {
        var row := rows[i];
        assert rows[..i + 1][..i] == rows[..i];
        if cols.text in row && row[cols.text] != "" {
          items := items + [NpsRecord(row, cols, parseInt)];
        }
        i := i + 1;
      }
      assert rows[..|rows|] == rows;
      results := IngestBatch(items, Nps, false, 10, ids, nows, parseTime);
    }

    /** `ingest_zendesk_json`: one record per ticket, in one batch run of 10. */
    method IngestZendeskJson(tickets: seq<ZendeskTicket>, ids: seq<string>, nows: seq<Timestamp>,
                             parseTime: string -> Timestamp)
      returns (results: seq<FeedbackItem>)
      requires EmbedsEach(ai)
      requires |ids| == |nows| == |tickets| && FreshIds(ids, db.rows)
      modifies db
      ensures results == BatchItems(ai, Map(tickets, ZendeskRecord), Zendesk, false, 10, ids, nows, parseTime)
      ensures db.rows == old(db.rows) + Map(results, EncodeRow)
      ensures db.profiles == UpsertAll(old(db.profiles), results)
    {
      var items: seq<RawItem> := [];
      var i := 0;
      while i < |tickets|
        invariant 0 <= i <= |tickets|
        invariant items == Map(tickets[..i], ZendeskRecord)
      {
        items := items + [ZendeskRecord(tickets[i])];
        i := i + 1;
      }
      assert tickets[..|tickets|] == tickets;
      results := IngestBatch(items, Zendesk, false, 10, ids, nows, parseTime);
    }

    /** The body of the loop of `ingest_user_profiles_csv` for row `i`: writes
        the row's profile when it has a user id, and counts it. */
    method ImportRow(rows: seq<map<string, string>>, i: nat, count: int, parseReal: string -> real,
                     ghost profiles0: map<string, UserProfile>) returns (count': int)
      requires i < |rows| && ProfilesImported(rows, i, parseReal, profiles0, count, db.profiles)
      modifies db
      ensures ProfilesImported(rows, i + 1, parseReal, profiles0, count', db.profiles)
      ensures db.rows == old(db.rows)
    {
      var profile := ReadProfile(rows[i], parseReal);
      CsvStep(rows, i, parseReal, profiles0);
      count' := count;
      if profile.Some? {
        db.InsertUserProfile(profile.value);
        count' := count + 1;
      }
    }

    /** The body of the loop of `ingest_user_profiles_csv` up to the write: the
        profile of a row with a user id, none for any other row. */
    method ReadProfile(row: map<string, string>, parseReal: string -> real) returns (p: Option<UserProfile>)
      ensures p.Some? <==> HasUserId(row)
      ensures p.Some? ==> p.value == CsvProfile(row, parseReal)
    {
      if "user_id" in row && row["user_id"] != "" {
        var mrr := if "mrr" in row && row["mrr"] != "" then Some(parseReal(row["mrr"])) else None;
        p := Some(UserProfile(row["user_id"], Get(row, "email"), Get(row, "subscription_type"), mrr,
                              Get(row, "company_name"), Get(row, "industry"), None, map[]));
      } else {
        p := None;
      }
    }

    /** `ingest_user_profiles_csv`: writes the profile of every row with a user
        id and returns how many it wrote. */
    method IngestUserProfilesCsv(rows: seq<map<string, string>>, parseReal: string -> real) returns (count: int)
      modifies db
      ensures count == |CsvProfiles(rows, parseReal)|
      ensures db.profiles == PutProfiles(old(db.profiles), CsvProfiles(rows, parseReal))
      ensures db.rows == old(db.rows)
    {
      count := 0;
      var i := 0;
      while i < |rows|
        invariant ProfilesImported(rows, i, parseReal, old(db.profiles), count, db.profiles)
        invariant db.rows == old(db.rows)
        decreases |rows| - i
      {
        count := ImportRow(rows, i, count, parseReal, old(db.profiles));
        i := i + 1;
      }
      assert rows[..|rows|] == rows;
    }
  }

  /** The state of `ingest_batch` after its first `i` records: their items are
      built, their rows appended and their profiles upserted, and the embeddings
      still to fetch are those of the remaining chunks. */
  ghost predicate BatchProgress(ai: AIService, items: seq<RawItem>, source: FeedbackSource, skip: bool,
                                batchSize: int, ids: seq<string>, nows: seq<Timestamp>,
                                parseTime: string -> Timestamp, all: seq<seq<real>>, i: int,
                                done: seq<FeedbackItem>, rows0: seq<FeedbackRow>,
                                profiles0: map<string, UserProfile>, rows: seq<FeedbackRow>,
                                profiles: map<string, UserProfile>) {
    && batchSize > 0 && EmbedsEach(ai)
    && 0 <= i <= |items| == |all| && |done| == i
    && Built(ai, items, source, skip, ids, all, nows, parseTime, done)
    && all == all[..i] + EmbedChunks(Texts(items[i..]), batchSize, ai)
    && rows == rows0 + Map(done, EncodeRow)
    && profiles == UpsertAll(profiles0, done)
  }

  /** One chunk of the outer loop: the embeddings of the chunk starting at `i`
      are the next ones of the whole run. */
  lemma ChunkStep(items: seq<RawItem>, i: int, batchSize: int, ai: AIService, all: seq<seq<real>>)
    requires batchSize > 0 && EmbedsEach(ai) && 0 <= i < |items| == |all|
    requires all == all[..i] + EmbedChunks(Texts(items[i..]), batchSize, ai)
    ensures var end := Min(i + batchSize, |items|);
            && all[i..end] == ai.embedBatch(Texts(items[i..end]))
            && (forall m :: 0 <= m < end - i ==> ai.embedBatch(Texts(items[i..end]))[m] == all[i + m])
            && all == all[..end] + EmbedChunks(Texts(items[end..]), batchSize, ai)
  {
    var end := Min(i + batchSize, |items|);
    var ts := Texts(items[i..]);
    var n := Min(batchSize, |ts|);
    assert n == end - i;
    assert ts[..n] == Texts(items[i..end]);
    assert ts[n..] == Texts(items[end..]);
    var head := ai.embedBatch(ts[..n]);
    assert EmbedChunks(ts, batchSize, ai) == head + EmbedChunks(ts[n..], batchSize, ai);
    assert all[i..end] == head;
    assert forall m :: 0 <= m < end - i ==> head[m] == all[i..end][m];
    assert all[..end] == all[..i] + head;
  }

  /** Storing an item under its own fresh id appends its row and upserts its profile. */
  lemma InsertFresh(t: Tables, it: FeedbackItem)
    requires it.id != "" && !HasRow(t.rows, it.id)
    ensures AfterInsert(t, it, it.id) == Tables(Upsert(t.profiles, it.userProfile), t.rows + [EncodeRow(it)])
  {
    assert it.(id := it.id) == it;
  }

  /** A run that agrees with `BatchItems` item by item is `BatchItems`. */
  lemma BatchItemsPointwise(ai: AIService, items: seq<RawItem>, source: FeedbackSource, skip: bool, batchSize: int,
                            ids: seq<string>, nows: seq<Timestamp>, parseTime: string -> Timestamp, r: seq<FeedbackItem>)
    requires batchSize > 0 && EmbedsEach(ai) && |ids| == |nows| == |items| == |r|
    requires Built(ai, items, source, skip, ids, EmbedChunks(Texts(items), batchSize, ai), nows, parseTime, r)
    ensures r == BatchItems(ai, items, source, skip, batchSize, ids, nows, parseTime)
  {
  }

  /** Appending one item extends the stored rows and the profile upserts by it. */
  lemma Appended(rows: seq<FeedbackRow>, profiles: map<string, UserProfile>, done: seq<FeedbackItem>, it: FeedbackItem)
    ensures rows + Map(done + [it], EncodeRow) == (rows + Map(done, EncodeRow)) + [EncodeRow(it)]
    ensures UpsertAll(profiles, done + [it]) == Upsert(UpsertAll(profiles, done), it.userProfile)
  {
    assert (done + [it])[..|done|] == done;
  }

  /** The items built so far are those of the first records. */
  ghost predicate Built(ai: AIService, items: seq<RawItem>, source: FeedbackSource, skip: bool, ids: seq<string>,
                        embeddings: seq<seq<real>>, nows: seq<Timestamp>, parseTime: string -> Timestamp,
                        done: seq<FeedbackItem>) {
    && |done| <= |items| && |done| <= |ids| && |done| <= |nows| && |done| <= |embeddings|
    && forall m :: 0 <= m < |done| ==>
         done[m] == BatchItem(ai, items[m], source, skip, ids[m], embeddings[m], nows[m], parseTime)
  }

  lemma Extend(ai: AIService, items: seq<RawItem>, source: FeedbackSource, skip: bool, ids: seq<string>,
               embeddings: seq<seq<real>>, nows: seq<Timestamp>, parseTime: string -> Timestamp,
               done: seq<FeedbackItem>, it: FeedbackItem)
    requires Built(ai, items, source, skip, ids, embeddings, nows, parseTime, done)
    requires |done| < |items| && |done| < |ids| && |done| < |nows| && |done| < |embeddings|
    requires it == BatchItem(ai, items[|done|], source, skip, ids[|done|], embeddings[|done|], nows[|done|], parseTime)
    ensures Built(ai, items, source, skip, ids, embeddings, nows, parseTime, done + [it])
  {
  }
}
