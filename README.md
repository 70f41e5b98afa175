# Feedback classifier core, modelled in Dafny

The feedback classifier collects customer feedback from several channels: NPS
surveys, Zendesk tickets, Intercom, e-mail and others. It has an AI service embed
and classify each item: sentiment, topics, urgency, intent, a summary and a
confidence. It stores the items in SQLite, next to the profiles of the users who
wrote them. On top of the store it answers filtered and semantic searches,
proactive alerts (churn risks, urgent issues, upsell opportunities, NPS
detractors and promoters), reclassification runs and statistics. A small job
registry tracks long-running background jobs.

The model has one module per source file:

| module | file | source |
|---|---|---|
| `Models` | `models.dfy` | the records and enums of `models.py`, their `to_dict` views and readers that invert them |
| `Jobs` | `jobs.dfy` | `job_manager.py`: `Job` and `JobManager` as classes, with snapshots of each job as `JobRecord` values |
| `Store` | `store.dfy` | the SQLite store of `database.py`: the two tables as a `map` and a `seq` of rows inside the `FeedbackStore` class; each SQL statement is a function over them |
| `Oracles` | `oracles.dfy` | the AI service as a record of functions, plus its fallback classification |
| `Query` | `query.dfy` | `query_service.py`: argument parsing, the alert presets, reclassification, custom criteria and the statistics loop |
| `Ingestion` | `ingestion.dfy` | `ingestion.py`: single and batch ingestion, plus the NPS CSV, Zendesk JSON and profile CSV importers |
| `Seqs`, `Wrappers` | `seqs.dfy`, `wrappers.dfy` | support code, listed below |

The support code covers:
- Option and Result;
- filtering;
- Python's stable `sort`;
- Python slicing and SQLite's `LIMIT`;
- distinct keys.

Every method that changes state is proved against a specification function of
the old state. The properties are proved about those functions: round trips,
filter soundness and completeness, ordering, paging, primary-key preservation,
what the job cleanup evicts, and what the statistics counters add up to.

The model follows the code as written; some of this behaviour may be unexpected:
- **Churn-risk alert:** the query asks for negative sentiment AND churn intent AND at least the given MRR (`Query.ChurnRiskMeaning`).
- **`update_classification`:** it stores the classification exactly as given, confidence included. An unknown id changes nothing and raises nothing (`Store.UpdateThenGet`).
- **`ingest_single`:** it checks nothing about its arguments. An empty text is stored like any other.
- **Topics:** nothing checks a classification's topics against the configured taxonomy. The fallback classification's topic, `general_feedback`, is not in that taxonomy (`Oracles.FallbackClassification`).

## Model

| member | source | states |
|---|---|---|
| Models.SourceFromValue | feedback_classifier/models.py:8-14 | `FeedbackSource(s)` gives the member whose value is `s`, and fails exactly when no member has that value |
| Models.SentimentFromValue | feedback_classifier/models.py:16-20 | `Sentiment(s)` gives the member with value `s`; it fails exactly when there is none |
| Models.UrgencyFromValue | feedback_classifier/models.py:22-26 | `Urgency(s)` gives the member with value `s`; it fails exactly when there is none |
| Models.IntentFromValue | feedback_classifier/models.py:28-33 | `Intent(s)` gives the member with value `s`; it fails exactly when there is none |
| Models.EnumRoundTrips | feedback_classifier/models.py:8-33 | parsing a member's value gives that member back, for all four enums (the values are distinct) |
| Models.StringsRoundTrip | feedback_classifier/models.py:73-81 | a topic list written as a JSON array reads back as the same list |
| Models.ProfileRoundTrip | feedback_classifier/models.py:49-59 | `UserProfile.to_dict` loses nothing: if the date format parses back, reading the dictionary gives back the profile |
| Models.ClassificationRoundTrip | feedback_classifier/models.py:73-81 | `Classification.to_dict` loses nothing: reading it gives back the classification |
| Models.FeedbackItem.ToDict | feedback_classifier/models.py:101-114 | the dictionary has exactly the nine listed keys and no embedding; profile and classification are nested dictionaries or null |
| Models.ItemRoundTrip | feedback_classifier/models.py:101-114 | reading `FeedbackItem.to_dict` gives back the item with every field except the embedding |
| Models.NewClassification | feedback_classifier/models.py:63-71 | a classification built without a confidence has confidence 0.0; the other fields are as given |
| Models.DefaultQuery | feedback_classifier/models.py:118-147 | `SearchQuery()` sets no filter and no query text, with limit 20 and offset 0 |
| Jobs.Percentage | feedback_classifier/job_manager.py:27-31 | 0 for a zero total; otherwise `current / total * 100`; between 0 and 100 when `0 <= current <= total` |
| Jobs.ProgressChangesOnlySupplied | feedback_classifier/job_manager.py:94-118 | `update_progress` sets exactly the counters it is given (`None` leaves a counter alone) and changes nothing else |
| Jobs.CancelOnlyActive | feedback_classifier/job_manager.py:146-154 | only a pending or running job is cancelled and stamped with the time; any other job is left unchanged |
| Jobs.FinishFromAnyStatus | feedback_classifier/job_manager.py:120-144 | start, complete and fail have no guard: from any status they set their status, result or error |
| Jobs.StepKeepsStamped | feedback_classifier/job_manager.py:120-154 | every operation keeps "finished implies a completion time" and keeps the id, the type and the creation time |
| Jobs.ApplyFrame | feedback_classifier/job_manager.py:94-154 | an operation by id touches only the job with that id, keeps every id, and changes nothing for an unknown id |
| Jobs.WithoutSize | feedback_classifier/job_manager.py:170-173 | deleting a set of ids from a table with distinct ids removes exactly the rows whose ids are in the table |
| Jobs.CleanupRemovesHalf | feedback_classifier/job_manager.py:163-173 | cleanup removes exactly half (rounded down) of the finished jobs and never a pending or running one |
| Jobs.CleanupEvictsOldest | feedback_classifier/job_manager.py:163-173 | no evicted job finished (or was created) later than a finished job that is kept; every victim is gone |
| Jobs.VictimNotNewer | feedback_classifier/job_manager.py:166-170 | one victim against one kept finished job: the victim's `completed_at or created_at` key is not later |
| Jobs.CreateKeepsActive | feedback_classifier/job_manager.py:76-88 | with a fresh id, the new job is stored and every active job is kept; below `max_jobs` this is a plain append, otherwise the cleanup runs first |
| Jobs.CreateCollisionReplaces | feedback_classifier/job_manager.py:86-87 | a colliding id replaces the earlier job at its position in the dictionary |
| Jobs.Job.constructor | feedback_classifier/job_manager.py:35-45 | a new job is pending, with zero progress, no result, no error and no start or completion time |
| Jobs.JobManager.constructor | feedback_classifier/job_manager.py:71-74 | the registry starts empty, with the given `max_jobs` |
| Jobs.JobManager.GetJob | feedback_classifier/job_manager.py:90-92 | the job stored under the id, or `None` exactly when no job has it |
| Jobs.JobManager.ListJobs | feedback_classifier/job_manager.py:156-161 | a permutation of the jobs of the given type (of all jobs when no type is given), newest first; jobs created at the same time keep their table order, as the stable `sorted` does |
| Jobs.JobManager.UpdateProgress | feedback_classifier/job_manager.py:94-118 | the new table is the old one with the progress operation applied by id |
| Jobs.JobManager.StartJob | feedback_classifier/job_manager.py:120-126 | the new table is the old one with the job under the id set running and given a start time |
| Jobs.JobManager.CompleteJob | feedback_classifier/job_manager.py:128-135 | the new table is the old one with the job under the id completed, with its result |
| Jobs.JobManager.FailJob | feedback_classifier/job_manager.py:137-144 | the new table is the old one with the job under the id failed, with its error |
| Jobs.JobManager.CancelJob | feedback_classifier/job_manager.py:146-154 | returns true exactly when a job has the id and was pending or running; the table is the old one with the cancel applied |
| Jobs.JobManager.CleanupOldJobs | feedback_classifier/job_manager.py:163-173 | the new table is the old one without the older half of its finished jobs, deleted one by one |
| Jobs.JobManager.CreateJob | feedback_classifier/job_manager.py:76-88 | the returned job is fresh and pending; the new table is the old one, cleaned up if full, with the job put under its id |
| Oracles.FallbackClassification | feedback_classifier/ai_service.py:149-159 | an unparsable model reply classifies as neutral, low urgency, general feedback, confidence 0.0, with one topic outside the taxonomy |
| Store.EncodeRow | feedback_classifier/database.py:170-206 | the classification columns are all NULL or all set, matching whether the item is classified; the user id is set exactly when a profile is; an empty embedding is stored as NULL |
| Store.DecodeRow | feedback_classifier/database.py:210-256 | the item read back is classified exactly when the sentiment column is set; id, text, source, time, NPS score and ticket fields come from the row |
| Store.RowRoundTrip | feedback_classifier/database.py:159-256 | a stored item reads back unchanged, except that an empty embedding becomes `None` and the profile is the one attached |
| Store.DecodeDefaults | feedback_classifier/database.py:230-243 | NULL classification columns read as no topics, urgency `low`, intent `general_feedback`, an empty summary and confidence 0.0; no sentiment means unclassified |
| Store.GetFeedback | feedback_classifier/database.py:258-281 | the item stored under the id, or `None` exactly when there is no such row |
| Store.InsertThenGet | feedback_classifier/database.py:159-281 | insert then get under the stored id gives back the item with that id; the id is never empty when the generated one is not |
| Store.WritesKeepIdsDistinct | feedback_classifier/database.py:159-208 | inserts and classification updates keep the feedback ids distinct (the primary key) |
| Store.UpdateRows | feedback_classifier/database.py:421-445 | `UPDATE ... WHERE id = ?` rewrites the classification columns of the rows with that id and keeps every other row |
| Store.UpdateThenGet | feedback_classifier/database.py:421-445 | after an update, the item under the id has exactly the new classification and is otherwise unchanged; other ids read as before; an unknown id changes nothing |
| Store.NewestFirst | feedback_classifier/database.py:364-373 | `ORDER BY created_at DESC` gives a permutation of the rows, newest first |
| Store.AllForReclassification | feedback_classifier/database.py:447-454 | at most `n` rows, fewer only when the table holds fewer (every row for a negative `n`), newest first, each a stored row read without a profile |
| Store.ReclassificationNewest | feedback_classifier/database.py:447-454 | the rows read are the newest: no row left out is newer than a row read |
| Store.Matching | feedback_classifier/database.py:287-361 | the rows `search` counts are exactly the stored rows that pass the `WHERE` clause |
| Store.RowMatchesItem | feedback_classifier/database.py:291-351 | for a well-formed row, the SQL conditions (with NULL failing every test) hold exactly when the item read back passes every filter |
| Store.NoFiltersMatchAll | feedback_classifier/database.py:353-361 | with no filter, every row matches and the total count is the table size |
| Store.RerankPairs | feedback_classifier/database.py:402-414 | sorting `(item, score)` pairs by score descending and keeping the items is a stable sort of the items by similarity, 0.0 without an embedding |
| Store.Ranked | feedback_classifier/database.py:363-414 | the ordered result list is a permutation of the matching items: newest first, or by similarity descending when the search reranks |
| Store.SearchSpec | feedback_classifier/database.py:283-419 | the total count is the number of matching rows; the page holds at most `limit` items |
| Store.SearchSound | feedback_classifier/database.py:283-419 | every returned item is read from a stored row that passes the filters |
| Store.SearchItemsMatch | feedback_classifier/database.py:283-419 | with rows as the store writes them, every returned item passes every supplied filter |
| Store.SearchComplete | feedback_classifier/database.py:402-419 | a page from offset 0 that is at least as long as the count holds every matching item exactly once |
| Store.SearchOrder | feedback_classifier/database.py:372-417 | the page is newest first, or by similarity descending when both a query embedding and a query text are given |
| Store.SearchPaging | feedback_classifier/database.py:356-417 | offset and limit only slice one fixed ordered list and never change the total count |
| Store.ProfileFiltersNeedProfile | feedback_classifier/database.py:319-335 | the plan, MRR and industry filters return only items that have a profile |
| Store.FeedbackStore.constructor | feedback_classifier/database.py:84-135 | a new database has no profiles and no feedback |
| Store.FeedbackStore.InsertUserProfile | feedback_classifier/database.py:137-157 | `INSERT OR REPLACE`: the profile is stored under its user id; the feedback is unchanged |
| Store.FeedbackStore.InsertFeedback | feedback_classifier/database.py:159-208 | fills in the given fresh id when the item has none, upserts the profile, and appends the row; a duplicate id is an `IntegrityError` after the profile is committed |
| Store.FeedbackStore.UpdateClassification | feedback_classifier/database.py:421-445 | the rows become `UpdateRows` of the old rows; profiles are unchanged |
| Store.FeedbackStore.Search | feedback_classifier/database.py:283-419 | the loops of `search` compute `SearchSpec` of the current tables |
| Store.FeedbackStore.Convert | feedback_classifier/database.py:378-400 | each joined row becomes its item, with the profile only when the joined user id is non-empty |
| Store.FeedbackStore.Rerank | feedback_classifier/database.py:402-414 | the rerank loop and sort give the items stably sorted by similarity descending |
| Query.ParseAll | feedback_classifier/query_service.py:70-74 | the list comprehension of enum constructors parses every element, and fails exactly when one element is no member's value |
| Query.ParseList | feedback_classifier/query_service.py:70-74 | an absent or empty list is no filter; otherwise the parsed list, or a `ValueError` exactly when an element does not parse |
| Query.StartDate | feedback_classifier/query_service.py:80 | no start date for an absent or zero `days_back`; otherwise `now - days_back` days |
| Query.BuildQuery | feedback_classifier/query_service.py:67-82 | the query carries the parsed filters and the limit; it fails exactly when one of the four enum lists fails to parse |
| Query.QueryEmbedding | feedback_classifier/query_service.py:84-87 | the query embedding is requested exactly when the query text is non-empty |
| Query.NoTextNewestFirst | feedback_classifier/query_service.py:33-89 | a search without query text returns its items newest first |
| Query.ChurnRiskMeaning | feedback_classifier/query_service.py:117-133 | the churn query parses and matches exactly the recent negative churn-intent feedback from users with at least the given MRR |
| Query.UrgentMeaning | feedback_classifier/query_service.py:135-147 | the urgent query matches exactly the recent high-urgency feedback, within the given plans if any |
| Query.UpsellMeaning | feedback_classifier/query_service.py:149-161 | the upsell query matches exactly recent upsell-intent feedback from the given plans, or from `free` and `starter` |
| Query.NpsAlertMeaning | feedback_classifier/query_service.py:163-189 | the detractor and promoter queries match exactly recent NPS feedback scored at most `max_nps` or at least `min_nps` |
| Query.ReclassifyRowsEffect | feedback_classifier/query_service.py:210-229 | with distinct ids, each row named by the batch gets that item's new classification and every other row is unchanged |
| Query.ReclassificationBatchDistinct | feedback_classifier/query_service.py:215 | the batch read for reclassification has distinct ids when the table does |
| Query.ItemMap | feedback_classifier/query_service.py:249 | `{item.id: item}` has a key for every item, and each key maps to an item with that id |
| Query.CustomMatches | feedback_classifier/query_service.py:248-253 | one triple per model answer, in order, with the item under the answer's id; a `KeyError` exactly when an answered id is not among the items |
| Query.CustomMatchesPairUp | feedback_classifier/query_service.py:245-253 | with distinct ids and one answer per item, in order, each triple carries its own item |
| Query.CustomCriteriaPairs | feedback_classifier/query_service.py:231-253 | on a store with distinct ids, `find_by_custom_criteria` never fails and pairs each of the newest items with its own verdict |
| Query.SourceCountsSum | feedback_classifier/query_service.py:273-276 | the per-source counts add up to the number of items, and only source values are keys |
| Query.SourceKeysSeen | feedback_classifier/query_service.py:264-276 | the per-source keys are exactly the sources of the items counted |
| Query.ClassifiedCountsSum | feedback_classifier/query_service.py:261-297 | the sentiment and urgency counts each add up to the number of classified items and keep exactly their three preset keys |
| Query.NpsScoresCollected | feedback_classifier/query_service.py:271-280 | the scores collected are empty exactly when no item has a score, and each comes from an item |
| Query.NpsScoresInOrder | feedback_classifier/query_service.py:271-280 | the scores collected are exactly those of the scored items, each once, in item order |
| Query.Average | feedback_classifier/query_service.py:299-300 | `None` exactly when no score was collected; otherwise the value times the number of scores is their sum (the mean) |
| Query.CountOne | feedback_classifier/query_service.py:273-297 | the loop body's updates to the counters equal `CountItem` |
| Query.CountFeedback | feedback_classifier/query_service.py:271-297 | the counting loop computes `Tally` of the items |
| Query.FeedbackQueryService.constructor | feedback_classifier/query_service.py:28-31 | the service uses the given store and AI service |
| Query.FeedbackQueryService.Search | feedback_classifier/query_service.py:33-89 | the result is the store's search on the built query and the query embedding, or the enum `ValueError` |
| Query.FeedbackQueryService.Ask | feedback_classifier/query_service.py:91-113 | searches with the question as query text and limit 30; no items gives the fixed message, otherwise the model's answer |
| Query.FeedbackQueryService.GetChurnRisks | feedback_classifier/query_service.py:117-133 | the search with the churn preset; the defaults are MRR 100, 30 days, 20 items |
| Query.FeedbackQueryService.GetUrgentIssues | feedback_classifier/query_service.py:135-147 | the search with the urgent preset; the defaults are 7 days, 20 items |
| Query.FeedbackQueryService.GetUpsellOpportunities | feedback_classifier/query_service.py:149-161 | the search with the upsell preset; the defaults are 30 days, 20 items |
| Query.FeedbackQueryService.GetDetractorFeedback | feedback_classifier/query_service.py:163-175 | the search with the detractor preset; the defaults are NPS 6, 30 days, 20 items |
| Query.FeedbackQueryService.GetPromoterFeedback | feedback_classifier/query_service.py:177-189 | the search with the promoter preset; the defaults are NPS 9, 30 days, 20 items |
| Query.FeedbackQueryService.GetTopicSummary | feedback_classifier/query_service.py:191-206 | up to 50 items on the topic; none gives the fixed message, otherwise the model's summary |
| Query.FeedbackQueryService.ReclassifyAll | feedback_classifier/query_service.py:210-229 | returns the batch size read, rewrites exactly those rows' classifications, and leaves the profiles alone |
| Query.FeedbackQueryService.FindByCustomCriteria | feedback_classifier/query_service.py:231-253 | the model's answers for the newest `limit` items, paired with the items by id |
| Query.FeedbackQueryService.GetStatistics | feedback_classifier/query_service.py:257-302 | the total count of the search and the counters `Tally` gives over its items, with the average NPS |
| Ingestion.SingleItem | feedback_classifier/ingestion.py:44-65 | the item carries the text, source, profile, NPS and ticket fields, the given or current time, and the text's embedding; it is classified exactly when classification is not skipped |
| Ingestion.BatchProfile | feedback_classifier/ingestion.py:104-114 | a record gets a profile exactly when its user id is non-empty, with that id and its e-mail |
| Ingestion.EmbedChunks | feedback_classifier/ingestion.py:95-101 | one embedding per text, whatever the batch size |
| Ingestion.EmbedChunksTransparent | feedback_classifier/ingestion.py:95-101 | when the batch embedding agrees with the single one, chunking changes no embedding |
| Ingestion.BatchItem | feedback_classifier/ingestion.py:103-137 | the record's item has its text, its profile, the parsed or current time and its chunk's embedding; it is classified exactly when classification is not skipped |
| Ingestion.BatchItems | feedback_classifier/ingestion.py:72-144 | one item per record for a positive batch size; none for a negative one (an empty `range`); each undated record takes its own clock reading |
| Ingestion.BatchItemsShape | feedback_classifier/ingestion.py:103-144 | each returned item has its record's text, its own id, a profile exactly when there is a user id, its chunk's embedding, and its record's date or else its own clock reading, in order |
| Ingestion.NpsRecord | feedback_classifier/ingestion.py:172-180 | the record has the response text, the score when the score column is non-empty, and the user, e-mail and date columns |
| Ingestion.NpsRecords | feedback_classifier/ingestion.py:164-180 | every record built has a non-empty text, and there are no more records than rows |
| Ingestion.NpsRecordsKept | feedback_classifier/ingestion.py:164-180 | the records are exactly those of the rows with a non-empty response, in row order, one each |
| Ingestion.NpsRecordsAllAnswered | feedback_classifier/ingestion.py:168-180 | a row is skipped only for a missing response: when every row is answered, there is one record per row, in order |
| Ingestion.ZendeskRecord | feedback_classifier/ingestion.py:207-218 | the description (or empty) as text, `str(id)` as ticket id (`"None"` when absent), the priority, the time and the requester's id and e-mail |
| Ingestion.CsvProfile | feedback_classifier/ingestion.py:244-251 | the profile has the row's user id, its e-mail and plan, and an MRR exactly when the MRR column is non-empty |
| Ingestion.CsvProfiles | feedback_classifier/ingestion.py:240-251 | there are no more profiles than rows |
| Ingestion.CsvProfilesKept | feedback_classifier/ingestion.py:240-251 | the profiles are exactly those of the rows with a non-empty user id, in row order, one each |
| Ingestion.PutProfilesEffect | feedback_classifier/ingestion.py:236-256 | after an import every user id of the file is stored, under the last profile for it, and other profiles are untouched |
| Ingestion.FeedbackIngester.constructor | feedback_classifier/ingestion.py:22-25 | the ingester uses the given store and AI service |
| Ingestion.FeedbackIngester.IngestSingle | feedback_classifier/ingestion.py:27-70 | returns `SingleItem`, whose row is appended, with its profile upserted |
| Ingestion.FeedbackIngester.BuildItem | feedback_classifier/ingestion.py:104-137 | the inner loop's construction of one item equals `BatchItem` |
| Ingestion.FeedbackIngester.IngestRecord | feedback_classifier/ingestion.py:103-140 | one record's item is built, stored as a new row, and has its profile upserted |
| Ingestion.FeedbackIngester.IngestRun | feedback_classifier/ingestion.py:103-140 | the inner loop over one chunk extends the results and the stored rows by that chunk's items |
| Ingestion.FeedbackIngester.IngestBatch | feedback_classifier/ingestion.py:72-144 | returns `BatchItems`; their rows are appended in order and their profiles upserted in order |
| Ingestion.FeedbackIngester.IngestNpsCsv | feedback_classifier/ingestion.py:146-182 | the answered rows are ingested as NPS records in batches of 10 |
| Ingestion.FeedbackIngester.IngestZendeskJson | feedback_classifier/ingestion.py:184-220 | one record per ticket is ingested as Zendesk feedback in batches of 10 |
| Ingestion.FeedbackIngester.IngestUserProfilesCsv | feedback_classifier/ingestion.py:222-256 | returns the number of rows with a user id, and writes their profiles in order; feedback is unchanged |

## Left out

**Outside the model's boundary**
- File reading, CSV and JSON parsing, `print`, the thread lock of the job manager, the SQLite connection and its commits. Each importer takes the rows or tickets already parsed.
- The remote AI service: embedding, classification, answering and custom matching are functions in `Oracles.AIService`. Only the fallback classification is modelled.
- Cosine similarity is a function the store is built with.
- `uuid4` ids, `datetime.now()` (one reading per item in a batch, given as a sequence like the ids), `isoformat` and `fromisoformat`, `int()` and `float()` of CSV text are parameters. Timestamps are whole seconds; ISO strings are assumed to compare like the times they denote.
- The PostgreSQL backend and `get_database` are not part of this model.
- `Job.to_dict` (formatting and rounding) is not part of this model. `Jobs.Percentage` uses exact reals, not floating point.

**Inputs the model assumes are well formed**
- These are the JSON nulls where the code calls `.get` on them, and a record without a `text` key.
- Parse errors of the parameters (`fromisoformat`, `int`, `float`) are not modelled.
- `Ingestion.FeedbackIngester.IngestSingle`: requires a non-empty id that is not yet stored, where the source draws a fresh `uuid4`.
- `Ingestion.FeedbackIngester.IngestRecord`: requires a non-empty id that is not yet stored, where the source draws a fresh `uuid4`.
- `Ingestion.FeedbackIngester.IngestBatch`: requires fresh, distinct ids for the same reason. It requires a non-zero batch size, where `range` with step 0 raises `ValueError`. It requires an embedding service that answers one embedding per text.
- `Ingestion.FeedbackIngester.IngestNpsCsv`: requires fresh ids and a per-text embedding service, as `IngestBatch` does.
- `Ingestion.FeedbackIngester.IngestZendeskJson`: requires fresh ids and a per-text embedding service, as `IngestBatch` does.
- `Query.CustomCriteriaPairs`: assumes the custom-match oracle answers once per item, in order, under the item's id (`Oracles.MatchesPerItem`). The parsing of the model's reply in `ai_service.py` is not part of this model.
- `Query.FeedbackQueryService.Ask`: the source passes `query_text` and `limit` beside `**filters`, so filters that already hold either key raise `TypeError`. The model instead replaces them with the question and 30.

**Storage details simplified**
- Topic filtering: `f.topics LIKE '%"t"%'` over the `json.dumps` text of the stored list is modelled as membership of `t` in the stored topic list. The SQL test differs in three ways. LIKE ignores ASCII case, so `Bug` finds a stored `bug`. `json.dumps` escapes `"`, `\` and non-ASCII characters, so a topic containing them does not find itself, and a request such as `a", "b` finds the stored list `["a", "b"]`. `%` and `_` in a requested topic are LIKE wildcards.
- The profile table stores `UserProfile` values. The `isoformat`/`json.dumps` encoding of the signup date and custom traits is taken to read back unchanged, so a joined profile is the stored one.
- `Store.FeedbackStore.InsertFeedback`: returns the filled-in id instead of writing it into the caller's object.
- `Store.NewestFirst`: SQLite leaves the order of rows with equal `created_at` unspecified. The model keeps their insertion order.
