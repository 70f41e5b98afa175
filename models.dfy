/** The records of the feedback classifier: the four string enums, the user
    profile, the classification, the feedback item, the search query and the
    search result, with their `to_dict` projections to JSON-like values.
    Timestamps are whole seconds; `isoformat` is a formatting function the
    caller supplies, and its parsing counterpart is used by the decoders that
    invert the projections. */
module Models {
  import opened Wrappers

  type Timestamp = int

  // ---------------------------------------------------------------- enums

  datatype FeedbackSource = Nps | Zendesk | Intercom | Email | OtherSource {
    function Value(): string {
      match this
      case Nps => "nps"
      case Zendesk => "zendesk"
      case Intercom => "intercom"
      case Email => "email"
      case OtherSource => "other"
    }
  }

  datatype Sentiment = Positive | Neutral | Negative {
    function Value(): string {
      match this
      case Positive => "positive"
      case Neutral => "neutral"
      case Negative => "negative"
    }
  }

  datatype Urgency = Low | Medium | High {
    function Value(): string {
      match this
      case Low => "low"
      case Medium => "medium"
      case High => "high"
    }
  }

  datatype Intent = ChurnRisk | UpsellOpportunity | SupportNeeded | FeatureAdvocacy | GeneralFeedback {
    function Value(): string {
      match this
      case ChurnRisk => "churn_risk"
      case UpsellOpportunity => "upsell_opportunity"
      case SupportNeeded => "support_needed"
      case FeatureAdvocacy => "feature_advocacy"
      case GeneralFeedback => "general_feedback"
    }
  }

  /** `FeedbackSource(s)`: the member whose value is `s`; Python raises
      `ValueError` for any other string, modelled as `None`. */
  function SourceFromValue(s: string): (r: Option<FeedbackSource>)
    ensures r.Some? ==> r.value.Value() == s
    ensures r.None? <==> forall f: FeedbackSource :: f.Value() != s
  {
    if s == "nps" then Some(Nps)
    else if s == "zendesk" then Some(Zendesk)
    else if s == "intercom" then Some(Intercom)
    else if s == "email" then Some(Email)
    else if s == "other" then Some(OtherSource)
    else None
  }

  function SentimentFromValue(s: string): (r: Option<Sentiment>)
    ensures r.Some? ==> r.value.Value() == s
    ensures r.None? <==> forall x: Sentiment :: x.Value() != s
  {
    if s == "positive" then Some(Positive)
    else if s == "neutral" then Some(Neutral)
    else if s == "negative" then Some(Negative)
    else None
  }

  function UrgencyFromValue(s: string): (r: Option<Urgency>)
    ensures r.Some? ==> r.value.Value() == s
    ensures r.None? <==> forall x: Urgency :: x.Value() != s
  {
    if s == "low" then Some(Low)
    else if s == "medium" then Some(Medium)
    else if s == "high" then Some(High)
    else None
  }

  function IntentFromValue(s: string): (r: Option<Intent>)
    ensures r.Some? ==> r.value.Value() == s
    ensures r.None? <==> forall x: Intent :: x.Value() != s
  {
    if s == "churn_risk" then Some(ChurnRisk)
    else if s == "upsell_opportunity" then Some(UpsellOpportunity)
    else if s == "support_needed" then Some(SupportNeeded)
    else if s == "feature_advocacy" then Some(FeatureAdvocacy)
    else if s == "general_feedback" then Some(GeneralFeedback)
    else None
  }

  /** The values of each enum are pairwise distinct, so reading a stored value
      back gives the member that was stored. */
  lemma EnumRoundTrips(f: FeedbackSource, s: Sentiment, u: Urgency, i: Intent)
    ensures SourceFromValue(f.Value()) == Some(f)
    ensures SentimentFromValue(s.Value()) == Some(s)
    ensures UrgencyFromValue(u.Value()) == Some(u)
    ensures IntentFromValue(i.Value()) == Some(i)
  {
  }

  // ------------------------------------------------------------ JSON values

  /** The values `to_dict` produces. */
  datatype Json =
    | JNull
    | JBool(b: bool)
    | JInt(i: int)
    | JReal(r: real)
    | JStr(s: string)
    | JList(elems: seq<Json>)
    | JObj(fields: map<string, Json>)

  function OptStr(o: Option<string>): Json {
    match o
    case Some(s) => JStr(s)
    case None => JNull
  }

  function OptInt(o: Option<int>): Json {
    match o
    case Some(n) => JInt(n)
    case None => JNull
  }

  function OptReal(o: Option<real>): Json {
    match o
    case Some(x) => JReal(x)
    case None => JNull
  }

  /** A JSON `null` or string read back as an optional string. */
  function AsOptStr(j: Json): Option<Option<string>> {
    match j
    case JNull => Some(None)
    case JStr(s) => Some(Some(s))
    case _ => None
  }

  function AsOptInt(j: Json): Option<Option<int>> {
    match j
    case JNull => Some(None)
    case JInt(n) => Some(Some(n))
    case _ => None
  }

  function AsOptReal(j: Json): Option<Option<real>> {
    match j
    case JNull => Some(None)
    case JReal(x) => Some(Some(x))
    case _ => None
  }

  /** A list of strings as a JSON array, element by element. */
  function JsonStrings(ts: seq<string>): (r: seq<Json>)
    ensures |r| == |ts|
  {
    if ts == [] then [] else [JStr(ts[0])] + JsonStrings(ts[1..])
  }

  /** A JSON array read back as a list of strings; `None` when an element is not a string. */
  function AsStrings(js: seq<Json>): (r: Option<seq<string>>)
    ensures r.Some? ==> |r.value| == |js|
  {
    if js == [] then Some([])
    else match js[0]
      case JStr(s) =>
        (match AsStrings(js[1..])
         case Some(rest) => Some([s] + rest)
         case None => None)
      case _ => None
  }

  lemma {:induction false} StringsRoundTrip(ts: seq<string>)
    ensures AsStrings(JsonStrings(ts)) == Some(ts)
  {
    if ts != [] {
      StringsRoundTrip(ts[1..]);
      assert JsonStrings(ts)[1..] == JsonStrings(ts[1..]);
      assert [ts[0]] + ts[1..] == ts;
    }
  }

  // ------------------------------------------------------------ user profile

  datatype UserProfile = UserProfile(
    userId: string,
    email: Option<string>,
    subscriptionType: Option<string>,
    mrr: Option<real>,
    companyName: Option<string>,
    industry: Option<string>,
    signupDate: Option<Timestamp>,
    customTraits: map<string, Json>)
  {
    /** `to_dict`; a datetime is always truthy, so a present signup date is formatted. */
    function ToDict(iso: Timestamp -> string): map<string, Json> {
      map[
        "user_id" := JStr(userId),
        "email" := OptStr(email),
        "subscription_type" := OptStr(subscriptionType),
        "mrr" := OptReal(mrr),
        "company_name" := OptStr(companyName),
        "industry" := OptStr(industry),
        "signup_date" := (match signupDate case Some(d) => JStr(iso(d)) case None => JNull),
        "custom_traits" := JObj(customTraits)]
    }
  }

  /** `UserProfile(user_id=...)` with every other field at its default. */
  function NewUserProfile(userId: string): UserProfile {
    UserProfile(userId, None, None, None, None, None, None, map[])
  }

  /** Reads a dictionary of the shape `UserProfile.to_dict` produces. */
  function ProfileFromDict(d: map<string, Json>, fromIso: string -> Option<Timestamp>): Option<UserProfile> {
    if !("user_id" in d && "email" in d && "subscription_type" in d && "mrr" in d
         && "company_name" in d && "industry" in d && "signup_date" in d && "custom_traits" in d)
    then None
    else
      var email, sub, mrr := AsOptStr(d["email"]), AsOptStr(d["subscription_type"]), AsOptReal(d["mrr"]);
      var company, industry := AsOptStr(d["company_name"]), AsOptStr(d["industry"]);
      var signup: Option<Option<Timestamp>> :=
        match d["signup_date"]
        case JNull => Some(None)
        case JStr(s) => (match fromIso(s) case Some(t) => Some(Some(t)) case None => None)
        case _ => None;
      if !d["user_id"].JStr? || !d["custom_traits"].JObj? || email.None? || sub.None? || mrr.None?
         || company.None? || industry.None? || signup.None?
      then None
      else Some(UserProfile(d["user_id"].s, email.value, sub.value, mrr.value, company.value,
                            industry.value, signup.value, d["custom_traits"].fields))
  }

  /** `UserProfile.to_dict` loses nothing: with a date format that parses back,
      the dictionary determines the profile. */
  lemma ProfileRoundTrip(p: UserProfile, iso: Timestamp -> string, fromIso: string -> Option<Timestamp>)
    requires forall t :: fromIso(iso(t)) == Some(t)
    ensures ProfileFromDict(p.ToDict(iso), fromIso) == Some(p)
  {
    var d := p.ToDict(iso);
    ProfileDictFields(p, iso);
    assert AsOptStr(d["email"]) == Some(p.email) && AsOptStr(d["subscription_type"]) == Some(p.subscriptionType);
    assert AsOptStr(d["company_name"]) == Some(p.companyName) && AsOptStr(d["industry"]) == Some(p.industry);
    assert AsOptReal(d["mrr"]) == Some(p.mrr);
    match p.signupDate
    case Some(t) => assert fromIso(iso(t)) == Some(t);
    case None =>
  }

  /** The entries of `UserProfile.to_dict`, one per field. */
  lemma ProfileDictFields(p: UserProfile, iso: Timestamp -> string)
    ensures var d := p.ToDict(iso);
      && "user_id" in d && "email" in d && "subscription_type" in d && "mrr" in d
      && "company_name" in d && "industry" in d && "signup_date" in d && "custom_traits" in d
      && d["user_id"] == JStr(p.userId) && d["email"] == OptStr(p.email)
      && d["subscription_type"] == OptStr(p.subscriptionType) && d["mrr"] == OptReal(p.mrr)
      && d["company_name"] == OptStr(p.companyName) && d["industry"] == OptStr(p.industry)
      && d["signup_date"] == (match p.signupDate case Some(t) => JStr(iso(t)) case None => JNull)
      && d["custom_traits"] == JObj(p.customTraits)
  {
  }

  // ---------------------------------------------------------- classification

  datatype Classification = Classification(
    sentiment: Sentiment,
    topics: seq<string>,
    urgency: Urgency,
    intent: Intent,
    summary: string,
    confidence: real)
  {
    /** `to_dict`: enum members by their values, the rest unchanged. */
    function ToDict(): map<string, Json> {
      map[
        "sentiment" := JStr(sentiment.Value()),
        "topics" := JList(JsonStrings(topics)),
        "urgency" := JStr(urgency.Value()),
        "intent" := JStr(intent.Value()),
        "summary" := JStr(summary),
        "confidence" := JReal(confidence)]
    }
  }

  /** A classification constructed without a confidence. */
  function NewClassification(sentiment: Sentiment, topics: seq<string>, urgency: Urgency,
                             intent: Intent, summary: string): (c: Classification)
    ensures c.confidence == 0.0
    ensures c.sentiment == sentiment && c.topics == topics && c.urgency == urgency
    ensures c.intent == intent && c.summary == summary
  {
    Classification(sentiment, topics, urgency, intent, summary, 0.0)
  }

  /** Reads a dictionary of the shape `Classification.to_dict` produces;
      `None` for a missing key, a wrong type or an unknown enum value. */
  function ClassificationFromDict(d: map<string, Json>): Option<Classification> {
    if !("sentiment" in d && "topics" in d && "urgency" in d && "intent" in d
         && "summary" in d && "confidence" in d)
    then None
    else if !(d["sentiment"].JStr? && d["topics"].JList? && d["urgency"].JStr? && d["intent"].JStr?
              && d["summary"].JStr? && d["confidence"].JReal?)
    then None
    else
      var s, t := SentimentFromValue(d["sentiment"].s), AsStrings(d["topics"].elems);
      var u, i := UrgencyFromValue(d["urgency"].s), IntentFromValue(d["intent"].s);
      if s.None? || t.None? || u.None? || i.None? then None
      else Some(Classification(s.value, t.value, u.value, i.value, d["summary"].s, d["confidence"].r))
  }

  /** `Classification.to_dict` passes topics, summary and confidence through and
      writes each enum as its value, so the dictionary reads back to the same
      classification. */
  lemma ClassificationRoundTrip(c: Classification)
    ensures ClassificationFromDict(c.ToDict()) == Some(c)
  {
    StringsRoundTrip(c.topics);
    EnumRoundTrips(Nps, c.sentiment, c.urgency, c.intent);
  }

  // ----------------------------------------------------------- feedback item

  datatype FeedbackItem = FeedbackItem(
    id: string,
    text: string,
    source: FeedbackSource,
    createdAt: Timestamp,
    userProfile: Option<UserProfile>,
    classification: Option<Classification>,
    embedding: Option<seq<real>>,
    npsScore: Option<int>,
    ticketId: Option<string>,
    ticketPriority: Option<string>)
  {
    /** `to_dict`: every field except the embedding; profile and classification
        become their own dictionaries (a dataclass is always truthy) or null. */
    function ToDict(iso: Timestamp -> string): (d: map<string, Json>)
      ensures "embedding" !in d
      ensures d.Keys == {"id", "text", "source", "created_at", "user_profile", "classification",
                         "nps_score", "ticket_id", "ticket_priority"}
      ensures d["user_profile"] == (if userProfile.Some? then JObj(userProfile.value.ToDict(iso)) else JNull)
      ensures d["classification"] == (if classification.Some? then JObj(classification.value.ToDict()) else JNull)
    {
      map[
        "id" := JStr(id),
        "text" := JStr(text),
        "source" := JStr(source.Value()),
        "created_at" := JStr(iso(createdAt)),
        "user_profile" := (match userProfile case Some(p) => JObj(p.ToDict(iso)) case None => JNull),
        "classification" := (match classification case Some(c) => JObj(c.ToDict()) case None => JNull),
        "nps_score" := OptInt(npsScore),
        "ticket_id" := OptStr(ticketId),
        "ticket_priority" := OptStr(ticketPriority)]
    }
  }

  /** A feedback item constructed with only its required fields. */
  function NewFeedbackItem(id: string, text: string, source: FeedbackSource, createdAt: Timestamp): FeedbackItem {
    FeedbackItem(id, text, source, createdAt, None, None, None, None, None, None)
  }

  function AsOptProfile(j: Json, fromIso: string -> Option<Timestamp>): Option<Option<UserProfile>> {
    match j
    case JNull => Some(None)
    case JObj(m) => (match ProfileFromDict(m, fromIso) case Some(p) => Some(Some(p)) case None => None)
    case _ => None
  }

  function AsOptClassification(j: Json): Option<Option<Classification>> {
    match j
    case JNull => Some(None)
    case JObj(m) => (match ClassificationFromDict(m) case Some(c) => Some(Some(c)) case None => None)
    case _ => None
  }

  /** Reads a dictionary of the shape `FeedbackItem.to_dict` produces. */
  function ItemFromDict(d: map<string, Json>, fromIso: string -> Option<Timestamp>): Option<FeedbackItem> {
    if !("id" in d && "text" in d && "source" in d && "created_at" in d && "user_profile" in d
         && "classification" in d && "nps_score" in d && "ticket_id" in d && "ticket_priority" in d)
    then None
    else ItemFromFields(d["id"], d["text"], d["source"], d["created_at"], AsOptProfile(d["user_profile"], fromIso),
                        AsOptClassification(d["classification"]), AsOptInt(d["nps_score"]),
                        AsOptStr(d["ticket_id"]), AsOptStr(d["ticket_priority"]), fromIso)
  }

  function ItemFromFields(id: Json, text: Json, source: Json, created: Json,
                          profile: Option<Option<UserProfile>>, cls: Option<Option<Classification>>,
                          nps: Option<Option<int>>, ticket: Option<Option<string>>,
                          priority: Option<Option<string>>,
                          fromIso: string -> Option<Timestamp>): Option<FeedbackItem> {
    if !(id.JStr? && text.JStr? && source.JStr? && created.JStr?) then None
    else
      var src, at := SourceFromValue(source.s), fromIso(created.s);
      if src.None? || at.None? || profile.None? || cls.None? || nps.None? || ticket.None? || priority.None?
      then None
      else Some(FeedbackItem(id.s, text.s, src.value, at.value, profile.value,
                             cls.value, None, nps.value, ticket.value, priority.value))
  }

  /** `FeedbackItem.to_dict` keeps every field but the embedding: reading the
      dictionary back gives the item without its embedding. */
  lemma ItemRoundTrip(it: FeedbackItem, iso: Timestamp -> string, fromIso: string -> Option<Timestamp>)
    requires forall t :: fromIso(iso(t)) == Some(t)
    ensures ItemFromDict(it.ToDict(iso), fromIso) == Some(it.(embedding := None))
  {
    var d := it.ToDict(iso);
    assert d["id"] == JStr(it.id) && d["text"] == JStr(it.text);
    assert d["source"] == JStr(it.source.Value()) && d["created_at"] == JStr(iso(it.createdAt));
    assert AsOptInt(d["nps_score"]) == Some(it.npsScore);
    assert AsOptStr(d["ticket_id"]) == Some(it.ticketId);
    assert AsOptStr(d["ticket_priority"]) == Some(it.ticketPriority);
    EnumRoundTrips(it.source, Neutral, Low, GeneralFeedback);
    assert fromIso(iso(it.createdAt)) == Some(it.createdAt);
    if it.userProfile.Some? {
      ProfileRoundTrip(it.userProfile.value, iso, fromIso);
    }
    assert AsOptProfile(d["user_profile"], fromIso) == Some(it.userProfile);
    if it.classification.Some? {
      ClassificationRoundTrip(it.classification.value);
    }
    assert AsOptClassification(d["classification"]) == Some(it.classification);
  }

  // ------------------------------------------------------------------ search

  datatype SearchQuery = SearchQuery(
    queryText: Option<string>,
    sources: Option<seq<FeedbackSource>>,
    sentiments: Option<seq<Sentiment>>,
    topics: Option<seq<string>>,
    urgencyLevels: Option<seq<Urgency>>,
    intents: Option<seq<Intent>>,
    subscriptionTypes: Option<seq<string>>,
    minMrr: Option<real>,
    maxMrr: Option<real>,
    industries: Option<seq<string>>,
    minNps: Option<int>,
    maxNps: Option<int>,
    startDate: Option<Timestamp>,
    endDate: Option<Timestamp>,
    limit: int,
    offset: int)

  /** No filter of the query is set (the query text is not a filter). */
  predicate NoFilters(q: SearchQuery) {
    q.sources.None? && q.sentiments.None? && q.topics.None? && q.urgencyLevels.None?
    && q.intents.None? && q.subscriptionTypes.None? && q.minMrr.None? && q.maxMrr.None?
    && q.industries.None? && q.minNps.None? && q.maxNps.None? && q.startDate.None? && q.endDate.None?
  }

  /** `SearchQuery()` with every field at its default. */
  function DefaultQuery(): (q: SearchQuery)
    ensures NoFilters(q) && q.queryText.None?
    ensures q.limit == 20 && q.offset == 0
  {
    SearchQuery(None, None, None, None, None, None, None, None, None, None, None, None, None, None, 20, 0)
  }

  datatype SearchResult = SearchResult(
    items: seq<FeedbackItem>,
    totalCount: int,
    query: SearchQuery,
    summary: Option<string>)
}
