/** The in-memory store behind the server: users, comments, authors and
  * per-user configuration, each a JavaScript `Map` keyed by record id; the
  * comment query with its ten optional filters and its ordering; the daily
  * snapshot aggregation; the truthiness-merging configuration upsert; and
  * the fixed suggestion table.
  *
  * Identifiers (`randomUUID()`) and the clock (`new Date()`) are parameters. */
module Storage {
  import opened Optional
  import opened Seqs
  import opened Text
  import opened Ranking
  import opened OrderedMaps
  import opened Domain

  // ---------------------------------------------------------------- records

  /** The fields a caller supplies to `createUser`. */
  datatype InsertUser = InsertUser(username: string, email: string, password: string, businessName: Option<string>)

  /** The fields a caller supplies to `createComment`: the validated comment
    * plus the owner, the classifier's verdict and the influence. */
  datatype NewComment = NewComment(
    userId: string,
    source: string,
    authorId: Option<string>,
    text: string,
    lang: Option<string>,
    country: Option<string>,
    sentimentLabel: string,
    sentimentScore: real,
    influence: int)

  datatype InsertAuthor = InsertAuthor(
    name: string,
    handle: Option<string>,
    followers: Option<int>,
    avatarUrl: Option<string>,
    platform: Option<string>)

  datatype Config = Config(
    id: string,
    userId: string,
    huggingfaceToken: Option<string>,
    demoMode: string,
    sentimentThreshold: real)

  /** `Partial<Config>`: only the three settings matter to the merge. */
  datatype ConfigUpdate = ConfigUpdate(
    huggingfaceToken: Option<string>,
    demoMode: Option<string>,
    sentimentThreshold: Option<real>)

  /** One day of activity for one user; `day` is the day number of its midnight. */
  datatype Snapshot = Snapshot(
    userId: string,
    day: int,
    mentions: nat,
    reach: real,
    avgScore: real,
    pos: nat,
    neu: nat,
    neg: nat)

  datatype Suggestion = Suggestion(id: string, category: string, title: string, body: string)

  // ---------------------------------------------------------- comment query

  /** The optional filters of `getComments`. Dates arrive already parsed to
    * timestamps; an absent or empty date string is None. */
  datatype Filters = Filters(
    userId: Option<string>,
    source: Option<seq<string>>,
    sentiment: Option<seq<string>>,
    minInfluence: Option<int>,
    countriesExclude: Option<seq<string>>,
    languagesExclude: Option<seq<string>>,
    q: Option<string>,
    dateFrom: Option<int>,
    dateTo: Option<int>,
    order: Option<string>)

  /** `getComments()` with no filter object behaves as every filter absent. */
  const NoFilters: Filters := Filters(None, None, None, None, None, None, None, None, None, None)

  /** `getComments({ userId })` */
  function UserOnly(userId: string): Filters {
    NoFilters.(userId := Some(userId))
  }

  /** `l && l.length > 0` */
  predicate NonEmptyList(l: Option<seq<string>>) {
    l.Some? && |l.value| > 0
  }

  predicate UserOk(f: Filters, c: Comment) {
    TruthyStr(f.userId) ==> c.userId == f.userId
  }

  predicate SourceOk(f: Filters, c: Comment) {
    NonEmptyList(f.source) ==> c.source in f.source.value
  }

  predicate SentimentOk(f: Filters, c: Comment) {
    NonEmptyList(f.sentiment) ==> c.sentimentLabel in f.sentiment.value
  }

  predicate InfluenceOk(f: Filters, c: Comment) {
    f.minInfluence.Some? ==> InfluenceOr0(c) >= f.minInfluence.value
  }

  /** A missing country or language is compared as the empty string. */
  predicate CountryOk(f: Filters, c: Comment) {
    NonEmptyList(f.countriesExclude) ==> c.country.GetOr("") !in f.countriesExclude.value
  }

  predicate LanguageOk(f: Filters, c: Comment) {
    NonEmptyList(f.languagesExclude) ==> c.lang.GetOr("") !in f.languagesExclude.value
  }

  /** The comment names a known author whose lowercased name contains `query`. */
  predicate AuthorNameHas(authors: map<string, Author>, c: Comment, query: string) {
    TruthyStr(c.authorId) && c.authorId.value in authors &&
    Contains(Lower(authors[c.authorId.value].name), query)
  }

  predicate QueryOk(f: Filters, authors: map<string, Author>, c: Comment) {
    TruthyStr(f.q) ==>
      Contains(Lower(c.text), Lower(f.q.value)) || AuthorNameHas(authors, c, Lower(f.q.value))
  }

  /** Date bounds are inclusive and drop comments without a date. */
  predicate FromOk(f: Filters, c: Comment) {
    f.dateFrom.Some? ==> c.createdAt.Some? && c.createdAt.value >= f.dateFrom.value
  }

  predicate ToOk(f: Filters, c: Comment) {
    f.dateTo.Some? ==> c.createdAt.Some? && c.createdAt.value <= f.dateTo.value
  }

  /** A comment is returned iff it passes every supplied filter. */
  predicate Matches(f: Filters, authors: map<string, Author>, c: Comment) {
    UserOk(f, c) && SourceOk(f, c) && SentimentOk(f, c) && InfluenceOk(f, c) &&
    CountryOk(f, c) && LanguageOk(f, c) && QueryOk(f, authors, c) && FromOk(f, c) && ToOk(f, c)
  }

  function MatchesOf(f: Filters, authors: map<string, Author>): Comment -> bool {
    (c: Comment) => Matches(f, authors, c)
  }

  /** Sort key of `order = "top"`: `(c.influence || 0)`. */
  function InfluenceKey(c: Comment): real {
    InfluenceOr0(c) as real
  }

  /** Sort key otherwise: the creation time, 0 when missing. */
  function RecencyKey(c: Comment): real {
    c.createdAt.GetOr(0) as real
  }

  function OrderKey(order: Option<string>): Comment -> real {
    if order == Some("top") then InfluenceKey else RecencyKey
  }

  /** With distinct keys, the comments matching f are the matching stored
    * values, a created comment is appended to every query it matches and
    * the other results are unchanged. */
  lemma NewCommentSelected(m: OMap<Comment>, authors: map<string, Author>, f: Filters, id: string, c: Comment)
    requires OrderedMaps.Valid(m) && id !in m.entries
    ensures Filter(Values(Put(m, id, c)), (x: Comment) => Matches(f, authors, x)) ==
            Filter(Values(m), (x: Comment) => Matches(f, authors, x)) + (if Matches(f, authors, c) then [c] else [])
  {
    PutNewValues(m, id, c);
    FilterAppend(Values(m), c, (x: Comment) => Matches(f, authors, x));
  }

  // ------------------------------------------------------------- snapshots

  /** `range === "1d" ? 1 : range === "7d" ? 7 : 30` */
  function RangeDays(range: Option<string>): (days: nat)
    ensures days in {1, 7, 30}
    ensures days == 1 <==> range == Some("1d")
    ensures days == 7 <==> range == Some("7d")
  {
    if range == Some("1d") then 1 else if range == Some("7d") then 7 else 30
  }

  /** The comment was created on the given day. */
  predicate OnDay(c: Comment, day: int) {
    c.createdAt.Some? && DayOf(c.createdAt.value) == day
  }

  /** The day filter of `getSnapshots`: undated comments never match. */
  function OnDayOf(day: int): Comment -> bool {
    (c: Comment) => OnDay(c, day)
  }

  function ReachOf(c: Comment): real {
    (InfluenceOr0(c) * 100) as real
  }

  function ScoreOf(c: Comment): real {
    c.sentimentScore
  }

  /** The snapshot of one day built from the comments of that day. */
  function Bucket(userId: string, day: int, dayComments: seq<Comment>): Snapshot {
    var mentions := |dayComments|;
    Snapshot(
      userId, day, mentions,
      Sum(dayComments, ReachOf),
      if mentions > 0 then Sum(dayComments, ScoreOf) / mentions as real else 0.0,
      LabelCount(dayComments, POSITIVE),
      LabelCount(dayComments, NEUTRAL),
      LabelCount(dayComments, NEGATIVE))
  }

  /** The comments of cs created on `day`, in order. */
  function CreatedOn(cs: seq<Comment>, day: int): (r: seq<Comment>)
    ensures forall x :: multiset(r)[x] == if OnDay(x, day) then multiset(cs)[x] else 0
  {
    if cs == [] then []
    else
      var init, last := cs[..|cs| - 1], cs[|cs| - 1];
      assert cs == init + [last];
      CreatedOn(init, day) + (if OnDay(last, day) then [last] else [])
  }

  /** The snapshot of `day` built from those of `cs` created on that day. */
  function DayBucket(userId: string, day: int, cs: seq<Comment>): Snapshot {
    Bucket(userId, day, CreatedOn(cs, day))
  }

  /** `day => DayBucket(userId, day, cs)` */
  function DayBuckets(userId: string, cs: seq<Comment>): int -> Snapshot {
    (d: int) => DayBucket(userId, d, cs)
  }

  /** A bucket depends only on which comments fell on its day, not on their order. */
  lemma BucketPermutation(userId: string, day: int, a: seq<Comment>, b: seq<Comment>)
    requires multiset(a) == multiset(b)
    ensures Bucket(userId, day, a) == Bucket(userId, day, b)
  {
    assert |a| == |multiset(a)| == |b|;
    SumPermutation(a, b, ReachOf);
    SumPermutation(a, b, ScoreOf);
    LabelCountPermutation(a, b, POSITIVE);
    LabelCountPermutation(a, b, NEUTRAL);
    LabelCountPermutation(a, b, NEGATIVE);
  }

  /** The label tallies of a bucket add up to its mentions when every label is known. */
  lemma BucketLabels(userId: string, day: int, dayComments: seq<Comment>)
    requires KnownLabels(dayComments)
    ensures var b := Bucket(userId, day, dayComments); b.pos + b.neu + b.neg == b.mentions
  {
    LabelPartition(dayComments);
  }

  /** Reach is 100 per influence point and never negative when influence is not;
    * the average score stays within the bounds of the individual scores. */
  lemma BucketBounds(userId: string, day: int, dayComments: seq<Comment>, lo: real, hi: real)
    requires forall c :: c in dayComments ==> InfluenceOr0(c) >= 0 && lo <= c.sentimentScore <= hi
    requires lo <= 0.0 <= hi
    ensures var b := Bucket(userId, day, dayComments); b.reach >= 0.0 && lo <= b.avgScore <= hi
  {
    SumNonNegative(dayComments, ReachOf);
    SumBounds(dayComments, ScoreOf, lo, hi);
    var n := |dayComments| as real;
    if n > 0.0 {
      DivideBounds(Sum(dayComments, ScoreOf), n, lo, hi);
    }
  }

  lemma DivideBounds(s: real, n: real, lo: real, hi: real)
    requires n > 0.0 && n * lo <= s <= n * hi
    ensures lo <= s / n <= hi
  {
  }

  // ------------------------------------------------------- configuration

  /** `a || b || c` on the three configuration settings: the update value when
    * truthy, else the stored value when truthy, else the default. */
  function MergeConfig(userId: string, u: ConfigUpdate, existing: Option<Config>, freshId: string): (r: Config)
    ensures r.userId == userId
    ensures existing.Some? && existing.value.id != "" ==> r.id == existing.value.id
    ensures !(existing.Some? && existing.value.id != "") ==> r.id == freshId
    ensures TruthyStr(u.huggingfaceToken) ==> r.huggingfaceToken == u.huggingfaceToken
    ensures !TruthyStr(u.huggingfaceToken) && existing.Some? && TruthyStr(existing.value.huggingfaceToken) ==> r.huggingfaceToken == existing.value.huggingfaceToken
    ensures !TruthyStr(u.huggingfaceToken) && !(existing.Some? && TruthyStr(existing.value.huggingfaceToken)) ==> r.huggingfaceToken == None
    ensures TruthyStr(u.demoMode) ==> r.demoMode == u.demoMode.value
    ensures !TruthyStr(u.demoMode) && existing.Some? && existing.value.demoMode != "" ==> r.demoMode == existing.value.demoMode
    ensures !TruthyStr(u.demoMode) && !(existing.Some? && existing.value.demoMode != "") ==> r.demoMode == "true"
    ensures TruthyNum(u.sentimentThreshold) ==> r.sentimentThreshold == u.sentimentThreshold.value
    ensures !TruthyNum(u.sentimentThreshold) && existing.Some? && existing.value.sentimentThreshold != 0.0 ==> r.sentimentThreshold == existing.value.sentimentThreshold
    ensures !TruthyNum(u.sentimentThreshold) && !(existing.Some? && existing.value.sentimentThreshold != 0.0) ==> r.sentimentThreshold == 0.4
  {
    var old_ := existing.GetOr(Config("", userId, None, "", 0.0));
    Config(
      if old_.id != "" then old_.id else freshId,
      userId,
      if TruthyStr(u.huggingfaceToken) then u.huggingfaceToken
      else if TruthyStr(old_.huggingfaceToken) then old_.huggingfaceToken else None,
      if TruthyStr(u.demoMode) then u.demoMode.value
      else if old_.demoMode != "" then old_.demoMode else "true",
      if TruthyNum(u.sentimentThreshold) then u.sentimentThreshold.value
      else if old_.sentimentThreshold != 0.0 then old_.sentimentThreshold else 0.4)
  }

  /** An update whose every value is falsy (no token or an empty one, no mode
    * or an empty one, no threshold or 0) leaves a fully set configuration as it was. */
  lemma FalsyUpdateKeeps(userId: string, u: ConfigUpdate, e: Config, freshId: string)
    requires !TruthyStr(u.huggingfaceToken) && !TruthyStr(u.demoMode) && !TruthyNum(u.sentimentThreshold)
    requires e.userId == userId && e.id != "" && TruthyStr(e.huggingfaceToken)
    requires e.demoMode != "" && e.sentimentThreshold != 0.0
    ensures MergeConfig(userId, u, Some(e), freshId) == e
  {
  }

  /** Applying the same update twice gives the same configuration as applying it once. */
  lemma MergeIdempotent(userId: string, u: ConfigUpdate, existing: Option<Config>, id1: string, id2: string)
    requires id1 != ""
    ensures var once := MergeConfig(userId, u, existing, id1);
            MergeConfig(userId, u, Some(once), id2) == once
  {
  }

  /** `c => c.userId === userId` */
  function ForUser(userId: string): Config -> bool {
    (c: Config) => c.userId == userId
  }

  /** `u => u.email === email` */
  function WithEmail(email: string): User -> bool {
    (u: User) => u.email == email
  }

  /** Every stored record sits under its own id. */
  ghost predicate ConfigsKeyed(m: OMap<Config>) {
    forall k :: k in m.entries ==> m.entries[k].id == k
  }

  /** After `updateConfig(userId, u)`, `getConfig(userId)` returns the merged
    * configuration, provided stored ids are non-empty and a fresh id is new. */
  lemma UpdateThenGet(m: OMap<Config>, userId: string, u: ConfigUpdate, freshId: string)
    requires OrderedMaps.Valid(m) && ConfigsKeyed(m) && "" !in m.entries
    requires freshId != "" && freshId !in m.entries
    ensures var cfg := MergeConfig(userId, u, Find(Values(m), ForUser(userId)), freshId);
            Find(Values(Put(m, cfg.id, cfg)), ForUser(userId)) == Some(cfg)
  {
    if Find(Values(m), ForUser(userId)).Some? {
      UpdateExistingThenGet(m, userId, u, freshId);
    } else {
      var cfg := MergeConfig(userId, u, None, freshId);
      PutNewValues(m, freshId, cfg);
      FindAt(Values(Put(m, cfg.id, cfg)), ForUser(userId), |Values(m)|);
    }
  }

  /** The case of `UpdateThenGet` where the user already has a record: it is
    * replaced where it stands. */
  lemma UpdateExistingThenGet(m: OMap<Config>, userId: string, u: ConfigUpdate, freshId: string)
    requires OrderedMaps.Valid(m) && ConfigsKeyed(m) && "" !in m.entries
    requires Find(Values(m), ForUser(userId)).Some?
    ensures var cfg := MergeConfig(userId, u, Find(Values(m), ForUser(userId)), freshId);
            Find(Values(Put(m, cfg.id, cfg)), ForUser(userId)) == Some(cfg)
  {
    var vs := Values(m);
    var existing := Find(vs, ForUser(userId));
    var cfg := MergeConfig(userId, u, existing, freshId);
    var i :| 0 <= i < |vs| && vs[i] == existing.value && ForUser(userId)(vs[i]) &&
             forall j :: 0 <= j < i ==> !ForUser(userId)(vs[j]);
    assert m.keys[i] in m.entries;
    assert cfg.id == m.keys[i];
    ReplaceFirstMatch(m, ForUser(userId), i, cfg);
  }

  /** Replacing the first entry that satisfies p by another that satisfies
    * p makes the replacement the first match. */
  lemma ReplaceFirstMatch(m: OMap<Config>, p: Config -> bool, i: nat, cfg: Config)
    requires OrderedMaps.Valid(m) && i < |m.keys| && m.keys[i] == cfg.id && p(cfg)
    requires forall j :: 0 <= j < i ==> !p(Values(m)[j])
    ensures Find(Values(Put(m, cfg.id, cfg)), p) == Some(cfg)
  {
    PutExistingValues(m, cfg.id, cfg);
    FindAt(Values(Put(m, cfg.id, cfg)), p, i);
  }

  // ------------------------------------------------------------ suggestions

  const ALL_SUGGESTIONS: seq<Suggestion> := [
    Suggestion("1", POSITIVE, "Amplify Success", "Share customer success stories on social media to build momentum."),
    Suggestion("2", POSITIVE, "Reward Loyalty", "Create a loyalty program for customers who leave positive reviews."),
    Suggestion("3", NEUTRAL, "Follow Up", "Reach out to neutral customers with a personalized thank you and feedback request."),
    Suggestion("4", NEUTRAL, "Improve Experience", "Analyze neutral feedback for specific areas of improvement."),
    Suggestion("5", NEGATIVE, "Immediate Response", "Respond to negative feedback within 2 hours with a genuine apology and solution."),
    Suggestion("6", NEGATIVE, "Process Improvement", "Review internal processes that may be causing customer dissatisfaction.")
  ]

  /** `s => s.category === category` */
  function InCategory(category: string): Suggestion -> bool {
    (s: Suggestion) => s.category == category
  }

  /** `getSuggestions(category)`: the whole table, or its rows of a truthy category. */
  function GetSuggestions(category: Option<string>): (r: seq<Suggestion>)
    ensures forall s :: s in r ==> s in ALL_SUGGESTIONS
    ensures !TruthyStr(category) ==> r == ALL_SUGGESTIONS
    ensures TruthyStr(category) ==> forall s :: s in r <==> s in ALL_SUGGESTIONS && s.category == category.value
  {
    if TruthyStr(category) then Filter(ALL_SUGGESTIONS, InCategory(category.value))
    else ALL_SUGGESTIONS
  }

  /** A truthy category that is not a label has no suggestions. */
  lemma SuggestionsOtherCategory(category: string)
    requires category != "" && category !in {POSITIVE, NEUTRAL, NEGATIVE}
    ensures GetSuggestions(Some(category)) == []
  {
    var r := GetSuggestions(Some(category));
    SuggestionCategories();
    assert forall s :: s !in r;
  }

  /** Every row of the table is filed under one of the three labels. */
  lemma SuggestionCategories()
    ensures forall s :: s in ALL_SUGGESTIONS ==> s.category in {POSITIVE, NEUTRAL, NEGATIVE}
  {
    forall s | s in ALL_SUGGESTIONS ensures s.category in {POSITIVE, NEUTRAL, NEGATIVE} {
      var i :| 0 <= i < 6 && ALL_SUGGESTIONS[i] == s;
    }
  }

  // ------------------------------------------------------------------ store

  class MemStorage {
    var users: OMap<User>
    var comments: OMap<Comment>
    var authors: OMap<Author>
    var configs: OMap<Config>

    ghost predicate Valid()
      reads this
    {
      OrderedMaps.Valid(users) && OrderedMaps.Valid(comments) &&
      OrderedMaps.Valid(authors) && OrderedMaps.Valid(configs) &&
      (forall k :: k in users.entries ==> users.entries[k].id == k) &&
      (forall k :: k in comments.entries ==> comments.entries[k].id == k) &&
      (forall k :: k in authors.entries ==> authors.entries[k].id == k) &&
      ConfigsKeyed(configs)
    }

    constructor()
      ensures Valid()
      ensures users == Empty() && comments == Empty() && authors == Empty() && configs == Empty()
    {
      users := Empty();
      comments := Empty();
      authors := Empty();
      configs := Empty();
    }

    /** `users.get(id)` */
    function GetUser(id: string): (r: Option<User>)
      reads this
      requires Valid()
      ensures r.Some? <==> id in users.entries
      ensures r.Some? ==> r.value == users.entries[id] && r.value.id == id
    {
      if id in users.entries then Some(users.entries[id]) else None
    }

    /** `users.values().find((u: User) => u.email === email)` */
    function GetUserByEmail(email: string): (r: Option<User>)
      reads this
      requires Valid()
      ensures r.None? <==> forall u :: u in Values(users) ==> u.email != email
      ensures r.Some? ==> r.value.email == email && r.value.id in users.entries && users.entries[r.value.id] == r.value
      ensures r.Some? ==> exists i :: 0 <= i < |Values(users)| && Values(users)[i] == r.value &&
                            forall k :: 0 <= k < i ==> Values(users)[k].email != email
    {
      var vs := Values(users);
      var r := Find(vs, WithEmail(email));
      assert r.Some? ==> r.value in vs;
      r
    }

    method CreateUser(input: InsertUser, id: string, now: int) returns (u: User)
      requires Valid()
      modifies this
      ensures Valid()
      ensures u == User(id, input.username, input.email, input.password, input.businessName, Some(now))
      ensures users == Put(old(users), id, u)
      ensures comments == old(comments) && authors == old(authors) && configs == old(configs)
      ensures GetUser(id) == Some(u)
    {
      u := User(id, input.username, input.email, input.password, input.businessName, Some(now));
      users := Put(users, id, u);
    }

    /** The comments passing every filter, in store order. */
    function Selected(f: Filters): seq<Comment>
      reads this
      requires Valid()
    {
      Filter(Values(comments), MatchesOf(f, authors.entries))
    }

    /** `getComments(filters)`: the stored comments passing every supplied
      * filter, each as often as it is stored, ordered by influence for
      * `order = "top"` and by creation time otherwise, most first. The store
      * is not changed. */
    method GetComments(f: Filters) returns (r: seq<Comment>)
      requires Valid()
      ensures multiset(r) == multiset(Selected(f))
      ensures forall c :: c in r <==> c in Values(comments) && Matches(f, authors.entries, c)
      ensures SortedDesc(r, OrderKey(f.order))
    {
      var all := Values(comments);
      var names := authors.entries;
      var cs := ApplyFilters(all, names, f);
      NarrowedSelected(all, cs, f, names);
      if f.order == Some("top") {
        r := SortDesc(cs, InfluenceKey);
      } else {
        r := SortDesc(cs, RecencyKey);
      }
      forall c ensures c in r <==> c in cs {
        assert c in r <==> c in multiset(r);
        assert c in cs <==> c in multiset(cs);
      }
    }

    method CreateComment(input: NewComment, id: string, now: int) returns (c: Comment)
      requires Valid()
      modifies this
      ensures Valid()
      ensures c == Comment(id, Some(input.userId), input.source, input.authorId, input.text, input.lang,
                           input.country, Some(now), input.sentimentLabel, input.sentimentScore, Some(input.influence))
      ensures comments == Put(old(comments), id, c)
      ensures users == old(users) && authors == old(authors) && configs == old(configs)
    {
      c := Comment(id, Some(input.userId), input.source, input.authorId, input.text, input.lang,
                   input.country, Some(now), input.sentimentLabel, input.sentimentScore, Some(input.influence));
      comments := Put(comments, id, c);
    }

    /** `Array.from(authors.values())` */
    function GetAuthors(): (r: seq<Author>)
      reads this
      requires Valid()
      ensures forall a :: a in r <==> a.id in authors.entries && authors.entries[a.id] == a
    {
      ValuesMembers(authors);
      Values(authors)
    }

    method CreateAuthor(input: InsertAuthor, id: string) returns (a: Author)
      requires Valid()
      modifies this
      ensures Valid()
      ensures a == Author(id, input.name, input.handle, input.followers, input.avatarUrl, input.platform)
      ensures authors == Put(old(authors), id, a)
      ensures users == old(users) && comments == old(comments) && configs == old(configs)
    {
      a := Author(id, input.name, input.handle, input.followers, input.avatarUrl, input.platform);
      authors := Put(authors, id, a);
    }

    /** `configs.values().find((c: Comment) => c.userId === userId)` */
    function GetConfig(userId: string): (r: Option<Config>)
      reads this
      requires Valid()
      ensures r.None? <==> forall c :: c in Values(configs) ==> c.userId != userId
      ensures r.Some? ==> r.value.userId == userId && r.value.id in configs.entries && configs.entries[r.value.id] == r.value
      ensures r.Some? ==> exists i :: 0 <= i < |Values(configs)| && Values(configs)[i] == r.value &&
                            forall k :: 0 <= k < i ==> Values(configs)[k].userId != userId
    {
      var vs := Values(configs);
      var r := Find(vs, ForUser(userId));
      assert r.Some? ==> r.value in vs;
      r
    }

    method UpdateConfig(userId: string, u: ConfigUpdate, freshId: string) returns (cfg: Config)
      requires Valid()
      modifies this
      ensures Valid()
      ensures cfg == MergeConfig(userId, u, old(GetConfig(userId)), freshId)
      ensures configs == Put(old(configs), cfg.id, cfg)
      ensures users == old(users) && comments == old(comments) && authors == old(authors)
    {
      var existing := GetConfig(userId);
      cfg := MergeConfig(userId, u, existing, freshId);
      configs := Put(configs, cfg.id, cfg);
    }

    /** `getSnapshots(userId, range)`: one bucket per day for the last
      * `RangeDays(range)` days ending on `today`, oldest first, built from the
      * user's comments created on that day. */
    method GetSnapshots(userId: string, range: Option<string>, today: int) returns (r: seq<Snapshot>)
      requires Valid()
      ensures r == Series(DayBuckets(userId, Selected(UserOnly(userId))), RangeDays(range), today, RangeDays(range))
    {
      var userComments := GetComments(UserOnly(userId));
      r := DailyBuckets(userId, userComments, RangeDays(range), today, Selected(UserOnly(userId)));
    }
  }

  /** The values of g on the first n of the `days` days ending on `today`, oldest first. */
  function Series<T>(g: int -> T, days: nat, today: int, n: nat): (r: seq<T>)
    ensures |r| == n
  {
    if n == 0 then [] else Series(g, days, today, n - 1) + [g(today - (days - n))]
  }

  /** Entry j of the series is the value of day `today - (days - 1 - j)`. */
  lemma {:induction false} SeriesAt<T>(g: int -> T, days: nat, today: int, n: nat)
    ensures forall j :: 0 <= j < n ==> Series(g, days, today, n)[j] == g(today - (days - 1 - j))
  {
    if n > 0 {
      SeriesAt(g, days, today, n - 1);
    }
  }

  /** Extending a series by one day appends that day's value. */
  lemma SeriesSnoc<T>(g: int -> T, days: nat, today: int, n: nat)
    ensures Series(g, days, today, n + 1) == Series(g, days, today, n) + [g(today - (days - (n + 1)))]
  {
  }

  /** The loop of `getSnapshots`: for i from days - 1 down to 0, the bucket of
    * day `today - i`, appended in that order. `owned` is the user's comments
    * in any order. */
  method DailyBuckets(userId: string, userComments: seq<Comment>, days: nat, today: int, ghost owned: seq<Comment>)
    returns (r: seq<Snapshot>)
    requires multiset(userComments) == multiset(owned)
    ensures r == Series(DayBuckets(userId, owned), days, today, days)
  {
    r := [];
    var i := days - 1;
    ghost var n := 0;
    while i >= 0
      invariant -1 <= i <= days - 1
      invariant n == days - 1 - i
      invariant r == Series(DayBuckets(userId, owned), days, today, n)
    {
      r := AppendDay(userId, userComments, days, today, i, r, owned, n);
      i := i - 1;
      n := n + 1;
    }
    assert n == days;
  }

  /** One pass of the loop: append the bucket of day `today - i`, built from
    * the comments created on that day. */
  method AppendDay(userId: string, userComments: seq<Comment>, days: nat, today: int, i: int, r: seq<Snapshot>,
                   ghost owned: seq<Comment>, ghost n: nat)
    returns (r': seq<Snapshot>)
    requires multiset(userComments) == multiset(owned)
    requires n == days - 1 - i
    requires r == Series(DayBuckets(userId, owned), days, today, n)
    ensures r' == Series(DayBuckets(userId, owned), days, today, n + 1)
  {
    var day := today - i;
    var dayComments := Filter(userComments, OnDayOf(day));
    var snapshot := Bucket(userId, day, dayComments);
    SameDayBucket(userId, day, userComments, owned);
    assert day == today - (days - (n + 1));
    SeriesSnoc(DayBuckets(userId, owned), days, today, n);
    r' := r + [snapshot];
  }

  /** The k-th filter of `getComments`, in the order the source applies them. */
  predicate Clause(f: Filters, names: map<string, Author>, k: nat, x: Comment) {
    if k == 1 then UserOk(f, x)
    else if k == 2 then SourceOk(f, x)
    else if k == 3 then SentimentOk(f, x)
    else if k == 4 then InfluenceOk(f, x)
    else if k == 5 then CountryOk(f, x)
    else if k == 6 then LanguageOk(f, x)
    else if k == 7 then QueryOk(f, names, x)
    else if k == 8 then FromOk(f, x)
    else if k == 9 then ToOk(f, x)
    else true
  }

  /** The first k filters all pass. */
  predicate Stage(f: Filters, names: map<string, Author>, k: nat, x: Comment) {
    (k >= 1 ==> UserOk(f, x)) && (k >= 2 ==> SourceOk(f, x)) && (k >= 3 ==> SentimentOk(f, x)) &&
    (k >= 4 ==> InfluenceOk(f, x)) && (k >= 5 ==> CountryOk(f, x)) && (k >= 6 ==> LanguageOk(f, x)) &&
    (k >= 7 ==> QueryOk(f, names, x)) && (k >= 8 ==> FromOk(f, x)) && (k >= 9 ==> ToOk(f, x))
  }

  /** cs holds exactly the elements of all that pass the first k filters. */
  ghost predicate Narrowed(all: seq<Comment>, cs: seq<Comment>, f: Filters, names: map<string, Author>, k: nat) {
    forall x :: multiset(cs)[x] == if Stage(f, names, k, x) then multiset(all)[x] else 0
  }

  /** After all nine filters, cs is a permutation of the matching comments. */
  lemma NarrowedSelected(all: seq<Comment>, cs: seq<Comment>, f: Filters, names: map<string, Author>)
    requires Narrowed(all, cs, f, names, 9)
    ensures multiset(cs) == multiset(Filter(all, MatchesOf(f, names)))
    ensures forall c :: c in cs <==> c in all && Matches(f, names, c)
  {
    var sel := Filter(all, MatchesOf(f, names));
    forall x ensures multiset(cs)[x] == multiset(sel)[x] {
      assert Stage(f, names, 9, x) == Matches(f, names, x);
    }
    assert multiset(cs) == multiset(sel);
    forall c ensures c in cs <==> c in all && Matches(f, names, c) {
      assert c in cs <==> c in multiset(cs);
      assert c in sel <==> c in multiset(sel);
    }
  }

  /** The filter chain of `getComments`: each supplied filter in turn
    * narrows the list, keeping store order. */
  method ApplyFilters(all: seq<Comment>, names: map<string, Author>, f: Filters) returns (cs: seq<Comment>)
    ensures Narrowed(all, cs, f, names, 9)
  {
    cs := FilterFields(all, names, f);
    cs := FilterText(all, cs, names, f);
    cs := FilterDates(all, cs, names, f);
  }

  /** The first six filters of the chain: owner, source, sentiment, minimum
    * influence, excluded countries, excluded languages. */
  method FilterFields(all: seq<Comment>, names: map<string, Author>, f: Filters) returns (cs: seq<Comment>)
    ensures Narrowed(all, cs, f, names, 6)
  {
    cs := FilterOwnership(all, names, f);
    cs := FilterIf(all, cs, f, names, 4, f.minInfluence.Some?, (c: Comment) => InfluenceOr0(c) >= f.minInfluence.GetOr(0));
    cs := FilterIf(all, cs, f, names, 5, NonEmptyList(f.countriesExclude), (c: Comment) => c.country.GetOr("") !in f.countriesExclude.GetOr([]));
    cs := FilterIf(all, cs, f, names, 6, NonEmptyList(f.languagesExclude), (c: Comment) => c.lang.GetOr("") !in f.languagesExclude.GetOr([]));
  }

  /** The owner, source and sentiment filters. */
  method FilterOwnership(all: seq<Comment>, names: map<string, Author>, f: Filters) returns (cs: seq<Comment>)
    ensures Narrowed(all, cs, f, names, 3)
  {
    cs := all;
    assert Narrowed(all, cs, f, names, 0);
    cs := FilterIf(all, cs, f, names, 1, TruthyStr(f.userId), (c: Comment) => c.userId == f.userId);
    cs := FilterIf(all, cs, f, names, 2, NonEmptyList(f.source), (c: Comment) => c.source in f.source.GetOr([]));
    cs := FilterIf(all, cs, f, names, 3, NonEmptyList(f.sentiment), (c: Comment) => c.sentimentLabel in f.sentiment.GetOr([]));
  }

  /** The text search: the lower-cased text or the author's name contains
    * the lower-cased query. */
  method FilterText(ghost all: seq<Comment>, cs: seq<Comment>, names: map<string, Author>, f: Filters) returns (r: seq<Comment>)
    requires Narrowed(all, cs, f, names, 6)
    ensures Narrowed(all, r, f, names, 7)
  {
    var query := if TruthyStr(f.q) then Lower(f.q.value) else "";
    r := FilterIf(all, cs, f, names, 7, TruthyStr(f.q), (c: Comment) => Contains(Lower(c.text), query) || AuthorNameHas(names, c, query));
  }

  /** The date range, each bound inclusive. */
  method FilterDates(ghost all: seq<Comment>, cs: seq<Comment>, names: map<string, Author>, f: Filters) returns (r: seq<Comment>)
    requires Narrowed(all, cs, f, names, 7)
    ensures Narrowed(all, r, f, names, 9)
  {
    r := FilterIf(all, cs, f, names, 8, f.dateFrom.Some?, (c: Comment) => c.createdAt.Some? && c.createdAt.value >= f.dateFrom.GetOr(0));
    r := FilterIf(all, r, f, names, 9, f.dateTo.Some?, (c: Comment) => c.createdAt.Some? && c.createdAt.value <= f.dateTo.GetOr(0));
  }

  /** `if (enabled) comments = comments.filter(p)`, as filter k of the query. */
  method FilterIf(ghost all: seq<Comment>, cs: seq<Comment>, ghost f: Filters, ghost names: map<string, Author>,
                  ghost k: nat, enabled: bool, p: Comment -> bool) returns (r: seq<Comment>)
    requires 1 <= k <= 9
    requires Narrowed(all, cs, f, names, k - 1)
    requires enabled ==> forall x :: p(x) == Clause(f, names, k, x)
    requires !enabled ==> forall x :: Clause(f, names, k, x)
    ensures Narrowed(all, r, f, names, k)
  {
    if enabled {
      NarrowStep(all, cs, f, names, k, p);
      r := Filter(cs, p);
    } else {
      SkipStep(all, cs, f, names, k);
      r := cs;
    }
  }

  /** Applying filter k to what passed the first k - 1 filters. */
  lemma NarrowStep(all: seq<Comment>, cs: seq<Comment>, f: Filters, names: map<string, Author>, k: nat, p: Comment -> bool)
    requires 1 <= k <= 9
    requires Narrowed(all, cs, f, names, k - 1)
    requires forall x :: p(x) == Clause(f, names, k, x)
    ensures Narrowed(all, Filter(cs, p), f, names, k)
  {
    forall x ensures Stage(f, names, k, x) == (Stage(f, names, k - 1, x) && Clause(f, names, k, x)) { }
  }

  /** A filter that is not supplied lets everything through. */
  lemma SkipStep(all: seq<Comment>, cs: seq<Comment>, f: Filters, names: map<string, Author>, k: nat)
    requires 1 <= k <= 9
    requires Narrowed(all, cs, f, names, k - 1)
    requires forall x :: Clause(f, names, k, x)
    ensures Narrowed(all, cs, f, names, k)
  {
    forall x ensures Stage(f, names, k, x) == Stage(f, names, k - 1, x) {
      assert Clause(f, names, k, x);
    }
  }

  /** The day's bucket is the same whichever order the user's comments come in. */
  lemma SameDayBucket(userId: string, day: int, a: seq<Comment>, b: seq<Comment>)
    requires multiset(a) == multiset(b)
    ensures Bucket(userId, day, Filter(a, OnDayOf(day))) == DayBucket(userId, day, b)
  {
    var fa, fb := Filter(a, OnDayOf(day)), CreatedOn(b, day);
    forall x ensures multiset(fa)[x] == multiset(fb)[x] { }
    assert multiset(fa) == multiset(fb);
    BucketPermutation(userId, day, fa, fb);
  }
}
