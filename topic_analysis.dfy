/** The topic analysis page: trending topics found by keyword matching.
  * Every comment is lower-cased and tested against six fixed keyword
  * lists; each topic that matches counts the comment once, adds its score
  * and notes whether it is recent. The page then turns the score sums into
  * averages and lists the topics by falling count.
  *
  * The page's `topics` object is a dictionary whose keys keep the order in
  * which they were first set; the model holds it as that key order plus a
  * map. `Date.now()` is the parameter `now`. */
module TopicAnalysis {
  import opened Optional
  import opened Seqs
  import opened Ranking
  import opened Text
  import opened Domain

  datatype TopicKeywords = TopicKeywords(topic: string, keywords: seq<string>)

  /** `topicKeywords`, in its key order. */
  const TOPIC_KEYWORDS: seq<TopicKeywords> := [
    TopicKeywords("Service Quality", ["service", "staff", "friendly", "helpful", "rude", "slow"]),
    TopicKeywords("Food & Drinks", ["coffee", "food", "drink", "taste", "delicious", "bland"]),
    TopicKeywords("Atmosphere", ["atmosphere", "ambiance", "music", "loud", "quiet", "cozy"]),
    TopicKeywords("Cleanliness", ["clean", "dirty", "tidy", "messy", "hygienic"]),
    TopicKeywords("Wait Times", ["wait", "quick", "slow", "fast", "time", "delayed"]),
    TopicKeywords("Pricing", ["price", "expensive", "cheap", "value", "cost", "affordable"])
  ]

  /** Seven days in milliseconds. */
  const WEEK_MS: int := 7 * 24 * 60 * 60 * 1000

  /** What `topics[topic]` holds: the number of matching comments, their
    * score sum (the average once the page has divided it) and whether one
    * of them is recent. */
  datatype TopicData = TopicData(count: nat, sentiment: real, recent: bool)

  /** An entry `{ topic, ...data }`. */
  datatype Topic = Topic(topic: string, data: TopicData)

  /** `{ count: 0, sentiment: 0, recent: false }` */
  const FRESH: TopicData := TopicData(0, 0.0, false)

  // ------------------------------------------------------------- matching

  /** `keywords.some(keyword => text.includes(keyword))` */
  predicate HasKeyword(text: string, keywords: seq<string>) {
    exists k :: k in keywords && Contains(text, k)
  }

  /** The comment's lower-cased text contains one of the keywords. */
  predicate Mentions(c: Comment, keywords: seq<string>) {
    HasKeyword(Lower(c.text), keywords)
  }

  /** `new Date(comment.createdAt || Date.now()) > recentThreshold`:
    * a comment without a date counts as written now. */
  predicate IsRecent(c: Comment, now: int) {
    c.createdAt.GetOr(now) > now - WEEK_MS
  }

  /** The table lists topic x with a keyword list that c mentions. */
  predicate MentionedIn(c: Comment, table: seq<TopicKeywords>, x: string) {
    exists j :: 0 <= j < |table| && table[j].topic == x && Mentions(c, table[j].keywords)
  }

  function About(table: seq<TopicKeywords>, x: string): Comment -> bool {
    c => MentionedIn(c, table, x)
  }

  /** Comment c is about topic x. */
  predicate Discusses(c: Comment, x: string) {
    MentionedIn(c, TOPIC_KEYWORDS, x)
  }

  function Discussing(x: string): Comment -> bool {
    About(TOPIC_KEYWORDS, x)
  }

  function Score(c: Comment): real {
    c.sentimentScore
  }

  ghost predicate DistinctTopicNames(table: seq<TopicKeywords>) {
    forall i, j :: 0 <= i < j < |table| ==> table[i].topic != table[j].topic
  }

  /** The six topic names are different from one another. */
  lemma TopicNamesDistinct()
    ensures DistinctTopicNames(TOPIC_KEYWORDS)
  {
    var names := seq(|TOPIC_KEYWORDS|, i requires 0 <= i < |TOPIC_KEYWORDS| => TOPIC_KEYWORDS[i].topic);
    assert names == ["Service Quality", "Food & Drinks", "Atmosphere", "Cleanliness", "Wait Times", "Pricing"];
    assert forall i :: 0 <= i < |TOPIC_KEYWORDS| ==> TOPIC_KEYWORDS[i].topic == names[i];
  }

  // ------------------------------------------- the reference accumulation

  /** One comment counted for a topic: `count++`, `sentiment += score` and
    * `if (isRecent) recent = true`. */
  function Counted(d: TopicData, score: real, recent: bool): (r: TopicData)
    ensures r.count == d.count + 1
    ensures r.recent <==> d.recent || recent
  {
    TopicData(d.count + 1, d.sentiment + score, d.recent || recent)
  }

  /** Counting a comment for topic x on an entry list: x's entry is
    * updated where it stands, or created at the end. */
  function Record(acc: seq<Topic>, x: string, score: real, recent: bool): seq<Topic> {
    if acc == [] then [Topic(x, Counted(FRESH, score, recent))]
    else if acc[0].topic == x then [Topic(x, Counted(acc[0].data, score, recent))] + acc[1..]
    else [acc[0]] + Record(acc[1..], x, score, recent)
  }

  /** One comment tested against the rows of a table, row after row. */
  function AddComment(acc: seq<Topic>, c: Comment, now: int, table: seq<TopicKeywords>): seq<Topic> {
    if table == [] then acc
    else
      var before := AddComment(acc, c, now, table[..|table| - 1]);
      var row := table[|table| - 1];
      if Mentions(c, row.keywords) then Record(before, row.topic, c.sentimentScore, IsRecent(c, now))
      else before
  }

  /** The entries after testing all comments against the table, in the
    * order topics were first met. */
  function Accumulate(cs: seq<Comment>, now: int, table: seq<TopicKeywords>): seq<Topic> {
    if cs == [] then []
    else AddComment(Accumulate(cs[..|cs| - 1], now, table), cs[|cs| - 1], now, table)
  }

  /** `if (count > 0) sentiment = sentiment / count` */
  function AverageData(d: TopicData): (r: TopicData)
    ensures r.count == d.count && r.recent == d.recent
    ensures d.count > 0 ==> r.sentiment * d.count as real == d.sentiment
    ensures d.count == 0 ==> r == d
  {
    if d.count > 0 then d.(sentiment := d.sentiment / d.count as real) else d
  }

  function Averaged(acc: seq<Topic>): (r: seq<Topic>)
    ensures |r| == |acc|
    ensures forall i :: 0 <= i < |acc| ==> r[i] == Topic(acc[i].topic, AverageData(acc[i].data))
  {
    seq(|acc|, i requires 0 <= i < |acc| => Topic(acc[i].topic, AverageData(acc[i].data)))
  }

  function TopicCount(t: Topic): real {
    t.data.count as real
  }

  /** The averaged entries, most frequent first. */
  function TrendingFor(cs: seq<Comment>, now: int, table: seq<TopicKeywords>): seq<Topic> {
    SortDesc(Averaged(Accumulate(cs, now, table)), TopicCount)
  }

  /** The page's `trendingTopics`. */
  function TrendingTopics(cs: seq<Comment>, now: int): seq<Topic> {
    TrendingFor(cs, now, TOPIC_KEYWORDS)
  }

  // -------------------------------------------------- what the entries mean

  /** The data of topic x's first entry. */
  function StatOf(acc: seq<Topic>, x: string): Option<TopicData> {
    if acc == [] then None
    else if acc[0].topic == x then Some(acc[0].data)
    else StatOf(acc[1..], x)
  }

  ghost predicate DistinctTopics(acc: seq<Topic>) {
    forall i, j :: 0 <= i < j < |acc| ==> acc[i].topic != acc[j].topic
  }

  /** What a topic holds once the comments m about it are counted:
    * nothing for none, else how many, their score sum and whether one of
    * them is recent. */
  function Summary(m: seq<Comment>, now: int): Option<TopicData> {
    if m == [] then None
    else Some(TopicData(|m|, Sum(m, Score), exists c :: c in m && IsRecent(c, now)))
  }

  /** Recording x updates x's data and no other topic's. */
  lemma {:induction false} RecordStat(acc: seq<Topic>, x: string, score: real, recent: bool, y: string)
    ensures StatOf(Record(acc, x, score, recent), y) ==
      if y == x then Some(Counted(StatOf(acc, x).GetOr(FRESH), score, recent)) else StatOf(acc, y)
  {
    if acc != [] && acc[0].topic != x {
      RecordStat(acc[1..], x, score, recent, y);
      assert Record(acc, x, score, recent)[1..] == Record(acc[1..], x, score, recent);
    }
  }

  /** Recording keeps the topics of the entries in place and appends x when
    * it is new. */
  lemma {:induction false} RecordShape(acc: seq<Topic>, x: string, score: real, recent: bool)
    ensures var r := Record(acc, x, score, recent);
      (if exists i :: 0 <= i < |acc| && acc[i].topic == x then |r| == |acc|
       else |r| == |acc| + 1 && r[|acc|].topic == x) &&
      (forall i :: 0 <= i < |acc| ==> r[i].topic == acc[i].topic)
  {
    if acc != [] && acc[0].topic != x {
      RecordShape(acc[1..], x, score, recent);
      var r := Record(acc, x, score, recent);
      assert r[1..] == Record(acc[1..], x, score, recent);
      assert (exists i :: 0 <= i < |acc| && acc[i].topic == x) <==>
             (exists i :: 0 <= i < |acc[1..]| && acc[1..][i].topic == x) by {
        forall i | 1 <= i < |acc| ensures acc[i] == acc[1..][i - 1] { }
      }
    }
  }

  lemma {:induction false} RecordDistinct(acc: seq<Topic>, x: string, score: real, recent: bool)
    requires DistinctTopics(acc)
    ensures DistinctTopics(Record(acc, x, score, recent))
  {
    RecordShape(acc, x, score, recent);
  }

  /** Testing one comment against a table with distinct names counts it
    * once for every topic it mentions and leaves the others alone. */
  lemma {:induction false} AddCommentStat(acc: seq<Topic>, c: Comment, now: int, table: seq<TopicKeywords>, y: string)
    requires DistinctTopicNames(table)
    ensures StatOf(AddComment(acc, c, now, table), y) ==
      if MentionedIn(c, table, y) then Some(Counted(StatOf(acc, y).GetOr(FRESH), c.sentimentScore, IsRecent(c, now)))
      else StatOf(acc, y)
    ensures DistinctTopics(acc) ==> DistinctTopics(AddComment(acc, c, now, table))
  {
    if table != [] {
      var init, row := table[..|table| - 1], table[|table| - 1];
      var before := AddComment(acc, c, now, init);
      AddCommentStat(acc, c, now, init, y);
      assert MentionedIn(c, table, y) <==> MentionedIn(c, init, y) || (row.topic == y && Mentions(c, row.keywords)) by {
        assert forall j :: 0 <= j < |init| ==> init[j] == table[j];
      }
      if row.topic == y {
        assert !MentionedIn(c, init, y) by {
          assert forall j :: 0 <= j < |init| ==> init[j].topic == table[j].topic != y;
        }
      }
      if Mentions(c, row.keywords) {
        RecordStat(before, row.topic, c.sentimentScore, IsRecent(c, now), y);
        if DistinctTopics(acc) {
          RecordDistinct(before, row.topic, c.sentimentScore, IsRecent(c, now));
        }
      }
    }
  }

  /** One more comment about the topic is counted once. */
  lemma {:induction false} SummarySnoc(m: seq<Comment>, c: Comment, now: int)
    ensures Summary(m + [c], now) == Some(Counted(Summary(m, now).GetOr(FRESH), c.sentimentScore, IsRecent(c, now)))
  {
    SumAppend(m, c, Score);
    RecentSnoc(m, c, now);
    if m == [] {
      assert m + [c] == [c];
    }
  }

  /** The extended list has a recent comment when the list had one or the
    * new comment is recent. */
  lemma RecentSnoc(m: seq<Comment>, c: Comment, now: int)
    ensures (exists x :: x in m + [c] && IsRecent(x, now)) <==> (exists x :: x in m && IsRecent(x, now)) || IsRecent(c, now)
  {
    assert c in m + [c];
    assert forall x :: x in m ==> x in m + [c];
  }

  /** A comment counts for a topic exactly when it is about it. */
  lemma {:induction false} SummaryAppend(cs: seq<Comment>, c: Comment, now: int, about: Comment -> bool)
    ensures Summary(Filter(cs + [c], about), now) ==
      if about(c) then Some(Counted(Summary(Filter(cs, about), now).GetOr(FRESH), c.sentimentScore, IsRecent(c, now)))
      else Summary(Filter(cs, about), now)
  {
    FilterAppend(cs, c, about);
    if about(c) {
      SummarySnoc(Filter(cs, about), c, now);
    } else {
      assert Filter(cs, about) + [] == Filter(cs, about);
    }
  }

  /** After all comments, each topic's entry summarises the comments about
    * it. */
  lemma {:induction false} AccumulateStat(cs: seq<Comment>, now: int, table: seq<TopicKeywords>, x: string)
    requires DistinctTopicNames(table)
    ensures StatOf(Accumulate(cs, now, table), x) == Summary(Filter(cs, About(table, x)), now)
  {
    if cs != [] {
      var init, last := cs[..|cs| - 1], cs[|cs| - 1];
      assert cs == init + [last];
      var acc := Accumulate(init, now, table);
      AccumulateStat(init, now, table, x);
      AddCommentStat(acc, last, now, table, x);
      SummaryAppend(init, last, now, About(table, x));
      assert About(table, x)(last) == MentionedIn(last, table, x);
      assert Accumulate(cs, now, table) == AddComment(acc, last, now, table);
    }
  }

  /** No topic has two entries. */
  lemma {:induction false} AccumulateDistinct(cs: seq<Comment>, now: int, table: seq<TopicKeywords>)
    requires DistinctTopicNames(table)
    ensures DistinctTopics(Accumulate(cs, now, table))
  {
    if cs != [] {
      var init, last := cs[..|cs| - 1], cs[|cs| - 1];
      AccumulateDistinct(init, now, table);
      AddCommentStat(Accumulate(init, now, table), last, now, table, "");
    }
  }

  /** The entry of a topic in a list without repeated topics is its first. */
  lemma {:induction false} StatOfEntry(acc: seq<Topic>, i: nat)
    requires DistinctTopics(acc) && i < |acc|
    ensures StatOf(acc, acc[i].topic) == Some(acc[i].data)
  {
    if i > 0 {
      StatOfEntry(acc[1..], i - 1);
    }
  }

  /** A topic with data has an entry. */
  lemma {:induction false} StatOfFound(acc: seq<Topic>, x: string) returns (i: nat)
    requires StatOf(acc, x).Some?
    ensures i < |acc| && acc[i].topic == x && acc[i].data == StatOf(acc, x).value
  {
    if acc[0].topic == x {
      i := 0;
    } else {
      var k := StatOfFound(acc[1..], x);
      i := k + 1;
    }
  }

  /** A listed topic holds the summary of the comments about it, with the
    * sum divided by the count. */
  lemma {:induction false} ListedTopic(cs: seq<Comment>, now: int, table: seq<TopicKeywords>, t: Topic)
    requires DistinctTopicNames(table) && t in TrendingFor(cs, now, table)
    ensures Summary(Filter(cs, About(table, t.topic)), now).Some?
    ensures t.data == AverageData(Summary(Filter(cs, About(table, t.topic)), now).value)
  {
    var acc := Accumulate(cs, now, table);
    var avg := Averaged(acc);
    AccumulateStat(cs, now, table, t.topic);
    AccumulateDistinct(cs, now, table);
    assert t in multiset(avg);
    var i :| 0 <= i < |avg| && avg[i] == t;
    StatOfEntry(acc, i);
  }

  /** A listed topic is a topic of the table; its count is the number of
    * comments about it (at least one, at most all), its sentiment is the
    * mean score of those comments, and it is recent exactly when one of
    * them is. */
  lemma {:induction false} ListedTopicMeaning(cs: seq<Comment>, now: int, table: seq<TopicKeywords>, t: Topic)
    requires DistinctTopicNames(table) && t in TrendingFor(cs, now, table)
    ensures exists j :: 0 <= j < |table| && table[j].topic == t.topic
    ensures t.data.count == Count(cs, About(table, t.topic)) && 0 < t.data.count <= |cs|
    ensures t.data.sentiment == Sum(Filter(cs, About(table, t.topic)), Score) / t.data.count as real
    ensures t.data.recent <==> exists c :: c in cs && MentionedIn(c, table, t.topic) && IsRecent(c, now)
  {
    ListedTopic(cs, now, table, t);
    var m := Filter(cs, About(table, t.topic));
    assert m[0] in m;
    assert MentionedIn(m[0], table, t.topic);
    assert (exists c :: c in m && IsRecent(c, now)) <==> exists c :: c in cs && MentionedIn(c, table, t.topic) && IsRecent(c, now) by {
      assert forall c :: c in m <==> c in cs && MentionedIn(c, table, t.topic);
    }
  }

  /** No topic is listed twice. */
  lemma {:induction false} TrendingDistinct(cs: seq<Comment>, now: int, table: seq<TopicKeywords>)
    requires DistinctTopicNames(table)
    ensures DistinctTopics(TrendingFor(cs, now, table))
  {
    AccumulateDistinct(cs, now, table);
    UniqueKeysPermutation(Averaged(Accumulate(cs, now, table)), TrendingFor(cs, now, table), (t: Topic) => t.topic);
  }

  /** A topic is listed exactly when some comment is about it. */
  lemma {:induction false} TrendingComplete(cs: seq<Comment>, now: int, table: seq<TopicKeywords>, x: string)
    requires DistinctTopicNames(table)
    ensures (exists t :: t in TrendingFor(cs, now, table) && t.topic == x) <==>
            exists c :: c in cs && MentionedIn(c, table, x)
  {
    var acc := Accumulate(cs, now, table);
    var avg := Averaged(acc);
    var r := TrendingFor(cs, now, table);
    if exists c :: c in cs && MentionedIn(c, table, x) {
      AccumulateStat(cs, now, table, x);
      var c :| c in cs && MentionedIn(c, table, x);
      assert c in Filter(cs, About(table, x));
      var i := StatOfFound(acc, x);
      assert avg[i] in multiset(r);
    }
    if exists t :: t in r && t.topic == x {
      var t :| t in r && t.topic == x;
      ListedTopic(cs, now, table, t);
      var m := Filter(cs, About(table, x));
      assert m[0] in m;
    }
  }

  /** A comment adds one to each topic it is about and nothing to any other. */
  lemma {:induction false} CommentCountsOnce(cs: seq<Comment>, c: Comment, now: int, x: string)
    ensures StatOf(Accumulate(cs + [c], now, TOPIC_KEYWORDS), x).GetOr(FRESH).count ==
            StatOf(Accumulate(cs, now, TOPIC_KEYWORDS), x).GetOr(FRESH).count + (if Discusses(c, x) then 1 else 0)
  {
    TopicNamesDistinct();
    AccumulateStat(cs + [c], now, TOPIC_KEYWORDS, x);
    AccumulateStat(cs, now, TOPIC_KEYWORDS, x);
    SummaryAppend(cs, c, now, Discussing(x));
  }

  /** "slow" is a keyword of two topics, so a comment saying "Slow" counts
    * for both. */
  lemma SlowCountsTwice(c: Comment)
    requires c.text == "Slow"
    ensures Discusses(c, "Service Quality") && Discusses(c, "Wait Times")
  {
    assert Lower(c.text) == "slow";
    ContainsSelf("slow");
    assert "slow" in TOPIC_KEYWORDS[0].keywords && "slow" in TOPIC_KEYWORDS[4].keywords;
    assert Mentions(c, TOPIC_KEYWORDS[0].keywords) && Mentions(c, TOPIC_KEYWORDS[4].keywords);
  }

  // ------------------------------------------------ the page's imperative code

  /** `topics[k]`, or the fresh record when k is not yet a key. */
  function Get(m: map<string, TopicData>, k: string): TopicData {
    if k in m then m[k] else FRESH
  }

  /** `Object.entries(topics)`: the dictionary listed in key order. */
  function Entries(order: seq<string>, m: map<string, TopicData>): seq<Topic> {
    if order == [] then []
    else [Topic(order[0], Get(m, order[0]))] + Entries(order[1..], m)
  }

  /** The dictionary with key order `order` holds the entry list acc. */
  ghost predicate Holds(order: seq<string>, m: map<string, TopicData>, acc: seq<Topic>) {
    Distinct(order) && (forall k :: k in order <==> k in m) && Entries(order, m) == acc
  }

  lemma {:induction false} EntriesIgnores(order: seq<string>, m: map<string, TopicData>, k: string, v: TopicData)
    requires k !in order
    ensures Entries(order, m[k := v]) == Entries(order, m)
  {
    if order != [] {
      EntriesIgnores(order[1..], m, k, v);
    }
  }

  /** Updating x in the dictionary is `Record` on its entry list; a new key
    * joins the key order at the end. */
  lemma {:induction false} RecordEntries(order: seq<string>, m: map<string, TopicData>, x: string, score: real, recent: bool)
    requires Distinct(order)
    ensures x in order ==>
      Record(Entries(order, m), x, score, recent) == Entries(order, m[x := Counted(Get(m, x), score, recent)])
    ensures x !in order ==>
      Record(Entries(order, m), x, score, recent) == Entries(order + [x], m[x := Counted(FRESH, score, recent)])
  {
    if order == [] {
    } else if order[0] == x {
      assert x !in order[1..];
      EntriesIgnores(order[1..], m, x, Counted(Get(m, x), score, recent));
    } else {
      RecordEntries(order[1..], m, x, score, recent);
      RecordEntriesStep(order, m, x, score, recent);
    }
  }

  /** One step of RecordEntries: the head of the order is not x. */
  lemma RecordEntriesStep(order: seq<string>, m: map<string, TopicData>, x: string, score: real, recent: bool)
    requires order != [] && order[0] != x
    requires x in order[1..] ==>
      Record(Entries(order[1..], m), x, score, recent) == Entries(order[1..], m[x := Counted(Get(m, x), score, recent)])
    requires x !in order[1..] ==>
      Record(Entries(order[1..], m), x, score, recent) == Entries(order[1..] + [x], m[x := Counted(FRESH, score, recent)])
    ensures x in order ==>
      Record(Entries(order, m), x, score, recent) == Entries(order, m[x := Counted(Get(m, x), score, recent)])
    ensures x !in order ==>
      Record(Entries(order, m), x, score, recent) == Entries(order + [x], m[x := Counted(FRESH, score, recent)])
  {
    var e := Entries(order, m);
    var h := Topic(order[0], Get(m, order[0]));
    assert e == [h] + Entries(order[1..], m);
    assert Record(e, x, score, recent) == [h] + Record(Entries(order[1..], m), x, score, recent) by {
      assert e[0] == h && e[1..] == Entries(order[1..], m);
    }
    if x in order {
      var m' := m[x := Counted(Get(m, x), score, recent)];
      assert Get(m', order[0]) == Get(m, order[0]);
      assert Entries(order, m') == [h] + Entries(order[1..], m');
    } else {
      var m' := m[x := Counted(FRESH, score, recent)];
      assert Get(m', order[0]) == Get(m, order[0]);
      assert (order + [x])[1..] == order[1..] + [x];
      assert Entries(order + [x], m') == [h] + Entries(order[1..] + [x], m');
    }
  }

  /** One matching topic of one comment: create the record if absent, then
    * count the comment. */
  method RecordTopic(order: seq<string>, topics: map<string, TopicData>, topic: string, score: real, isRecent: bool,
                     ghost acc: seq<Topic>)
    returns (order': seq<string>, topics': map<string, TopicData>)
    requires Holds(order, topics, acc)
    ensures Holds(order', topics', Record(acc, topic, score, isRecent))
  {
    RecordEntries(order, topics, topic, score, isRecent);
    order', topics' := order, topics;
    if topic !in topics' {
      order' := order' + [topic];
      topics' := topics'[topic := FRESH];
    }
    topics' := topics'[topic := topics'[topic].(count := topics'[topic].count + 1)];
    topics' := topics'[topic := topics'[topic].(sentiment := topics'[topic].sentiment + score)];
    if isRecent {
      topics' := topics'[topic := topics'[topic].(recent := true)];
    }
    assert topics' == topics[topic := Counted(Get(topics, topic), score, isRecent)];
  }

  /** The inner `forEach` over the keyword table for one comment. */
  method MatchComment(order: seq<string>, topics: map<string, TopicData>, comment: Comment, now: int,
                      ghost acc: seq<Topic>)
    returns (order': seq<string>, topics': map<string, TopicData>)
    requires Holds(order, topics, acc)
    ensures Holds(order', topics', AddComment(acc, comment, now, TOPIC_KEYWORDS))
  {
    var text := Lower(comment.text);
    var isRecent := comment.createdAt.GetOr(now) > now - WEEK_MS;
    order', topics' := order, topics;
    var j := 0;
    while j < |TOPIC_KEYWORDS|
      invariant 0 <= j <= |TOPIC_KEYWORDS|
      invariant Holds(order', topics', AddComment(acc, comment, now, TOPIC_KEYWORDS[..j]))
    {
      var row := TOPIC_KEYWORDS[j];
      assert TOPIC_KEYWORDS[..j + 1][..j] == TOPIC_KEYWORDS[..j];
      if HasKeyword(text, row.keywords) {
        order', topics' := RecordTopic(order', topics', row.topic, comment.sentimentScore, isRecent,
                                       AddComment(acc, comment, now, TOPIC_KEYWORDS[..j]));
      }
      j := j + 1;
    }
    assert TOPIC_KEYWORDS[..j] == TOPIC_KEYWORDS;
  }

  /** Entry i of the listing is key i with its value. */
  lemma {:induction false} EntriesAt(order: seq<string>, m: map<string, TopicData>)
    ensures |Entries(order, m)| == |order|
    ensures forall i :: 0 <= i < |order| ==> Entries(order, m)[i] == Topic(order[i], Get(m, order[i]))
  {
    if order != [] {
      EntriesAt(order[1..], m);
    }
  }

  /** Dividing every stored sum in the dictionary averages its entry list. */
  lemma EntriesAveraged(order: seq<string>, sums: map<string, TopicData>, means: map<string, TopicData>)
    requires forall k :: k in order ==> k in sums && k in means && means[k] == AverageData(sums[k])
    ensures Entries(order, means) == Averaged(Entries(order, sums))
  {
    EntriesAt(order, sums);
    EntriesAt(order, means);
    var l, r := Entries(order, means), Averaged(Entries(order, sums));
    forall i | 0 <= i < |order| ensures l[i] == r[i] {
      assert order[i] in order;
    }
  }

  /** The `Object.keys(topics).forEach` that turns each sum into an average. */
  method AverageTopics(order: seq<string>, topics: map<string, TopicData>, ghost acc: seq<Topic>)
    returns (topics': map<string, TopicData>)
    requires Holds(order, topics, acc)
    ensures Holds(order, topics', Averaged(acc))
  {
    topics' := topics;
    var i := 0;
    while i < |order|
      invariant 0 <= i <= |order|
      invariant forall k :: k in topics' <==> k in topics
      invariant forall k :: k in topics ==> topics'[k] == if k in order[..i] then AverageData(topics[k]) else topics[k]
    {
      var topic := order[i];
      assert topic !in order[..i];
      assert order[..i + 1] == order[..i] + [topic];
      if topics'[topic].count > 0 {
        topics' := topics'[topic := topics'[topic].(sentiment := topics'[topic].sentiment / topics'[topic].count as real)];
      }
      i := i + 1;
    }
    assert order[..i] == order;
    EntriesAveraged(order, topics, topics');
  }

  /** `extractTrendingTopics()` */
  method ExtractTrendingTopics(comments: seq<Comment>, now: int) returns (trending: seq<Topic>)
    ensures trending == TrendingTopics(comments, now)
    ensures SortedDesc(trending, TopicCount)
  {
    var order: seq<string> := [];
    var topics: map<string, TopicData> := map[];
    var i := 0;
    while i < |comments|
      invariant 0 <= i <= |comments|
      invariant Holds(order, topics, Accumulate(comments[..i], now, TOPIC_KEYWORDS))
    {
      assert comments[..i + 1][..i] == comments[..i];
      order, topics := MatchComment(order, topics, comments[i], now, Accumulate(comments[..i], now, TOPIC_KEYWORDS));
      i := i + 1;
    }
    assert comments[..i] == comments;
    topics := AverageTopics(order, topics, Accumulate(comments, now, TOPIC_KEYWORDS));
    trending := SortDesc(Entries(order, topics), TopicCount);
  }

  // --------------------------------------------------------------- display

  /** `getSentimentColor(sentiment)` on an average score. */
  function ScoreColor(sentiment: real): (cls: string)
    ensures cls == "text-green-600" <==> sentiment > 0.7
    ensures cls == "text-yellow-600" <==> 0.4 < sentiment <= 0.7
    ensures cls == "text-red-600" <==> sentiment <= 0.4
  {
    if sentiment > 0.7 then "text-green-600"
    else if sentiment > 0.4 then "text-yellow-600"
    else "text-red-600"
  }

  /** `getSentimentBadge(sentiment)` */
  function SentimentBadge(sentiment: real): (variant: string)
    ensures variant == "default" <==> sentiment > 0.7
    ensures variant == "secondary" <==> 0.4 < sentiment <= 0.7
    ensures variant == "destructive" <==> sentiment <= 0.4
  {
    if sentiment > 0.7 then "default"
    else if sentiment > 0.4 then "secondary"
    else "destructive"
  }

  /** Badge and text colour use the same bands, and a better score never
    * gets a worse badge. */
  lemma BadgeMatchesColor(a: real, b: real)
    ensures SentimentBadge(a) == "default" <==> ScoreColor(a) == "text-green-600"
    ensures SentimentBadge(a) == "destructive" <==> ScoreColor(a) == "text-red-600"
    ensures a <= b && SentimentBadge(a) == "default" ==> SentimentBadge(b) == "default"
    ensures a <= b && SentimentBadge(b) == "destructive" ==> SentimentBadge(a) == "destructive"
  {
  }
}
