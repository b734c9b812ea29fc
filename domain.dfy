/** The records the server stores and the pages display (users, comments,
  * authors), the three sentiment labels, and the day arithmetic on
  * timestamps. Timestamps are milliseconds since the epoch, in UTC. */
module Domain {
  import opened Optional
  import opened Seqs

  const POSITIVE: string := "POSITIVE"
  const NEUTRAL: string := "NEUTRAL"
  const NEGATIVE: string := "NEGATIVE"

  datatype User = User(
    id: string,
    username: string,
    email: string,
    password: string,
    businessName: Option<string>,
    createdAt: Option<int>)

  /** A stored comment. The label is kept as the string the classifier
    * produced; `influence` is nullable in the store. */
  datatype Comment = Comment(
    id: string,
    userId: Option<string>,
    source: string,
    authorId: Option<string>,
    text: string,
    lang: Option<string>,
    country: Option<string>,
    createdAt: Option<int>,
    sentimentLabel: string,
    sentimentScore: real,
    influence: Option<int>)

  datatype Author = Author(
    id: string,
    name: string,
    handle: Option<string>,
    followers: Option<int>,
    avatarUrl: Option<string>,
    platform: Option<string>)

  /** `c.influence || 0` */
  function InfluenceOr0(c: Comment): int {
    c.influence.GetOr(0)
  }

  /** `c => c.authorId === id` */
  function WrittenBy(id: string): Comment -> bool {
    (c: Comment) => c.authorId == Some(id)
  }

  /** `c.sentimentLabel === label` */
  predicate HasLabel(c: Comment, lbl: string) {
    c.sentimentLabel == lbl
  }

  /** `c => c.sentimentLabel === label` */
  function Labelled(lbl: string): Comment -> bool {
    (c: Comment) => HasLabel(c, lbl)
  }

  /** `cs.filter(c => c.sentimentLabel === label).length` */
  function LabelCount(cs: seq<Comment>, lbl: string): nat {
    if cs == [] then 0
    else LabelCount(cs[..|cs| - 1], lbl) + (if cs[|cs| - 1].sentimentLabel == lbl then 1 else 0)
  }

  /** The label count is the number of comments kept by the label filter. */
  lemma {:induction false} LabelCountIsCount(cs: seq<Comment>, lbl: string)
    ensures LabelCount(cs, lbl) == Count(cs, Labelled(lbl))
  {
    if cs != [] {
      LabelCountIsCount(cs[..|cs| - 1], lbl);
    }
  }

  /** At most every comment carries the label, and none does exactly when the count is 0. */
  lemma LabelCountBounds(cs: seq<Comment>, lbl: string)
    ensures LabelCount(cs, lbl) <= |cs|
    ensures LabelCount(cs, lbl) == 0 <==> forall c :: c in cs ==> c.sentimentLabel != lbl
  {
    LabelCountIsCount(cs, lbl);
  }

  /** Every label is one of the three the classifier produces. */
  predicate KnownLabels(cs: seq<Comment>) {
    forall c :: c in cs ==> c.sentimentLabel in {POSITIVE, NEUTRAL, NEGATIVE}
  }

  /** When every label is known, the three label counts add up to the list length. */
  lemma {:induction false} LabelPartition(cs: seq<Comment>)
    requires KnownLabels(cs)
    ensures LabelCount(cs, POSITIVE) + LabelCount(cs, NEUTRAL) + LabelCount(cs, NEGATIVE) == |cs|
  {
    if cs != [] {
      var init, last := cs[..|cs| - 1], cs[|cs| - 1];
      assert KnownLabels(init) by {
        forall c | c in init ensures c in cs { }
      }
      LabelPartition(init);
      assert last in cs;
    }
  }

  /** Appending a comment adds one exactly when it carries the label. */
  lemma LabelCountAppend(cs: seq<Comment>, c: Comment, lbl: string)
    ensures LabelCount(cs + [c], lbl) == LabelCount(cs, lbl) + (if c.sentimentLabel == lbl then 1 else 0)
  {
    assert (cs + [c])[..|cs|] == cs;
  }

  /** Label counts do not depend on the order of the comments. */
  lemma LabelCountPermutation(a: seq<Comment>, b: seq<Comment>, lbl: string)
    requires multiset(a) == multiset(b)
    ensures LabelCount(a, lbl) == LabelCount(b, lbl)
  {
    LabelCountIsCount(a, lbl);
    LabelCountIsCount(b, lbl);
    CountPermutation(a, b, Labelled(lbl));
  }

  const MS_PER_MINUTE: int := 60000
  const MS_PER_HOUR: int := 3600000
  const MS_PER_DAY: int := 86400000

  /** The day number of a timestamp: midnight truncation, `setHours(0, 0, 0, 0)`. */
  function DayOf(ts: int): int {
    ts / 86400000
  }

  /** `getHours()`: the hour of the day. */
  function HourOf(ts: int): int {
    (ts % 86400000) / 3600000
  }

  /** `getDay()`: 0 is Sunday; day 0 of the epoch was a Thursday. */
  function WeekdayOf(ts: int): int {
    (DayOf(ts) + 4) % 7
  }

  /** A timestamp lies within its day, in its hour of that day, and has a weekday. */
  lemma TimeBounds(ts: int)
    ensures DayOf(ts) * MS_PER_DAY <= ts < (DayOf(ts) + 1) * MS_PER_DAY
    ensures 0 <= HourOf(ts) < 24
    ensures DayOf(ts) * MS_PER_DAY + HourOf(ts) * MS_PER_HOUR <= ts < DayOf(ts) * MS_PER_DAY + (HourOf(ts) + 1) * MS_PER_HOUR
    ensures 0 <= WeekdayOf(ts) < 7
  {
  }
}
