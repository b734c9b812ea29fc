/** The analysis page: the sentiment distribution, the mentions per source
  * and the word cloud built from the comment texts. */
module Analysis {
  import opened Seqs
  import opened Ranking
  import opened Text
  import opened Tallies
  import opened Domain

  // ------------------------------------------------ sentiment distribution

  datatype Slice = Slice(name: string, value: nat, color: string)

  /** `sentimentData`: one slice per label, positive, neutral, negative. */
  function SentimentData(cs: seq<Comment>): seq<Slice> {
    [ Slice("Positive", LabelCount(cs, POSITIVE), "hsl(142, 76%, 36%)"),
      Slice("Neutral", LabelCount(cs, NEUTRAL), "hsl(42, 95%, 50%)"),
      Slice("Negative", LabelCount(cs, NEGATIVE), "hsl(0, 84%, 60%)") ]
  }

  /** Each slice counts the comments the label filter keeps. */
  lemma SentimentDataCounts(cs: seq<Comment>)
    ensures SentimentData(cs)[0].value == Count(cs, Labelled(POSITIVE))
    ensures SentimentData(cs)[1].value == Count(cs, Labelled(NEUTRAL))
    ensures SentimentData(cs)[2].value == Count(cs, Labelled(NEGATIVE))
  {
    LabelCountIsCount(cs, POSITIVE);
    LabelCountIsCount(cs, NEUTRAL);
    LabelCountIsCount(cs, NEGATIVE);
  }

  /** With only the three known labels the slices add up to all comments. */
  lemma SentimentDataAddsUp(cs: seq<Comment>)
    requires KnownLabels(cs)
    ensures SentimentData(cs)[0].value + SentimentData(cs)[1].value + SentimentData(cs)[2].value == |cs|
  {
    LabelPartition(cs);
  }

  // ----------------------------------------------------------- per source

  function Sources(cs: seq<Comment>): (ss: seq<string>)
    ensures |ss| == |cs|
    ensures forall i :: 0 <= i < |cs| ==> ss[i] == cs[i].source
  {
    seq(|cs|, i requires 0 <= i < |cs| => cs[i].source)
  }

  /** `c => c.source === source` */
  function FromSource(source: string): Comment -> bool {
    (c: Comment) => c.source == source
  }

  /** A source occurs in the source list once per comment from it. */
  lemma {:induction false} SourceMultiplicity(cs: seq<Comment>, source: string)
    ensures multiset(Sources(cs))[source] == Count(cs, FromSource(source))
  {
    if cs != [] {
      var init, last := cs[..|cs| - 1], cs[|cs| - 1];
      assert cs == init + [last];
      assert Sources(cs) == Sources(init) + [last.source];
      SourceMultiplicity(init, source);
      CountAppend(init, last, FromSource(source));
    }
  }

  /** `sourceCounts`: the comments per source, sources in order of first appearance. */
  function SourceCounts(cs: seq<Comment>): seq<Entry<string>> {
    Tally(Sources(cs))
  }

  datatype SourceBar = SourceBar(source: string, count: nat)

  /** `sourceData`: the same counts with capitalised source names. */
  function SourceData(cs: seq<Comment>): (bars: seq<SourceBar>)
    ensures |bars| == |SourceCounts(cs)|
    ensures forall i :: 0 <= i < |bars| ==>
              bars[i] == SourceBar(Capitalize(SourceCounts(cs)[i].key), SourceCounts(cs)[i].count)
  {
    var t := SourceCounts(cs);
    seq(|t|, i requires 0 <= i < |t| => SourceBar(Capitalize(t[i].key), t[i].count))
  }

  /** Every source of a comment gets one entry counting exactly its comments,
    * and the counts add up to the number of comments. */
  lemma SourceCountsAddUp(cs: seq<Comment>)
    ensures Total(SourceCounts(cs)) == |cs|
    ensures DistinctKeys(SourceCounts(cs))
    ensures forall c :: c in cs ==> c.source in KeysOf(SourceCounts(cs))
    ensures forall i :: 0 <= i < |SourceCounts(cs)| ==>
              SourceCounts(cs)[i].count == multiset(Sources(cs))[SourceCounts(cs)[i].key] > 0
  {
    TallyProps(Sources(cs));
    TallyCounts(Sources(cs));
    forall c | c in cs ensures c.source in Sources(cs) {
      var i :| 0 <= i < |cs| && cs[i] == c;
      assert Sources(cs)[i] == c.source;
    }
  }

  // ------------------------------------------------------------ tokenizer

  /** `\w`: letters, digits and the underscore. */
  predicate IsWordChar(c: char) {
    'a' <= c <= 'z' || 'A' <= c <= 'Z' || '0' <= c <= '9' || c == '_'
  }

  /** A non-empty run of word characters. */
  predicate IsWord(t: string) {
    t != [] && forall i :: 0 <= i < |t| ==> IsWordChar(t[i])
  }

  /** The runs of word characters of s, continuing the run cur. */
  function Runs(s: string, cur: string): seq<string>
    decreases |s|
  {
    if s == [] then (if cur == [] then [] else [cur])
    else if IsWordChar(s[0]) then Runs(s[1..], cur + [s[0]])
    else (if cur == [] then [] else [cur]) + Runs(s[1..], [])
  }

  /** `s.split(/\W+/)` without its empty pieces: the maximal runs of word
    * characters, in order. */
  function Tokens(s: string): seq<string> {
    Runs(s, [])
  }

  /** Every token is a non-empty run of word characters taken from s, so a
    * token of a lower-cased text is lower-case. */
  lemma {:induction false} RunsAreWords(s: string, cur: string)
    requires forall i :: 0 <= i < |cur| ==> IsWordChar(cur[i]) && !('A' <= cur[i] <= 'Z')
    requires forall i :: 0 <= i < |s| ==> !('A' <= s[i] <= 'Z')
    ensures forall t :: t in Runs(s, cur) ==> IsWord(t) && forall i :: 0 <= i < |t| ==> !('A' <= t[i] <= 'Z')
    decreases |s|
  {
    if s != [] {
      if IsWordChar(s[0]) {
        RunsAreWords(s[1..], cur + [s[0]]);
      } else {
        RunsAreWords(s[1..], []);
      }
    }
  }

  /** A separator splits the tokens: the tokens of `a sep b` are those of a
    * followed by those of b. */
  lemma {:induction false} RunsSplit(a: string, sep: char, b: string, cur: string)
    requires !IsWordChar(sep)
    ensures Runs(a + [sep] + b, cur) == Runs(a, cur) + Runs(b, [])
    decreases |a|
  {
    var s := a + [sep] + b;
    if a == [] {
      assert s[0] == sep && s[1..] == b;
    } else {
      assert s[0] == a[0] && s[1..] == a[1..] + [sep] + b;
      if IsWordChar(a[0]) {
        RunsSplit(a[1..], sep, b, cur + [a[0]]);
      } else {
        RunsSplit(a[1..], sep, b, []);
      }
    }
  }

  /** A run of word characters continues the current token to its end. */
  lemma {:induction false} RunsOfWord(w: string, cur: string)
    requires forall i :: 0 <= i < |w| ==> IsWordChar(w[i])
    ensures Runs(w, cur) == if cur + w == [] then [] else [cur + w]
    decreases |w|
  {
    if w == [] {
      assert cur + w == cur;
    } else {
      assert IsWordChar(w[0]);
      RunsOfWord(w[1..], cur + [w[0]]);
      assert cur + [w[0]] + w[1..] == cur + w;
    }
  }

  /** The tokenizer, characterised: a word is its own single token, and a
    * non-word character separates the tokens on its two sides. */
  lemma TokensExact(w: string, a: string, sep: char, b: string)
    requires !IsWordChar(sep)
    ensures IsWord(w) ==> Tokens(w) == [w]
    ensures Tokens(a + [sep] + b) == Tokens(a) + Tokens(b)
  {
    if IsWord(w) {
      RunsOfWord(w, []);
      assert [] + w == w;
    }
    RunsSplit(a, sep, b, []);
  }

  const COMMON_WORDS: set<string> := {"the", "and", "or", "but", "in", "on", "at", "to", "for", "of",
                                      "with", "by", "is", "was", "are", "were", "a", "an"}

  /** `word.length > 3 && !commonWords.has(word)` */
  predicate Kept(word: string) {
    |word| > 3 && word !in COMMON_WORDS
  }

  /** `wordList`: the kept tokens of the lower-cased text. */
  function KeptWords(text: string): seq<string> {
    Filter(Tokens(Lower(text)), Kept)
  }

  /** Every kept word is a lower-case run of word characters longer than
    * three, and not a stop word. */
  lemma KeptWordsShape(text: string)
    ensures forall w :: w in KeptWords(text) ==>
              IsWord(w) && |w| > 3 && w !in COMMON_WORDS && forall i :: 0 <= i < |w| ==> !('A' <= w[i] <= 'Z')
  {
    RunsAreWords(Lower(text), []);
  }

  // ----------------------------------------------------------- word cloud

  /** The kept words of all comments, comment after comment. */
  function AllWords(cs: seq<Comment>): seq<string> {
    if cs == [] then [] else AllWords(cs[..|cs| - 1]) + KeptWords(cs[|cs| - 1].text)
  }

  /** How often w is kept in each comment, summed over the comments. */
  function Occurrences(cs: seq<Comment>, w: string): nat {
    if cs == [] then 0 else Occurrences(cs[..|cs| - 1], w) + multiset(KeptWords(cs[|cs| - 1].text))[w]
  }

  lemma {:induction false} AllWordsOccurrences(cs: seq<Comment>, w: string)
    ensures multiset(AllWords(cs))[w] == Occurrences(cs, w)
  {
    if cs != [] {
      AllWordsOccurrences(cs[..|cs| - 1], w);
    }
  }

  /** The twenty most frequent kept words with their counts. */
  function WordCloud(cs: seq<Comment>): seq<Entry<string>> {
    TopKeys(AllWords(cs), 20)
  }

  /** `generateWordCloudData()`: count every kept word of every comment in
    * the `words` dictionary, then sort the entries by count and keep 20. */
  method GenerateWordCloud(comments: seq<Comment>) returns (cloud: seq<Entry<string>>)
    ensures cloud == WordCloud(comments)
  {
    var order, words := CountAllWords(comments);
    var entries := Zip(order, words);
    cloud := Take(SortDesc(entries, CountKey), 20);
  }

  /** The dictionary `words`, its keys in insertion order, holds the tally of s. */
  ghost predicate Holds(order: seq<string>, words: map<string, nat>, s: seq<string>) {
    Distinct(order) && (forall k :: k in order <==> k in words) && Zip(order, words) == Tally(s)
  }

  /** The outer loop over the comments. */
  method CountAllWords(comments: seq<Comment>) returns (order: seq<string>, words: map<string, nat>)
    ensures Zip(order, words) == Tally(AllWords(comments))
  {
    order, words := [], map[];
    var i := 0;
    while i < |comments|
      invariant 0 <= i <= |comments| && Holds(order, words, AllWords(comments[..i]))
    {
      AllWordsSnoc(comments, i);
      order, words := CountWords(order, words, KeptWords(comments[i].text), AllWords(comments[..i]));
      i := i + 1;
    }
    assert comments[..i] == comments;
  }

  lemma AllWordsSnoc(cs: seq<Comment>, i: nat)
    requires i < |cs|
    ensures AllWords(cs[..i + 1]) == AllWords(cs[..i]) + KeptWords(cs[i].text)
  {
    assert cs[..i + 1][..i] == cs[..i];
  }

  /** The inner loop over the kept words of one comment. */
  method CountWords(order: seq<string>, words: map<string, nat>, wordList: seq<string>, ghost before: seq<string>)
    returns (order': seq<string>, words': map<string, nat>)
    requires Holds(order, words, before)
    ensures Holds(order', words', before + wordList)
  {
    order', words' := order, words;
    var j := 0;
    assert before + wordList[..0] == before;
    while j < |wordList|
      invariant 0 <= j <= |wordList| && Holds(order', words', before + wordList[..j])
    {
      assert before + wordList[..j + 1] == (before + wordList[..j]) + [wordList[j]];
      order', words' := CountWord(order', words', wordList[j], before + wordList[..j]);
      j := j + 1;
    }
    assert wordList[..j] == wordList;
  }

  /** `words[word] = (words[word] || 0) + 1`, a new word joining the key
    * order at the end. */
  method CountWord(order: seq<string>, words: map<string, nat>, word: string, ghost s: seq<string>)
    returns (order': seq<string>, words': map<string, nat>)
    requires Holds(order, words, s)
    ensures Holds(order', words', s + [word])
  {
    BumpZip(order, words, word);
    TallySnoc(s, word);
    if word in words {
      order', words' := order, words[word := words[word] + 1];
    } else {
      DistinctAppend(order, word);
      order', words' := order + [word], words[word := 1];
    }
  }

  /** At most twenty words, most frequent first; each count is the number of
    * times the word is kept across all comments, and a word left out is
    * kept no more often than any word shown. */
  lemma WordCloudRanked(cs: seq<Comment>)
    ensures |WordCloud(cs)| <= 20
    ensures SortedDesc(WordCloud(cs), CountKey)
    ensures forall e :: e in WordCloud(cs) ==> e.count == Occurrences(cs, e.key) > 0
    ensures forall e, w :: e in WordCloud(cs) && w in AllWords(cs) && w !in KeysOf(WordCloud(cs))
              ==> e.count >= Occurrences(cs, w)
  {
    TopKeysCounts(AllWords(cs), 20);
    forall w {
      AllWordsOccurrences(cs, w);
    }
  }

  // --------------------------------------------- reading `words[word] || 0`

  /** What reading a key of a plain object gives: its own entry, a member
    * every object inherits from `Object.prototype`, or nothing. */
  datatype ObjectRead = Own(n: nat) | Inherited | Missing

  /** The inherited members whose names are lower-case runs of word
    * characters, and so can be produced by the tokenizer. */
  const LOWERCASE_INHERITED: set<string> := {"constructor", "__proto__"}

  /** `words[word]` on the plain object as the page writes it. */
  function ReadAsWritten(words: map<string, nat>, word: string): (r: ObjectRead)
    ensures r.Own? <==> word in words
    ensures r.Inherited? <==> word !in words && word in LOWERCASE_INHERITED
  {
    if word in words then Own(words[word])
    else if word in LOWERCASE_INHERITED then Inherited
    else Missing
  }

  /** "constructor" survives the tokenizer and the stop list, and its first
    * read finds the inherited `Object` function instead of a missing entry,
    * so `|| 0` keeps the function and `+ 1` turns the count into text. */
  lemma ConstructorReadsInherited()
    ensures KeptWords("constructor") == ["constructor"]
    ensures ReadAsWritten(map[], "constructor") == Inherited
  {
    var w := "constructor";
    LowerConstructor();
    TokensConstructor();
    KeptConstructor();
    assert w in LOWERCASE_INHERITED;
  }

  lemma KeptConstructor()
    ensures Filter(["constructor"], Kept) == ["constructor"]
  {
    var w := "constructor";
    assert [w][..0] == [];
    assert |w| == 11;
    assert forall c :: c in COMMON_WORDS ==> |c| <= 5;
    assert Kept(w);
  }

  lemma LowerConstructor()
    ensures Lower("constructor") == "constructor"
  {
    var w := "constructor";
    assert forall i :: 0 <= i < |w| ==> !('A' <= w[i] <= 'Z');
  }

  lemma TokensConstructor()
    ensures Tokens("constructor") == ["constructor"]
  {
    var w := "constructor";
    assert IsWord(w);
    TokensExact(w, "", ' ', "");
  }

  /** With own-entry reads, as `GenerateWordCloud` does, a comment saying
    * "constructor" counts the word once. */
  lemma ConstructorCountedOnce(c: Comment)
    requires c.text == "constructor"
    ensures Tally(AllWords([c])) == [Entry("constructor", 1)]
  {
    ConstructorReadsInherited();
    assert [c][..0] == [];
    assert AllWords([c]) == ["constructor"];
    TallySnoc([], "constructor");
    assert [] + ["constructor"] == ["constructor"];
  }
}
