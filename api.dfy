/** The client's request builders: the query parameters sent with
  * `getComments`, `getSnapshots` and `getSuggestions`. The parameters are
  * the ordered key/value pairs of a `URLSearchParams`; writing them out as
  * a percent-encoded query string is not modelled. */
module Api {
  import opened Optional
  import opened Seqs
  import opened Storage

  datatype Param = Param(key: string, value: string)

  /** A filter value as the builder sees it. A scalar carries its
    * `String(value)` form, an array the string forms of its items. */
  datatype Value = Undefined | Null | Scalar(text: string) | Items(items: seq<string>)

  /** The parameters one filter entry contributes. */
  function EntryParams(key: string, value: Value): (ps: seq<Param>)
    ensures value.Undefined? || value.Null? ==> ps == []
    ensures value.Scalar? ==> ps == [Param(key, value.text)]
    ensures value.Items? ==> |ps| == |value.items|
    ensures value.Items? ==> forall i :: 0 <= i < |ps| ==> ps[i] == Param(key, value.items[i])
  {
    match value
    case Undefined => []
    case Null => []
    case Scalar(text) => [Param(key, text)]
    case Items(items) => seq(|items|, i requires 0 <= i < |items| => Param(key, items[i]))
  }

  /** The parameters of all entries, entry after entry. */
  function Encode(entries: seq<(string, Value)>): seq<Param> {
    if entries == [] then []
    else EntryParams(entries[0].0, entries[0].1) + Encode(entries[1..])
  }

  /** `api.getComments(filters)`: the loop over `Object.entries(filters)`,
    * appending one parameter per scalar and one per array item. */
  method CommentParams(filters: Option<seq<(string, Value)>>) returns (params: seq<Param>)
    ensures filters.None? ==> params == []
    ensures filters.Some? ==> params == Encode(filters.value)
  {
    params := [];
    if filters.Some? {
      var entries := filters.value;
      var n := 0;
      while n < |entries|
        invariant 0 <= n <= |entries|
        invariant params == Encode(entries[..n])
      {
        var (key, value) := entries[n];
        if value.Items? {
          params := AppendItems(params, key, value.items);
        } else if value.Scalar? {
          params := params + [Param(key, value.text)];
        }
        assert entries[..n + 1] == entries[..n] + [entries[n]];
        EncodeSnoc(entries[..n], entries[n]);
        n := n + 1;
      }
      assert entries[..n] == entries;
    }
  }

  /** `value.forEach(v => params.append(key, String(v)))` */
  method AppendItems(params: seq<Param>, key: string, items: seq<string>) returns (params': seq<Param>)
    ensures params' == params + EntryParams(key, Items(items))
  {
    params' := params;
    var j := 0;
    while j < |items|
      invariant 0 <= j <= |items|
      invariant params' == params + EntryParams(key, Items(items[..j]))
    {
      assert items[..j + 1] == items[..j] + [items[j]];
      params' := params' + [Param(key, items[j])];
      j := j + 1;
    }
    assert items[..j] == items;
  }

  /** Parameters follow the entry order: encoding a concatenation is the
    * concatenation of the encodings. */
  lemma {:induction false} EncodeAppend(a: seq<(string, Value)>, b: seq<(string, Value)>)
    ensures Encode(a + b) == Encode(a) + Encode(b)
  {
    if a == [] {
      assert a + b == b;
    } else {
      assert (a + b)[0] == a[0];
      assert (a + b)[1..] == a[1..] + b;
      EncodeAppend(a[1..], b);
    }
  }

  /** One more entry adds its own parameters at the end. */
  lemma EncodeSnoc(s: seq<(string, Value)>, e: (string, Value))
    ensures Encode(s + [e]) == Encode(s) + EntryParams(e.0, e.1)
  {
    EncodeAppend(s, [e]);
    assert [e][1..] == [];
  }

  /** An entry without a value adds nothing, wherever it stands. */
  lemma {:induction false} MissingValuesSkipped(a: seq<(string, Value)>, key: string, b: seq<(string, Value)>)
    ensures Encode(a + [(key, Undefined)] + b) == Encode(a + b)
    ensures Encode(a + [(key, Null)] + b) == Encode(a + b)
  {
    SkipEntry(a, (key, Undefined), b);
    SkipEntry(a, (key, Null), b);
  }

  /** One entry without a value, between any two lists of entries. */
  lemma {:induction false} SkipEntry(a: seq<(string, Value)>, e: (string, Value), b: seq<(string, Value)>)
    requires e.1.Undefined? || e.1.Null?
    ensures Encode(a + [e] + b) == Encode(a + b)
  {
    calc {
      Encode(a + [e] + b);
      { EncodeAppend(a + [e], b); }
      Encode(a + [e]) + Encode(b);
      { EncodeSnoc(a, e); }
      Encode(a) + Encode(b);
      { EncodeAppend(a, b); }
      Encode(a + b);
    }
  }

  /** Every parameter carries the key of an entry with a value, and the
    * number of parameters is the number of scalars plus all array items. */
  lemma {:induction false} EncodeShape(entries: seq<(string, Value)>)
    ensures |Encode(entries)| == Size(entries)
    ensures forall p :: p in Encode(entries) ==>
      exists i :: 0 <= i < |entries| && entries[i].0 == p.key && !(entries[i].1.Undefined? || entries[i].1.Null?)
  {
    if entries != [] {
      var first, rest := entries[0], entries[1..];
      EncodeShape(rest);
      forall p | p in Encode(entries)
        ensures exists i :: 0 <= i < |entries| && entries[i].0 == p.key && !(entries[i].1.Undefined? || entries[i].1.Null?)
      {
        if p in Encode(rest) {
          var i :| 0 <= i < |rest| && rest[i].0 == p.key && !(rest[i].1.Undefined? || rest[i].1.Null?);
          assert entries[i + 1] == rest[i];
        } else {
          assert p in EntryParams(first.0, first.1);
        }
      }
    }
  }

  /** How many parameters the entries produce. */
  function Size(entries: seq<(string, Value)>): nat {
    if entries == [] then 0
    else
      var v := entries[0].1;
      Size(entries[1..]) + (match v
        case Undefined => 0
        case Null => 0
        case Scalar(_) => 1
        case Items(items) => |items|)
  }

  /** `api.getSnapshots(range, group)`: each appended only when truthy. */
  function SnapshotParams(range: Option<string>, group: Option<string>): (ps: seq<Param>)
    ensures Param("range", range.GetOr("")) in ps <==> TruthyStr(range)
    ensures Param("group", group.GetOr("")) in ps <==> TruthyStr(group)
    ensures |ps| == (if TruthyStr(range) then 1 else 0) + (if TruthyStr(group) then 1 else 0)
    ensures TruthyStr(range) ==> ps[0] == Param("range", range.value)
  {
    (if TruthyStr(range) then [Param("range", range.value)] else []) +
    (if TruthyStr(group) then [Param("group", group.value)] else [])
  }

  /** `api.getSuggestions(category)`: appended only when truthy. */
  function SuggestionParams(category: Option<string>): (ps: seq<Param>)
    ensures TruthyStr(category) ==> ps == [Param("category", category.value)]
    ensures !TruthyStr(category) ==> ps == []
  {
    if TruthyStr(category) then [Param("category", category.value)] else []
  }

  /** `p => p.key === key` */
  function HasKey(key: string): Param -> bool {
    (p: Param) => p.key == key
  }

  /** `req.query[key]` for a key sent at most once: its value, or undefined. */
  function QueryValue(ps: seq<Param>, key: string): (v: Option<string>)
    ensures v.None? <==> forall i :: 0 <= i < |ps| ==> ps[i].key != key
  {
    var p := Find(ps, HasKey(key));
    if p.Some? then Some(p.value.value) else None
  }

  /** The server reads back the range the client asked for, and so builds
    * the same number of daily snapshots; a falsy range reaches it as no
    * range at all, which selects the same 30 days. */
  lemma SnapshotRangeRoundTrip(range: Option<string>, group: Option<string>)
    ensures RangeDays(QueryValue(SnapshotParams(range, group), "range")) == RangeDays(range)
    ensures TruthyStr(range) ==> QueryValue(SnapshotParams(range, group), "range") == range
  {
    var ps := SnapshotParams(range, group);
    if TruthyStr(range) {
      FindAt(ps, HasKey("range"), 0);
    } else {
      assert forall i :: 0 <= i < |ps| ==> ps[i].key != "range";
    }
  }

  /** The server lists the same suggestions whether the category is passed
    * directly or through the query string. */
  lemma SuggestionsRoundTrip(category: Option<string>)
    ensures GetSuggestions(QueryValue(SuggestionParams(category), "category")) == GetSuggestions(category)
  {
    if TruthyStr(category) {
      FindAt(SuggestionParams(category), HasKey("category"), 0);
    }
  }
}
