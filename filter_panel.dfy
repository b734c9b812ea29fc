/** The filter panel: every control replaces one field of the filter state
  * (`updateFilter`), and the source and sentiment checkboxes add or remove
  * one value of their list (`toggleArrayFilter`). */
module FilterPanel {
  import opened Optional
  import opened Seqs

  datatype FilterState = FilterState(
    timeRange: string,
    sources: seq<string>,
    sentiment: seq<string>,
    minInfluence: int,
    countriesExclude: seq<string>,
    languagesExclude: seq<string>,
    authorSearch: string,
    searchQuery: string,
    dateFrom: Option<string>,
    dateTo: Option<string>)

  /** The keys of the filter state. */
  datatype FilterKey =
    | TimeRangeKey | SourcesKey | SentimentKey | MinInfluenceKey | CountriesExcludeKey
    | LanguagesExcludeKey | AuthorSearchKey | SearchQueryKey | DateFromKey | DateToKey

  /** A field value: a string, a list of strings, a number or an optional date. */
  datatype FieldValue = Text(text: string) | Items(items: seq<string>) | Number(n: int) | Date(date: Option<string>)

  /** `filters[key]` */
  function Get(f: FilterState, key: FilterKey): FieldValue {
    match key
    case TimeRangeKey => Text(f.timeRange)
    case SourcesKey => Items(f.sources)
    case SentimentKey => Items(f.sentiment)
    case MinInfluenceKey => Number(f.minInfluence)
    case CountriesExcludeKey => Items(f.countriesExclude)
    case LanguagesExcludeKey => Items(f.languagesExclude)
    case AuthorSearchKey => Text(f.authorSearch)
    case SearchQueryKey => Text(f.searchQuery)
    case DateFromKey => Date(f.dateFrom)
    case DateToKey => Date(f.dateTo)
  }

  /** Whether a value has the shape of the field it is stored under. */
  predicate Fits(key: FilterKey, v: FieldValue) {
    match key
    case TimeRangeKey => v.Text?
    case SourcesKey => v.Items?
    case SentimentKey => v.Items?
    case MinInfluenceKey => v.Number?
    case CountriesExcludeKey => v.Items?
    case LanguagesExcludeKey => v.Items?
    case AuthorSearchKey => v.Text?
    case SearchQueryKey => v.Text?
    case DateFromKey => v.Date?
    case DateToKey => v.Date?
  }

  /** `updateFilter(key, value)`: `{ ...filters, [key]: value }`, passed on
    * to the parent. The controls always pass a value of the field's shape. */
  function UpdateFilter(f: FilterState, key: FilterKey, v: FieldValue): (r: FilterState)
    requires Fits(key, v)
    ensures Get(r, key) == v
    ensures forall k :: k != key ==> Get(r, k) == Get(f, k)
  {
    match key
    case TimeRangeKey => f.(timeRange := v.text)
    case SourcesKey => f.(sources := v.items)
    case SentimentKey => f.(sentiment := v.items)
    case MinInfluenceKey => f.(minInfluence := v.n)
    case CountriesExcludeKey => f.(countriesExclude := v.items)
    case LanguagesExcludeKey => f.(languagesExclude := v.items)
    case AuthorSearchKey => f.(authorSearch := v.text)
    case SearchQueryKey => f.(searchQuery := v.text)
    case DateFromKey => f.(dateFrom := v.date)
    case DateToKey => f.(dateTo := v.date)
  }

  /** Writing a field back with its own value changes nothing, and a second
    * write to the same field replaces the first. */
  lemma UpdateFilterLaws(f: FilterState, key: FilterKey, v: FieldValue, w: FieldValue)
    requires Fits(key, v) && Fits(key, w)
    ensures UpdateFilter(f, key, Get(f, key)) == f
    ensures UpdateFilter(UpdateFilter(f, key, v), key, w) == UpdateFilter(f, key, w)
  {
  }

  /** `toggleArrayFilter(key, value)` for the `sources` and `sentiment`
    * lists: a present value is removed with every repeat of it, an absent
    * one is appended at the end; other values keep their multiplicity, and
    * every other field is left as it was. */
  function ToggleArrayFilter(f: FilterState, key: FilterKey, value: string): (r: FilterState)
    requires key == SourcesKey || key == SentimentKey
    ensures Get(r, key).Items?
    ensures value in Get(f, key).items ==>
              value !in Get(r, key).items &&
              forall x :: x != value ==> multiset(Get(r, key).items)[x] == multiset(Get(f, key).items)[x]
    ensures value !in Get(f, key).items ==> Get(r, key).items == Get(f, key).items + [value]
    ensures forall k :: k != key ==> Get(r, k) == Get(f, k)
  {
    UpdateFilter(f, key, Items(Toggle(Get(f, key).items, value)))
  }

  /** Toggling twice restores the membership of every value and leaves
    * every other field as it was. */
  lemma {:induction false} ToggleArrayFilterTwice(f: FilterState, key: FilterKey, value: string)
    requires key == SourcesKey || key == SentimentKey
    ensures forall x ::
              (x in Get(ToggleArrayFilter(ToggleArrayFilter(f, key, value), key, value), key).items) == (x in Get(f, key).items)
    ensures forall k :: k != key ==> Get(ToggleArrayFilter(ToggleArrayFilter(f, key, value), key, value), k) == Get(f, k)
  {
    ToggleTwice(Get(f, key).items, value);
  }
}
