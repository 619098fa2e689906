/** What the three public list pages share: the category or field filter, the choice
    between the loading text, the empty-state text and the cards, and the page state
    their loaders update. */
module Listing {
  import opened Json
  import opened Seqs

  /** The filter callback `x => x[key] === filter`. */
  function Matches(key: string, filter: string): Record -> bool {
    (r: Record) => StrictEquals(Lookup(r, key), Some(Str(filter)))
  }

  /** `filter === 'all' ? items : items.filter(x => x[key] === filter)` */
  function ByKey(items: seq<Record>, key: string, filter: string): (r: seq<Record>)
    ensures filter == "all" ==> r == items
    ensures filter != "all" ==> forall i | 0 <= i < |r| :: Lookup(r[i], key) == Some(Str(filter))
    ensures multiset(r) <= multiset(items)
  {
    if filter == "all" then items else Filter(items, Matches(key, filter))
  }

  /** The shown items keep their order, and no item whose field equals the filter is left out. */
  lemma ByKeyKeepsMatches(items: seq<Record>, key: string, filter: string, x: Record)
    requires Lookup(x, key) == Some(Str(filter))
    ensures IsSubsequence(ByKey(items, key, filter), items)
    ensures multiset(ByKey(items, key, filter))[x] == multiset(items)[x]
  {
    if filter != "all" {
      FilterIsSubsequence(items, Matches(key, filter));
      FilterKeepsMatches(items, Matches(key, filter), x);
    } else {
      IdentityIsSubsequence(items);
    }
  }

  lemma {:induction false} IdentityIsSubsequence(s: seq<Record>)
    ensures IsSubsequence(s, s)
  {
    if s != [] {
      IdentityIsSubsequence(s[1..]);
    }
  }

  /** What the list area shows. */
  datatype ListView = LoadingText | EmptyText | Cards(shown: seq<Record>)

  /** The loading text while loading, else the empty-state text exactly when nothing is shown, else the cards. */
  function View(loading: bool, shown: seq<Record>): (v: ListView)
    ensures v == LoadingText <==> loading
    ensures v == EmptyText <==> !loading && shown == []
    ensures v.Cards? ==> v.shown == shown && |shown| > 0
  {
    if loading then LoadingText else if |shown| == 0 then EmptyText else Cards(shown)
  }

  /** A list page's state: its filter, the loaded items and whether loading is still under way. */
  class ListPage {
    const key: string
    var filter: string
    var items: seq<Record>
    var loading: bool

    /** `useState('all')`, `useState([])`, `useState(true)` */
    constructor (key: string)
      ensures this.key == key && filter == "all" && items == [] && loading
    {
      this.key := key;
      filter, items, loading := "all", [], true;
    }

    /** The `filtered` memo. */
    function Shown(): seq<Record>
      reads this
    {
      ByKey(items, key, filter)
    }

    /** What the page renders under its filter tags. */
    function Rendered(): ListView
      reads this
    {
      View(loading, Shown())
    }

    /** A filter tag's click. */
    method SetFilter(f: string)
      modifies this
      ensures filter == f && items == old(items) && loading == old(loading)
    {
      filter := f;
    }

    /** `setLoading(true)` at the start of a load. */
    method StartLoading()
      modifies this
      ensures loading && filter == old(filter) && items == old(items)
    {
      loading := true;
    }

    /** The loader's completion: the fetched items are stored and loading ends. */
    method Loaded(data: seq<Record>)
      modifies this
      ensures items == data && !loading && filter == old(filter)
      ensures Rendered() == (if Shown() == [] then EmptyText else Cards(Shown()))
    {
      items, loading := data, false;
    }
  }
}
