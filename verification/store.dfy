/** The read side of a cache as its consumers see it. The client-go indexer
    itself is not modelled: a handle is described by the answers it gives. */
module Store {
  import opened Wrappers
  import opened Objects

  /** What a lister handle implements. Every `cache.Indexer` is also a `cache.Store`. */
  datatype HandleKind = IndexerKind | StoreKind | PlainKind

  predicate IsIndexer(k: HandleKind)
  {
    k == IndexerKind
  }

  predicate IsStore(k: HandleKind)
  {
    k == IndexerKind || k == StoreKind
  }

  /** A lister handle: its `List()` content in store order, its `GetByKey`
      answers (`failing` keys return an error), and its secondary indexes by
      index name. */
  datatype Handle = Handle(
    kind: HandleKind,
    items: seq<Item>,
    keyed: map<string, Item>,
    failing: set<string>,
    indices: map<string, map<string, seq<Item>>>)

  datatype Lookup = Found(item: Item) | Missing | LookupFailed(err: string)

  function GetByKey(h: Handle, key: string): Lookup
  {
    if key in h.failing then LookupFailed("lookup of " + key + " failed")
    else if key in h.keyed then Found(h.keyed[key])
    else Missing
  }

  /** Follows client-go: an index name the store does not have is an error,
      a key the index does not hold is an empty answer. */
  function ByIndex(h: Handle, indexName: string, key: string): Result<seq<Item>, string>
  {
    if indexName !in h.indices then Err("Index with name " + indexName + " does not exist")
    else if key in h.indices[indexName] then Ok(h.indices[indexName][key])
    else Ok([])
  }

  /** Index `ix` of `h` was filled by the key function `keys`: every item
      filed under a key is one `keys` accepts and maps to that key. */
  ghost predicate IndexedBy(h: Handle, ix: string, keys: Item -> Result<seq<string>, string>)
  {
    ix in h.indices &&
    forall key, i :: key in h.indices[ix] && 0 <= i < |h.indices[ix][key]| ==>
      keys(h.indices[ix][key][i]).Ok? && key in keys(h.indices[ix][key][i]).value
  }

  /** The loop `for _, o := range os { v, ok := o.(T); if !ok { continue }; out = append(out, v) }`:
      keeps the items the assertion `pick` accepts, in store order. */
  function Select<T(!new)>(items: seq<Item>, pick: Item -> Option<T>): (r: seq<T>)
    ensures |r| <= |items|
    ensures forall x :: x in r <==> exists i :: 0 <= i < |items| && pick(items[i]) == Some(x)
  {
    if items == [] then []
    else
      var rest := Select(items[1..], pick);
      assert forall i :: 0 <= i < |items[1..]| ==> items[1..][i] == items[i + 1];
      match pick(items[0])
      case Some(x) => [x] + rest
      case None => rest
  }

  /** Filtering is a homomorphism of concatenation: with `SelectOne` this
      fixes the order and multiplicity of the result, not only its members. */
  lemma {:induction false} SelectAppend<T(!new)>(a: seq<Item>, b: seq<Item>, pick: Item -> Option<T>)
    ensures Select(a + b, pick) == Select(a, pick) + Select(b, pick)
    decreases |a|
  {
    if a == [] {
      assert a + b == b;
    } else {
      assert (a + b)[0] == a[0];
      assert (a + b)[1..] == a[1..] + b;
      SelectAppend(a[1..], b, pick);
    }
  }

  lemma SelectOne<T(!new)>(i: Item, pick: Item -> Option<T>)
    ensures Select([i], pick) == (if pick(i).Some? then [pick(i).value] else [])
  {
  }

  /** Nothing the assertion rejects survives, in particular nothing from a
      store whose content is entirely of another type. */
  lemma {:induction false} SelectNone<T(!new)>(items: seq<Item>, pick: Item -> Option<T>)
    requires forall i :: 0 <= i < |items| ==> pick(items[i]).None?
    ensures Select(items, pick) == []
    decreases |items|
  {
    if items != [] {
      SelectNone(items[1..], pick);
    }
  }
}
