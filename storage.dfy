/**
 * FileStorage: one JSON document per collection name. The files are modelled
 * as an abstract map from collection name to the document's value, which may
 * or may not be a list. Every list operation loads the whole document, works
 * on it in memory and writes the whole document back.
 */
module Storage {
  import opened Seqs

  /** A JSON value as the document store holds it. */
  datatype Value =
    | Null
    | Bool(b: bool)
    | Int(i: int)
    | Str(s: string)
    | List(items: seq<Value>)
    | Dict(fields: map<string, Value>)

  /** `item.get(k)`: the value under `k`, or None when the key is absent. */
  function Get(fields: map<string, Value>, k: string): Value {
    if k in fields then fields[k] else Null
  }

  /** `all(item.get(k) == v for k, v in query.items())`; an empty query matches anything. */
  predicate Matches(item: Value, query: map<string, Value>) {
    forall k :: k in query ==> item.Dict? && Get(item.fields, k) == query[k]
  }

  /** Some element is not a dictionary, so `item.get` raises and the operation gives up. */
  predicate HasNonDict(items: seq<Value>) {
    exists x :: x in items && !x.Dict?
  }

  predicate AnyMatch(items: seq<Value>, query: map<string, Value>) {
    exists x :: x in items && Matches(x, query)
  }

  /** The list comprehension of `find_json`. */
  function Found(items: seq<Value>, query: map<string, Value>): seq<Value> {
    Filter(items, x => Matches(x, query))
  }

  /** The list comprehension of `delete_json`: the items the query does not match. */
  function Remaining(items: seq<Value>, query: map<string, Value>): seq<Value> {
    Filter(items, x => !Matches(x, query))
  }

  /** `item.update(update)`: the update's keys overwrite the item's. */
  function Merge(item: Value, update: map<string, Value>): Value {
    if item.Dict? then Dict(item.fields + update) else item
  }

  /** Every matching item merged with `update`, every other item as it was. */
  function MergeMatching(items: seq<Value>, query: map<string, Value>, update: map<string, Value>): (r: seq<Value>)
    ensures |r| == |items|
  {
    seq(|items|, i requires 0 <= i < |items| => if Matches(items[i], query) then Merge(items[i], update) else items[i])
  }

  /**
   * What `save_json(list, name)` does when the list is passed as the collection
   * and the name as the data: the file is named after the list's text
   * (`rendered`, which starts with '[') and holds the name as a string.
   */
  function SwappedSave(collections: map<string, Value>, rendered: string, name: string): map<string, Value> {
    collections[rendered := Str(name)]
  }

  /** A swapped save never touches the collection it was meant to write. */
  lemma SwappedSaveMissesCollection(collections: map<string, Value>, rendered: string, name: string)
    requires |rendered| > 0 && rendered[0] == '['
    requires |name| > 0 && name[0] != '['
    ensures var after := SwappedSave(collections, rendered, name);
      (name in after <==> name in collections) && (name in collections ==> after[name] == collections[name])
  {
    assert rendered != name;
  }

  class FileStorage {
    /** Collection name to stored document; a name that is absent has no file. */
    var collections: map<string, Value>

    constructor (initial: map<string, Value>)
      ensures collections == initial
    {
      collections := initial;
    }

    /** `load_json(name, default)`. */
    function LoadJson(name: string, default: Value): (v: Value)
      reads this
      ensures name !in collections ==> v == default
      ensures name in collections ==> v == collections[name]
    {
      if name in collections then collections[name] else default
    }

    /** `save_json(name, data)` with the arguments in their declared order; writes are assumed to succeed. */
    method SaveJson(name: string, data: Value)
      modifies this
      ensures collections == old(collections)[name := data]
    {
      collections := collections[name := data];
    }

    /** `append_json`: a missing collection counts as `[]`; a stored non-list refuses the append. */
    method AppendJson(name: string, item: Value) returns (ok: bool)
      modifies this
      ensures ok == old(LoadJson(name, List([]))).List?
      ensures ok ==> collections == old(collections)[name := List(old(LoadJson(name, List([]))).items + [item])]
      ensures !ok ==> collections == old(collections)
    {
      var data := LoadJson(name, List([]));
      if !data.List? {
        return false;
      }
      SaveJson(name, List(data.items + [item]));
      ok := true;
    }

    /**
     * `update_json`: merges `update` into every matching item in place and
     * saves only when something matched. A non-dictionary item makes
     * `item.get` or `item.update` raise, which returns false without saving.
     */
    method UpdateJson(name: string, query: map<string, Value>, update: map<string, Value>) returns (ok: bool)
      modifies this
      ensures ok == (old(LoadJson(name, List([]))).List?
                     && !HasNonDict(old(LoadJson(name, List([]))).items)
                     && AnyMatch(old(LoadJson(name, List([]))).items, query))
      ensures ok ==> collections == old(collections)[name := List(MergeMatching(old(LoadJson(name, List([]))).items, query, update))]
      ensures !ok ==> collections == old(collections)
    {
      var data := LoadJson(name, List([]));
      if !data.List? {
        return false;
      }
      var items := data.items;
      var updated := false;
      var i := 0;
      while i < |items|
        invariant 0 <= i <= |items| == |data.items|
        invariant forall j :: 0 <= j < i ==> data.items[j].Dict?
        invariant forall j :: 0 <= j < i ==> items[j] == MergeMatching(data.items, query, update)[j]
        invariant forall j :: i <= j < |items| ==> items[j] == data.items[j]
        invariant updated <==> exists j :: 0 <= j < i && Matches(data.items[j], query)
        invariant collections == old(collections)
      {
        if !items[i].Dict? {
          assert HasNonDict(data.items) by { assert data.items[i] in data.items; }
          return false;
        }
        if Matches(items[i], query) {
          items := items[i := Merge(items[i], update)];
          updated := true;
        }
        i := i + 1;
      }
      assert !HasNonDict(data.items) by {
        forall x | x in data.items ensures x.Dict? {
          var j :| 0 <= j < |data.items| && data.items[j] == x;
        }
      }
      assert updated <==> AnyMatch(data.items, query) by {
        if AnyMatch(data.items, query) {
          var x :| x in data.items && Matches(x, query);
          var j :| 0 <= j < |data.items| && data.items[j] == x;
        }
      }
      if !updated {
        return false;
      }
      assert items == MergeMatching(data.items, query, update);
      SaveJson(name, List(items));
      ok := true;
    }

    /**
     * `delete_json`: keeps the items the query does not match and saves only
     * when the list got shorter. With a non-empty query a non-dictionary item
     * makes `item.get` raise, which returns false without saving.
     */
    method DeleteJson(name: string, query: map<string, Value>) returns (ok: bool)
      modifies this
      ensures ok == (old(LoadJson(name, List([]))).List?
                     && !(query != map[] && HasNonDict(old(LoadJson(name, List([]))).items))
                     && AnyMatch(old(LoadJson(name, List([]))).items, query))
      ensures ok ==> collections == old(collections)[name := List(Remaining(old(LoadJson(name, List([]))).items, query))]
      ensures !ok ==> collections == old(collections)
    {
      var data := LoadJson(name, List([]));
      if !data.List? || (query != map[] && HasNonDict(data.items)) {
        return false;
      }
      var kept := Remaining(data.items, query);
      FilterShorter(data.items, x => !Matches(x, query));
      if |kept| < |data.items| {
        SaveJson(name, List(kept));
        ok := true;
      } else {
        ok := false;
      }
    }

    /**
     * `find_json`: the matching items in stored order; `[]` when the document
     * is not a list or when a non-empty query meets a non-dictionary item.
     * The result is `Found` of the document, whose order and multiplicity
     * `FoundKeepsOrder` fixes.
     */
    function FindJson(name: string, query: map<string, Value>): (r: seq<Value>)
      reads this
      ensures var data := LoadJson(name, List([]));
        if data.List? && !(query != map[] && HasNonDict(data.items))
        then forall x :: x in r <==> x in data.items && Matches(x, query)
        else r == []
    {
      var data := LoadJson(name, List([]));
      if data.List? && !(query != map[] && HasNonDict(data.items)) then Found(data.items, query) else []
    }
  }

  /** An empty query matches every item, so `find_json(name, {})` returns the whole list. */
  lemma EmptyQueryFindsAll(items: seq<Value>)
    ensures Found(items, map[]) == items
  {
    FilterAll(items, x => Matches(x, map[]));
  }

  /** A query pair `(k, None)` matches exactly the dictionaries that lack `k` or hold null under it. */
  lemma NullQueryMatchesMissingKey(fields: map<string, Value>, k: string)
    ensures Matches(Dict(fields), map[k := Null]) <==> (k !in fields || fields[k] == Null)
  {
    if Matches(Dict(fields), map[k := Null]) {
      assert k in map[k := Null];
    }
  }

  /** `find_json` results keep the stored order: finding over a concatenation concatenates the finds. */
  lemma FoundKeepsOrder(a: seq<Value>, b: seq<Value>, query: map<string, Value>)
    ensures Found(a + b, query) == Found(a, query) + Found(b, query)
  {
    FilterConcat(a, b, x => Matches(x, query));
  }

  /** `update_json` changes exactly the matching items and leaves every other item as it was. */
  lemma MergeMatchingChangesOnlyMatches(items: seq<Value>, query: map<string, Value>, update: map<string, Value>, i: int)
    requires 0 <= i < |items|
    ensures !Matches(items[i], query) ==> MergeMatching(items, query, update)[i] == items[i]
    ensures Matches(items[i], query) && items[i].Dict? ==>
      MergeMatching(items, query, update)[i] == Dict(items[i].fields + update)
  {
  }

  /** `delete_json` followed by `find_json` with the same query finds nothing. */
  lemma RemainingHasNoMatch(items: seq<Value>, query: map<string, Value>)
    ensures Found(Remaining(items, query), query) == []
  {
    var rest := Remaining(items, query);
    FilterNone(rest, x => Matches(x, query));
  }

  /** Deletion and search split a list: every item is kept by exactly one of them. */
  lemma DeletePartitions(items: seq<Value>, query: map<string, Value>)
    ensures |Found(items, query)| + |Remaining(items, query)| == |items|
  {
    if items != [] {
      DeletePartitions(items[..|items| - 1], query);
    }
  }
}
