/**
 * The keyword registry: a list of keyword records keyed by their `keyword`
 * field, with add, delete and status update, and three queries. The clock is
 * a parameter: `stamp` is the text `datetime.now()` would have been
 * formatted to.
 */
module Keywords {
  import opened Wrappers
  import opened Seqs
  import Storage

  /** One record of the `keywords` collection. */
  datatype Keyword = Keyword(keyword: string, category: string, status: string, createdAt: string, updatedAt: string)

  /** `k.get("status") == "active"`. */
  predicate IsActive(k: Keyword) {
    k.status == "active"
  }

  /** `any(k.get("keyword") == name for k in ks)`. */
  predicate HasName(ks: seq<Keyword>, name: string) {
    exists k :: k in ks && k.keyword == name
  }

  /** No two records share a name. */
  predicate NamesDistinct(ks: seq<Keyword>) {
    forall i, j :: 0 <= i < j < |ks| ==> ks[i].keyword != ks[j].keyword
  }

  /** Position of the first record named `name`, or `|ks|` when there is none. */
  function FirstNamed(ks: seq<Keyword>, name: string): (i: nat)
    ensures i <= |ks|
    ensures i < |ks| ==> ks[i].keyword == name
    ensures forall j :: 0 <= j < i ==> ks[j].keyword != name
    ensures i == |ks| <==> !HasName(ks, name)
  {
    FirstIndex(ks, (k: Keyword) => k.keyword == name)
  }

  /** The record `add_keyword` creates: active, created and updated at `stamp`. */
  function NewKeyword(name: string, category: string, stamp: string): Keyword {
    Keyword(name, category, "active", stamp, stamp)
  }

  /** The list `delete_keyword` writes: every record not named `name`, in order. */
  function WithoutName(ks: seq<Keyword>, name: string): (r: seq<Keyword>)
    ensures forall k :: k in r <==> k in ks && k.keyword != name
    ensures !HasName(r, name)
  {
    Filter(ks, (k: Keyword) => k.keyword != name)
  }

  /** The list `update_keyword_status` writes: only the first record named `name` gets the new status and stamp. */
  function StatusSet(ks: seq<Keyword>, name: string, status: string, stamp: string): (r: seq<Keyword>)
    ensures |r| == |ks|
    ensures forall j :: 0 <= j < |ks| && j != FirstNamed(ks, name) ==> r[j] == ks[j]
    ensures forall j :: 0 <= j < |ks| ==>
      r[j].keyword == ks[j].keyword && r[j].category == ks[j].category && r[j].createdAt == ks[j].createdAt
  {
    var i := FirstNamed(ks, name);
    if i < |ks| then ks[i := ks[i].(status := status, updatedAt := stamp)] else ks
  }

  class KeywordsManager {
    /** The list the registry's operations write back to the `keywords` collection. */
    var keywords: seq<Keyword>

    constructor ()
      ensures keywords == []
    {
      keywords := [];
    }

    /**
     * `add_keyword`: refuses a name that is already registered, otherwise
     * appends one active record at the end.
     */
    method AddKeyword(name: string, category: string, stamp: string) returns (ok: bool)
      modifies this
      ensures ok <==> !HasName(old(keywords), name)
      ensures ok ==> keywords == old(keywords) + [NewKeyword(name, category, stamp)]
      ensures !ok ==> keywords == old(keywords)
      ensures NamesDistinct(old(keywords)) ==> NamesDistinct(keywords)
    {
      if HasName(keywords, name) {
        return false;
      }
      AddKeepsDistinct(keywords, name, category, stamp);
      keywords := keywords + [NewKeyword(name, category, stamp)];
      ok := true;
    }

    /** `delete_keyword`: refuses an absent name, otherwise drops every record with that name. */
    method DeleteKeyword(name: string) returns (ok: bool)
      modifies this
      ensures ok <==> HasName(old(keywords), name)
      ensures ok ==> keywords == WithoutName(old(keywords), name)
      ensures !ok ==> keywords == old(keywords)
      ensures NamesDistinct(old(keywords)) ==> NamesDistinct(keywords)
    {
      if !HasName(keywords, name) {
        return false;
      }
      if NamesDistinct(keywords) {
        DeleteKeepsDistinct(keywords, name);
      }
      keywords := WithoutName(keywords, name);
      ok := true;
    }

    /**
     * `update_keyword_status`: walks the list, sets status and `updated_at` on
     * the first record with the name and stops; refuses an absent name
     * without saving.
     */
    method UpdateKeywordStatus(name: string, status: string, stamp: string) returns (ok: bool)
      modifies this
      ensures ok <==> HasName(old(keywords), name)
      ensures keywords == StatusSet(old(keywords), name, status, stamp)
      ensures NamesDistinct(old(keywords)) ==> NamesDistinct(keywords)
    {
      var ks := keywords;
      var updated := false;
      var i := 0;
      while i < |ks|
        invariant 0 <= i <= |ks| == |keywords|
        invariant !updated ==> ks == keywords
        invariant !updated ==> forall j :: 0 <= j < i ==> keywords[j].keyword != name
        invariant updated ==> i == FirstNamed(keywords, name) < |keywords|
        invariant updated ==> ks == StatusSet(keywords, name, status, stamp)
        decreases |ks| - i, !updated
      {
        if ks[i].keyword == name {
          ks := ks[i := ks[i].(status := status, updatedAt := stamp)];
          updated := true;
          break;
        }
        i := i + 1;
      }
      if !updated {
        return false;
      }
      StatusKeepsNames(keywords, name, status, stamp);
      keywords := ks;
      ok := true;
    }

    /** `get_all_keywords`: the stored list. */
    function GetAllKeywords(): (r: seq<Keyword>)
      reads this
      ensures r == keywords
    {
      keywords
    }

    /** `get_keyword_by_name`: the first record with the name, or None. */
    function GetKeywordByName(name: string): (r: Option<Keyword>)
      reads this
      ensures r.None? <==> !HasName(keywords, name)
      ensures r.Some? ==> r.value.keyword == name
      ensures r.Some? ==> exists i :: 0 <= i < |keywords| && keywords[i] == r.value
                                      && forall j :: 0 <= j < i ==> keywords[j].keyword != name
    {
      var i := FirstNamed(keywords, name);
      if i < |keywords| then Some(keywords[i]) else None
    }

    /** `get_keywords_by_category`: the records of one category, in stored order (a `Filter`, so `FilterConcat` fixes order and multiplicity). */
    function GetKeywordsByCategory(category: string): (r: seq<Keyword>)
      reads this
      ensures forall k :: k in r <==> k in keywords && k.category == category
    {
      Filter(keywords, (k: Keyword) => k.category == category)
    }

    /** `get_active_keywords`: the records whose status is "active", in stored order (a `Filter`, so `FilterConcat` fixes order and multiplicity). */
    function GetActiveKeywords(): (r: seq<Keyword>)
      reads this
      ensures forall k :: k in r <==> k in keywords && k.status == "active"
    {
      Filter(keywords, IsActive)
    }
  }

  /** Appending a name that is not yet registered keeps the names distinct. */
  lemma AddKeepsDistinct(ks: seq<Keyword>, name: string, category: string, stamp: string)
    requires !HasName(ks, name)
    ensures NamesDistinct(ks) ==> NamesDistinct(ks + [NewKeyword(name, category, stamp)])
  {
    var r := ks + [NewKeyword(name, category, stamp)];
    forall i | 0 <= i < |ks| ensures r[i].keyword != name {
      assert ks[i] in ks;
    }
  }

  /** Deleting by name keeps the remaining names distinct. */
  lemma DeleteKeepsDistinct(ks: seq<Keyword>, name: string)
    requires NamesDistinct(ks)
    ensures NamesDistinct(WithoutName(ks, name))
  {
    FilterKeepsDistinct(ks, (k: Keyword) => k.keyword != name, (k: Keyword) => k.keyword);
    var r := WithoutName(ks, name);
    assert DistinctBy(Filter(ks, (k: Keyword) => k.keyword != name), (k: Keyword) => k.keyword);
  }

  /** A status update never renames a record, so the names stay distinct. */
  lemma StatusKeepsNames(ks: seq<Keyword>, name: string, status: string, stamp: string)
    ensures NamesDistinct(ks) ==> NamesDistinct(StatusSet(ks, name, status, stamp))
  {
  }

  /** Right after a successful add the name is registered, so a second add of it is refused. */
  lemma SecondAddRefused(ks: seq<Keyword>, name: string, category: string, stamp: string)
    ensures HasName(ks + [NewKeyword(name, category, stamp)], name)
  {
    assert NewKeyword(name, category, stamp) in ks + [NewKeyword(name, category, stamp)];
  }

  /** With distinct names, a status update changes exactly the one record with the name, if any. */
  lemma StatusTouchesOnlyNamed(ks: seq<Keyword>, name: string, status: string, stamp: string, j: int)
    requires 0 <= j < |ks|
    ensures ks[j].keyword != name ==> StatusSet(ks, name, status, stamp)[j] == ks[j]
    ensures NamesDistinct(ks) && ks[j].keyword == name ==>
      StatusSet(ks, name, status, stamp)[j] == ks[j].(status := status, updatedAt := stamp)
  {
  }

  /** After a delete the name is gone, so deleting it again is refused. */
  lemma SecondDeleteRefused(ks: seq<Keyword>, name: string)
    ensures !HasName(WithoutName(ks, name), name)
  {
  }

  // ----- add_keyword as written: the list and the collection name are passed to save_json swapped -----

  /** The record `add_keyword` appends, as the stored JSON object. */
  function KeywordValue(name: string, category: string, stamp: string): Storage.Value {
    Storage.Dict(map["keyword" := Storage.Str(name), "category" := Storage.Str(category),
                     "status" := Storage.Str("active"), "created_at" := Storage.Str(stamp),
                     "updated_at" := Storage.Str(stamp)])
  }

  /** `any(k.get("keyword") == name for k in ...)` over the stored objects. */
  predicate StoredHasName(items: seq<Storage.Value>, name: string) {
    exists x :: x in items && x.Dict? && Storage.Get(x.fields, "keyword") == Storage.Str(name)
  }

  /**
   * Whether the name check and the append of `add_keyword` get through the
   * loaded document without raising: a missing collection loads as `[]`; a
   * stored non-list raises (on iteration, or at `append` for an empty dict or
   * string); in a list, `any` stops at the first item that is either not a
   * dict (`k.get` raises) or carries the name, so the check passes exactly
   * when every item is a dict and none carries the name.
   */
  predicate AddPasses(store: map<string, Storage.Value>, name: string) {
    var doc := if "keywords" in store then store["keywords"] else Storage.List([]);
    doc.List? && !Storage.HasNonDict(doc.items) && !StoredHasName(doc.items, name)
  }

  /**
   * `add_keyword` as written: it loads the `keywords` collection, refuses a
   * registered name, appends the new record and then calls
   * `save_json(keywords, "keywords")`, whose first parameter is the collection
   * name; any exception makes it return False. `render` is the text the list
   * turns into as a file name (a list's text starts with '['), and `accepted`
   * is whether the file system takes that name. Returns the verdict and the
   * store afterwards.
   */
  function AddKeywordAsWritten(store: map<string, Storage.Value>, name: string, category: string, stamp: string,
                               render: seq<Storage.Value> -> string, accepted: bool): (r: (bool, map<string, Storage.Value>))
    requires forall l :: |render(l)| > 0 && render(l)[0] == '['
    ensures r.0 <==> AddPasses(store, name) && accepted
    ensures "keywords" in store && !store["keywords"].List? ==> !r.0
    ensures "keywords" in store && store["keywords"].List? && Storage.HasNonDict(store["keywords"].items) ==> !r.0
    ensures "keywords" in r.1 <==> "keywords" in store
    ensures "keywords" in store ==> r.1["keywords"] == store["keywords"]
  {
    if !AddPasses(store, name) || !accepted then (false, store)
    else
      var loaded := if "keywords" in store then store["keywords"].items else [];
      var written := loaded + [KeywordValue(name, category, stamp)];
      Storage.SwappedSaveMissesCollection(store, render(written), "keywords");
      (true, Storage.SwappedSave(store, render(written), "keywords"))
  }

  /**
   * As written, adding the same new name twice is reported as a success both
   * times whenever the file system takes the stray file name: the first add
   * never reached the collection.
   */
  lemma AsWrittenDuplicateAccepted(store: map<string, Storage.Value>, name: string, category: string, stamp: string,
                                   render: seq<Storage.Value> -> string)
    requires forall l :: |render(l)| > 0 && render(l)[0] == '['
    requires "keywords" in store && store["keywords"] == Storage.List([])
    ensures AddKeywordAsWritten(store, name, category, stamp, render, true).0
    ensures AddKeywordAsWritten(AddKeywordAsWritten(store, name, category, stamp, render, true).1, name, category, stamp, render, true).0
  {
    var after := AddKeywordAsWritten(store, name, category, stamp, render, true).1;
    assert after["keywords"] == Storage.List([]);
  }
}
