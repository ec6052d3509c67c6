/**
 * Links built with `URLSearchParams`: the search string is kept as its ordered list of key/value
 * pairs. Its `application/x-www-form-urlencoded` text (section 5 of the WHATWG URL Standard) is an
 * injective rendering of that list, so two links are the same text exactly when their lists are
 * equal, and the text is empty exactly when the list is.
 */
module Query {
  import opened Common

  datatype Param = Param(key: string, value: string)

  /** `qs ? "/?" + qs : "/"`: the root path, or the root path with a non-empty search string. */
  datatype Link = Root | Search(params: seq<Param>)

  function Href(params: seq<Param>): (link: Link)
    ensures link == Root <==> params == []
    ensures link.Search? ==> link.params == params
  {
    if params == [] then Root else Search(params)
  }

  /** The pairs a link carries. */
  function ParamsOf(link: Link): seq<Param> {
    match link
    case Root => []
    case Search(ps) => ps
  }

  /** `URLSearchParams.get`: the value of the first pair with that key, or null. */
  function Get(params: seq<Param>, key: string): Option<string>
    decreases |params|
  {
    if params == [] then None
    else if params[0].key == key then Some(params[0].value)
    else Get(params[1..], key)
  }

  /** The keys, in order. */
  function Keys(params: seq<Param>): (ks: seq<string>)
    ensures |ks| == |params|
    ensures forall k :: 0 <= k < |params| ==> ks[k] == params[k].key
  {
    seq(|params|, k requires 0 <= k < |params| => params[k].key)
  }

  /** `params.set(key, value)` when the value is truthy, nothing otherwise. Every builder in the
      storefront sets each key at most once, so `set` appends. */
  function SetIf(params: seq<Param>, key: string, value: Option<string>): seq<Param> {
    if Truthy(value) then params + [Param(key, value.value)] else params
  }

  /** `Get` finds the first pair with the key, and nothing when no pair has it. */
  lemma {:induction false} GetFirst(params: seq<Param>, key: string)
    ensures Get(params, key).None? <==> key !in Keys(params)
    ensures Get(params, key).Some? ==>
      exists k :: 0 <= k < |params| && params[k] == Param(key, Get(params, key).value)
        && key !in Keys(params[..k])
    decreases |params|
  {
    if params != [] {
      GetFirst(params[1..], key);
      assert Keys(params) == [params[0].key] + Keys(params[1..]);
      if params[0].key != key && Get(params, key).Some? {
        var k :| 0 <= k < |params[1..]| && params[1..][k] == Param(key, Get(params, key).value)
          && key !in Keys(params[1..][..k]);
        assert Keys(params[..k + 1]) == [params[0].key] + Keys(params[1..][..k]);
        assert params[k + 1] == params[1..][k];
      } else if params[0].key == key {
        assert Keys(params[..0]) == [];
      }
    }
  }

  /** Reading a key back after a conditional `set`: the new pair answers only for its own key, and
      only when no earlier pair had that key. */
  lemma GetOfSetIf(params: seq<Param>, key: string, value: Option<string>, probe: string)
    requires key !in Keys(params)
    ensures Get(SetIf(params, key, value), probe) ==
      if probe == key && Truthy(value) then value else Get(params, probe)
  {
    GetFirst(params, probe);
    if Truthy(value) {
      GetOfAppend(params, Param(key, value.value), probe);
    }
  }

  lemma {:induction false} GetOfAppend(params: seq<Param>, p: Param, probe: string)
    ensures Get(params + [p], probe) ==
      if probe in Keys(params) then Get(params, probe) else if p.key == probe then Some(p.value) else None
    decreases |params|
  {
    if params == [] {
      assert Keys(params) == [];
    } else {
      assert (params + [p])[1..] == params[1..] + [p];
      GetOfAppend(params[1..], p, probe);
      assert Keys(params) == [params[0].key] + Keys(params[1..]);
    }
  }

  lemma KeysOfSetIf(params: seq<Param>, key: string, value: Option<string>)
    ensures Keys(SetIf(params, key, value)) == Keys(params) + (if Truthy(value) then [key] else [])
  {
  }

  /** One conditional `set` call of a builder: the key and the value it would set. */
  datatype Entry = Entry(key: string, value: Option<string>)

  /** A run of conditional `set` calls on a fresh `URLSearchParams`, in order. */
  function SetAll(entries: seq<Entry>): seq<Param>
    decreases |entries|
  {
    if entries == [] then []
    else
      var last := entries[|entries| - 1];
      SetIf(SetAll(entries[..|entries| - 1]), last.key, last.value)
  }

  /** The keys of the entries whose value is truthy, in order. */
  function SetKeys(entries: seq<Entry>): seq<string>
    decreases |entries|
  {
    if entries == [] then []
    else
      var last := entries[|entries| - 1];
      SetKeys(entries[..|entries| - 1]) + (if Truthy(last.value) then [last.key] else [])
  }

  predicate DistinctKeys(entries: seq<Entry>) {
    forall i, j :: 0 <= i < j < |entries| ==> entries[i].key != entries[j].key
  }

  /** The built list holds the keys of the truthy entries, in order, and no other key. */
  lemma {:induction false} SetAllKeys(entries: seq<Entry>)
    ensures Keys(SetAll(entries)) == SetKeys(entries)
    ensures forall x :: x in SetKeys(entries) ==> exists k :: 0 <= k < |entries| && entries[k].key == x
    decreases |entries|
  {
    if entries != [] {
      var n := |entries| - 1;
      var init, last := entries[..n], entries[n];
      SetAllKeys(init);
      KeysOfSetIf(SetAll(init), last.key, last.value);
      forall x | x in SetKeys(entries) ensures exists k :: 0 <= k < |entries| && entries[k].key == x {
        if x in SetKeys(init) {
          var k :| 0 <= k < |init| && init[k].key == x;
          assert entries[k].key == x;
        } else {
          assert entries[n].key == x;
        }
      }
    }
  }

  /** Reading a key back gives its entry's value when truthy and nothing otherwise, and nothing for
      a key no entry has. */
  lemma {:induction false} SetAllReadBack(entries: seq<Entry>, probe: string)
    requires DistinctKeys(entries)
    ensures forall k :: 0 <= k < |entries| && entries[k].key == probe ==>
      Get(SetAll(entries), probe) == if Truthy(entries[k].value) then entries[k].value else None
    ensures (forall k :: 0 <= k < |entries| ==> entries[k].key != probe) ==> Get(SetAll(entries), probe) == None
    decreases |entries|
  {
    if entries != [] {
      var n := |entries| - 1;
      var init, last := entries[..n], entries[n];
      assert DistinctKeys(init);
      SetAllReadBack(init, probe);
      SetAllKeys(init);
      assert forall k :: 0 <= k < |init| ==> init[k].key != last.key;
      GetOfSetIf(SetAll(init), last.key, last.value, probe);
      forall k | 0 <= k < |entries| && entries[k].key == probe
        ensures Get(SetAll(entries), probe) == if Truthy(entries[k].value) then entries[k].value else None
      {
        if k < n {
          assert init[k] == entries[k];
        }
      }
    }
  }

  /** The four query keys of the storefront are different strings. */
  lemma StorefrontKeysDistinct()
    ensures "category" != "brand" && "category" != "sort" && "category" != "page"
    ensures "brand" != "sort" && "brand" != "page" && "sort" != "page"
  {
    assert "category"[0] == 'c' && "brand"[0] == 'b' && "sort"[0] == 's' && "page"[0] == 'p';
  }

  /** `SetAllReadBack` for the entry at one position. */
  lemma SetAllGetAt(entries: seq<Entry>, k: int)
    requires DistinctKeys(entries)
    requires 0 <= k < |entries|
    ensures Get(SetAll(entries), entries[k].key) == if Truthy(entries[k].value) then entries[k].value else None
  {
    SetAllReadBack(entries, entries[k].key);
  }

  /** `SetAllReadBack` for a key no entry has. */
  lemma SetAllGetAbsent(entries: seq<Entry>, probe: string)
    requires DistinctKeys(entries)
    requires forall k :: 0 <= k < |entries| ==> entries[k].key != probe
    ensures Get(SetAll(entries), probe) == None
  {
    SetAllReadBack(entries, probe);
  }
}
