/** The hot/new tabs above a feed (components/SortTabs.tsx): the current
    order comes from the `sort` query parameter (default `new`), and each tab
    links to the same path with `sort` set, every other parameter kept. The
    query string is modelled as the ordered list of `URLSearchParams` pairs. */
module SortTabs {
  import opened Common

  type Params = seq<(string, string)>

  const SortKey: string := "sort"
  const DefaultSort: string := "new"

  /** `params.get(key)`: the first value under the key. */
  function Get(p: Params, key: string): (r: Option<string>)
    ensures r.None? <==> forall i :: 0 <= i < |p| ==> p[i].0 != key
  {
    if p == [] then None
    else if p[0].0 == key then Some(p[0].1)
    else Get(p[1..], key)
  }

  /** `params.set(key, value)`: the first entry under the key gets the new
      value, later ones are deleted, and the pair is appended when the key is
      absent. `found` says whether that first entry has been passed. */
  function SetFrom(p: Params, key: string, value: string, found: bool): Params
  {
    if p == [] then (if found then [] else [(key, value)])
    else if p[0].0 == key then
      (if found then [] else [(key, value)]) + SetFrom(p[1..], key, value, true)
    else [p[0]] + SetFrom(p[1..], key, value, found)
  }

  function Set(p: Params, key: string, value: string): Params {
    SetFrom(p, key, value, false)
  }

  /** The entries under other keys, in order. */
  function Others(p: Params, key: string): (r: Params)
    ensures forall i :: 0 <= i < |r| ==> r[i].0 != key
  {
    if p == [] then []
    else (if p[0].0 == key then [] else [p[0]]) + Others(p[1..], key)
  }

  function KeyCount(p: Params, key: string): nat
  {
    if p == [] then 0 else (if p[0].0 == key then 1 else 0) + KeyCount(p[1..], key)
  }

  /** After a set the key occurs exactly once (none left over when the first
      entry was already passed), and every other entry is kept in order. */
  lemma {:induction false} SetFromShape(p: Params, key: string, value: string, found: bool)
    ensures KeyCount(SetFrom(p, key, value, found), key) == if found then 0 else 1
    ensures Others(SetFrom(p, key, value, found), key) == Others(p, key)
    decreases |p|
  {
    if p != [] {
      SetFromShape(p[1..], key, value, if p[0].0 == key then true else found);
      var rest := SetFrom(p[1..], key, value, if p[0].0 == key then true else found);
      var head: Params := if p[0].0 == key then (if found then [] else [(key, value)]) else [p[0]];
      assert SetFrom(p, key, value, found) == head + rest;
      KeyCountAppend(head, rest, key);
      OthersAppend(head, rest, key);
    }
  }

  lemma {:induction false} KeyCountAppend(a: Params, b: Params, key: string)
    ensures KeyCount(a + b, key) == KeyCount(a, key) + KeyCount(b, key)
    decreases |a|
  {
    if a == [] {
      assert a + b == b;
    } else {
      assert (a + b)[1..] == a[1..] + b;
      KeyCountAppend(a[1..], b, key);
    }
  }

  lemma {:induction false} OthersAppend(a: Params, b: Params, key: string)
    ensures Others(a + b, key) == Others(a, key) + Others(b, key)
    decreases |a|
  {
    if a == [] {
      assert a + b == b;
    } else {
      assert (a + b)[1..] == a[1..] + b;
      OthersAppend(a[1..], b, key);
    }
  }

  /** Reading the key back gives the value just set. */
  lemma {:induction false} GetAfterSet(p: Params, key: string, value: string)
    ensures Get(Set(p, key, value), key) == Some(value)
    decreases |p|
  {
    if p != [] && p[0].0 != key {
      GetAfterSet(p[1..], key, value);
    }
  }

  /** A key other than the one set has its entries untouched. */
  lemma {:induction false} OthersKeepGet(p: Params, key: string, other: string)
    requires other != key
    ensures Get(Others(p, key), other) == Get(p, other)
    decreases |p|
  {
    if p != [] {
      OthersKeepGet(p[1..], key, other);
      var rest := Others(p[1..], key);
      if p[0].0 == key {
        assert Others(p, key) == rest;
      } else {
        assert Others(p, key) == [p[0]] + rest;
        assert ([p[0]] + rest)[1..] == rest;
      }
    }
  }

  /** Setting one parameter leaves every other parameter's value alone. */
  lemma SetKeepsOtherKeys(p: Params, key: string, value: string, other: string)
    requires other != key
    ensures Get(Set(p, key, value), other) == Get(p, other)
  {
    SetFromShape(p, key, value, false);
    OthersKeepGet(Set(p, key, value), key, other);
    OthersKeepGet(p, key, other);
  }

  /** Setting the same value twice is the same as setting it once. */
  lemma {:induction false} SetFromIdempotent(p: Params, key: string, value: string, found: bool)
    ensures SetFrom(SetFrom(p, key, value, found), key, value, found) == SetFrom(p, key, value, found)
    decreases |p|
  {
    if p == [] {
      if !found {
        assert [(key, value)][1..] == [];
        assert SetFrom([(key, value)], key, value, false) == [(key, value)] + SetFrom([], key, value, true);
        assert [(key, value)] + [] == [(key, value)];
      }
    } else if p[0].0 == key {
      SetFromIdempotent(p[1..], key, value, true);
      if !found {
        var q := [(key, value)] + SetFrom(p[1..], key, value, true);
        assert q[1..] == SetFrom(p[1..], key, value, true);
      } else {
        assert SetFrom(p, key, value, true) == SetFrom(p[1..], key, value, true);
      }
    } else {
      SetFromIdempotent(p[1..], key, value, found);
      var q := [p[0]] + SetFrom(p[1..], key, value, found);
      assert q[1..] == SetFrom(p[1..], key, value, found);
    }
  }

  /** `params.set` on an absent key appends the pair. */
  lemma {:induction false} SetAbsentAppends(p: Params, key: string, value: string)
    requires Get(p, key).None?
    ensures Set(p, key, value) == p + [(key, value)]
    decreases |p|
  {
    if p != [] {
      assert Get(p[1..], key).None?;
      SetAbsentAppends(p[1..], key, value);
      assert p + [(key, value)] == [p[0]] + (p[1..] + [(key, value)]);
    }
  }

  /** `params.toString()` without percent-encoding. */
  function Serialize(p: Params): string
  {
    Join(seq(|p|, i requires 0 <= i < |p| => p[i].0 + "=" + p[i].1), "&")
  }

  /** `searchParams.get('sort') || 'new'` */
  function CurrentSort(p: Params): (s: string)
    ensures Truthy(Get(p, SortKey)) ==> s == Get(p, SortKey).value
    ensures !Truthy(Get(p, SortKey)) ==> s == DefaultSort
  {
    var v := Get(p, SortKey);
    if Truthy(v) then v.value else DefaultSort
  }

  datatype SortType = Hot | New

  function SortName(t: SortType): (s: string)
    ensures t == Hot ==> s == "hot"
    ensures t == New ==> s == "new"
  {
    if t == Hot then "hot" else "new"
  }

  /** `createSortLink(type)`: the current path, then `?`, then the current
      parameters with `sort` set to the tab's order. */
  function SortLink(pathname: string, p: Params, t: SortType): (link: string)
    ensures StartsWith(link, pathname + "?")
    ensures link[|pathname| + 1..] == Serialize(Set(p, SortKey, SortName(t)))
  {
    pathname + "?" + Serialize(Set(p, SortKey, SortName(t)))
  }

  /** A tab is highlighted when the current order is its own. */
  function IsActive(p: Params, t: SortType): (active: bool)
    ensures active <==> CurrentSort(p) == SortName(t)
  {
    CurrentSort(p) == SortName(t)
  }

  /** At most one tab is highlighted; without a (non-empty) `sort`
      parameter it is "new"; an unknown order highlights neither. */
  lemma ActiveTabs(p: Params)
    ensures !(IsActive(p, Hot) && IsActive(p, New))
    ensures !Truthy(Get(p, SortKey)) ==> IsActive(p, New) && !IsActive(p, Hot)
    ensures Get(p, SortKey) == Some("top") ==> !IsActive(p, New) && !IsActive(p, Hot)
  {
    assert "hot" != "new";
  }

  /** Following a tab's link makes that tab the highlighted one and keeps
      every other parameter. */
  lemma LinkSelectsTab(p: Params, t: SortType, other: string)
    requires other != SortKey
    ensures IsActive(Set(p, SortKey, SortName(t)), t)
    ensures Get(Set(p, SortKey, SortName(t)), other) == Get(p, other)
  {
    GetAfterSet(p, SortKey, SortName(t));
    SetKeepsOtherKeys(p, SortKey, SortName(t), other);
  }

  /** From a URL without parameters the links are `{path}?sort=hot` and
      `{path}?sort=new`. */
  lemma LinksFromBarePath(pathname: string)
    ensures SortLink(pathname, [], Hot) == pathname + "?sort=hot"
    ensures SortLink(pathname, [], New) == pathname + "?sort=new"
  {
    assert Set([], SortKey, "hot") == [(SortKey, "hot")];
    assert Set([], SortKey, "new") == [(SortKey, "new")];
  }
}
