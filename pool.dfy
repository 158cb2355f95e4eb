/**
 * ReactComponentPool: the display names of the React components that content
 * scripts report, grouped under a key that a page can switch. `_map` becomes the
 * field `groups` and `_key` the field `key`; a JavaScript array that the pool
 * pushes to or sorts in place is a sequence the methods reassign.
 *
 * `PoolState` and the functions over it specify the class; the lemmas state what
 * the pool guarantees across calls.
 */
module ComponentPool {
  import opened StringOrder

  /** The key a new pool starts with. */
  const DefaultKey: string := "default"

  predicate NoDuplicates(s: seq<string>)
  {
    forall i, j :: 0 <= i < j < |s| ==> s[i] != s[j]
  }

  /** The contents of a pool: every group by key, and the current key. */
  datatype PoolState = PoolState(groups: map<string, seq<string>>, key: string)

  /** No group holds a name twice. */
  predicate Deduplicated(p: PoolState)
  {
    forall k :: k in p.groups ==> NoDuplicates(p.groups[k])
  }

  /** A new pool: no group at all, not even the default one, and the default key. */
  function Initial(): PoolState
  {
    PoolState(map[], DefaultKey)
  }

  /** What the `impl` getter returns: the current group, empty until it is created. */
  function Current(p: PoolState): seq<string>
  {
    if p.key in p.groups then p.groups[p.key] else []
  }

  /** The pool after `add(c)`. */
  function Added(p: PoolState, c: string): (r: PoolState)
    ensures r.key == p.key
    ensures r.groups.Keys == p.groups.Keys + {p.key}
    ensures forall k :: k in p.groups && k != p.key ==> r.groups[k] == p.groups[k]
    ensures Current(p) <= r.groups[p.key] && |r.groups[p.key]| <= |Current(p)| + 1
    ensures forall d :: d in r.groups[p.key] <==> d in Current(p) || d == c
  {
    var g := Current(p);
    PoolState(p.groups[p.key := if c in g then g else g + [c]], p.key)
  }

  /** The pool after `setKey(k)`. */
  function WithKey(p: PoolState, k: string): (r: PoolState)
    ensures r.groups == p.groups && r.key == k
  {
    PoolState(p.groups, k)
  }

  /** What `all()` returns for the groups `g`: every group, its names in ascending order. */
  function Snapshot(g: map<string, seq<string>>): (r: map<string, seq<string>>)
    ensures r.Keys == g.Keys
    ensures forall k :: k in r ==> Sorted(r[k]) && multiset(r[k]) == multiset(g[k])
  {
    map k | k in g :: Sort(g[k])
  }

  /** `add` never puts a second copy of a name into a group. */
  lemma AddedDeduplicated(p: PoolState, c: string)
    requires Deduplicated(p)
    ensures Deduplicated(Added(p, c))
  {
    var g := Current(p);
    if c !in g {
      var h := g + [c];
      forall i, j | 0 <= i < j < |h| ensures h[i] != h[j] {
        if j == |g| {
          assert h[i] == g[i];
        }
      }
    }
  }

  /** Adding the same name twice in a row is the same as adding it once. */
  lemma AddedIdempotent(p: PoolState, c: string)
    ensures Added(Added(p, c), c) == Added(p, c)
  {
    var q := Added(p, c);
    assert c in Current(q);
    assert q.groups[q.key := Current(q)] == q.groups;
  }

  /**
   * A name reported while group `a` was current stays in `a` after the key is
   * switched to another group and more names are reported there.
   */
  lemma SwitchKeepsGroup(p: PoolState, a: string, b: string, c: string, d: string)
    requires a != b
    ensures Added(WithKey(Added(WithKey(p, a), c), b), d).groups[a] == Added(WithKey(p, a), c).groups[a]
    ensures c in Added(WithKey(Added(WithKey(p, a), c), b), d).groups[a]
  {
  }

  /** A group without duplicates still has none once it is sorted. */
  lemma {:induction false} NoDuplicatesMultiset(s: seq<string>)
    ensures NoDuplicates(s) <==> forall x :: multiset(s)[x] <= 1
    decreases |s|
  {
    if s != [] {
      var t := s[1..];
      NoDuplicatesMultiset(t);
      assert s == [s[0]] + t;
      assert multiset(s) == multiset{s[0]} + multiset(t);
      if NoDuplicates(s) {
        assert s[0] !in t;
        assert NoDuplicates(t) by {
          forall i, j | 0 <= i < j < |t| ensures t[i] != t[j] {
            assert t[i] == s[i + 1] && t[j] == s[j + 1];
          }
        }
      }
      if forall x :: multiset(s)[x] <= 1 {
        assert multiset(s)[s[0]] <= 1;
        assert s[0] !in multiset(t);
        assert forall x :: multiset(t)[x] <= multiset(s)[x];
        assert NoDuplicates(t);
        forall i, j | 0 <= i < j < |s| ensures s[i] != s[j] {
          if i == 0 {
            assert s[j] == t[j - 1];
            assert s[j] in t;
          } else {
            assert s[i] == t[i - 1] && s[j] == t[j - 1];
          }
        }
      }
    }
  }

  /** `all()` keeps every group free of duplicates. */
  lemma SnapshotDeduplicated(g: map<string, seq<string>>)
    requires forall k :: k in g ==> NoDuplicates(g[k])
    ensures forall k :: k in Snapshot(g) ==> NoDuplicates(Snapshot(g)[k])
  {
    forall k | k in g ensures NoDuplicates(Snapshot(g)[k]) {
      NoDuplicatesMultiset(g[k]);
      NoDuplicatesMultiset(Snapshot(g)[k]);
    }
  }

  /** `all()` a second time returns what the first call returned. */
  lemma SnapshotIdempotent(g: map<string, seq<string>>)
    ensures Snapshot(Snapshot(g)) == Snapshot(g)
  {
    forall k | k in g ensures Sort(Snapshot(g)[k]) == Snapshot(g)[k] {
      SortSorted(Snapshot(g)[k]);
    }
  }

  /** `all()` does not depend on the order in which the names of a group were reported. */
  lemma SnapshotOrderFree(g: map<string, seq<string>>, h: map<string, seq<string>>)
    requires g.Keys == h.Keys
    requires forall k :: k in g ==> multiset(g[k]) == multiset(h[k])
    ensures Snapshot(g) == Snapshot(h)
  {
    forall k | k in g ensures Snapshot(g)[k] == Snapshot(h)[k] {
      SortPermutation(g[k], h[k]);
    }
  }

  /**
   * Switching to "build-123" and reporting "Button", "Button" and "Modal" leaves one
   * group, "build-123" with ["Button", "Modal"]; the default group, never touched,
   * is absent.
   */
  lemma Build123Example()
    ensures Snapshot(Added(Added(Added(WithKey(Initial(), "build-123"), "Button"), "Button"), "Modal").groups)
         == map["build-123" := ["Button", "Modal"]]
  {
    Build123Groups();
    Build123Sorted();
  }

  lemma Build123Sorted()
    ensures Snapshot(map["build-123" := ["Button", "Modal"]]) == map["build-123" := ["Button", "Modal"]]
  {
    var g := map["build-123" := ["Button", "Modal"]];
    assert Below("Button", "Modal");
    SortSorted(["Button", "Modal"]);
    assert Snapshot(g)["build-123"] == ["Button", "Modal"];
  }

  lemma Build123Groups()
    ensures Added(Added(Added(WithKey(Initial(), "build-123"), "Button"), "Button"), "Modal").groups
         == map["build-123" := ["Button", "Modal"]]
  {
    var p0 := WithKey(Initial(), "build-123");
    assert p0.groups == map[] && Current(p0) == [];
    var p1 := Added(p0, "Button");
    assert [] + ["Button"] == ["Button"];
    assert p1.groups == map["build-123" := ["Button"]];
    AddedIdempotent(p0, "Button");
    assert Current(p1) == ["Button"];
    assert "Modal" !in ["Button"];
    assert ["Button"] + ["Modal"] == ["Button", "Modal"];
  }

  class ReactComponentPool {
    var groups: map<string, seq<string>>   // _map
    var key: string                         // _key

    function State(): PoolState
      reads this
    {
      PoolState(groups, key)
    }

    ghost predicate Valid()
      reads this
    {
      Deduplicated(State())
    }

    constructor ()
      ensures State() == Initial() && Valid()
    {
      groups := map[];
      key := DefaultKey;
    }

    /** The `impl` getter: creates the current group when it is missing, then returns it. */
    method Impl() returns (impl: seq<string>)
      modifies this`groups
      ensures impl == Current(old(State()))
      ensures groups == old(groups)[key := impl]
    {
      var k := key;
      if k !in groups {
        groups := groups[k := []];
      }
      impl := groups[k];
    }

    /** `add(component)`: append the name to the current group unless it is there already. */
    method Add(component: string)
      requires Valid()
      modifies this`groups
      ensures Valid()
      ensures State() == Added(old(State()), component)
    {
      AddedDeduplicated(State(), component);
      var impl := Impl();
      if component !in impl {
        groups := groups[key := impl + [component]];
      }
    }

    /** `setKey(key)`: later names go to group `k`; no group changes. */
    method SetKey(k: string)
      modifies this`key
      ensures State() == WithKey(old(State()), k)
    {
      key := k;
    }

    /**
     * `all()`: every group with its names in ascending order. The stored groups are
     * sorted in place, so afterwards the pool holds exactly what was returned.
     */
    method All() returns (res: map<string, seq<string>>)
      requires Valid()
      modifies this`groups
      ensures res == Snapshot(old(groups))
      ensures groups == res && Valid()
    {
      ghost var before := groups;
      ghost var target := Snapshot(before);
      res := map[];
      var todo := groups.Keys;
      while todo != {}
        invariant todo <= groups.Keys && groups.Keys == before.Keys
        invariant res.Keys == before.Keys - todo
        invariant forall k :: k in res ==> res[k] == target[k] && groups[k] == target[k]
        invariant forall k :: k in todo ==> groups[k] == before[k]
        decreases todo
      {
        var k :| k in todo;
        var sorted := Sort(groups[k]);
        assert sorted == target[k];
        groups := groups[k := sorted];
        res := res[k := sorted];
        todo := todo - {k};
      }
      assert res == target;
      SnapshotDeduplicated(before);
    }
  }
}
