/** shared/feedplan: the parts of the home feed that touch no store. */
module FeedPlan {
  import opened Order

  /** A feed entry. The author is not read on any of the paths modelled here. */
  datatype Item = Item(id: string, createdAt: int)

  /** The last entry a client saw; the empty id means "start from the newest". */
  datatype Cursor = Cursor(t: int, id: string) {
    predicate IsSet() { id != "" }
  }

  function CursorOf(it: Item): Cursor { Cursor(it.createdAt, it.id) }

  /** Newest first; ties on time are broken by id. */
  predicate Newer(a: Item, b: Item) {
    a.createdAt > b.createdAt || (a.createdAt == b.createdAt && Less(b.id, a.id))
  }

  /** The test of Before: strictly older than the cursor. */
  predicate Older(it: Item, c: Cursor) {
    it.createdAt < c.t || (it.createdAt == c.t && Less(it.id, c.id))
  }

  ghost predicate Desc(s: seq<Item>) {
    forall i, j :: 0 <= i < j < |s| ==> Newer(s[i], s[j])
  }

  function Elems(s: seq<Item>): set<Item> { set x | x in s }

  /** Specification of Before: the sublist past the cursor. */
  function Past(s: seq<Item>, c: Cursor): seq<Item> {
    if s == [] then []
    else (if !c.IsSet() || Older(s[0], c) then [s[0]] else []) + Past(s[1..], c)
  }

  // ── order facts ──

  lemma NewerStrict(a: Item, b: Item)
    ensures !(Newer(a, b) && Newer(b, a))
  {
    Asymmetric(a.id, b.id);
  }

  lemma NewerTotal(a: Item, b: Item)
    ensures Newer(a, b) || Newer(b, a) || a == b
  {
    Trichotomy(a.id, b.id);
  }

  lemma NewerTransitive(a: Item, b: Item, c: Item)
    requires Newer(a, b) && Newer(b, c)
    ensures Newer(a, c)
  {
    if a.createdAt == b.createdAt == c.createdAt {
      Transitive(c.id, b.id, a.id);
    }
  }

  /** Being past the cursor of x is the same as coming after x in newest-first order. */
  lemma OlderIsNewer(x: Item, y: Item)
    ensures Older(y, CursorOf(x)) <==> Newer(x, y)
  {
  }

  /** A sorted sublist is never ahead of the list it is drawn from. */
  lemma {:induction false} RankAtLeast(s: seq<Item>, v: seq<Item>, j: nat, k: nat)
    requires Desc(s) && Desc(v) && j < |s| && k < |v| && s[j] == v[k]
    requires forall x :: x in s ==> x in v
    ensures j <= k
  {
    if j > 0 {
      assert s[j - 1] in v;
      var p :| 0 <= p < |v| && v[p] == s[j - 1];
      RankAtLeast(s, v, j - 1, p);
      NewerStrict(v[p], v[k]);
      assert Newer(s[j - 1], s[j]);
    }
  }

  /** Two sorted lists agree on their first n entries as soon as one holds the other's first n. */
  lemma SameWindow(m: seq<Item>, v: seq<Item>, n: nat)
    requires Desc(m) && Desc(v)
    requires forall x :: x in m ==> x in v
    requires forall i :: 0 <= i < n && i < |v| ==> v[i] in m
    ensures Take(m, n) == Take(v, n)
  {
    var top := Take(v, n);
    forall i | 0 <= i < |top|
      ensures i < |m| && m[i] == top[i]
    {
      assert v[i] in m;
      var l :| 0 <= l < |m| && m[l] == top[i];
      RankAtLeast(top, m, i, l);
      assert m[i] in v;
      var k :| 0 <= k < |v| && v[k] == m[i];
      RankAtLeast(m, v, i, k);
      if l > i {
        assert Newer(m[i], m[l]);
        NewerStrict(v[k], v[i]);
      }
    }
    if |top| > 0 {
      var last := |top| - 1;
      assert top[last] == v[last];
      assert last < |m|;
    }
    assert m[..|top|] == top;
    if |v| < n && |m| > |v| {
      assert m[|v|] in v;
      var k :| 0 <= k < |v| && v[k] == m[|v|];
      assert m[k] == top[k] == v[k];
      NewerStrict(m[k], m[|v|]);
      assert false;
    }
  }

  lemma SortedUnique(a: seq<Item>, b: seq<Item>)
    requires Desc(a) && Desc(b) && Elems(a) == Elems(b)
    ensures a == b
  {
    assert forall x :: x in a <==> x in Elems(a);
    assert forall x :: x in b <==> x in Elems(b);
    SameWindow(a, b, |a| + |b|);
  }

  /** What is past the cursor of a sorted list is one of its suffixes. */
  lemma {:induction false} PastIsSuffix(s: seq<Item>, c: Cursor) returns (k: nat)
    requires Desc(s)
    ensures k <= |s| && Past(s, c) == s[k..]
    ensures forall i :: 0 <= i < k ==> c.IsSet() && !Older(s[i], c)
    ensures forall i :: k <= i < |s| ==> !c.IsSet() || Older(s[i], c)
  {
    if s == [] {
      k := 0;
    } else {
      var r := PastIsSuffix(s[1..], c);
      if !c.IsSet() || Older(s[0], c) {
        if r > 0 {
          assert s[1..][0] == s[1] && Newer(s[0], s[1]);
          OlderThanOlder(s[0], s[1], c);
        }
        assert s == [s[0]] + s[1..];
        k := 0;
      } else {
        k := r + 1;
      }
    }
  }

  lemma {:induction false} PastAt(s: seq<Item>, c: Cursor, k: nat)
    requires k <= |s|
    requires forall i :: 0 <= i < |s| ==> (k <= i <==> !c.IsSet() || Older(s[i], c))
    ensures Past(s, c) == s[k..]
  {
    if s != [] {
      var t := s[1..];
      assert forall i :: 0 <= i < |t| ==> t[i] == s[i + 1];
      if k == 0 {
        PastAt(t, c, 0);
        assert s[0..] == s == [s[0]] + t;
      } else {
        PastAt(t, c, k - 1);
        assert s[k..] == t[k - 1..];
      }
    }
  }

  /** The entries past the cursor of an entry are those that follow it. */
  lemma {:induction false} CursorCuts(t: seq<Item>, p: nat)
    requires Desc(t) && p < |t| && t[p].id != ""
    ensures Past(t, CursorOf(t[p])) == t[p + 1..]
  {
    var c := CursorOf(t[p]);
    forall i | 0 <= i < |t| ensures p + 1 <= i <==> Older(t[i], c) {
      OlderIsNewer(t[p], t[i]);
      NewerStrict(t[p], t[i]);
    }
    PastAt(t, c, p + 1);
  }

  lemma OlderThanOlder(x: Item, y: Item, c: Cursor)
    requires Older(x, c) && Newer(x, y)
    ensures Older(y, c)
  {
    if x.createdAt == y.createdAt == c.t {
      Transitive(y.id, x.id, c.id);
    }
  }

  lemma {:induction false} PastElems(s: seq<Item>, c: Cursor, x: Item)
    ensures x in Past(s, c) <==> x in s && (!c.IsSet() || Older(x, c))
  {
    if s != [] {
      PastElems(s[1..], c, x);
      assert s == [s[0]] + s[1..];
    }
  }

  // ── Before ──

  /** Keeps the items past the cursor, in order. */
  method Before(items: seq<Item>, c: Cursor) returns (out: seq<Item>)
    ensures out == Past(items, c)
  {
    if !c.IsSet() {
      PastUnset(items, c);
      return items;
    }
    out := [];
    for i := 0 to |items|
      invariant out + Past(items[i..], c) == Past(items, c)
    {
      assert items[i..][1..] == items[i + 1..];
      if items[i].createdAt < c.t || (items[i].createdAt == c.t && Less(items[i].id, c.id)) {
        out := out + [items[i]];
      }
    }
  }

  lemma {:induction false} PastUnset(s: seq<Item>, c: Cursor)
    requires !c.IsSet()
    ensures Past(s, c) == s
  {
    if s != [] {
      PastUnset(s[1..], c);
    }
  }

  // ── Merge ──

  function Flatten<T>(lists: seq<seq<T>>): seq<T> {
    if lists == [] then [] else lists[0] + Flatten(lists[1..])
  }

  /** The first entry of every non-empty id not in seen, in list order. */
  function FirstSeen(s: seq<Item>, seen: set<string>): seq<Item> {
    if s == [] then []
    else if s[0].id == "" || s[0].id in seen then FirstSeen(s[1..], seen)
    else [s[0]] + FirstSeen(s[1..], seen + {s[0].id})
  }

  function Insert(x: Item, s: seq<Item>): seq<Item> {
    if s == [] || Newer(x, s[0]) then [x] + s else [s[0]] + Insert(x, s[1..])
  }

  /** The library sort, newest first. */
  function SortNewest(s: seq<Item>): seq<Item> {
    if s == [] then [] else Insert(s[0], SortNewest(s[1..]))
  }

  function Merged(lists: seq<seq<Item>>): seq<Item> {
    SortNewest(FirstSeen(Flatten(lists), {}))
  }

  lemma SkipOrTake(l: seq<Item>, j: nat, rest: seq<Item>, seen: set<string>)
    requires j < |l|
    ensures FirstSeen(l[j..] + rest, seen)
         == if l[j].id == "" || l[j].id in seen then FirstSeen(l[j + 1..] + rest, seen)
            else [l[j]] + FirstSeen(l[j + 1..] + rest, seen + {l[j].id})
  {
    assert (l[j..] + rest)[0] == l[j] && (l[j..] + rest)[1..] == l[j + 1..] + rest;
  }

  method Merge(limit: int, lists: seq<seq<Item>>) returns (all: seq<Item>)
    ensures all == if limit > 0 then Take(Merged(lists), limit) else Merged(lists)
  {
    var seen: set<string> := {};
    all := [];
    ghost var first := FirstSeen(Flatten(lists), {});
    for i := 0 to |lists|
      invariant all + FirstSeen(Flatten(lists[i..]), seen) == first
    {
      var l := lists[i];
      assert lists[i..][1..] == lists[i + 1..];
      ghost var rest := Flatten(lists[i + 1..]);
      assert l[0..] + rest == Flatten(lists[i..]);
      for j := 0 to |l|
        invariant all + FirstSeen(l[j..] + rest, seen) == first
      {
        SkipOrTake(l, j, rest, seen);
        if l[j].id == "" || l[j].id in seen {
          continue;
        }
        ghost var tail := FirstSeen(l[j + 1..] + rest, seen + {l[j].id});
        assert all + ([l[j]] + tail) == (all + [l[j]]) + tail;
        seen := seen + {l[j].id};
        all := all + [l[j]];
      }
      assert l[|l|..] + rest == rest;
    }
    assert lists[|lists|..] == [];
    assert all == all + FirstSeen([], seen) == first;
    all := SortNewest(all);
    if limit > 0 && |all| > limit {
      all := all[..limit];
    }
  }

  lemma {:induction false} InsertSorts(x: Item, s: seq<Item>)
    requires Desc(s) && x !in s
    ensures Desc(Insert(x, s)) && Elems(Insert(x, s)) == Elems(s) + {x}
    ensures |Insert(x, s)| == |s| + 1
  {
    if s == [] {
    } else if Newer(x, s[0]) {
      forall j | 0 <= j < |s| ensures Newer(x, s[j]) {
        if j > 0 {
          NewerTransitive(x, s[0], s[j]);
        }
      }
    } else {
      InsertSorts(x, s[1..]);
      var r := Insert(x, s[1..]);
      assert s[0] in s;
      NewerTotal(x, s[0]);
      forall j | 0 <= j < |r| ensures Newer(s[0], r[j]) {
        assert r[j] in Elems(r);
        assert r[j] == x || r[j] in s[1..];
      }
      assert Elems(s) == Elems(s[1..]) + {s[0]} by { assert s == [s[0]] + s[1..]; }
      assert Elems(Insert(x, s)) == Elems(r) + {s[0]};
    }
  }

  ghost predicate DistinctIds(s: seq<Item>) {
    forall i, j :: 0 <= i < j < |s| ==> s[i].id != s[j].id
  }

  lemma {:induction false} SortSorts(s: seq<Item>)
    requires DistinctIds(s)
    ensures Desc(SortNewest(s)) && Elems(SortNewest(s)) == Elems(s)
  {
    if s != [] {
      SortSorts(s[1..]);
      assert s[0] !in Elems(s[1..]);
      InsertSorts(s[0], SortNewest(s[1..]));
      assert s == [s[0]] + s[1..];
    }
  }

  lemma {:induction false} FirstSeenKeeps(s: seq<Item>, seen: set<string>)
    ensures DistinctIds(FirstSeen(s, seen))
    ensures forall x :: x in FirstSeen(s, seen) ==> x in s && x.id != "" && x.id !in seen
  {
    if s != [] {
      FirstSeenKeeps(s[1..], if s[0].id == "" || s[0].id in seen then seen else seen + {s[0].id});
      assert s == [s[0]] + s[1..];
    }
  }

  lemma {:induction false} FirstSeenCovers(s: seq<Item>, seen: set<string>, x: Item)
    requires x in s && x.id != "" && x.id !in seen
    ensures exists y :: y in FirstSeen(s, seen) && y.id == x.id
  {
    if s[0].id == "" || s[0].id in seen {
      FirstSeenCovers(s[1..], seen, x);
    } else if x.id == s[0].id {
      assert s[0] in FirstSeen(s, seen);
    } else {
      FirstSeenCovers(s[1..], seen + {s[0].id}, x);
      var y :| y in FirstSeen(s[1..], seen + {s[0].id}) && y.id == x.id;
      assert y in FirstSeen(s, seen);
    }
  }

  /** One creation time per post id across everything that is merged. */
  ghost predicate OneTime(s: set<Item>) {
    forall x, y :: x in s && y in s && x.id == y.id ==> x == y
  }

  lemma MergedElems(a: seq<Item>, b: seq<Item>, f: seq<Item>)
    requires f == FirstSeen(a + b, {})
    ensures Desc(Merged([a, b]))
    ensures forall x :: x in Merged([a, b]) <==> x in f
  {
    assert Flatten([a, b]) == a + b by {
      var one, none := [b], [a, b][2..];
      assert [a, b][1..] == one && one[1..] == none == [];
      assert Flatten(one) == b + Flatten(none) == b;
    }
    FirstSeenKeeps(a + b, {});
    SortSorts(f);
    var m := SortNewest(f);
    assert forall x :: x in m <==> x in Elems(m);
    assert forall x :: x in f <==> x in Elems(f);
  }

  /** Whatever the inputs, a merge is sorted and holds every non-empty id exactly once. */
  lemma {:induction false} MergeKeepsIds(a: seq<Item>, b: seq<Item>)
    ensures Desc(Merged([a, b]))
    ensures forall x :: x in Merged([a, b]) ==> (x in a || x in b) && x.id != ""
    ensures forall x :: (x in a || x in b) && x.id != "" ==> exists y :: y in Merged([a, b]) && y.id == x.id
    ensures DistinctIds(Merged([a, b]))
  {
    var f := FirstSeen(a + b, {});
    FirstSeenKeeps(a + b, {});
    MergedElems(a, b, f);
    var m := Merged([a, b]);
    forall x | (x in a || x in b) && x.id != ""
      ensures exists y :: y in m && y.id == x.id
    {
      FirstSeenCovers(a + b, {}, x);
      var y :| y in f && y.id == x.id;
      assert y in m;
    }
    forall i, j | 0 <= i < j < |m| ensures m[i].id != m[j].id {
      assert m[i] in f && m[j] in f;
      NewerStrict(m[i], m[j]);
    }
  }

  /** When the sources agree on creation times, a merge is their sorted union. */
  lemma {:induction false} MergeIsUnion(a: seq<Item>, b: seq<Item>)
    requires OneTime(Elems(a) + Elems(b))
    ensures Desc(Merged([a, b]))
    ensures forall x :: x in Merged([a, b]) <==> (x in a || x in b) && x.id != ""
  {
    MergeKeepsIds(a, b);
    forall x | (x in a || x in b) && x.id != "" ensures x in Merged([a, b]) {
      var y :| y in Merged([a, b]) && y.id == x.id;
      assert x in Elems(a) + Elems(b) && y in Elems(a) + Elems(b);
    }
  }

  // ── Batches, Decide ──

  /** Consecutive chunks of at most size ids: nobody is left out and nobody is listed twice. */
  method Batches(ids: seq<string>, size: int) returns (out: seq<seq<string>>)
    ensures Flatten(out) == ids
    ensures forall b :: b in out ==> 0 < |b| <= (if size <= 0 then 1 else size)
  {
    var n := if size <= 0 then 1 else size;
    out := [];
    var start := 0;
    while start < |ids|
      invariant 0 <= start
      invariant start <= |ids| ==> Flatten(out) == ids[..start]
      invariant start > |ids| ==> Flatten(out) == ids
      invariant forall b :: b in out ==> 0 < |b| <= n
    {
      var end := start + n;
      if end > |ids| {
        end := |ids|;
      }
      FlattenSnoc(out, ids[start..end]);
      out := out + [ids[start..end]];
      assert ids[..start] + ids[start..end] == ids[..end];
      assert ids[..|ids|] == ids;
      start := start + n;
    }
    assert ids[..|ids|] == ids;
  }

  lemma {:induction false} FlattenSnoc<T>(lists: seq<seq<T>>, l: seq<T>)
    ensures Flatten(lists + [l]) == Flatten(lists) + l
  {
    if lists == [] {
      assert [l][1..] == [];
    } else {
      FlattenSnoc(lists[1..], l);
      assert (lists + [l])[1..] == lists[1..] + [l];
    }
  }

  datatype Mode = Push | Pull

  const DEFAULT_CELEBRITY_THRESHOLD := 5000
  const DEFAULT_BATCH_SIZE := 500
  const DEFAULT_MAX_FEED_LEN := 500

  datatype Policy = Policy(celebrityThreshold: int, batchSize: int, maxFeedLen: int) {
    /** A set value stays, an unset one gets its default. */
    function Defaults(): (d: Policy)
      ensures d.celebrityThreshold > 0 && d.batchSize > 0 && d.maxFeedLen > 0
      ensures celebrityThreshold > 0 ==> d.celebrityThreshold == celebrityThreshold
      ensures batchSize > 0 ==> d.batchSize == batchSize
      ensures maxFeedLen > 0 ==> d.maxFeedLen == maxFeedLen
      ensures celebrityThreshold <= 0 && batchSize <= 0 && maxFeedLen <= 0 ==> d == Policy(5000, 500, 500)
    {
      Policy(
        if celebrityThreshold <= 0 then DEFAULT_CELEBRITY_THRESHOLD else celebrityThreshold,
        if batchSize <= 0 then DEFAULT_BATCH_SIZE else batchSize,
        if maxFeedLen <= 0 then DEFAULT_MAX_FEED_LEN else maxFeedLen)
    }

    function Decide(followers: int): Mode {
      if followers > Defaults().celebrityThreshold then Pull else Push
    }
  }
}
