/** services/post/service/feed.go: reading the hybrid home feed page by page. */
module HomeFeed {
  import opened Order
  import opened FeedPlan
  import FeedStore

  datatype Post = Post(id: string, author: string, createdAt: int, message: string)

  /** What one request reads: the reader's sorted set, the live rows of the posts table by id, and
      the keyset query's answer order over the live posts of followed pull-mode authors. */
  datatype World = World(pushed: seq<Item>, posts: map<string, Post>, celebs: set<string>, pulled: seq<Item>)

  function ItemOf(p: Post): Item { Item(p.id, p.createdAt) }

  ghost predicate Valid(w: World) {
    && FeedStore.ZSet(w.pushed)
    && Desc(w.pulled)
    && (forall it :: it in w.pushed ==> it.id != "")
    && (forall id :: id in w.posts ==> id != "" && w.posts[id].id == id)
    && (forall it :: it in w.pulled <==> it.id in w.posts && w.posts[it.id].author in w.celebs && it == ItemOf(w.posts[it.id]))
    && OneTime(Elems(w.pushed) + Elems(w.pulled))
  }

  /** The specification: one sorted list without duplicates. */
  function Timeline(w: World): seq<Item> { Merged([w.pushed, w.pulled]) }

  /** The rows still live among items, in order. */
  function Show(items: seq<Item>, posts: map<string, Post>): seq<Post> {
    if items == [] then []
    else (if items[0].id in posts then [posts[items[0].id]] else []) + Show(items[1..], posts)
  }

  /** next is unset on the last page. */
  datatype Page = Page(posts: seq<Post>, next: Cursor)

  const NO_CURSOR := Cursor(0, "")

  function PageSpec(w: World, cur: Cursor, limit: nat): Page {
    var rest := Past(Timeline(w), cur);
    Page(Show(Take(rest, limit), w.posts),
         if 0 < limit < |rest| then CursorOf(rest[limit - 1]) else NO_CURSOR)
  }

  /** pagecursor.Limit(limit, 20, 100) */
  function PageLimit(requested: int): (n: nat)
    ensures 1 <= n <= 100 && (1 <= requested <= 100 ==> n == requested) && (requested <= 0 ==> n == 20) && (requested > 100 ==> n == 100)
  {
    if requested <= 0 then 20 else if requested > 100 then 100 else requested
  }

  // ── the request ──

  /** The live posts among ids in the order of ids; one listed twice comes once. */
  function LiveOnce(ids: seq<string>, posts: map<string, Post>): seq<Post> {
    if ids == [] then []
    else
      var before, last := ids[..|ids| - 1], ids[|ids| - 1];
      LiveOnce(before, posts) + (if last in posts && last !in before then [posts[last]] else [])
  }

  /** x is listed before the first y. */
  predicate Earlier(ids: seq<string>, x: string, y: string) {
    exists a :: 0 <= a < |ids| && ids[a] == x && y !in ids[..a + 1]
  }

  /** The posts come in the order in which the ids list them first. */
  ghost predicate InOrder(ids: seq<string>, out: seq<Post>) {
    forall i, j :: 0 <= i < j < |out| ==> Earlier(ids, out[i].id, out[j].id)
  }

  lemma OneMoreInOrder(ids: seq<string>, last: string, r: seq<Post>, all: seq<Post>)
    requires InOrder(ids, r) && forall i :: 0 <= i < |r| ==> r[i].id in ids
    requires all == r || (r <= all && |all| == |r| + 1 && all[|r|].id == last && last !in ids)
    ensures InOrder(ids + [last], all)
  {
    forall i, j | 0 <= i < j < |all| ensures Earlier(ids + [last], all[i].id, all[j].id) {
      assert all[i] == r[i];
      if j < |r| {
        assert all[j] == r[j];
        EarlierStays(ids, last, r[i].id, r[j].id);
      } else {
        var a :| 0 <= a < |ids| && ids[a] == r[i].id;
        assert (ids + [last])[..a + 1] == ids[..a + 1];
        assert (ids + [last])[a] == r[i].id && last !in (ids + [last])[..a + 1];
      }
    }
  }

  lemma EarlierStays(ids: seq<string>, last: string, x: string, y: string)
    requires Earlier(ids, x, y)
    ensures Earlier(ids + [last], x, y)
  {
    var a :| 0 <= a < |ids| && ids[a] == x && y !in ids[..a + 1];
    assert (ids + [last])[..a + 1] == ids[..a + 1];
  }

  lemma {:induction false} LiveOnceIsExact(ids: seq<string>, posts: map<string, Post>)
    requires forall id :: id in posts ==> posts[id].id == id
    ensures forall p :: p in LiveOnce(ids, posts) <==> p.id in ids && p.id in posts && p == posts[p.id]
    ensures DistinctPosts(LiveOnce(ids, posts))
    ensures InOrder(ids, LiveOnce(ids, posts))
  {
    if ids != [] {
      var before := ids[..|ids| - 1];
      LiveOnceIsExact(before, posts);
      assert ids == before + [ids[|ids| - 1]];
      var r := LiveOnce(before, posts);
      forall i | 0 <= i < |r| ensures r[i].id in before {
        assert r[i] in r;
      }
      OneMoreInOrder(before, ids[|ids| - 1], r, LiveOnce(ids, posts));
    }
  }

  method LivePostsByID(posts: map<string, Post>, ids: seq<string>) returns (out: seq<Post>)
    ensures out == LiveOnce(ids, posts)
  {
    var byID := map id | id in posts && id in ids :: posts[id];
    out := [];
    for i := 0 to |ids|
      invariant out == LiveOnce(ids[..i], posts)
      invariant byID == map id | id in posts && id in ids && id !in ids[..i] :: posts[id]
    {
      assert ids[..i + 1][..i] == ids[..i] && ids[..i + 1] == ids[..i] + [ids[i]];
      if ids[i] in byID {
        out := out + [byID[ids[i]]];
        byID := byID - {ids[i]};
      }
    }
    assert ids[..|ids|] == ids;
  }

  lemma SameCut<T>(a: seq<T>, b: seq<T>, limit: nat)
    requires Take(a, limit + 1) == Take(b, limit + 1)
    ensures Take(a, limit) == Take(b, limit) && (|a| > limit <==> |b| > limit)
    ensures 0 < limit < |a| ==> a[limit - 1] == b[limit - 1]
  {
    var x, y := Take(a, limit + 1), Take(b, limit + 1);
    assert Take(x, limit) == Take(a, limit) && Take(y, limit) == Take(b, limit);
    if 0 < limit < |a| {
      assert a[limit - 1] == x[limit - 1] && b[limit - 1] == y[limit - 1];
    }
  }

  /** The keyset query over followed pull-mode authors, and its rows by id. */
  method Pull(w: World, cur: Cursor, n: nat) returns (byID: map<string, Post>, pulled: seq<Item>)
    requires Valid(w)
    ensures pulled == Take(Past(w.pulled, cur), n)
    ensures forall id :: id in byID ==> id in w.posts && byID[id] == w.posts[id]
  {
    byID, pulled := map[], [];
    if w.celebs != {} {
      var rows := Take(Past(w.pulled, cur), n);
      PastAll(w.pulled, cur);
      for i := 0 to |rows|
        invariant pulled == rows[..i]
        invariant forall id :: id in byID ==> id in w.posts && byID[id] == w.posts[id]
      {
        assert rows[i] in w.pulled;
        var p := w.posts[rows[i].id];
        byID := byID[p.id := p];
        pulled := pulled + [ItemOf(p)];
      }
    } else {
      assert forall it :: it !in w.pulled;
      assert Take(Past(w.pulled, cur), n) == [] by { PastAll(w.pulled, cur); }
    }
  }

  /** The ids whose posts the celebrity scan did not bring along. */
  method Missing(merged: seq<Item>, cached: map<string, Post>) returns (need: seq<string>)
    requires DistinctIds(merged)
    ensures forall j :: 0 <= j < |merged| ==> merged[j].id in cached || merged[j].id in need
    ensures forall a, b :: 0 <= a < b < |need| ==> need[a] != need[b]
  {
    need := [];
    ghost var from: seq<nat> := [];
    for i := 0 to |merged|
      invariant |from| == |need| && forall a :: 0 <= a < |need| ==> from[a] < i && merged[from[a]].id == need[a]
      invariant forall j :: 0 <= j < i ==> merged[j].id in cached || merged[j].id in need
      invariant forall a, b :: 0 <= a < b < |need| ==> need[a] != need[b]
    {
      if merged[i].id !in cached {
        assert forall a :: 0 <= a < |need| ==> need[a] != merged[i].id;
        ghost var was := need;
        need, from := need + [merged[i].id], from + [i];
        assert forall id :: id in was ==> id in need;
        assert need[|was|] == merged[i].id;
      }
    }
  }

  method AddAll(ghost posts: map<string, Post>, cached: map<string, Post>, loaded: seq<Post>) returns (byID: map<string, Post>)
    requires forall id :: id in cached ==> id in posts && cached[id] == posts[id]
    requires forall p :: p in loaded ==> p.id in posts && p == posts[p.id]
    ensures forall id :: id in byID ==> id in posts && byID[id] == posts[id]
    ensures (forall id :: id in cached ==> id in byID) && forall p :: p in loaded ==> p.id in byID
  {
    byID := cached;
    for i := 0 to |loaded|
      invariant forall id :: id in byID ==> id in posts && byID[id] == posts[id]
      invariant forall id :: id in cached ==> id in byID
      invariant forall j :: 0 <= j < i ==> loaded[j].id in byID
    {
      assert loaded[i] in loaded;
      byID := byID[loaded[i].id := loaded[i]];
    }
  }

  /** Loads the rows the page still misses, in one query, and lays the page out. */
  method Assemble(posts: map<string, Post>, cached: map<string, Post>, merged: seq<Item>) returns (out: seq<Post>)
    requires DistinctIds(merged)
    requires forall id :: id in posts ==> posts[id].id == id
    requires forall id :: id in cached ==> id in posts && cached[id] == posts[id]
    ensures out == Show(merged, posts)
  {
    var need := Missing(merged, cached);
    var loaded := LivePostsByID(posts, need);
    LiveOnceIsExact(need, posts);
    hide LiveOnce, DistinctPosts;
    var byID := AddAll(posts, cached, loaded);
    forall j | 0 <= j < |merged| && merged[j].id in posts ensures merged[j].id in byID {
      if merged[j].id !in cached {
        assert posts[merged[j].id] in loaded;
      }
    }
    out := LayOut(posts, byID, merged);
  }

  method LayOut(ghost posts: map<string, Post>, byID: map<string, Post>, merged: seq<Item>) returns (out: seq<Post>)
    requires forall id :: id in byID ==> id in posts && byID[id] == posts[id]
    requires forall j :: 0 <= j < |merged| && merged[j].id in posts ==> merged[j].id in byID
    ensures out == Show(merged, posts)
  {
    out := [];
    for i := 0 to |merged|
      invariant out + Show(merged[i..], posts) == Show(merged, posts)
    {
      assert merged[i..][1..] == merged[i + 1..];
      if merged[i].id in byID {
        assert out + ([posts[merged[i].id]] + Show(merged[i + 1..], posts)) == (out + [posts[merged[i].id]]) + Show(merged[i + 1..], posts);
        out := out + [byID[merged[i].id]];
      }
    }
  }

  /** The request. The feed is read by two commands, so atCount is the feed as the first found it; the
      rest is read from w. The page is always the specified page over the feed entries fetched, and
      the specified page of w itself whenever the count was enough, as it is when no tied entry came
      in between. */
  method GetHomeFeed(atCount: seq<Item>, w: World, requested: int, cur: Cursor) returns (page: Page)
    requires Valid(w)
    ensures page == PageSpec(w.(pushed := FetchedOf(atCount, w, requested, cur)), cur, PageLimit(requested))
    ensures FeedStore.Enough(w.pushed, cur, PageLimit(requested) + 1, FeedStore.Counted(atCount, cur)) ==> page == PageSpec(w, cur, PageLimit(requested))
    ensures atCount == w.pushed ==> page == PageSpec(w, cur, PageLimit(requested))
  {
    var limit := PageLimit(requested);
    var pushed := FeedStore.FeedItems(atCount, w.pushed, cur, limit + 1);
    assert pushed == FetchedOf(atCount, w, requested, cur);
    ghost var read := w.(pushed := pushed);
    FetchedSorted(atCount, w, requested, cur);
    FetchedIsValid(w, pushed, cur, limit + 1);
    hide FeedStore.Enough, FeedStore.Fetched, FeedStore.Counted, PageSpec, Valid, Past, Desc, FetchedOf, Show, Older, Timeline;
    var byID, pulled := Pull(w, cur, limit + 1);
    var all := Merge(0, [pushed, pulled]);
    var merged := Before(all, cur);
    WindowsMakeThePage(read, cur, limit, merged);
    CountDecides(atCount, w, requested, cur, merged);
    var next := NO_CURSOR;
    if |merged| > limit {
      next := CursorOf(merged[limit - 1]);
      merged := merged[..limit];
    }
    var posts := Assemble(w.posts, byID, merged);
    page := Page(posts, next);
  }

  /** The feed entries the request fetches. */
  function FetchedOf(atCount: seq<Item>, w: World, requested: int, cur: Cursor): seq<Item> {
    FeedStore.Fetched(w.pushed, cur, PageLimit(requested) + 1, FeedStore.Counted(atCount, cur))
  }

  lemma FetchedSorted(atCount: seq<Item>, w: World, requested: int, cur: Cursor)
    requires Valid(w)
    ensures Desc(FetchedOf(atCount, w, requested, cur))
  {
    FeedStore.PastOfWindow(w.pushed, cur, PageLimit(requested) + 1 + FeedStore.Counted(atCount, cur));
    PastSorted(w.pushed, cur);
  }

  lemma FetchedIsValid(w: World, pushed: seq<Item>, cur: Cursor, n: nat)
    requires Valid(w) && |pushed| <= n && forall x :: x in pushed ==> x in w.pushed && (cur.IsSet() ==> Older(x, cur))
    requires Desc(pushed)
    ensures Valid(w.(pushed := pushed)) && Take(Past(pushed, cur), n) == pushed
  {
    PastAt(pushed, cur, 0);
    forall i, j | 0 <= i < j < |pushed| ensures pushed[i].id != pushed[j].id {
      assert pushed[i] in w.pushed && pushed[j] in w.pushed;
      NewerStrict(pushed[i], pushed[j]);
    }
    assert Elems(pushed) <= Elems(w.pushed);
  }

  /** When the count was enough the fetched entries make the same page as the feed. */
  lemma CountDecides(atCount: seq<Item>, w: World, requested: int, cur: Cursor, merged: seq<Item>)
    requires Valid(w)
    requires var n, pushed := PageLimit(requested) + 1, FetchedOf(atCount, w, requested, cur);
      merged == Past(Merged([pushed, Take(Past(w.pulled, cur), n)]), cur)
    ensures FeedStore.Enough(w.pushed, cur, PageLimit(requested) + 1, FeedStore.Counted(atCount, cur)) ==>
      PageSpec(w, cur, PageLimit(requested)) == Page(Show(Take(merged, PageLimit(requested)), w.posts),
        if |merged| > PageLimit(requested) then CursorOf(merged[PageLimit(requested) - 1]) else NO_CURSOR)
    ensures atCount == w.pushed ==> FeedStore.Enough(w.pushed, cur, PageLimit(requested) + 1, FeedStore.Counted(atCount, cur))
  {
    var n := PageLimit(requested) + 1;
    FeedStore.ExactIff(w.pushed, cur, n, FeedStore.Counted(atCount, cur));
    FeedStore.FeedItemsExact(w.pushed, cur, n);
    hide FeedStore.Enough, FeedStore.Fetched, PageSpec;
    if FeedStore.Enough(w.pushed, cur, n, FeedStore.Counted(atCount, cur)) {
      WindowsMakeThePage(w, cur, PageLimit(requested), merged);
    }
  }

  lemma PastAll(s: seq<Item>, c: Cursor)
    ensures forall x :: x in Past(s, c) <==> x in s && (!c.IsSet() || Older(x, c))
  {
    forall x ensures x in Past(s, c) <==> x in s && (!c.IsSet() || Older(x, c)) {
      PastElems(s, c, x);
    }
  }

  lemma PastSorted(s: seq<Item>, c: Cursor)
    requires Desc(s)
    ensures Desc(Past(s, c))
  {
    var _ := PastIsSuffix(s, c);
  }

  lemma TimelineDistinct(w: World, cur: Cursor, limit: nat)
    requires Valid(w)
    ensures DistinctIds(Past(Timeline(w), cur))
    ensures forall x :: x in Past(Timeline(w), cur) ==> x.id != ""
  {
    MergeKeepsIds(w.pushed, w.pulled);
    var k := PastIsSuffix(Timeline(w), cur);
  }

  /** An entry among the first n of the union is among the first n of every source holding it. */
  lemma InSourceWindow(src: seq<Item>, v: seq<Item>, n: nat, i: nat)
    requires Desc(src) && Desc(v) && i < n && i < |v| && v[i] in src
    requires forall x :: x in src ==> x in v
    ensures v[i] in Take(src, n)
  {
    var j :| 0 <= j < |src| && src[j] == v[i];
    RankAtLeast(src, v, j, i);
    assert Take(src, n)[j] == v[i];
  }

  /** Merging each source's own first n entries past the cursor gives the first n of the union:
      the merge cannot miss or repeat one. */
  lemma {:induction false} WindowsSuffice(w: World, cur: Cursor, n: nat)
    requires Valid(w)
    ensures Take(Past(Merged([Take(Past(w.pushed, cur), n), Take(Past(w.pulled, cur), n)]), cur), n)
         == Take(Past(Timeline(w), cur), n)
  {
    var pa, pb := Past(w.pushed, cur), Past(w.pulled, cur);
    var a, b := Take(pa, n), Take(pb, n);
    PastAll(w.pushed, cur);
    PastAll(w.pulled, cur);
    PastSorted(w.pushed, cur);
    PastSorted(w.pulled, cur);
    MergeIsUnion(w.pushed, w.pulled);
    assert Elems(a) + Elems(b) <= Elems(w.pushed) + Elems(w.pulled);
    MergeIsUnion(a, b);
    var m, v := Past(Merged([a, b]), cur), Past(Timeline(w), cur);
    PastAll(Merged([a, b]), cur);
    PastAll(Timeline(w), cur);
    PastSorted(Merged([a, b]), cur);
    PastSorted(Timeline(w), cur);
    forall i | 0 <= i < n && i < |v| ensures v[i] in m {
      assert v[i] in v;
      if v[i] in pa {
        InSourceWindow(pa, v, n, i);
      } else {
        InSourceWindow(pb, v, n, i);
      }
    }
    SameWindow(m, v, n);
  }

  lemma WindowsMakeThePage(w: World, cur: Cursor, limit: nat, merged: seq<Item>)
    requires Valid(w) && limit > 0
    requires merged == Past(Merged([Take(Past(w.pushed, cur), limit + 1), Take(Past(w.pulled, cur), limit + 1)]), cur)
    ensures PageSpec(w, cur, limit)
         == Page(Show(Take(merged, limit), w.posts), if |merged| > limit then CursorOf(merged[limit - 1]) else NO_CURSOR)
    ensures DistinctIds(Take(merged, limit))
  {
    WindowsSuffice(w, cur, limit + 1);
    SameCut(merged, Past(Timeline(w), cur), limit);
    TimelineDistinct(w, cur, limit);
  }

  // ── following NextCursor to the end ──

  /** The posts a client collects: page i is answered by worlds[i]. */
  function Scroll(worlds: seq<World>, cur: Cursor, limit: nat): seq<Post>
    requires worlds != []
  {
    var page := PageSpec(worlds[0], cur, limit);
    page.posts + if page.next.IsSet() && |worlds| > 1 then Scroll(worlds[1..], page.next, limit) else []
  }

  /** The client reached a page without a next cursor. */
  predicate Finished(worlds: seq<World>, cur: Cursor, limit: nat)
    requires worlds != []
  {
    var next := PageSpec(worlds[0], cur, limit).next;
    next.IsSet() ==> |worlds| > 1 && Finished(worlds[1..], next, limit)
  }

  /** Nothing older than the cursor changed between two pages. */
  ghost predicate SamePast(w: World, w': World, cur: Cursor) {
    && Past(Timeline(w'), cur) == Past(Timeline(w), cur)
    && forall x :: x in Past(Timeline(w), cur) ==>
         (x.id in w'.posts <==> x.id in w.posts) && (x.id in w.posts ==> w'.posts[x.id] == w.posts[x.id])
  }

  ghost predicate StableRun(worlds: seq<World>, cur: Cursor, limit: nat)
    requires worlds != []
  {
    var next := PageSpec(worlds[0], cur, limit).next;
    && Valid(worlds[0])
    && (next.IsSet() && |worlds| > 1 ==> SamePast(worlds[0], worlds[1], next) && StableRun(worlds[1..], next, limit))
  }

  lemma {:induction false} NextResumes(w: World, cur: Cursor, limit: nat)
    requires Valid(w) && limit >= 1
    ensures PageSpec(w, cur, limit).next.IsSet() <==> |Past(Timeline(w), cur)| > limit
    ensures PageSpec(w, cur, limit).next.IsSet()
        ==> Past(Timeline(w), PageSpec(w, cur, limit).next) == Past(Timeline(w), cur)[limit..]
  {
    var t, rest := Timeline(w), Past(Timeline(w), cur);
    MergeKeepsIds(w.pushed, w.pulled);
    var k := PastIsSuffix(t, cur);
    if |rest| > limit {
      assert rest[limit - 1] == t[k + limit - 1];
      assert t[k + limit - 1] in t;
      CursorCuts(t, k + limit - 1);
    }
  }

  lemma {:induction false} ShowAppend(a: seq<Item>, b: seq<Item>, posts: map<string, Post>)
    ensures Show(a + b, posts) == Show(a, posts) + Show(b, posts)
  {
    if a == [] {
      assert a + b == b;
    } else {
      var first := if a[0].id in posts then [posts[a[0].id]] else [];
      assert (a + b)[0] == a[0] && (a + b)[1..] == a[1..] + b;
      ShowAppend(a[1..], b, posts);
      assert first + (Show(a[1..], posts) + Show(b, posts)) == (first + Show(a[1..], posts)) + Show(b, posts);
    }
  }

  lemma {:induction false} ShowAgrees(a: seq<Item>, posts: map<string, Post>, posts': map<string, Post>)
    requires forall x :: x in a ==> (x.id in posts' <==> x.id in posts) && (x.id in posts ==> posts'[x.id] == posts[x.id])
    ensures Show(a, posts) == Show(a, posts')
  {
    if a != [] {
      assert a[0] in a;
      ShowAgrees(a[1..], posts, posts');
    }
  }

  lemma PageJoins(rest: seq<Item>, limit: nat, posts: map<string, Post>, posts': map<string, Post>)
    requires |rest| > limit
    requires forall x :: x in rest[limit..] ==> (x.id in posts' <==> x.id in posts) && (x.id in posts ==> posts'[x.id] == posts[x.id])
    ensures Show(Take(rest, limit), posts) + Show(rest[limit..], posts') == Show(rest, posts)
  {
    ShowAgrees(rest[limit..], posts, posts');
    ShowAppend(rest[..limit], rest[limit..], posts);
    assert rest[..limit] + rest[limit..] == rest;
  }

  /** Paging equals the specification: the pages concatenate to exactly the live posts of the
      union past the starting cursor, as they stood at the first page. */
  lemma {:induction false} ScrollIsTimeline(worlds: seq<World>, cur: Cursor, limit: nat)
    requires worlds != [] && limit >= 1 && StableRun(worlds, cur, limit) && Finished(worlds, cur, limit)
    ensures Scroll(worlds, cur, limit) == Show(Past(Timeline(worlds[0]), cur), worlds[0].posts)
  {
    var w := worlds[0];
    var rest, next := Past(Timeline(w), cur), PageSpec(w, cur, limit).next;
    NextResumes(w, cur, limit);
    assert PageSpec(w, cur, limit).posts == Show(Take(rest, limit), w.posts);
    hide PageSpec, Timeline, Past, Valid;
    hide Show;
    if next.IsSet() {
      ScrollIsTimeline(worlds[1..], next, limit);
      PageJoins(rest, limit, w.posts, worlds[1].posts);
    }
  }

  lemma Distribute(limit: nat, n: nat)
    requires n > 0
    ensures limit * n == limit + limit * (n - 1) && (n == 1 ==> limit * (n - 1) == 0)
  {
  }

  /** Every page but the last consumes limit entries, so following the cursor terminates. */
  lemma {:induction false} ScrollTerminates(worlds: seq<World>, cur: Cursor, limit: nat)
    requires worlds != [] && limit >= 1 && StableRun(worlds, cur, limit)
    requires |Past(Timeline(worlds[0]), cur)| <= limit * |worlds|
    ensures Finished(worlds, cur, limit)
  {
    var n := |worlds|;
    NextResumes(worlds[0], cur, limit);
    hide PageSpec, Past, Timeline, Valid;
    Distribute(limit, n);
    if PageSpec(worlds[0], cur, limit).next.IsSet() {
      assert n > 1 && |worlds[1..]| == n - 1;
      ScrollTerminates(worlds[1..], PageSpec(worlds[0], cur, limit).next, limit);
    }
  }

  /** From the empty cursor: exactly the live posts of pushed ∪ pulled, newest first, each once. */
  lemma {:induction false} HomeFeedExact(worlds: seq<World>, limit: nat)
    requires worlds != [] && limit >= 1 && StableRun(worlds, NO_CURSOR, limit) && Finished(worlds, NO_CURSOR, limit)
    ensures var w, got := worlds[0], Scroll(worlds, NO_CURSOR, limit);
      && (forall p :: p in got <==> p.id in w.posts && p == w.posts[p.id]
                                    && exists it :: (it in w.pushed || it in w.pulled) && it.id == p.id)
      && DistinctPosts(got)
      && got == Show(Timeline(w), w.posts)
      && forall i, j :: 0 <= i < j < |Timeline(w)| ==>
           var x, y := Timeline(w)[i], Timeline(w)[j]; x.createdAt > y.createdAt || (x.createdAt == y.createdAt && Less(y.id, x.id))
  {
    var w := worlds[0];
    ScrollIsTimeline(worlds, NO_CURSOR, limit);
    PastUnset(Timeline(w), NO_CURSOR);
    MergeKeepsIds(w.pushed, w.pulled);
    ShowMembers(Timeline(w), w.posts);
    ShowDistinct(Timeline(w), w.posts);
    forall p: Post | p.id in w.posts && p == w.posts[p.id] && exists it :: (it in w.pushed || it in w.pulled) && it.id == p.id
      ensures p in Show(Timeline(w), w.posts)
    {
      var it :| (it in w.pushed || it in w.pulled) && it.id == p.id;
      var y :| y in Timeline(w) && y.id == it.id;
    }
  }

  lemma {:induction false} ShowMembers(items: seq<Item>, posts: map<string, Post>)
    requires forall id :: id in posts ==> posts[id].id == id
    ensures forall p :: p in Show(items, posts) <==> p.id in posts && p == posts[p.id] && exists it :: it in items && it.id == p.id
  {
    if items != [] {
      ShowMembers(items[1..], posts);
      assert items == [items[0]] + items[1..];
    }
  }

  ghost predicate DistinctPosts(s: seq<Post>) {
    forall i, j :: 0 <= i < j < |s| ==> s[i].id != s[j].id
  }

  lemma {:induction false} ShowDistinct(items: seq<Item>, posts: map<string, Post>)
    requires DistinctIds(items) && forall id :: id in posts ==> posts[id].id == id
    ensures DistinctPosts(Show(items, posts))
  {
    if items != [] {
      var rest := items[1..];
      ShowDistinct(rest, posts);
      ShowMembers(rest, posts);
      var s, r := Show(items, posts), Show(rest, posts);
      forall p | p in r ensures p.id != items[0].id {
        var it :| it in rest && it.id == p.id;
        var j :| 0 <= j < |rest| && rest[j] == it;
        assert items[j + 1] == it;
      }
      if items[0].id in posts {
        assert s == [posts[items[0].id]] + r;
      } else {
        assert s == r;
      }
    }
  }

  /** Entries inserted between two pages keep the past intact as long as they are not older than
      the cursor and nothing is trimmed or deleted. */
  lemma {:induction false} InsertsKeepPast(w: World, w': World, cur: Cursor)
    requires Valid(w) && Valid(w') && cur.IsSet()
    requires forall x :: x in w.pushed ==> x in w'.pushed
    requires forall x :: x in w.pulled ==> x in w'.pulled
    requires forall x :: (x in w'.pushed && x !in w.pushed) || (x in w'.pulled && x !in w.pulled) ==> !Older(x, cur)
    requires forall id :: id in w.posts ==> id in w'.posts && w'.posts[id] == w.posts[id]
    requires forall x :: x in Past(Timeline(w), cur) && x.id in w'.posts ==> x.id in w.posts
    ensures SamePast(w, w', cur)
  {
    MergeIsUnion(w.pushed, w.pulled);
    MergeIsUnion(w'.pushed, w'.pulled);
    PastAll(Timeline(w), cur);
    PastAll(Timeline(w'), cur);
    PastSorted(Timeline(w), cur);
    PastSorted(Timeline(w'), cur);
    SortedUnique(Past(Timeline(w), cur), Past(Timeline(w'), cur));
  }
}
