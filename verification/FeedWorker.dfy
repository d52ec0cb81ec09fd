/** shared/socialgraph: keyset reads of a follow list. Entries carry the follower's id and when
    the follow was created; the list is newest first. */
module SocialGraph {
  import opened Order
  import opened FeedPlan

  function Ids(s: seq<Item>): seq<string> { seq(|s|, i requires 0 <= i < |s| => s[i].id) }

  /** Reads one row more than limit to learn whether there is a next page. */
  method Page(list: seq<Item>, after: Cursor, limit: nat) returns (ids: seq<string>, next: Cursor)
    requires limit > 0 && forall x :: x in list ==> x.id != ""
    ensures ids == Ids(Take(Past(list, after), limit))
    ensures next.IsSet() <==> |Past(list, after)| > limit
    ensures next.IsSet() ==> next == CursorOf(Past(list, after)[limit - 1])
  {
    var got := Take(Past(list, after), limit + 1);
    ids, next := [], Cursor(0, "");
    forall x | x in Past(list, after) ensures x in list { PastElems(list, after, x); }
    for i := 0 to |got|
      invariant i <= limit && ids == Ids(got[..i]) && !next.IsSet()
    {
      if i == limit {
        var last := got[limit - 1];
        assert last == Past(list, after)[limit - 1] && last in Past(list, after);
        next := CursorOf(last);
        break;
      }
      ids := ids + [got[i].id];
    }
  }

  /** Everything a walk may still find: older than the last entry read. */
  predicate Ahead(x: Item, read: seq<Item>) { read == [] || Newer(read[|read| - 1], x) }

  /** Entries read so far, the cursor behind them, and who may still be missing of those that were
      in every list. */
  ghost predicate Walking(lists: nat -> seq<Item>, read: seq<Item>, cur: Cursor) {
    && Desc(read) && (forall j :: 0 <= j < |read| ==> read[j].id != "" && exists i :: read[j] in lists(i))
    && (if read == [] then !cur.IsSet() else cur == CursorOf(read[|read| - 1]))
    && forall x :: (forall i :: x in lists(i)) ==> x in read || Ahead(x, read)
  }

  lemma PastIsAhead(list: seq<Item>, read: seq<Item>, cur: Cursor, x: Item)
    requires if read == [] then !cur.IsSet() else read[|read| - 1].id != "" && cur == CursorOf(read[|read| - 1])
    ensures x in Past(list, cur) <==> x in list && Ahead(x, read)
  {
    PastElems(list, cur, x);
    if read != [] {
      OlderIsNewer(read[|read| - 1], x);
    }
  }

  lemma DescJoin(a: seq<Item>, b: seq<Item>)
    requires Desc(a) && Desc(b) && forall x :: x in b ==> Ahead(x, a)
    ensures Desc(a + b)
  {
    forall i, j | 0 <= i < |a| && 0 <= j < |b| ensures Newer(a[i], b[j]) {
      assert b[j] in b;
      if i < |a| - 1 {
        NewerTransitive(a[i], a[|a| - 1], b[j]);
      }
    }
  }

  lemma TakeSorted(list: seq<Item>, read: seq<Item>, cur: Cursor, n: nat)
    requires Desc(list) && (if read == [] then !cur.IsSet() else read[|read| - 1].id != "" && cur == CursorOf(read[|read| - 1]))
    ensures var got := Take(Past(list, cur), n);
      Desc(got) && forall x :: x in got ==> x in list && Ahead(x, read)
  {
    var k := PastIsSuffix(list, cur);
    var got := Take(Past(list, cur), n);
    forall x | x in got ensures x in list && Ahead(x, read) {
      assert x in Past(list, cur);
      PastIsAhead(list, read, cur, x);
    }
  }

  /** What follows throughout is on the page, or past a page that was cut. */
  lemma PageCovers(lists: nat -> seq<Item>, i: nat, read: seq<Item>, cur: Cursor, n: nat, x: Item)
    requires Walking(lists, read, cur) && Desc(lists(i)) && n > 0 && x !in read && forall j :: x in lists(j)
    ensures var past := Past(lists(i), cur); var got := Take(past, n);
      x in got || (|past| > n && got != [] && Newer(got[|got| - 1], x))
  {
    var past := Past(lists(i), cur);
    var got := Take(past, n);
    PastIsAhead(lists(i), read, cur, x);
    assert x in lists(i);
    var k :| 0 <= k < |past| && past[k] == x;
    if k < |got| {
      assert got[k] == x;
    } else {
      var s := PastIsSuffix(lists(i), cur);
      assert past[|got| - 1] == got[|got| - 1] && Newer(past[|got| - 1], past[k]);
    }
  }

  lemma PageJoins(lists: nat -> seq<Item>, i: nat, read: seq<Item>, cur: Cursor, n: nat)
    requires Walking(lists, read, cur) && Desc(lists(i)) && forall x :: x in lists(i) ==> x.id != ""
    ensures var all := read + Take(Past(lists(i), cur), n);
      Desc(all) && forall j :: 0 <= j < |all| ==> all[j].id != "" && exists m :: all[j] in lists(m)
  {
    var got := Take(Past(lists(i), cur), n);
    TakeSorted(lists(i), read, cur, n);
    DescJoin(read, got);
    var all := read + got;
    forall j | 0 <= j < |all| ensures all[j].id != "" && exists m :: all[j] in lists(m) {
      if j >= |read| {
        assert all[j] == got[j - |read|] && got[j - |read|] in got && all[j] in lists(i);
      } else {
        assert all[j] == read[j];
      }
    }
  }

  /** One page of one list moves the walk on. */
  lemma PageWalks(lists: nat -> seq<Item>, i: nat, read: seq<Item>, cur: Cursor, n: nat, next: Cursor)
    requires Walking(lists, read, cur) && Desc(lists(i)) && (forall x :: x in lists(i) ==> x.id != "") && n > 0
    requires |Past(lists(i), cur)| > n ==> next == CursorOf(Past(lists(i), cur)[n - 1])
    ensures var all := read + Take(Past(lists(i), cur), n); Desc(all) && forall j :: 0 <= j < |all| ==> exists m :: all[j] in lists(m)
    ensures |Past(lists(i), cur)| > n ==>
      |Take(Past(lists(i), cur), n)| == n && Walking(lists, read + Take(Past(lists(i), cur), n), next)
    ensures |Past(lists(i), cur)| <= n ==> forall x :: (forall j :: x in lists(j)) ==> x in read + Take(Past(lists(i), cur), n)
  {
    PageJoins(lists, i, read, cur, n);
    var got := Take(Past(lists(i), cur), n);
    forall x | forall j :: x in lists(j)
      ensures x in read + got || (|Past(lists(i), cur)| > n && got != [] && Newer(got[|got| - 1], x))
    {
      if x !in read {
        PageCovers(lists, i, read, cur, n, x);
      }
    }
    if |Past(lists(i), cur)| > n {
      assert got[n - 1] == Past(lists(i), cur)[n - 1] && (read + got)[|read| + n - 1] == got[n - 1];
    }
  }

  /** Reads at most max followers in pages; the list may change from page to page. Nobody comes
      twice in one position, nobody is invented, and whoever follows throughout is read unless max
      newer entries were. On a list that stays the same these are exactly its newest max. */
  method AllFollowers(lists: nat -> seq<Item>, max: nat) returns (out: seq<string>, ghost read: seq<Item>)
    requires forall i :: Desc(lists(i)) && forall x :: x in lists(i) ==> x.id != ""
    ensures |out| <= max && out == Ids(read) && Desc(read)
    ensures forall id :: id in out ==> exists i, x :: x in lists(i) && x.id == id
    ensures forall x :: (forall i :: x in lists(i)) ==> x.id in out || |out| == max
    ensures forall j :: 0 <= j < |read| ==> exists i :: read[j] in lists(i)
    ensures forall x :: (forall i :: x in lists(i)) ==> x in read || (|read| == max && Ahead(x, read))
  {
    out, read := [], [];
    var cur, page := Cursor(0, ""), 0;
    WalkStarts(lists, cur);
    hide Past, Newer, Older, Ids, Walking;
    while |out| < max
      invariant out == Ids(read) && |read| == |out| <= max && Walking(lists, read, cur)
      decreases max - |out|
    {
      var n := 1000;
      if max - |out| < n {
        n := max - |out|;
      }
      var ids, next := Page(lists(page), cur, n);
      ghost var got := Take(Past(lists(page), cur), n);
      PageWalks(lists, page, read, cur, n, next);
      IdsJoin(read, got);
      out, read := out + ids, read + got;
      if !next.IsSet() {
        WhoIsRead(lists, read, max);
        return;
      }
      cur, page := next, page + 1;
    }
    WalkEnds(lists, read, cur);
    WhoIsRead(lists, read, max);
  }

  lemma WhoIsRead(lists: nat -> seq<Item>, read: seq<Item>, max: nat)
    requires forall j :: 0 <= j < |read| ==> exists i :: read[j] in lists(i)
    requires forall x :: (forall i :: x in lists(i)) ==> x in read || |read| == max
    ensures forall id :: id in Ids(read) ==> exists i, x :: x in lists(i) && x.id == id
    ensures forall x :: (forall i :: x in lists(i)) ==> x.id in Ids(read) || |read| == max
  {
    forall id | id in Ids(read) ensures exists i, x :: x in lists(i) && x.id == id {
      var j :| 0 <= j < |read| && Ids(read)[j] == id;
      var i :| read[j] in lists(i);
    }
    forall x | (forall i :: x in lists(i)) && |read| != max ensures x.id in Ids(read) {
      assert x in read;
      var j :| 0 <= j < |read| && read[j] == x;
      assert Ids(read)[j] == x.id;
    }
  }

  lemma WalkStarts(lists: nat -> seq<Item>, cur: Cursor)
    requires !cur.IsSet()
    ensures Walking(lists, [], cur) && Ids([]) == []
  {
  }

  lemma WalkEnds(lists: nat -> seq<Item>, read: seq<Item>, cur: Cursor)
    requires Walking(lists, read, cur)
    ensures Desc(read) && (forall j :: 0 <= j < |read| ==> exists i :: read[j] in lists(i))
    ensures forall x :: (forall i :: x in lists(i)) ==> x in read || Ahead(x, read)
  {
  }

  lemma IdsJoin(a: seq<Item>, b: seq<Item>)
    ensures Ids(a) + Ids(b) == Ids(a + b) && |Ids(b)| == |b|
  {
  }

  lemma {:induction false} SteadyFollowers(list: seq<Item>, max: nat, read: seq<Item>)
    requires Desc(list) && Desc(read) && |read| <= max && (forall x :: x in read ==> x in list)
    requires forall x :: x in list ==> x in read || (|read| == max && Ahead(x, read))
    ensures read == Take(list, max)
  {
    forall i | 0 <= i < max && i < |list| ensures list[i] in read {
      if list[i] !in read {
        assert list[i] in list;
        var last := read[max - 1];
        assert last in read;
        var p :| 0 <= p < |list| && list[p] == last;
        RankAtLeast(read, list, max - 1, p);
        NewerStrict(list[i], last);
      }
    }
    SameWindow(read, list, max);
  }
}

/** services/feed/worker: how a new post reaches its author's followers. */
module FeedWorker {
  import opened Order
  import opened FeedPlan
  import opened FeedStore
  import SocialGraph
  import HomeFeed
  import Traces

  datatype Event = PostCreated(id: string, author: string, createdAt: int)

  /** How far one pipeline got and whether its reply arrived. */
  datatype Outcome = Outcome(reached: nat, replied: bool)

  /** Whether the count, the SADD (and, failing, its effect) and the follower read worked. */
  datatype Answers = Answers(counted: bool, marked: bool, applied: bool, read: bool)

  /** The pipeline's own commands since own0 only deliver item to followers. */
  ghost predicate OnlyDelivers(own0: seq<Act>, own: seq<Act>, followers: seq<string>, item: Item, maxLen: nat) {
    own0 <= own && forall i :: |own0| <= i < |own| ==>
      own[i].user in followers && (own[i].cmd == ZAdd(item) || own[i].cmd == Trim(maxLen))
  }

  /** The whole pipeline of a batch ran and its reply arrived. */
  predicate Complete(o: Outcome, batch: seq<string>) { o.replied && o.reached >= 2 * |batch| }

  /** Each pipeline runs as far as it got. */
  function BatchActs(w: nat, batch: seq<string>, o: Outcome, item: Item, maxLen: nat): seq<Act> {
    var plan := Plan(w, batch, item, maxLen);
    plan[..if o.reached < |plan| then o.reached else |plan|]
  }

  function FanOutActs(w: nat, batches: seq<seq<string>>, outcomes: nat -> Outcome, item: Item, maxLen: nat): seq<Act> {
    if batches == [] then []
    else
      var n := |batches| - 1;
      FanOutActs(w, batches[..n], outcomes, item, maxLen) + BatchActs(w, batches[n], outcomes(n), item, maxLen)
  }

  /** No batch failed. */
  ghost predicate AllComplete(batches: seq<seq<string>>, outcomes: nat -> Outcome) {
    forall i :: 0 <= i < |batches| ==> Complete(outcomes(i), batches[i])
  }

  lemma FanOutOn(w: nat, batches: seq<seq<string>>, outcomes: nat -> Outcome, item: Item, maxLen: nat, n: nat)
    requires n < |batches|
    ensures FanOutActs(w, batches[..n + 1], outcomes, item, maxLen)
         == FanOutActs(w, batches[..n], outcomes, item, maxLen) + BatchActs(w, batches[n], outcomes(n), item, maxLen)
    ensures AllComplete(batches[..n + 1], outcomes) <==> AllComplete(batches[..n], outcomes) && Complete(outcomes(n), batches[n])
  {
    assert batches[..n + 1][..n] == batches[..n] && batches[..n + 1][n] == batches[n];
    assert forall i :: 0 <= i < n ==> batches[..n + 1][i] == batches[..n][i];
  }

  /** The chunks of Batches. */
  ghost predicate Chunks(followers: seq<string>, size: int, batches: seq<seq<string>>) {
    Flatten(batches) == followers && forall b :: b in batches ==> 0 < |b| <= (if size <= 0 then 1 else size)
  }

  class Worker {
    const feeds: Feeds
    const id: nat
    var celebrities: set<string>
    const policy: Policy

    constructor (feeds: Feeds, id: nat, policy: Policy)
      ensures this.feeds == feeds && this.id == id && this.policy == policy && celebrities == {}
    {
      this.feeds, this.id, this.policy, celebrities := feeds, id, policy, {};
    }

    /** A batch that fails is not rolled back, and the others still run, up to the first before which
        the context is cancelled (stop); trips is how many ran. Success means that every batch was
        complete and the context never cancelled, and then every follower's feed got the item and was
        trimmed after that, whatever other workers did to the same feeds meanwhile. */
    method FanOut(followers: seq<string>, item: Item, outcomes: nat -> Outcome, stop: nat, cancelled: bool)
      returns (ok: bool, trips: nat, ghost batches: seq<seq<string>>)
      requires feeds.Valid()
      modifies feeds
      ensures feeds.Valid() && old(feeds.acts) <= feeds.acts && Chunks(followers, policy.Defaults().batchSize, batches)
      ensures trips == (if stop < |batches| then stop else |batches|)
      ensures Own(feeds.acts, id) == Own(old(feeds.acts), id) + FanOutActs(id, batches[..trips], outcomes, item, policy.Defaults().maxFeedLen)
      ensures OnlyDelivers(Own(old(feeds.acts), id), Own(feeds.acts, id), followers, item, policy.Defaults().maxFeedLen)
      ensures ok <==> !cancelled && stop >= |batches| && forall i :: 0 <= i < |batches| ==> outcomes(i).replied && outcomes(i).reached >= 2 * |batches[i]|
      ensures ok ==> AllGot(old(feeds.acts), feeds.acts, followers, item, policy.Defaults().maxFeedLen)
    {
      hide FannedOut, Own, Held, AllGot, OnlyDelivers, Flatten, Plan, AllComplete, FanOutActs;
      var k, size := policy.Defaults().maxFeedLen, policy.Defaults().batchSize;
      var chunks := Batches(followers, size);
      batches := chunks;
      ok, trips := SendAll(followers, size, chunks, item, k, outcomes, stop);
      FanOutIs(id, old(feeds.acts), feeds.acts, followers, size, batches, outcomes, item, k, trips, ok);
      CompleteWhen(batches, outcomes);
      ok := ok && trips == |chunks| && !cancelled;
    }

    /** One batch more. */
    method SendOne(ghost was: seq<Act>, ghost followers: seq<string>, ghost size: int, chunks: seq<seq<string>>, item: Item, k: nat,
                   outcomes: nat -> Outcome, n: nat, ghost before: bool)
      returns (sent: bool)
      requires feeds.Valid() && n < |chunks| && Chunks(followers, size, chunks)
      requires FannedOut(id, was, feeds.acts, followers, chunks, outcomes, item, k, n, before)
      modifies feeds
      ensures feeds.Valid() && old(feeds.acts) <= feeds.acts
      ensures FannedOut(id, was, feeds.acts, followers, chunks, outcomes, item, k, n + 1, before && sent)
    {
      hide FannedOut, Own, Held, AllGot, OnlyDelivers, Flatten, Plan, Chunks, AllComplete, FanOutActs;
      ghost var mid := feeds.acts;
      sent := feeds.AddToFeeds(id, chunks[n], item, k, outcomes(n).reached, outcomes(n).replied);
      OneMoreBatch(id, was, mid, feeds.acts, followers, size, chunks, outcomes, item, k, n, before, sent);
    }

    /** The batches one after another, up to the first before which the context is cancelled. */
    method SendAll(ghost followers: seq<string>, ghost size: int, chunks: seq<seq<string>>, item: Item, k: nat, outcomes: nat -> Outcome, stop: nat)
      returns (ok: bool, trips: nat)
      requires feeds.Valid() && Chunks(followers, size, chunks)
      modifies feeds
      ensures feeds.Valid() && trips == (if stop < |chunks| then stop else |chunks|)
      ensures FannedOut(id, old(feeds.acts), feeds.acts, followers, chunks, outcomes, item, k, trips, ok) && old(feeds.acts) <= feeds.acts
    {
      ghost var was := feeds.acts;
      hide FannedOut, Own, Held, AllGot, OnlyDelivers, Flatten, Plan, Chunks, AllComplete, FanOutActs;
      NoBatch(id, was, followers, chunks, outcomes, item, k);
      ok, trips := true, 0;
      while trips < |chunks| && trips < stop
        invariant trips <= |chunks| && trips <= stop && feeds.Valid() && was <= feeds.acts
        invariant FannedOut(id, was, feeds.acts, followers, chunks, outcomes, item, k, trips, ok)
      {
        var sentNow := SendOne(was, followers, size, chunks, item, k, outcomes, trips, ok);
        ok := ok && sentNow;
        trips := trips + 1;
      }
    }

    /** A post created. The follow list may change between counting (atCount) and each page read
        (lists). Without followers nothing is done; above the threshold the author is marked for
        pulling; otherwise the post goes to every follower read. It fails exactly when a call did. */
    method HandlePostCreated(ev: Event, now: int, atCount: seq<Item>, lists: nat -> seq<Item>, a: Answers, outcomes: nat -> Outcome, stop: nat, cancelled: bool)
      returns (ok: bool, ghost read: seq<Item>, ghost batches: seq<seq<string>>)
      requires feeds.Valid()
      requires forall i :: Desc(lists(i)) && forall x :: x in lists(i) ==> x.id != ""
      modifies this`celebrities, feeds
      ensures feeds.Valid() && old(feeds.acts) <= feeds.acts
      ensures |atCount| == 0 ==> (ok <==> a.counted) && celebrities == old(celebrities) && feeds.acts == old(feeds.acts)
      ensures |atCount| > policy.Defaults().celebrityThreshold ==>
        (ok <==> a.counted && a.marked) && feeds.acts == old(feeds.acts)
        && celebrities == old(celebrities) + if a.counted && (a.marked || a.applied) then {ev.author} else {}
      ensures 0 < |atCount| <= policy.Defaults().celebrityThreshold ==>
        celebrities == old(celebrities) && (!a.counted || !a.read ==> !ok && feeds.acts == old(feeds.acts))
      ensures 0 < |atCount| <= policy.Defaults().celebrityThreshold && a.counted && a.read ==>
        PushedTo(old(feeds.acts), read, batches, Item(ev.id, if ev.createdAt == 0 then now else ev.createdAt), outcomes, stop)
        && (ok <==> !cancelled && stop >= |batches| && forall i :: 0 <= i < |batches| ==> outcomes(i).replied && outcomes(i).reached >= 2 * |batches[i]|)
        && (ok ==> AllGot(old(feeds.acts), feeds.acts, SocialGraph.Ids(read), Item(ev.id, if ev.createdAt == 0 then now else ev.createdAt), policy.Defaults().maxFeedLen))
        && (forall j :: 0 <= j < |read| ==> exists i :: read[j] in lists(i)) && |read| <= policy.Defaults().celebrityThreshold
        && (forall x :: (forall i :: x in lists(i)) ==> x in read || (|read| == policy.Defaults().celebrityThreshold && SocialGraph.Ahead(x, read)))
        && ((forall i :: lists(i) == atCount) ==> read == atCount)
      ensures ok && (forall i :: lists(i) == atCount) ==>
        Reached(old(feeds.acts), feeds.acts, celebrities, ev.author, atCount, Item(ev.id, if ev.createdAt == 0 then now else ev.createdAt),
                policy.Defaults().celebrityThreshold, policy.Defaults().maxFeedLen)
    {
      hide OnlyDelivers, AllGot, Own, Held, FanOutActs, Chunks;
      ok, read, batches := false, [], [];
      var p := policy.Defaults();
      if !a.counted {
        return;
      }
      var total := if |atCount| < p.celebrityThreshold + 1 then |atCount| else p.celebrityThreshold + 1;
      if total == 0 {
        return true, [], [];
      }
      if p.Decide(total) == Pull {
        if a.marked || a.applied {
          celebrities := celebrities + {ev.author};
        }
        return a.marked, [], [];
      }
      if !a.read {
        return;
      }
      var followers;
      followers, read := SocialGraph.AllFollowers(lists, p.celebrityThreshold);
      if forall i :: lists(i) == atCount {
        SteadyRead(lists, atCount, p.celebrityThreshold, read);
      }
      var createdAt := ev.createdAt;
      if createdAt == 0 {
        createdAt := now;
      }
      var trips;
      ok, trips, batches := FanOut(followers, Item(ev.id, createdAt), outcomes, stop, cancelled);
    }

    /** The worker's own commands since before0: those of the batches of the followers read, up to a
        cancellation, each as far as it got, and nothing else. */
    ghost predicate PushedTo(before0: seq<Act>, read: seq<Item>, batches: seq<seq<string>>, item: Item, outcomes: nat -> Outcome, stop: nat)
      reads feeds
    {
      var k := policy.Defaults().maxFeedLen;
      && Chunks(SocialGraph.Ids(read), policy.Defaults().batchSize, batches)
      && OnlyDelivers(Own(before0, id), Own(feeds.acts, id), SocialGraph.Ids(read), item, k)
      && Own(feeds.acts, id) == Own(before0, id) + FanOutActs(id, batches[..if stop < |batches| then stop else |batches|], outcomes, item, k)
    }
  }

  /** A list that stays the same and is not too long is read as it is. */
  lemma SteadyRead(lists: nat -> seq<Item>, list: seq<Item>, max: nat, read: seq<Item>)
    requires (forall i :: lists(i) == list) && Desc(lists(0)) && |list| <= max && Desc(read) && |read| <= max
    requires forall j :: 0 <= j < |read| ==> exists i :: read[j] in lists(i)
    requires forall x :: (forall i :: x in lists(i)) ==> x in read || (|read| == max && SocialGraph.Ahead(x, read))
    ensures read == list
  {
    SocialGraph.SteadyFollowers(list, max, read);
  }

  /** What the first n batches did. */
  ghost predicate FannedOut(w: nat, was: seq<Act>, now: seq<Act>, followers: seq<string>, batches: seq<seq<string>>,
                            outcomes: nat -> Outcome, item: Item, maxLen: nat, n: nat, ok: bool) {
    && n <= |batches| && was <= now && OnlyDelivers(Own(was, w), Own(now, w), followers, item, maxLen)
    && Own(now, w) == Own(was, w) + FanOutActs(w, batches[..n], outcomes, item, maxLen)
    && (ok <==> AllComplete(batches[..n], outcomes)) && (ok ==> AllGot(was, now, Flatten(batches[..n]), item, maxLen))
  }

  lemma NoBatch(w: nat, was: seq<Act>, followers: seq<string>, batches: seq<seq<string>>, outcomes: nat -> Outcome, item: Item, maxLen: nat)
    ensures FannedOut(w, was, was, followers, batches, outcomes, item, maxLen, 0, true)
  {
    hide Own, Complete;
    NothingSent(was, w, followers, item, maxLen);
    assert batches[..0] == [] && FanOutActs(w, [], outcomes, item, maxLen) == [];
  }

  lemma ChunkMembers(followers: seq<string>, size: int, batches: seq<seq<string>>, n: nat)
    requires Chunks(followers, size, batches) && n < |batches|
    ensures forall u :: u in batches[n] ==> u in followers
    ensures Flatten(batches[..n + 1]) == Flatten(batches[..n]) + batches[n]
  {
    var b := batches[n];
    FlattenSplit(batches[..n], batches[n..]);
    FlattenSnoc(batches[..n], b);
    assert batches == batches[..n] + batches[n..] && batches[..n + 1] == batches[..n] + [b];
    FlattenFirst(batches[n..]);
    hide Flatten;
    assert followers == Flatten(batches[..n]) + (b + Flatten(batches[n..][1..]));
  }

  lemma FlattenFirst(lists: seq<seq<string>>)
    requires lists != []
    ensures Flatten(lists) == lists[0] + Flatten(lists[1..])
  {
  }

  lemma {:induction false} FlattenSplit(a: seq<seq<string>>, b: seq<seq<string>>)
    ensures Flatten(a + b) == Flatten(a) + Flatten(b)
  {
    if a == [] {
      assert a + b == b;
    } else {
      assert (a + b)[1..] == a[1..] + b && (a + b)[0] == a[0];
      FlattenSplit(a[1..], b);
    }
  }

  lemma OneMoreBatch(w: nat, was: seq<Act>, mid: seq<Act>, now: seq<Act>, followers: seq<string>, size: int, batches: seq<seq<string>>,
                     outcomes: nat -> Outcome, item: Item, maxLen: nat, n: nat, ok: bool, sent: bool)
    requires FannedOut(w, was, mid, followers, batches, outcomes, item, maxLen, n, ok) && mid <= now
    requires Chunks(followers, size, batches) && n < |batches|
    requires sent <==> outcomes(n).replied && outcomes(n).reached >= 2 * |batches[n]|
    requires Own(now, w) == Own(mid, w) + BatchActs(w, batches[n], outcomes(n), item, maxLen)
    requires sent ==> AllGot(mid, now, batches[n], item, maxLen)
    ensures FannedOut(w, was, now, followers, batches, outcomes, item, maxLen, n + 1, ok && sent)
  {
    hide Own, AllGot, OnlyDelivers, Flatten, Plan, AllComplete, FanOutActs, Chunks, Complete;
    ChunkMembers(followers, size, batches, n);
    FanOutOn(w, batches, outcomes, item, maxLen, n);
    CompleteIs(outcomes(n), batches[n]);
    Traces.Assoc(Own(was, w), FanOutActs(w, batches[..n], outcomes, item, maxLen), BatchActs(w, batches[n], outcomes(n), item, maxLen));
    PlanDelivers(was, mid, now, w, batches[n], followers, item, maxLen, outcomes(n).reached);
    if ok && sent {
      GotBoth(was, mid, now, Flatten(batches[..n]), batches[n], item, maxLen);
    }
  }

  lemma CompleteWhen(batches: seq<seq<string>>, outcomes: nat -> Outcome)
    ensures AllComplete(batches, outcomes) <==> forall i :: 0 <= i < |batches| ==> outcomes(i).replied && outcomes(i).reached >= 2 * |batches[i]|
  {
  }

  lemma CompleteIs(o: Outcome, batch: seq<string>)
    ensures Complete(o, batch) <==> o.replied && o.reached >= 2 * |batch|
  {
  }

  lemma FanOutIs(w: nat, was: seq<Act>, now: seq<Act>, followers: seq<string>, size: int, batches: seq<seq<string>>,
                 outcomes: nat -> Outcome, item: Item, maxLen: nat, n: nat, ok: bool)
    requires FannedOut(w, was, now, followers, batches, outcomes, item, maxLen, n, ok) && Chunks(followers, size, batches)
    ensures OnlyDelivers(Own(was, w), Own(now, w), followers, item, maxLen)
    ensures Own(now, w) == Own(was, w) + FanOutActs(w, batches[..n], outcomes, item, maxLen)
    ensures n == |batches| ==> (ok <==> AllComplete(batches, outcomes)) && (ok ==> AllGot(was, now, followers, item, maxLen))
  {
    if n == |batches| {
      assert batches[..n] == batches;
    }
  }

  lemma NothingSent(acts: seq<Act>, w: nat, followers: seq<string>, item: Item, maxLen: nat)
    ensures OnlyDelivers(Own(acts, w), Own(acts, w), followers, item, maxLen) && AllGot(acts, acts, [], item, maxLen)
  {
  }

  lemma GotBoth(was: seq<Act>, mid: seq<Act>, now: seq<Act>, sent: seq<string>, batch: seq<string>, item: Item, maxLen: nat)
    requires was <= mid <= now && AllGot(was, mid, sent, item, maxLen) && AllGot(mid, now, batch, item, maxLen)
    ensures AllGot(was, now, sent + batch, item, maxLen)
  {
    AllGotStays(was, was, mid, now, sent, item, maxLen);
    AllGotStays(was, mid, now, now, batch, item, maxLen);
  }

  lemma {:induction false} PlanActs(w: nat, followers: seq<string>, item: Item, maxLen: nat)
    ensures forall a :: a in Plan(w, followers, item, maxLen) ==> a.user in followers && (a.cmd == ZAdd(item) || a.cmd == Trim(maxLen))
  {
    if followers != [] {
      PlanActs(w, followers[..|followers| - 1], item, maxLen);
    }
  }

  lemma PlanDelivers(was: seq<Act>, mid: seq<Act>, now: seq<Act>, w: nat, batch: seq<string>, followers: seq<string>,
                     item: Item, maxLen: nat, reached: nat)
    requires OnlyDelivers(Own(was, w), Own(mid, w), followers, item, maxLen) && forall u :: u in batch ==> u in followers
    requires var plan := Plan(w, batch, item, maxLen); Own(now, w) == Own(mid, w) + plan[..if reached < |plan| then reached else |plan|]
    ensures OnlyDelivers(Own(was, w), Own(now, w), followers, item, maxLen)
  {
    PlanActs(w, batch, item, maxLen);
    hide Own, Plan;
    var plan := Plan(w, batch, item, maxLen);
    var ran := plan[..if reached < |plan| then reached else |plan|];
    forall i | |Own(was, w)| <= i < |Own(now, w)|
      ensures Own(now, w)[i].user in followers && (Own(now, w)[i].cmd == ZAdd(item) || Own(now, w)[i].cmd == Trim(maxLen))
    {
      if i >= |Own(mid, w)| {
        assert Own(now, w)[i] == plan[i - |Own(mid, w)|] && plan[i - |Own(mid, w)|] in plan;
      } else {
        assert Own(now, w)[i] == Own(mid, w)[i];
      }
    }
  }

  /** Write path to read path: whoever's feed got a live post at any time, with fewer than maxLen
      newer entries delivered to it since or before, and whoever follows its pull-mode author, finds
      the post in the timeline that paging walks. */
  lemma {:induction false} DeliveredIsServed(w: HomeFeed.World, log: seq<Cmd>, from: nat, p: HomeFeed.Post, k: nat)
    requires HomeFeed.Valid(w) && p.id in w.posts && w.posts[p.id] == p
    requires w.pushed == Replay(log) && TrimsTo(log, k) && OneTime(Added(log))
    requires p.author in w.celebs
          || (Got(log, from, HomeFeed.ItemOf(p), k) && |set x | x in Added(log) && Newer(x, HomeFeed.ItemOf(p))| < k)
    ensures HomeFeed.ItemOf(p) in HomeFeed.Timeline(w)
  {
    MergeIsUnion(w.pushed, w.pulled);
    var it := HomeFeed.ItemOf(p);
    if p.author !in w.celebs {
      DeliveredStaysInFront(log, from, it, k);
      assert it in w.pushed;
    } else {
      assert it in w.pulled;
    }
  }

  /** What a post created leaves behind when its author's follow list stays the same: every follower's
      feed got it, or there are too many of them and its author is in the celebrity set. */
  ghost predicate Reached(before: seq<Act>, acts: seq<Act>, celebrities: set<string>, author: string, list: seq<Item>, item: Item,
                          threshold: int, maxLen: nat) {
    if |list| > threshold then author in celebrities
    else list == [] || AllGot(before, acts, SocialGraph.Ids(list), item, maxLen)
  }

  /** From the event to the reader: once the handler of a post has succeeded, whoever followed its
      author finds the live post in the timeline that paging walks, at any later time; for one that
      was pushed, as long as fewer than maxLen newer entries were delivered to that feed. */
  lemma {:induction false} HandledIsServed(before: seq<Act>, acts: seq<Act>, celebrities: set<string>, list: seq<Item>, threshold: int, k: nat,
                        u: string, later: seq<Act>, w: HomeFeed.World, p: HomeFeed.Post)
    requires Reached(before, acts, celebrities, p.author, list, Item(p.id, p.createdAt), threshold, k)
    requires u in SocialGraph.Ids(list) && acts <= later && w.pushed == Replay(LogOf(later, u)) && (p.author in celebrities ==> p.author in w.celebs)
    requires HomeFeed.Valid(w) && p.id in w.posts && w.posts[p.id] == p
    requires TrimsTo(LogOf(later, u), k) && OneTime(Added(LogOf(later, u)))
    requires |list| <= threshold ==> |set x | x in Added(LogOf(later, u)) && Newer(x, HomeFeed.ItemOf(p))| < k
    ensures HomeFeed.ItemOf(p) in HomeFeed.Timeline(w) && p in HomeFeed.Show(HomeFeed.Timeline(w), w.posts)
  {
    hide HomeFeed.Timeline, HomeFeed.Valid, HomeFeed.Show, Replay, LogOf, Added, TrimsTo, OneTime, Newer, Got;
    if |list| <= threshold {
      AllGotStays(before, before, acts, later, SocialGraph.Ids(list), HomeFeed.ItemOf(p), k);
      assert Got(LogOf(later, u), |LogOf(before, u)|, HomeFeed.ItemOf(p), k);
    }
    DeliveredIsServed(w, LogOf(later, u), if |list| <= threshold then |LogOf(before, u)| else 0, p, k);
    ShownWhenListed(w, p);
  }

  lemma ShownWhenListed(w: HomeFeed.World, p: HomeFeed.Post)
    requires HomeFeed.Valid(w) && p.id in w.posts && w.posts[p.id] == p && HomeFeed.ItemOf(p) in HomeFeed.Timeline(w)
    ensures p in HomeFeed.Show(HomeFeed.Timeline(w), w.posts)
  {
    HomeFeed.ShowMembers(HomeFeed.Timeline(w), w.posts);
  }
}
