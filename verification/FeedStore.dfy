/** shared/backend/redis.go: the materialised home feeds. A Redis sorted set is the list of its
    members in reverse rank order: newest first, one entry per member. */
module FeedStore {
  import opened Order
  import opened FeedPlan
  import Traces

  ghost predicate ZSet(z: seq<Item>) {
    Desc(z) && DistinctIds(z)
  }

  // ── FeedItems ──

  /** ZRANGE key max -inf BYSCORE REV: the members whose score is at most max. */
  function AtMost(z: seq<Item>, max: int): seq<Item> {
    if z == [] then [] else (if z[0].createdAt <= max then [z[0]] else []) + AtMost(z[1..], max)
  }

  /** ZCOUNT key t t. */
  function Ties(z: seq<Item>, t: int): nat {
    if z == [] then 0 else (if z[0].createdAt == t then 1 else 0) + Ties(z[1..], t)
  }

  function ScoreRange(z: seq<Item>, after: Cursor): seq<Item> {
    if after.IsSet() then AtMost(z, after.t) else z
  }

  /** How many entries of the scanned range are not past the cursor. */
  function Behind(z: seq<Item>, after: Cursor): int {
    |ScoreRange(z, after)| - |Past(z, after)|
  }

  /** What FeedItems computes when ZCOUNT answered counted and ZRANGE ran on z. */
  function Fetched(z: seq<Item>, after: Cursor, count: nat, counted: nat): seq<Item> {
    Take(Past(Take(ScoreRange(z, after), count + counted), after), count)
  }

  /** ZCOUNT and ZRANGE are two commands: the set may have changed in between. Every entry
      returned is past the cursor and at most count of them are, in any case. */
  method FeedItems(atCount: seq<Item>, atRange: seq<Item>, after: Cursor, count: nat)
    returns (items: seq<Item>)
    ensures items == Fetched(atRange, after, count, Counted(atCount, after))
    ensures |items| <= count && forall x :: x in items ==> x in atRange && (after.IsSet() ==> Older(x, after))
  {
    var extra := 0;
    if after.IsSet() {
      extra := Ties(atCount, after.t);
    }
    var zs := Take(ScoreRange(atRange, after), count + extra);
    items := [];
    for i := 0 to |zs|
      invariant items == zs[..i]
    {
      items := items + [Item(zs[i].id, zs[i].createdAt)];
    }
    forall x | x in Past(zs, after) ensures x in atRange && (after.IsSet() ==> Older(x, after)) {
      PastElems(zs, after, x);
      AtMostElems(atRange, after.t, x);
    }
    assert items == zs;
    items := Before(items, after);
    if |items| > count {
      items := items[..count];
    }
  }

  lemma {:induction false} AtMostElems(z: seq<Item>, max: int, x: Item)
    ensures x in AtMost(z, max) <==> x in z && x.createdAt <= max
  {
    if z != [] {
      AtMostElems(z[1..], max, x);
      assert z == [z[0]] + z[1..];
    }
  }

  lemma {:induction false} AtMostIsSuffix(z: seq<Item>, max: int) returns (k: nat)
    requires Desc(z)
    ensures k <= |z| && AtMost(z, max) == z[k..]
    ensures forall i :: 0 <= i < |z| ==> (z[i].createdAt <= max <==> k <= i)
  {
    if z == [] {
      k := 0;
    } else {
      var r := AtMostIsSuffix(z[1..], max);
      assert z == [z[0]] + z[1..];
      if z[0].createdAt <= max {
        assert |z| > 1 ==> Newer(z[0], z[1]);
        k := 0;
      } else {
        k := r + 1;
      }
    }
  }

  /** The scanned range is what is behind the cursor followed by what is past it. */
  lemma RangeSplits(z: seq<Item>, after: Cursor) returns (from: nat, past: nat)
    requires Desc(z)
    ensures from <= past <= |z|
    ensures forall i :: from <= i < past ==> z[i].createdAt == after.t
    ensures forall i :: 0 <= i < past ==> after.IsSet() && !Older(z[i], after)
    ensures forall i :: past <= i < |z| ==> !after.IsSet() || Older(z[i], after)
    ensures ScoreRange(z, after) == z[from..] && Past(z, after) == z[past..]
    ensures Behind(z, after) == past - from
  {
    past := PastIsSuffix(z, after);
    from := 0;
    if after.IsSet() {
      from := AtMostIsSuffix(z, after.t);
      assert past < |z| ==> Older(z[past], after);
    }
  }

  /** The window holds the entries behind the cursor first, then as many past it as fit. */
  lemma {:induction false} PastOfWindow(z: seq<Item>, after: Cursor, n: nat)
    requires Desc(z)
    ensures Behind(z, after) >= 0
    ensures Past(Take(ScoreRange(z, after), n), after)
         == Take(Past(z, after), if n <= Behind(z, after) then 0 else n - Behind(z, after))
  {
    var from, past := RangeSplits(z, after);
    var zs := Take(z[from..], n);
    assert forall i :: 0 <= i < |zs| ==> zs[i] == z[from + i];
    assert forall i :: 0 <= i < |zs| ==> (past - from <= i <==> !after.IsSet() || Older(zs[i], after));
    PastAt(zs, after, if past - from <= |zs| then past - from else |zs|);
  }

  /** counted, by which FeedItems widened the window, covers the entries behind the cursor, or the
      whole rest of the feed fits anyway. */
  predicate Enough(z: seq<Item>, after: Cursor, count: nat, counted: nat) {
    count == 0 || Past(z, after) == [] || counted >= Behind(z, after) || |Past(z, after)| <= count + counted - Behind(z, after)
  }

  /** What ZCOUNT of the cursor's time answers. */
  function Counted(z: seq<Item>, after: Cursor): nat { if after.IsSet() then Ties(z, after.t) else 0 }

  /** How far past the cursor a window of n reaches. */
  function Reach(z: seq<Item>, after: Cursor, n: int): nat { if n <= Behind(z, after) then 0 else n - Behind(z, after) }

  lemma FetchedIsCut(z: seq<Item>, after: Cursor, count: nat, counted: nat)
    requires Desc(z)
    ensures Fetched(z, after, count, counted) == Take(Take(Past(z, after), Reach(z, after, count + counted)), count)
  {
    PastOfWindow(z, after, count + counted);
    hide Past, ScoreRange, Desc, Behind;
  }

  lemma EnoughReach(z: seq<Item>, after: Cursor, count: nat, counted: nat)
    ensures Enough(z, after, count, counted) <==> count <= Reach(z, after, count + counted) || |Past(z, after)| <= Reach(z, after, count + counted)
  {
    hide Past, Behind;
  }

  /** FeedItems is exact precisely when the count it widened the window by covers the entries
      behind the cursor, or the whole rest of the feed fits anyway. */
  lemma {:induction false} ExactIff(z: seq<Item>, after: Cursor, count: nat, counted: nat)
    requires Desc(z)
    ensures Fetched(z, after, count, counted) == Take(Past(z, after), count)
       <==> Enough(z, after, count, counted)
  {
    hide Fetched, Past, Behind, ScoreRange, Desc, Take, Enough, Reach;
    FetchedIsCut(z, after, count, counted);
    EnoughReach(z, after, count, counted);
    TakeTwice(Past(z, after), Reach(z, after, count + counted), count);
  }

  lemma {:induction false} TiesCoverBehind(z: seq<Item>, from: nat, past: nat, t: int)
    requires from <= past <= |z| && forall i :: from <= i < past ==> z[i].createdAt == t
    ensures Ties(z, t) >= past - from
    decreases |z|
  {
    if past > 0 {
      var z' := z[1..];
      var f := if from == 0 then 0 else from - 1;
      assert forall i :: f <= i < past - 1 ==> z'[i] == z[i + 1];
      TiesCoverBehind(z', f, past - 1, t);
      assert from == 0 && past > 0 ==> z[0].createdAt == t;
    }
  }

  /** With no write between the two commands, fetching count plus the ties is always enough:
      FeedItems returns the first count entries past the cursor. */
  lemma {:induction false} FeedItemsExact(z: seq<Item>, after: Cursor, count: nat)
    requires Desc(z)
    ensures Fetched(z, after, count, Counted(z, after)) == Take(Past(z, after), count) && Enough(z, after, count, Counted(z, after))
  {
    var from, past := RangeSplits(z, after);
    if after.IsSet() {
      TiesCoverBehind(z, from, past, after.t);
    }
    ExactIff(z, after, count, Counted(z, after));
  }

  /** One tied entry ("d") added between ZCOUNT and ZRANGE is enough to lose the page's entry. */
  lemma {:induction false} StaleCountLosesAnEntry()
    ensures Fetched([Item("d", 7), Item("c", 6)], Cursor(7, "b"), 1, Ties([Item("c", 6)], 7)) == []
    ensures Past([Item("d", 7), Item("c", 6)], Cursor(7, "b")) == [Item("c", 6)]
  {
    var cur, w := Cursor(7, "b"), [Item("c", 6)];
    var z := [Item("d", 7)] + w;
    assert z == [Item("d", 7), Item("c", 6)] && z[1..] == w && w[1..] == [];
    Asymmetric("b", "d");
    assert Past(w, cur) == w && Past(z, cur) == w;
    assert AtMost(w, 7) == w && AtMost(z, 7) == z;
    assert Take(z, 1) == [Item("d", 7)] && z[..1][1..] == [];
  }

  // ── AddToFeeds ──

  /** The two commands that change a feed: ZADD and ZREMRANGEBYRANK 0 -(maxLen+1). */
  datatype Cmd = ZAdd(item: Item) | Trim(maxLen: nat)

  function Without(z: seq<Item>, id: string): seq<Item> {
    if z == [] then [] else (if z[0].id != id then [z[0]] else []) + Without(z[1..], id)
  }

  function Run(z: seq<Item>, c: Cmd): seq<Item> {
    match c
    case ZAdd(x) => Insert(x, Without(z, x.id))
    case Trim(n) => Take(z, n)
  }

  function Replay(log: seq<Cmd>): seq<Item> {
    if log == [] then [] else Run(Replay(log[..|log| - 1]), log[|log| - 1])
  }

  function Added(log: seq<Cmd>): set<Item> {
    set c | c in log && c.ZAdd? :: c.item
  }

  /** A command some pipeline had run on a user's feed. */
  datatype Act = Act(worker: nat, user: string, cmd: Cmd)

  /** What one feed saw, and what one pipeline did. */
  function LogOf(acts: seq<Act>, u: string): seq<Cmd> {
    if acts == [] then []
    else LogOf(acts[..|acts| - 1], u) + (if acts[|acts| - 1].user == u then [acts[|acts| - 1].cmd] else [])
  }

  function By(w: nat): Act -> bool { (a: Act) => a.worker == w }

  function Own(acts: seq<Act>, w: nat): seq<Act> { Traces.Own(acts, By(w)) }

  lemma Snoc(acts: seq<Act>, a: Act)
    ensures forall u :: LogOf(acts + [a], u) == LogOf(acts, u) + (if a.user == u then [a.cmd] else [])
    ensures forall w: nat :: Own(acts + [a], w) == Own(acts, w) + (if a.worker == w then [a] else [])
  {
    assert (acts + [a])[..|acts|] == acts;
    forall w: nat ensures Own(acts + [a], w) == Own(acts, w) + (if a.worker == w then [a] else []) {
      Traces.OwnSnoc(acts, a, By(w));
    }
  }

  lemma {:induction false} LogGrows(acts: seq<Act>, later: seq<Act>, u: string)
    requires acts <= later
    ensures LogOf(acts, u) <= LogOf(later, u)
    decreases |later|
  {
    if acts != later {
      LogGrows(acts, later[..|later| - 1], u);
    }
  }

  /** From position from on, the feed got the item and was trimmed after that. */
  ghost predicate Got(log: seq<Cmd>, from: nat, item: Item, maxLen: nat) {
    exists i, j :: from <= i < j < |log| && log[i] == ZAdd(item) && log[j] == Trim(maxLen)
  }

  ghost predicate AllGot(before: seq<Act>, now: seq<Act>, users: seq<string>, item: Item, maxLen: nat) {
    forall u :: u in users ==> Got(LogOf(now, u), |LogOf(before, u)|, item, maxLen)
  }

  lemma GotStays(log: seq<Cmd>, later: seq<Cmd>, from: nat, earlier: nat, item: Item, maxLen: nat)
    requires Got(log, from, item, maxLen) && log <= later && earlier <= from
    ensures Got(later, earlier, item, maxLen)
  {
    var i, j :| from <= i < j < |log| && log[i] == ZAdd(item) && log[j] == Trim(maxLen);
    assert later[i] == ZAdd(item) && later[j] == Trim(maxLen);
  }

  lemma AllGotStays(before: seq<Act>, mid: seq<Act>, now: seq<Act>, later: seq<Act>, users: seq<string>, item: Item, maxLen: nat)
    requires AllGot(mid, now, users, item, maxLen) && before <= mid && now <= later
    ensures AllGot(before, later, users, item, maxLen)
  {
    forall u | u in users ensures Got(LogOf(later, u), |LogOf(before, u)|, item, maxLen) {
      LogGrows(before, mid, u);
      LogGrows(now, later, u);
      GotStays(LogOf(now, u), LogOf(later, u), |LogOf(mid, u)|, |LogOf(before, u)|, item, maxLen);
    }
  }

  /** The commands of one pipeline, in order. */
  function Pair(w: nat, u: string, item: Item, maxLen: nat): seq<Act> {
    [Act(w, u, ZAdd(item)), Act(w, u, Trim(maxLen))]
  }

  function Plan(w: nat, followers: seq<string>, item: Item, maxLen: nat): seq<Act> {
    if followers == [] then []
    else Plan(w, followers[..|followers| - 1], item, maxLen) + Pair(w, followers[|followers| - 1], item, maxLen)
  }

  lemma {:induction false} PlanParts(w: nat, followers: seq<string>, item: Item, maxLen: nat, i: nat)
    requires i < |followers|
    ensures |Plan(w, followers, item, maxLen)| == 2 * |followers| && |Plan(w, followers[..i], item, maxLen)| == 2 * i
    ensures Plan(w, followers[..i], item, maxLen) + Pair(w, followers[i], item, maxLen) == Plan(w, followers[..i + 1], item, maxLen)
         <= Plan(w, followers, item, maxLen)
    decreases |followers|
  {
    var rest := followers[..|followers| - 1];
    if i < |rest| {
      PlanParts(w, rest, item, maxLen, i);
      assert rest[..i] == followers[..i] && rest[..i + 1] == followers[..i + 1];
    } else {
      assert followers[..i + 1] == followers && rest == followers[..i];
      if |rest| > 0 {
        PlanParts(w, rest, item, maxLen, 0);
      }
    }
  }

  function FeedOf(feeds: map<string, seq<Item>>, u: string): seq<Item> { if u in feeds then feeds[u] else [] }

  /** Every stored feed is what its log leaves. */
  ghost predicate Held(feeds: map<string, seq<Item>>, acts: seq<Act>) {
    forall u :: FeedOf(feeds, u) == Replay(LogOf(acts, u))
  }

  lemma RunHeld(feeds: map<string, seq<Item>>, acts: seq<Act>, a: Act)
    requires Held(feeds, acts)
    ensures Held(feeds[a.user := Run(FeedOf(feeds, a.user), a.cmd)], acts + [a])
  {
    Snoc(acts, a);
    hide Run, LogOf;
    var l := LogOf(acts, a.user);
    assert (l + [a.cmd])[..|l|] == l && Replay(l + [a.cmd]) == Run(Replay(l), a.cmd);
    hide Replay;
    var feeds', acts' := feeds[a.user := Run(FeedOf(feeds, a.user), a.cmd)], acts + [a];
    forall u ensures FeedOf(feeds', u) == Replay(LogOf(acts', u)) {
      assert FeedOf(feeds, u) == Replay(LogOf(acts, u));
      if u != a.user {
        assert LogOf(acts', u) == LogOf(acts, u);
      }
    }
  }

  class Feeds {
    var feeds: map<string, seq<Item>>
    /** Every command the servers ran, in order. */
    ghost var acts: seq<Act>

    ghost predicate Valid() reads this { Held(feeds, acts) }

    constructor ()
      ensures Valid() && feeds == map[] && acts == []
    {
      feeds, acts := map[], [];
    }

    method Exec(w: nat, u: string, c: Cmd)
      requires Valid()
      modifies this
      ensures Valid() && acts == old(acts) + [Act(w, u, c)]
      ensures feeds == old(feeds)[u := Run(FeedOf(old(feeds), u), c)]
      ensures Own(acts, w) == Own(old(acts), w) + [Act(w, u, c)] && LogOf(acts, u) == LogOf(old(acts), u) + [c]
    {
      Snoc(acts, Act(w, u, c));
      RunHeld(feeds, acts, Act(w, u, c));
      acts := acts + [Act(w, u, c)];
      feeds := feeds[u := Run(FeedOf(feeds, u), c)];
    }

    /** Every other pipeline moves: the commands of a pipeline are not a transaction. */
    method Others(w: nat)
      requires Valid()
      modifies this
      ensures Valid() && old(acts) <= acts && Own(acts, w) == Own(old(acts), w)
    {
    }

    /** The commands for one follower, as far as the pipeline got. */
    method Deliver(w: nat, u: string, item: Item, maxLen: nat, budget: nat) returns (ran: nat)
      requires Valid()
      modifies this
      ensures Valid() && old(acts) <= acts && ran == (if budget < 2 then budget else 2)
      ensures Own(acts, w) == Own(old(acts), w) + Pair(w, u, item, maxLen)[..ran]
      ensures ran == 2 ==> Got(LogOf(acts, u), |LogOf(old(acts), u)|, item, maxLen)
    {
      hide Held, LogOf, Own, Got;
      ran := 0;
      Others(w);
      if budget > 0 {
        ghost var a := acts;
        Exec(w, u, ZAdd(item));
        ran := 1;
        ghost var b := acts;
        Others(w);
        if budget > 1 {
          ghost var c := acts;
          Exec(w, u, Trim(maxLen));
          ran := 2;
          DeliveredPair(old(acts), a, b, c, acts, w, u, item, maxLen);
        }
      }
    }

    /** One pipeline. The server runs its commands in order and may stop anywhere (reached is how
        many it ran); the reply may be lost as well. The pipeline's own commands are exactly that
        prefix of its plan, whatever others run in between; when the call reports success every
        follower's feed got the item and was trimmed afterwards. */
    method AddToFeeds(w: nat, followers: seq<string>, item: Item, maxLen: nat, reached: nat, replied: bool)
      returns (ok: bool)
      requires Valid()
      modifies this
      ensures Valid() && old(acts) <= acts
      ensures ok <==> replied && reached >= 2 * |followers|
      ensures var plan := Plan(w, followers, item, maxLen);
        Own(acts, w) == Own(old(acts), w) + plan[..if reached < |plan| then reached else |plan|]
      ensures ok ==> AllGot(old(acts), acts, followers, item, maxLen)
    {
      hide Held, LogOf, Own, Got, AllGot, Plan, Pair;
      var ran := 0;
      ghost var was := acts;
      PlanLength(w, followers, item, maxLen);
      NothingYet(was, w, followers, item, maxLen);
      for i := 0 to |followers|
        invariant Valid() && was <= acts && ran == 2 * i <= reached
        invariant Own(acts, w) == Own(was, w) + Plan(w, followers[..i], item, maxLen)
        invariant AllGot(was, acts, followers[..i], item, maxLen)
      {
        ghost var mid := acts;
        var n := Deliver(w, followers[i], item, maxLen, reached - ran);
        ran := ran + n;
        PlanCut(w, followers, item, maxLen, i, n);
        assert Own(acts, w) == Own(was, w) + Plan(w, followers, item, maxLen)[..2 * i + n];
        if n < 2 {
          return false;
        }
        PlanPrefix(w, followers, item, maxLen, i);
        GotOneMore(was, mid, acts, followers, i, item, maxLen);
      }
      assert followers[..|followers|] == followers;
      ok := replied;
    }
  }

  /** The states around the two commands of a delivery. */
  lemma DeliveredPair(before: seq<Act>, a: seq<Act>, b: seq<Act>, c: seq<Act>, now: seq<Act>, w: nat, u: string, item: Item, maxLen: nat)
    requires before <= a && b == a + [Act(w, u, ZAdd(item))] && b <= c && now == c + [Act(w, u, Trim(maxLen))]
    ensures Got(LogOf(now, u), |LogOf(before, u)|, item, maxLen)
  {
    Snoc(a, Act(w, u, ZAdd(item)));
    Snoc(c, Act(w, u, Trim(maxLen)));
    LogGrows(before, a, u);
    LogGrows(b, c, u);
    PairGot(LogOf(a, u), LogOf(c, u), |LogOf(before, u)|, item, maxLen);
  }

  lemma PairGot(first: seq<Cmd>, second: seq<Cmd>, from: nat, item: Item, maxLen: nat)
    requires from <= |first| && first + [ZAdd(item)] <= second
    ensures Got(second + [Trim(maxLen)], from, item, maxLen)
  {
    var log := second + [Trim(maxLen)];
    assert log[|first|] == (first + [ZAdd(item)])[|first|] == ZAdd(item) && log[|second|] == Trim(maxLen);
  }

  lemma NothingYet(acts: seq<Act>, w: nat, followers: seq<string>, item: Item, maxLen: nat)
    ensures AllGot(acts, acts, followers[..0], item, maxLen) && Plan(w, followers[..0], item, maxLen) == []
  {
  }

  lemma PlanLength(w: nat, followers: seq<string>, item: Item, maxLen: nat)
    ensures |Plan(w, followers, item, maxLen)| == 2 * |followers|
  {
    if followers != [] {
      PlanParts(w, followers, item, maxLen, 0);
    }
  }

  lemma PlanPrefix(w: nat, followers: seq<string>, item: Item, maxLen: nat, i: nat)
    requires i < |followers|
    ensures |Plan(w, followers, item, maxLen)| >= 2 * i + 2
    ensures Plan(w, followers[..i + 1], item, maxLen) == Plan(w, followers, item, maxLen)[..2 * i + 2]
  {
    PlanParts(w, followers, item, maxLen, i);
  }

  lemma PlanCut(w: nat, followers: seq<string>, item: Item, maxLen: nat, i: nat, n: nat)
    requires i < |followers| && n <= 2
    ensures 2 * i + n <= |Plan(w, followers, item, maxLen)|
    ensures Plan(w, followers[..i], item, maxLen) + Pair(w, followers[i], item, maxLen)[..n] == Plan(w, followers, item, maxLen)[..2 * i + n]
  {
    PlanParts(w, followers, item, maxLen, i);
    var whole, head, pair := Plan(w, followers, item, maxLen), Plan(w, followers[..i], item, maxLen), Pair(w, followers[i], item, maxLen);
    assert head + pair == whole[..2 * i + 2];
    assert (head + pair)[..2 * i + n] == head + pair[..n];
  }

  lemma GotOneMore(was: seq<Act>, mid: seq<Act>, now: seq<Act>, followers: seq<string>, i: nat, item: Item, maxLen: nat)
    requires i < |followers| && was <= mid <= now && AllGot(was, mid, followers[..i], item, maxLen)
    requires Got(LogOf(now, followers[i]), |LogOf(mid, followers[i])|, item, maxLen)
    ensures AllGot(was, now, followers[..i + 1], item, maxLen)
  {
    AllGotStays(was, was, mid, now, followers[..i], item, maxLen);
    forall u | u in followers[..i + 1] ensures Got(LogOf(now, u), |LogOf(was, u)|, item, maxLen) {
      if u == followers[i] {
        LogGrows(was, mid, u);
        GotStays(LogOf(now, u), LogOf(now, u), |LogOf(mid, u)|, |LogOf(was, u)|, item, maxLen);
      } else {
        assert u in followers[..i];
      }
    }
  }

  // ── streaming top-K is batch top-K ──

  /** Everything ever added, sorted: the feed an offline rebuild would produce before cutting. */
  function Batch(log: seq<Cmd>): seq<Item> {
    if log == [] then []
    else
      var before, c := Batch(log[..|log| - 1]), log[|log| - 1];
      if c.ZAdd? && c.item !in before then Insert(c.item, before) else before
  }

  lemma {:induction false} BatchIsSorted(log: seq<Cmd>)
    ensures Desc(Batch(log)) && Elems(Batch(log)) == Added(log)
  {
    if log != [] {
      var l, c := log[..|log| - 1], log[|log| - 1];
      BatchIsSorted(l);
      assert log == l + [c];
      assert Added(log) == Added(l) + (if c.ZAdd? then {c.item} else {});
      if c.ZAdd? && c.item !in Batch(l) {
        InsertSorts(c.item, Batch(l));
      } else if c.ZAdd? {
        assert c.item in Elems(Batch(l));
      }
    }
  }

  lemma {:induction false} WithoutElems(z: seq<Item>, id: string)
    requires Desc(z)
    ensures Desc(Without(z, id))
    ensures forall x :: x in Without(z, id) <==> x in z && x.id != id
  {
    if z != [] {
      WithoutElems(z[1..], id);
      assert z == [z[0]] + z[1..];
      assert forall x :: x in Without(z[1..], id) ==> Newer(z[0], x);
    }
  }

  ghost predicate TrimsTo(log: seq<Cmd>, k: nat) {
    forall c :: c in log && c.Trim? ==> c.maxLen == k
  }

  lemma ZAddSorts(z: seq<Item>, x: Item)
    requires Desc(z)
    ensures Desc(Run(z, ZAdd(x)))
    ensures forall y :: y in Run(z, ZAdd(x)) <==> y == x || (y in z && y.id != x.id)
  {
    WithoutElems(z, x.id);
    var w := Without(z, x.id);
    InsertSorts(x, w);
    assert forall y :: y in Insert(x, w) <==> y in Elems(Insert(x, w));
    assert forall y :: y in w <==> y in Elems(w);
  }

  /** The newest k entries a feed stores are always the newest k ever added to it. */
  lemma {:induction false} NewestKept(log: seq<Cmd>, k: nat)
    requires TrimsTo(log, k) && OneTime(Added(log))
    ensures Desc(Replay(log)) && Elems(Replay(log)) <= Added(log)
    ensures Take(Replay(log), k) == Take(Batch(log), k)
  {
    if log != [] {
      var l, c := log[..|log| - 1], log[|log| - 1];
      assert log == l + [c];
      assert Added(log) == Added(l) + (if c.ZAdd? then {c.item} else {});
      NewestKept(l, k);
      BatchIsSorted(l);
      BatchIsSorted(log);
      var z, all, earlier := Replay(l), Batch(log), Batch(l);
      assert forall y :: y in z <==> y in Elems(z);
      assert forall y :: y in all <==> y in Elems(all);
      if c.ZAdd? {
        ZAddSorts(z, c.item);
        var z' := Run(z, c);
        forall i | 0 <= i < k && i < |all| ensures all[i] in z' {
          if all[i] != c.item {
            assert all[i] in Elems(earlier);
            var j :| 0 <= j < |earlier| && earlier[j] == all[i];
            assert forall y :: y in earlier <==> y in Elems(earlier);
            RankAtLeast(earlier, all, j, i);
            assert Take(earlier, k)[j] == all[i];
            assert all[i] in z;
            assert all[i] in Added(log) && c.item in Added(log);
          }
        }
        SameWindow(z', all, k);
      }
    }
  }

  /** Streaming top-K equals batch top-K: after any deliveries, in any order, with redeliveries
      and interrupted pipelines, a feed whose last command was the trim is exactly the newest k
      distinct items delivered to it, whichever way these are enumerated. */
  lemma {:induction false} StreamingIsBatch(log: seq<Cmd>, k: nat, all: seq<Item>)
    requires log != [] && log[|log| - 1] == Trim(k)
    requires TrimsTo(log, k) && OneTime(Added(log))
    requires Desc(all) && Elems(all) == Added(log)
    ensures Replay(log) == Take(all, k)
  {
    NewestKept(log, k);
    BatchIsSorted(log);
    SortedUnique(all, Batch(log));
  }

  /** s[i] has at least i newer entries before it. */
  lemma {:induction false} RankIsIndex(s: seq<Item>, i: nat) returns (newer: set<Item>)
    requires Desc(s) && i < |s|
    ensures |newer| == i && forall x :: x in newer ==> x in s && Newer(x, s[i])
    ensures forall x :: x in newer ==> exists j :: 0 <= j < i && s[j] == x
  {
    if i == 0 {
      newer := {};
    } else {
      var before := RankIsIndex(s, i - 1);
      if s[i - 1] in before {
        NewerStrict(s[i - 1], s[i - 1]);
        assert false;
      }
      newer := before + {s[i - 1]};
    }
  }

  lemma SubsetSize<T>(a: set<T>, b: set<T>)
    requires a <= b
    ensures |a| <= |b|
  {
    assert b == a + (b - a);
  }

  /** A feed that got an item has it in front as long as fewer than k of everything ever added are
      newer, however many other deliveries came before, in between or after. */
  lemma {:induction false} DeliveredStaysInFront(log: seq<Cmd>, from: nat, item: Item, k: nat)
    requires Got(log, from, item, k) && TrimsTo(log, k) && OneTime(Added(log))
    requires |set x | x in Added(log) && Newer(x, item)| < k
    ensures item in Take(Replay(log), k) && Take(Replay(log), k) == Take(Batch(log), k)
  {
    NewestKept(log, k);
    BatchIsSorted(log);
    var i, j :| from <= i < j < |log| && log[i] == ZAdd(item) && log[j] == Trim(k);
    assert log[i] in log && item in Added(log);
    var all := Batch(log);
    assert item in Elems(all);
    var r :| 0 <= r < |all| && all[r] == item;
    var newer := RankIsIndex(all, r);
    forall x | x in newer ensures x in Added(log) {
      assert x in Elems(all);
    }
    SubsetSize(newer, set x | x in Added(log) && Newer(x, item));
    assert Take(all, k)[r] == item;
  }
}
