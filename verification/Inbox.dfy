/** ListConversations: a user's inbox, most recently active first, cut by the position
    (last_message_at, conversation_id) of the last entry shown. */
module Inbox {
  import opened Order
  import opened FeedPlan
  import Messages

  /** The members rows that join a conversation and its last message; an entry's time is
      last_message_at. */
  function Entries(t: Messages.Table, user: string): set<Item> {
    set id | id in t && user in t[id].read && t[id].lastAt != 0 && t[id].lastSeq in t[id].msgs :: Item(id, t[id].lastAt)
  }

  ghost predicate Sorted(s: seq<Item>, of: set<Item>) { Desc(s) && Elems(s) == of }

  /** The newest entry of a set. */
  lemma {:induction false} NewestOf(items: set<Item>) returns (m: Item)
    requires items != {}
    ensures m in items && forall x :: x in items ==> x == m || Newer(m, x)
  {
    var x :| x in items;
    var rest := items - {x};
    if rest == {} {
      m := x;
      assert forall y :: y in items ==> y == x || y in rest;
    } else {
      var r := NewestOf(rest);
      NewerTotal(x, r);
      m := if Newer(x, r) then x else r;
      forall y | y in items ensures y == m || Newer(m, y) {
        if y != x && y != r && Newer(x, r) {
          NewerTransitive(x, r, y);
        }
      }
    }
  }

  lemma {:induction false} SortedExists(items: set<Item>)
    ensures exists s :: Sorted(s, items)
    decreases |items|
  {
    if items == {} {
      assert Sorted([], items);
    } else {
      var m := NewestOf(items);
      SortedExists(items - {m});
      var s :| Sorted(s, items - {m});
      var r := [m] + s;
      forall x ensures x in Elems(r) <==> x in items {
        assert x in Elems(s) <==> x in items - {m};
      }
      assert forall i :: 0 <= i < |s| ==> s[i] in Elems(s);
      assert Sorted(r, items);
    }
  }

  /** The whole inbox. */
  ghost function All(t: Messages.Table, user: string): (s: seq<Item>)
    ensures Sorted(s, Entries(t, user))
  {
    SortedExists(Entries(t, user));
    var s :| Sorted(s, Entries(t, user));
    s
  }

  /** Every conversation of the user with a message is listed, because the message at its last_seq is
      there to join, and its unread count is not negative. */
  lemma {:induction false} InboxIsComplete(t: Messages.Table, user: string, id: string)
    requires Messages.Inv(t) && id in t && user in t[id].read
    ensures t[id].lastSeq > 0 <==> Item(id, t[id].lastAt) in Entries(t, user)
    ensures t[id].lastSeq - t[id].read[user] >= 0
  {
    assert Messages.Good(id, t[id]);
  }

  // ── one page ──

  /** A line of the inbox. */
  datatype Line = Line(e: Item, withUser: string, lastSeq: nat, content: string, sender: string, unread: int)

  function LineOf(t: Messages.Table, user: string, e: Item): Line
    requires e in Entries(t, user)
  {
    var c := t[e.id];
    Line(e, Messages.OtherParticipant(e.id, user), c.lastSeq, c.msgs[c.lastSeq].content, c.msgs[c.lastSeq].sender, c.lastSeq - c.read[user])
  }

  /** The line shows the entry, its conversation's last message, and how many messages follow the user's
      read position. */
  ghost predicate Shows(l: Line, t: Messages.Table, user: string, e: Item) {
    e.id in t && user in t[e.id].read && t[e.id].lastSeq in t[e.id].msgs &&
    var c := t[e.id];
    && l.e == e && e.createdAt == c.lastAt && l.lastSeq == c.lastSeq && l.unread + c.read[user] == c.lastSeq
    && l.content == c.msgs[c.lastSeq].content && l.sender == c.msgs[c.lastSeq].sender
    && forall other :: Messages.UserId(user) && Messages.UserId(other) && e.id == Messages.ConversationID(user, other) ==> l.withUser == other
  }

  lemma LineShows(t: Messages.Table, user: string, e: Item)
    requires e in Entries(t, user)
    ensures Shows(LineOf(t, user, e), t, user, e)
  {
    forall other | Messages.UserId(user) && Messages.UserId(other) && e.id == Messages.ConversationID(user, other)
      ensures Messages.OtherParticipant(e.id, user) == other
    {
      Messages.ConversationOfPair(user, other);
    }
  }

  /** pagecursor.Limit(limit, 20, 100) */
  function PageLimit(requested: int): (n: nat)
    ensures 1 <= n <= 100 && (1 <= requested <= 100 ==> n == requested) && (requested <= 0 ==> n == 20) && (requested > 100 ==> n == 100)
  {
    if requested <= 0 then 20 else if requested > 100 then 100 else requested
  }

  const START := Cursor(0, "")

  /** What is shown from a position, and where the next page starts. */
  ghost function PageAt(t: Messages.Table, user: string, cur: Cursor, limit: nat): seq<Item> { Take(Past(All(t, user), cur), limit) }

  ghost function NextAt(t: Messages.Table, user: string, cur: Cursor, limit: nat): Cursor {
    if limit > 0 && |Past(All(t, user), cur)| > limit then CursorOf(Past(All(t, user), cur)[limit - 1]) else START
  }

  /** The query: entries past the position, newest first, n at most. */
  method Scan(t: Messages.Table, user: string, cur: Cursor, n: nat) returns (got: seq<Item>)
    ensures got == Take(Past(All(t, user), cur), n)
  {
    got := [];
    var left := set e | e in Entries(t, user) && (!cur.IsSet() || Older(e, cur));
    ghost var base := left;
    while left != {} && |got| < n
      invariant |got| <= n && Desc(got) && left <= base
      invariant forall x :: x in base <==> x in got || x in left
      invariant forall i, x :: 0 <= i < |got| && x in left ==> Newer(got[i], x)
      decreases n - |got|
    {
      ghost var top := NewestOf(left);
      var m :| m in left && forall x :: x in left ==> x == m || Newer(m, x);
      left := left - {m};
      got := got + [m];
    }
    ScannedWindow(t, user, cur, n, base, left, got);
  }

  lemma ScannedWindow(t: Messages.Table, user: string, cur: Cursor, n: nat, base: set<Item>, left: set<Item>, got: seq<Item>)
    requires base == (set e | e in Entries(t, user) && (!cur.IsSet() || Older(e, cur))) && Desc(got) && |got| <= n
    requires forall x :: x in base <==> x in got || x in left
    requires forall i, x :: 0 <= i < |got| && x in left ==> Newer(got[i], x)
    requires left == {} || |got| == n
    ensures got == Take(Past(All(t, user), cur), n)
  {
    var all := All(t, user);
    var k := PastIsSuffix(all, cur);
    var past := Past(all, cur);
    forall x ensures x in past <==> x in base {
      PastElems(all, cur, x);
      assert x in all <==> x in Elems(all);
    }
    forall i | 0 <= i < n && i < |past| ensures past[i] in got {
      InWindow(past, got, left, n, i);
    }
    SameWindow(got, past, n);
    assert Take(got, n) == got;
  }

  /** What is not in the window has the whole window ahead of it. */
  lemma {:induction false} InWindow(past: seq<Item>, got: seq<Item>, left: set<Item>, n: nat, i: nat)
    requires Desc(past) && Desc(got) && i < n && i < |past| && (left == {} || |got| == n)
    requires forall x :: x in past <==> x in got || x in left
    requires forall j, x :: 0 <= j < |got| && x in left ==> Newer(got[j], x)
    ensures past[i] in got
  {
    if past[i] !in got {
      assert past[i] in past && past[i] in left;
      var longer := got + [past[i]];
      RankAtLeast(longer, past, n, i);
    }
  }

  /** ListConversations. */
  method ListConversations(t: Messages.Table, user: string, requested: int, cur: Cursor) returns (lines: seq<Line>, next: Cursor)
    ensures var limit := PageLimit(requested);
      var page := PageAt(t, user, cur, limit);
      && (forall e :: e in page ==> e in Entries(t, user)) && next == NextAt(t, user, cur, limit) && |lines| == |page|
      && forall i :: 0 <= i < |lines| ==> Shows(lines[i], t, user, page[i])
    ensures forall i, j :: 0 <= i < j < |lines| ==>
      lines[i].e.createdAt > lines[j].e.createdAt || (lines[i].e.createdAt == lines[j].e.createdAt && Less(lines[j].e.id, lines[i].e.id))
  {
    var limit := PageLimit(requested);
    var got := Scan(t, user, cur, limit + 1);
    ScannedEntries(t, user, cur, limit + 1);
    ScannedOrder(t, user, cur, limit + 1);
    lines, next := [], START;
    for i := 0 to |got|
      invariant |lines| == i <= limit && next == START
      invariant forall j :: 0 <= j < i ==> Shows(lines[j], t, user, got[j])
    {
      if i == limit {
        next := CursorOf(got[limit - 1]);
        break;
      }
      LineShows(t, user, got[i]);
      lines := lines + [LineOf(t, user, got[i])];
    }
  }

  lemma ScannedOrder(t: Messages.Table, user: string, cur: Cursor, n: nat)
    ensures Desc(Take(Past(All(t, user), cur), n))
  {
    var _ := PastIsSuffix(All(t, user), cur);
  }

  lemma ScannedEntries(t: Messages.Table, user: string, cur: Cursor, n: nat)
    ensures forall e :: e in Take(Past(All(t, user), cur), n) ==> e in Entries(t, user)
  {
    forall e | e in Take(Past(All(t, user), cur), n) ensures e in Entries(t, user) {
      PastElems(All(t, user), cur, e);
      assert e in Elems(All(t, user));
    }
  }

  // ── scrolling ──

  /** Following NextCursor; ts is the table as each request finds it. */
  ghost function Scroll(ts: seq<Messages.Table>, user: string, cur: Cursor, limit: nat): seq<Item>
    decreases |ts|
  {
    if ts == [] then []
    else
      var next := NextAt(ts[0], user, cur, limit);
      PageAt(ts[0], user, cur, limit) + if next.IsSet() then Scroll(ts[1..], user, next, limit) else []
  }

  ghost predicate ReachedEnd(ts: seq<Messages.Table>, user: string, cur: Cursor, limit: nat)
    decreases |ts|
  {
    ts != [] && var next := NextAt(ts[0], user, cur, limit);
    next.IsSet() ==> ReachedEnd(ts[1..], user, next, limit)
  }

  ghost predicate NamedIds(t: Messages.Table) { "" !in t }

  /** An entry past the position that every request finds. */
  ghost predicate Stays(ts: seq<Messages.Table>, user: string, cur: Cursor, e: Item) {
    (!cur.IsSet() || Older(e, cur)) && forall i :: 0 <= i < |ts| ==> e in Entries(ts[i], user)
  }

  ghost predicate Listed(ts: seq<Messages.Table>, user: string, e: Item) {
    exists i :: 0 <= i < |ts| && e in Entries(ts[i], user)
  }

  lemma CutSplits(past: seq<Item>, limit: nat, e: Item)
    requires Desc(past) && |past| > limit >= 1
    ensures var page, after := past[..limit], CursorOf(past[limit - 1]);
      (e in page ==> !Older(e, after)) && (e in past ==> e in page || Older(e, after))
  {
    var last := past[limit - 1];
    OlderIsNewer(last, e);
    if e in past[..limit] {
      var i :| 0 <= i < limit && past[i] == e;
      NewerStrict(last, past[i]);
    } else if e in past {
      assert past == past[..limit] + past[limit..];
      var i :| 0 <= i < |past[limit..]| && past[limit..][i] == e;
      assert past[limit + i] == e;
    }
  }

  /** A page and what comes after it: everything past the position is on the page or past its end. */
  lemma PageSplits(t: Messages.Table, user: string, cur: Cursor, limit: nat, e: Item)
    requires NamedIds(t) && limit >= 1
    ensures var page, next := PageAt(t, user, cur, limit), NextAt(t, user, cur, limit);
      && Desc(page) && (e in page ==> e in Entries(t, user) && (!cur.IsSet() || Older(e, cur)) && (next.IsSet() ==> !Older(e, next)))
      && (next.IsSet() ==> page != [] && next == CursorOf(page[|page| - 1]) && (!cur.IsSet() || Older(page[|page| - 1], cur)))
      && (e in Entries(t, user) && (!cur.IsSet() || Older(e, cur)) ==> e in page || (next.IsSet() && Older(e, next)))
  {
    hide Older, Entries, NamedIds, Past, All;
    var all := All(t, user);
    var k := PastIsSuffix(all, cur);
    var past := Past(all, cur);
    assert e in all <==> e in Elems(all);
    PastElems(all, cur, e);
    if |past| > limit {
      var last := past[limit - 1];
      PastElems(all, cur, last);
      assert last in Elems(all);
      NamedEntry(t, user, last);
      CutSplits(past, limit, e);
    }
  }

  lemma NamedEntry(t: Messages.Table, user: string, e: Item)
    requires NamedIds(t) && e in Entries(t, user)
    ensures CursorOf(e).IsSet()
  {
  }

  /** The tables a scroll reads. */
  ghost predicate AllNamed(ts: seq<Messages.Table>) { forall i :: 0 <= i < |ts| ==> NamedIds(ts[i]) }

  lemma OlderThanLast(last: Item, e: Item, cur: Cursor)
    requires Older(e, CursorOf(last)) && (!cur.IsSet() || Older(last, cur))
    ensures !cur.IsSet() || Older(e, cur)
  {
    OlderIsNewer(last, e);
    if cur.IsSet() {
      OlderThanOlder(last, e, cur);
    }
  }

  lemma ListedLater(ts: seq<Messages.Table>, user: string, e: Item)
    requires ts != [] && Listed(ts[1..], user, e)
    ensures Listed(ts, user, e)
  {
    var i :| 0 <= i < |ts[1..]| && e in Entries(ts[1..][i], user);
    assert e in Entries(ts[i + 1], user);
  }

  lemma {:induction false} ScrollInvents(ts: seq<Messages.Table>, user: string, cur: Cursor, limit: nat, e: Item)
    requires limit >= 1 && AllNamed(ts) && e in Scroll(ts, user, cur, limit)
    ensures Listed(ts, user, e) && (!cur.IsSet() || Older(e, cur))
    decreases |ts|
  {
    var page, next := PageAt(ts[0], user, cur, limit), NextAt(ts[0], user, cur, limit);
    PageSplits(ts[0], user, cur, limit, e);
    hide PageAt, NextAt, Older, Entries;
    if e in page {
      assert e in Entries(ts[0], user);
    } else {
      assert e in Scroll(ts[1..], user, next, limit);
      ScrollInvents(ts[1..], user, next, limit, e);
      ListedLater(ts, user, e);
      OlderThanLast(page[|page| - 1], e, cur);
    }
  }

  lemma {:induction false} ScrollDescends(ts: seq<Messages.Table>, user: string, cur: Cursor, limit: nat)
    requires limit >= 1 && AllNamed(ts)
    ensures Desc(Scroll(ts, user, cur, limit))
    decreases |ts|
  {
    if ts != [] {
      var page, next := PageAt(ts[0], user, cur, limit), NextAt(ts[0], user, cur, limit);
      PageSplits(ts[0], user, cur, limit, Item("", 0));
      hide PageAt, NextAt, Older, Entries;
      if next.IsSet() {
        var rest, last := Scroll(ts[1..], user, next, limit), page[|page| - 1];
        ScrollDescends(ts[1..], user, next, limit);
        forall i, j | 0 <= i < |page| && 0 <= j < |rest| ensures Newer(page[i], rest[j]) {
          ScrollInvents(ts[1..], user, next, limit, rest[j]);
          OlderIsNewer(last, rest[j]);
          if i < |page| - 1 {
            NewerTransitive(page[i], last, rest[j]);
          }
        }
        assert Scroll(ts, user, cur, limit) == page + rest;
      } else {
        assert Scroll(ts, user, cur, limit) == page + [];
      }
    }
  }

  lemma {:induction false} ScrollCovers(ts: seq<Messages.Table>, user: string, cur: Cursor, limit: nat, e: Item)
    requires limit >= 1 && AllNamed(ts) && ReachedEnd(ts, user, cur, limit) && Stays(ts, user, cur, e)
    ensures e in Scroll(ts, user, cur, limit)
    decreases |ts|
  {
    var page, next := PageAt(ts[0], user, cur, limit), NextAt(ts[0], user, cur, limit);
    PageSplits(ts[0], user, cur, limit, e);
    hide PageAt, NextAt, Older, Entries;
    if e !in page {
      assert Stays(ts[1..], user, next, e);
      ScrollCovers(ts[1..], user, next, limit, e);
    }
  }

  /** Scrolling to the end, whatever is sent meanwhile: newest first and nothing twice, only entries
      that some request found, and every entry that stayed. A conversation that moves to the top
      while the client scrolls is one that did not stay. */
  lemma {:induction false} ScrollShowsWhatStays(ts: seq<Messages.Table>, user: string, limit: nat, e: Item)
    requires limit >= 1 && AllNamed(ts) && ReachedEnd(ts, user, START, limit)
    ensures Desc(Scroll(ts, user, START, limit))
    ensures e in Scroll(ts, user, START, limit) ==> Listed(ts, user, e)
    ensures Stays(ts, user, START, e) ==> e in Scroll(ts, user, START, limit)
  {
    ScrollDescends(ts, user, START, limit);
    if e in Scroll(ts, user, START, limit) {
      ScrollInvents(ts, user, START, limit, e);
    } else if Stays(ts, user, START, e) {
      ScrollCovers(ts, user, START, limit, e);
    }
  }

  lemma NextPast(t: Messages.Table, user: string, cur: Cursor, limit: nat)
    requires NamedIds(t) && limit >= 1 && NextAt(t, user, cur, limit).IsSet()
    ensures |Past(All(t, user), NextAt(t, user, cur, limit))| == |Past(All(t, user), cur)| - limit
  {
    var all := All(t, user);
    var k := PastIsSuffix(all, cur);
    assert all[k + limit - 1] in Elems(all);
    CursorCuts(all, k + limit - 1);
  }

  lemma {:induction false} ScrollEnds(t: Messages.Table, n: nat, user: string, cur: Cursor, limit: nat)
    requires limit >= 1 && NamedIds(t) && n >= 1 && |Past(All(t, user), cur)| <= n * limit
    ensures ReachedEnd(seq(n, i => t), user, cur, limit)
    decreases n
  {
    var ts, next := seq(n, i => t), NextAt(t, user, cur, limit);
    assert ts[0] == t && ts[1..] == seq(n - 1, i => t) && n * limit == (n - 1) * limit + limit;
    if next.IsSet() {
      NextPast(t, user, cur, limit);
      assert n == 1 ==> n * limit == limit;
      ScrollEnds(t, n - 1, user, next, limit);
    }
  }

  /** With nothing sent meanwhile, enough pages are the inbox. */
  lemma {:induction false} ScrollIsInbox(t: Messages.Table, n: nat, user: string, limit: nat)
    requires limit >= 1 && NamedIds(t) && n >= 1 && |Past(All(t, user), START)| <= n * limit
    ensures Scroll(seq(n, i => t), user, START, limit) == All(t, user)
  {
    ScrollEnds(t, n, user, START, limit);
    var ts := seq(n, i => t);
    var shown := Scroll(ts, user, START, limit);
    forall e ensures e in shown <==> e in Entries(t, user) {
      ScrollShowsWhatStays(ts, user, limit, e);
      if e in Entries(t, user) {
        assert Stays(ts, user, START, e);
      }
    }
    ScrollDescends(ts, user, START, limit);
    assert Elems(shown) == Entries(t, user);
    SortedUnique(shown, All(t, user));
  }
}
