/** The message service and the message import on the tables they update. Every method is one
    transaction (or one statement): it works on copies and stores them at the end, so returning an
    error leaves the table as it was. */
module MessagesCode {
  import opened Order
  import opened Messages

  /** Unavailable: the user lookup or the transaction failed. */
  datatype Error = CannotMessageSelf | InvalidContent | UserNotFound | KeyReused | Unavailable

  datatype Reply = Reply(id: string, n: nat, createdAt: int, replayed: bool) | Failed(error: Error)

  const MAX_CONTENT := 4000

  /** A message as a page shows it. */
  datatype Shown = Shown(id: string, n: nat, m: Message, receiver: string)

  datatype Window = Window(messages: seq<Shown>, nextBefore: nat, hasMore: bool, otherRead: int)

  /** pagecursor.Limit(limit, 50, 200) */
  function PageLimit(requested: int): (n: nat)
    ensures 1 <= n <= 200 && (1 <= requested <= 200 ==> n == requested) && (requested <= 0 ==> n == 50) && (requested > 200 ==> n == 200)
  {
    if requested <= 0 then 50 else if requested > 200 then 200 else requested
  }

  function ShownAll(c: Conv, seqs: seq<nat>, user: string, other: string): seq<Shown>
    requires forall n :: n in seqs ==> n in c.msgs
  {
    var id := ConversationID(user, other);
    seq(|seqs|, i requires 0 <= i < |seqs| => Shown(MessageID(id, seqs[i]), seqs[i], c.msgs[seqs[i]], if c.msgs[seqs[i]].sender == user then other else user))
  }

  function KeyOf(clientKey: string): Key { if clientKey == "" then NoKey else Key(clientKey) }

  /** m became message n, the next of its conversation; its key was not used before. */
  ghost predicate IsNew(t: Table, t': Table, m: Message, receiver: string, n: nat) {
    var c := Opened(t, m.sender, receiver);
    t' == Sent(t, m, receiver) && !Known(c, m.sender, m.key) && n == c.lastSeq + 1
  }

  /** Message n was stored by an earlier request with this key and content. */
  ghost predicate IsReplay(t: Table, m: Message, receiver: string, n: nat) {
    var c := Opened(t, m.sender, receiver);
    Stored(c, m.sender, m.key, n) && c.msgs[n].content == m.content
  }

  ghost predicate IsReuse(t: Table, m: Message, receiver: string) {
    var c := Opened(t, m.sender, receiver);
    exists n :: Stored(c, m.sender, m.key, n) && c.msgs[n].content != m.content
  }

  method FindKey(c: Conv, sender: string, k: Key) returns (found: bool, n: nat)
    ensures found ==> Stored(c, sender, k, n)
    ensures !found ==> !Known(c, sender, k)
  {
    var left := c.msgs.Keys;
    while left != {}
      invariant left <= c.msgs.Keys && forall x :: x in c.msgs && x !in left ==> !Stored(c, sender, k, x)
    {
      var x :| x in left;
      if k.Key? && c.msgs[x].sender == sender && c.msgs[x].key == k {
        return true, x;
      }
      left := left - {x};
    }
    found, n := false, 0;
  }

  class Service {
    var table: Table
    const users: set<string>

    ghost predicate Named() reads this {
      forall u :: u in users ==> UserId(u)
    }

    ghost predicate Valid() reads this {
      Inv(table) && Named()
    }

    constructor (users: set<string>)
      requires forall u :: u in users ==> UserId(u)
      ensures Valid() && table == map[] && this.users == users
    {
      this.users, table := users, map[];
    }

    /** Other requests. */
    method Others()
      requires Valid()
      modifies this
      ensures Valid() && Later(old(table), table)
    {
    }

    /** SendMessage; sender is the authenticated user and now the database's clock. answered says
        whether the user lookup worked, committed whether the transaction did; one that reports
        failure may have been applied all the same. */
    method SendMessage(sender: string, receiver: string, content: string, clientKey: string, now: int, answered: bool, committed: bool, applied: bool)
      returns (r: Reply)
      requires Valid() && UserId(sender) && now != 0
      modifies this
      ensures Valid()
      ensures r == Failed(CannotMessageSelf) <==> sender == receiver
      ensures r == Failed(InvalidContent) <==> sender != receiver && (content == "" || |content| > 4000)
      ensures r == Failed(UserNotFound) <==> sender != receiver && Sendable(content) && answered && receiver !in users
      ensures r == Failed(Unavailable) <==> sender != receiver && Sendable(content) && (!answered || (receiver in users && !committed))
      ensures var msgs := Opened(old(table), sender, receiver).msgs;
        var reused := exists n :: n in msgs && msgs[n].sender == sender && msgs[n].key == Key(clientKey) && msgs[n].content != content;
        r == Failed(KeyReused) <==> Reaches(sender, receiver, content, answered) && committed && clientKey != "" && reused
      ensures var msgs := Opened(old(table), sender, receiver).msgs;
        var used := exists n :: n in msgs && msgs[n].sender == sender && msgs[n].key == Key(clientKey);
        r.Reply? ==> (r.replayed <==> clientKey != "" && used)
      ensures r.Failed? && r != Failed(Unavailable) ==> table == old(table)
      ensures r == Failed(Unavailable) ==> table == if Reaches(sender, receiver, content, answered) && applied then Sent(old(table), Message(sender, content, KeyOf(clientKey), now), receiver) else old(table)
      ensures r.Reply? ==> r.id == MessageID(ConversationID(sender, receiver), r.n)
      ensures r.Reply? ==> var m := Message(sender, content, KeyOf(clientKey), now);
        if r.replayed then table == old(table) && IsReplay(table, m, receiver, r.n) else IsNew(old(table), table, m, receiver, r.n)
      ensures r.Reply? ==> var id := ConversationID(sender, receiver);
        id in table && r.n in table[id].msgs && r.createdAt == table[id].msgs[r.n].createdAt
        && table[id].msgs[r.n].sender == sender && table[id].msgs[r.n].content == content
      ensures r.Reply? && !r.replayed ==> var id, c := ConversationID(sender, receiver), Opened(old(table), sender, receiver);
        id in table && table == old(table)[id := table[id]]
        && table[id].msgs == c.msgs[r.n := Message(sender, content, if clientKey == "" then NoKey else Key(clientKey), now)]
        && table[id].lastSeq == r.n && table[id].lastAt == now && table[id].read == c.read[sender := r.n]
    {
      hide Inv, IsReuse, IsReplay, IsNew, Sent;
      if sender == receiver {
        return Failed(CannotMessageSelf);
      }
      if content == "" || |content| > MAX_CONTENT {
        return Failed(InvalidContent);
      }
      if !answered {
        return Failed(Unavailable);
      }
      if receiver !in users {
        return Failed(UserNotFound);
      }
      var id := ConversationID(sender, receiver);
      var m := Message(sender, content, KeyOf(clientKey), now);
      OpenedReads(table, sender, receiver);
      SameRequest(table, m, receiver, clientKey);
      r := InTransaction(id, sender, receiver, m, committed, applied);
      if r.Reply? && r.replayed {
        ReplayedRow(table, m, receiver, r.n);
      } else if r.Reply? {
        NewRow(old(table), table, m, receiver, r.n);
      }
    }

    predicate Sendable(content: string) { content != "" && |content| <= MAX_CONTENT }

    /** The request gets as far as its transaction. */
    predicate Reaches(sender: string, receiver: string, content: string, answered: bool) {
      sender != receiver && Sendable(content) && answered && receiver in users
    }

    /** The transaction and what its caller learns of it. */
    method InTransaction(id: string, sender: string, receiver: string, m: Message, committed: bool, applied: bool) returns (r: Reply)
      requires Valid() && UserId(sender) && UserId(receiver) && id == ConversationID(sender, receiver) && m.sender == sender && m.createdAt != 0
      modifies this
      ensures Valid() && (r.Failed? ==> r.error == if committed then KeyReused else Unavailable) && (!committed ==> r.Failed?)
      ensures !committed ==> table == if applied then Sent(old(table), m, receiver) else old(table)
      ensures committed ==> (r.Failed? <==> IsReuse(old(table), m, receiver)) && (r.Failed? ==> table == old(table))
      ensures r.Reply? ==> if r.replayed then table == old(table) && IsReplay(table, m, receiver, r.n) else IsNew(old(table), table, m, receiver, r.n)
      ensures r.Reply? ==> r.id == MessageID(id, r.n) && id in table && r.n in table[id].msgs && r.createdAt == table[id].msgs[r.n].createdAt
    {
      if !committed && !applied {
        return Failed(Unavailable);
      }
      r := Transact(id, sender, receiver, m);
      if !committed {
        SentWhenKnown(old(table), m, receiver);
        r := Failed(Unavailable);
      }
    }

    /** The statements, holding the conversation's row lock. */
    method Transact(id: string, sender: string, receiver: string, m: Message) returns (r: Reply)
      requires Valid() && UserId(sender) && UserId(receiver) && id == ConversationID(sender, receiver) && m.sender == sender && m.createdAt != 0
      modifies this
      ensures Valid() && (r.Failed? ==> r.error == KeyReused && table == old(table))
      ensures r.Failed? <==> IsReuse(old(table), m, receiver)
      ensures r.Reply? ==> if r.replayed then table == old(table) && IsReplay(table, m, receiver, r.n) else IsNew(old(table), table, m, receiver, r.n)
      ensures r.Reply? ==> r.id == MessageID(id, r.n) && id in table && r.n in table[id].msgs && r.createdAt == table[id].msgs[r.n].createdAt
    {
      var c := Conv(0, 0, map[], map[]);
      if id in table {
        c := table[id];
      } else {
        var a, b := if Less(receiver, sender) then receiver else sender, if Less(receiver, sender) then sender else receiver;
        c := c.(read := map[a := 0][b := 0]);
      }
      assert c == Opened(table, sender, receiver);
      OpenedGood(table, sender, receiver);
      var lastSeq := c.lastSeq;
      if m.key.Key? {
        var found, n := FindKey(c, sender, m.key);
        if found {
          OnlyOne(c, m, n);
          if c.msgs[n].content != m.content {
            return Failed(KeyReused);
          }
          return Reply(MessageID(id, n), n, c.msgs[n].createdAt, true);
        }
      }
      SendKeepsInv(table, m, receiver);
      hide Good, Dense, OncePerKey;
      c := c.(msgs := c.msgs[lastSeq + 1 := m]);
      c := c.(lastSeq := lastSeq + 1, lastAt := m.createdAt);
      c := c.(read := if sender in c.read then c.read[sender := lastSeq + 1] else c.read);
      assert c == Appended(Opened(table, sender, receiver), m);
      table := table[id := c];
      r := Reply(MessageID(id, lastSeq + 1), lastSeq + 1, m.createdAt, false);
    }

    method MarkRead(user: string, other: string, upTo: int) returns (ok: bool)
      requires Valid()
      modifies this
      ensures Valid() && table == Marked(old(table), user, other, upTo)
      ensures ok <==> ConversationID(user, other) in table && user in table[ConversationID(user, other)].read
      ensures !ok ==> table == old(table)
      ensures ok ==> var id := ConversationID(user, other);
        id in old(table) && user in old(table)[id].read &&
        var c, was := old(table)[id], old(table)[id].read[user];
        table == old(table)[id := c.(read := c.read[user := if upTo <= was then was else if upTo < c.lastSeq then upTo else c.lastSeq])]
    {
      MarkKeepsInv(table, user, other, upTo);
      var id := ConversationID(user, other);
      ok := id in table && user in table[id].read;
      if ok {
        var c := table[id];
        table := table[id := c.(read := c.read[user := Max(c.read[user], Min(upTo, c.lastSeq))])];
      }
    }

    method CatchUp(c: Conv, after: nat, limit: nat) returns (seqs: seq<nat>, more: bool)
      requires Dense(c)
      ensures Page(seqs, 0, more) == PageAfter(c.lastSeq, after, limit) && forall n :: n in seqs ==> n in c.msgs
    {
      seqs := ScanUp(c, after, limit + 1);
      more := |seqs| > limit;
      if more {
        seqs := seqs[..limit];
      }
    }

    method Back(c: Conv, before: nat, limit: nat) returns (seqs: seq<nat>, next: nat)
      requires Dense(c) && limit >= 1
      ensures Page(seqs, next, false) == PageBack(c.lastSeq, before, limit) && forall n :: n in seqs ==> n in c.msgs
    {
      var top := if before == 0 || before > c.lastSeq then c.lastSeq else before - 1;
      var got := ScanDown(c, top, limit + 1);
      var cut := |got| > limit;
      var rows := new nat[if cut then limit else |got|](i requires 0 <= i < |got| => got[i]);
      TurnAround(rows);
      seqs, next := rows[..], if cut then rows[0] else 0;
      assert seqs == Range(if cut then top - limit + 1 else 1, top);
    }

    /** GetMessages: one range scan of the primary key, one row more than asked for to learn whether
        there is more; the newest-first scan is turned around in place. The other member's read
        position is a second statement, and messages may arrive in between. */
    method GetMessages(user: string, other: string, before: int, after: int, requested: int) returns (w: Window)
      requires Valid() && UserId(user) && UserId(other)
      modifies this
      ensures Valid() && Later(old(table), table)
      ensures var c, limit := Opened(old(table), user, other), PageLimit(requested);
        var page := if after > 0 then PageAfter(c.lastSeq, after, limit) else PageBack(c.lastSeq, if before <= 0 then 0 else before, limit);
        && (forall n :: n in page.seqs ==> n in c.msgs)
        && w.nextBefore == page.next && w.hasMore == page.more && |w.messages| == |page.seqs|
        && forall i :: 0 <= i < |w.messages| ==>
             w.messages[i].n == page.seqs[i] && w.messages[i].id == MessageID(ConversationID(user, other), page.seqs[i])
             && w.messages[i].m == c.msgs[page.seqs[i]]
             && w.messages[i].receiver == if c.msgs[page.seqs[i]].sender == user then other else user
      ensures other in Opened(table, user, other).read && w.otherRead == Opened(table, user, other).read[other]
      ensures var c := Opened(old(table), user, other); other in c.read && w.otherRead >= c.read[other]
    {
      hide Later, Inv, Good, Dense, LaterConv, OncePerKey;
      var limit, id := PageLimit(requested), ConversationID(user, other);
      var c := Opened(table, user, other);
      OpenedReads(table, user, other);
      var seqs, next, more := [], 0, false;
      if after > 0 {
        seqs, more := CatchUp(c, after, limit);
      } else {
        seqs, next := Back(c, if before <= 0 then 0 else before, limit);
      }
      var messages := ShownAll(c, seqs, user, other);
      ghost var before := table;
      Others();
      OpenedReads(table, user, other);
      LaterReads(before, table, user, other);
      w := Window(messages, next, more, if id in table && other in table[id].read then table[id].read[other] else 0);
    }

    /** `seq > after ORDER BY seq LIMIT n` */
    method ScanUp(c: Conv, after: nat, n: nat) returns (got: seq<nat>)
      requires Dense(c)
      ensures got == Range(after + 1, if c.lastSeq < after + n then c.lastSeq else after + n)
    {
      got := [];
      var at := after + 1;
      while at in c.msgs && |got| < n
        invariant |got| <= n && at == after + 1 + |got|
        invariant forall i :: 0 <= i < |got| ==> got[i] == after + 1 + i
        invariant |got| > 0 ==> at - 1 <= c.lastSeq
        decreases n - |got|
      {
        got, at := got + [at], at + 1;
      }
    }

    /** `seq <= top ORDER BY seq DESC LIMIT n` */
    method ScanDown(c: Conv, top: nat, n: nat) returns (got: seq<nat>)
      requires Dense(c) && top <= c.lastSeq
      ensures |got| == (if top < n then top else n) && forall i :: 0 <= i < |got| ==> got[i] == top - i
    {
      got := [];
      var at := top;
      while at in c.msgs && |got| < n
        invariant |got| <= n && |got| <= top && at == top - |got|
        invariant forall i :: 0 <= i < |got| ==> got[i] == top - i
        decreases n - |got|
      {
        got, at := got + [at], at - 1;
      }
    }
  }

  /** A key is stored at most once, so an earlier message with it is a replay or a reuse, not both. */
  lemma OnlyOne(c: Conv, m: Message, n: nat)
    requires OncePerKey(c) && Stored(c, m.sender, m.key, n)
    ensures (exists k :: Stored(c, m.sender, m.key, k) && c.msgs[k].content != m.content) <==> c.msgs[n].content != m.content
  {
  }

  lemma SentWhenKnown(t: Table, m: Message, receiver: string)
    ensures Known(Opened(t, m.sender, receiver), m.sender, m.key) ==> Sent(t, m, receiver) == t
    ensures IsReuse(t, m, receiver) ==> Known(Opened(t, m.sender, receiver), m.sender, m.key)
    ensures forall n :: IsReplay(t, m, receiver, n) ==> Known(Opened(t, m.sender, receiver), m.sender, m.key)
  {
  }

  lemma SameRequest(t: Table, m: Message, receiver: string, clientKey: string)
    requires m.key == KeyOf(clientKey)
    ensures var c := Opened(t, m.sender, receiver);
      IsReuse(t, m, receiver) <==>
        clientKey != "" && exists n :: n in c.msgs && c.msgs[n].sender == m.sender && c.msgs[n].key == Key(clientKey) && c.msgs[n].content != m.content
    ensures var c := Opened(t, m.sender, receiver);
      Known(c, m.sender, m.key) <==> clientKey != "" && exists n :: n in c.msgs && c.msgs[n].sender == m.sender && c.msgs[n].key == Key(clientKey)
    ensures forall n :: IsReplay(t, m, receiver, n) ==> Known(Opened(t, m.sender, receiver), m.sender, m.key)
  {
    var c := Opened(t, m.sender, receiver);
    hide Opened;
    forall n ensures Stored(c, m.sender, m.key, n) <==> clientKey != "" && n in c.msgs && c.msgs[n].sender == m.sender && c.msgs[n].key == Key(clientKey) {
    }
  }

  lemma ReplayedRow(t: Table, m: Message, receiver: string, n: nat)
    requires IsReplay(t, m, receiver, n)
    ensures var id := ConversationID(m.sender, receiver);
      id in t && n in t[id].msgs && t[id].msgs[n].sender == m.sender && t[id].msgs[n].content == m.content
  {
    hide ConversationID;
  }

  lemma NewRow(t: Table, t': Table, m: Message, receiver: string, n: nat)
    requires Inv(t) && IsNew(t, t', m, receiver, n) && m.sender in Opened(t, m.sender, receiver).read && Dense(Opened(t, m.sender, receiver))
    ensures var id, c := ConversationID(m.sender, receiver), Opened(t, m.sender, receiver);
      id in t' && t' == t[id := t'[id]] && t'[id].msgs == c.msgs[n := m] && n in t'[id].msgs
      && t'[id].lastSeq == n && t'[id].lastAt == m.createdAt && t'[id].read == c.read[m.sender := n]
  {
    hide ConversationID;
  }

  lemma OpenedReads(t: Table, user: string, other: string)
    requires Inv(t) && UserId(user) && UserId(other)
    ensures Dense(Opened(t, user, other)) && Opened(t, user, other).read.Keys == {user, other}
  {
    OpenedGood(t, user, other);
  }

  lemma LaterReads(t: Table, t': Table, user: string, other: string)
    requires Inv(t') && Later(t, t') && UserId(user) && UserId(other)
    ensures forall u :: u in Opened(t, user, other).read && u in Opened(t', user, other).read ==> Opened(t, user, other).read[u] <= Opened(t', user, other).read[u]
  {
    OpenedGood(t', user, other);
  }

  /** Two ends swap until they meet. */
  method TurnAround(a: array<nat>)
    modifies a
    ensures forall k :: 0 <= k < a.Length ==> a[k] == old(a[a.Length - 1 - k])
  {
    var i, j := 0, a.Length - 1;
    while i < j
      invariant 0 <= i && i + j == a.Length - 1
      invariant forall k :: 0 <= k < a.Length && (k < i || k > j) ==> a[k] == old(a[a.Length - 1 - k])
      invariant forall k :: i <= k <= j ==> a[k] == old(a[k])
      decreases j - i
    {
      a[i], a[j] := a[j], a[i];
      i, j := i + 1, j - 1;
    }
  }

  predicate Readable(d: Legacy) {
    d.sender != "" && d.receiver != "" && d.sender != d.receiver && 0 < |d.content| <= MAX_CONTENT
  }

  function ConvOf(d: Legacy): string { ConversationID(d.sender, d.receiver) }

  /** The documents of one conversation, in scan order. */
  function OfConv(docs: seq<Legacy>, conv: string): seq<Legacy> {
    if docs == [] then []
    else
      var last := docs[|docs| - 1];
      OfConv(docs[..|docs| - 1], conv) + (if Readable(last) && ConvOf(last) == conv then [last] else [])
  }

  /** Documents that cannot be imported. */
  function Unreadable(docs: seq<Legacy>): nat {
    if docs == [] then 0 else Unreadable(docs[..|docs| - 1]) + (if Readable(docs[|docs| - 1]) then 0 else 1)
  }

  lemma {:induction false} OfConvHas(docs: seq<Legacy>, conv: string)
    ensures forall d :: d in OfConv(docs, conv) <==> d in docs && Readable(d) && ConvOf(d) == conv
  {
    if docs != [] {
      OfConvHas(docs[..|docs| - 1], conv);
      assert docs == docs[..|docs| - 1] + [docs[|docs| - 1]];
    }
  }

  lemma ReadableMeans(docs: seq<Legacy>)
    ensures forall d :: d in docs ==>
      (Readable(d) <==> d.sender != "" && d.receiver != "" && d.sender != d.receiver && 0 < |d.content| <= 4000)
      && ConvOf(d) == ConversationID(d.sender, d.receiver)
  {
    hide ConversationID;
  }

  lemma {:induction false} RejectedCounts(docs: seq<Legacy>)
    ensures Unreadable(docs) == |set i | 0 <= i < |docs| && (docs[i].sender == "" || docs[i].receiver == "" || docs[i].sender == docs[i].receiver
                                                             || docs[i].content == "" || |docs[i].content| > 4000)|
  {
    if docs != [] {
      var n := |docs| - 1;
      var docs' := docs[..n];
      RejectedCounts(docs');
      var before := set i | 0 <= i < |docs'| && (docs'[i].sender == "" || docs'[i].receiver == "" || docs'[i].sender == docs'[i].receiver
                                                 || docs'[i].content == "" || |docs'[i].content| > 4000);
      var all := set i | 0 <= i < |docs| && (docs[i].sender == "" || docs[i].receiver == "" || docs[i].sender == docs[i].receiver
                                             || docs[i].content == "" || |docs[i].content| > 4000);
      assert all == before + if Readable(docs[n]) then {} else {n};
      assert n !in before;
    }
  }

  /** A group holds the readable documents of its conversation and no others, oldest first. */
  lemma {:induction false} GroupHolds(docs: seq<Legacy>, conv: string)
    requires IsGroup(docs, conv) && forall d :: d in docs ==> UserId(d.sender) && UserId(d.receiver)
    ensures var g := Group(docs, conv); forall i, j :: 0 <= i < j < |g| ==>
      g[i].createdAt < g[j].createdAt || (g[i].createdAt == g[j].createdAt && !Less(g[j].id, g[i].id))
    ensures forall d :: d in Group(docs, conv) <==>
      d in docs && d.sender != "" && d.receiver != "" && d.sender != d.receiver && 0 < |d.content| <= 4000 && ConversationID(d.sender, d.receiver) == conv
  {
    GroupBatch(docs, conv);
    OfConvHas(docs, conv);
    ReadableMeans(docs);
    SortedInTurn(OfConv(docs, conv));
    hide Readable, ConvOf, ConversationID, OfConv, SortByTime;
  }

  /** The message is in its conversation, under its id. */
  predicate Present(t: Table, d: Legacy) { ConvOf(d) in t && d.id in KeysOf(t[ConvOf(d)]) }

  /** What is imported into one conversation: its readable documents, oldest first. */
  function Group(docs: seq<Legacy>, conv: string): seq<Legacy> { SortByTime(OfConv(docs, conv)) }

  ghost predicate IsGroup(docs: seq<Legacy>, conv: string) { OfConv(docs, conv) != [] }

  /** The table with the groups of some conversations imported. */
  ghost predicate ImportedGroups(docs: seq<Legacy>, t: Table, done: set<string>, t': Table) {
    && (forall conv :: conv in done ==>
          IsGroup(docs, conv) && conv in t' && conv in Copied(t, conv, Group(docs, conv)) && t'[conv] == Copied(t, conv, Group(docs, conv))[conv])
    && (forall conv :: conv !in done ==> (conv in t' <==> conv in t) && (conv in t ==> t'[conv] == t[conv]))
  }

  /** The import stopped at this group: everything before it in id order is done, nothing from it on. */
  ghost predicate StopsAt(docs: seq<Legacy>, t: Table, done: set<string>, conv: string, broken: set<string>) {
    && IsGroup(docs, conv) && (conv in broken || !Importable(t, conv, Group(docs, conv)))
    && forall c :: c in done <==> IsGroup(docs, c) && Less(c, conv)
  }

  lemma StoppingHere(docs: seq<Legacy>, t: Table, done: set<string>, groups: set<string>, left: set<string>, conv: string, broken: set<string>)
    requires done + left == groups && done !! left && conv in left && Order.IsLeastId(conv, left)
    requires forall c :: c in groups <==> IsGroup(docs, c)
    requires forall c, d :: c in done && d in left ==> Less(c, d)
    ensures conv in broken || !Importable(t, conv, Group(docs, conv)) ==> StopsAt(docs, t, done, conv, broken)
    ensures forall c, d :: c in done + {conv} && d in left - {conv} ==> Less(c, d)
  {
    hide IsGroup, Importable, Group;
    forall c ensures c in done <==> c in groups && Less(c, conv) {
      if c in left && c != conv {
        Asymmetric(c, conv);
      }
      if c == conv {
        Asymmetric(conv, conv);
      }
    }
  }

  lemma GroupBatch(docs: seq<Legacy>, conv: string)
    requires IsGroup(docs, conv) && forall d :: d in docs ==> UserId(d.sender) && UserId(d.receiver)
    ensures Batch(conv, Group(docs, conv)) && forall m :: m in Group(docs, conv) <==> m in OfConv(docs, conv)
  {
    var msgs, s := Group(docs, conv), OfConv(docs, conv);
    OfConvHas(docs, conv);
    assert |multiset(msgs)| == |msgs| && |multiset(s)| == |s|;
    forall m ensures m in msgs <==> m in s {
      assert m in msgs <==> m in multiset(msgs);
    }
  }

  /** The invariant of the whole table after an import, conversation by conversation. */
  lemma {:induction false} ImportValidIff(docs: seq<Legacy>, t: Table, done: set<string>, t': Table)
    requires Inv(t) && ImportedGroups(docs, t, done, t')
    requires forall d :: d in docs ==> UserId(d.sender) && UserId(d.receiver)
    requires forall conv :: conv in done ==> Importable(t, conv, Group(docs, conv))
    ensures Inv(t') <==> forall conv :: conv in done ==> Dated(t, conv, Group(docs, conv))
  {
    hide Good, Importable, Copied, Dated, Group;
    forall conv | conv in done ensures Good(conv, t'[conv]) <==> Dated(t, conv, Group(docs, conv)) {
      GroupBatch(docs, conv);
      CopyKeepsGoodIff(t, conv, Group(docs, conv));
      CopiedHas(t, conv, Group(docs, conv));
    }
    assert forall conv :: conv in t' && conv !in done ==> Good(conv, t'[conv]);
  }

  lemma NoneImported(docs: seq<Legacy>, t: Table)
    ensures ImportedGroups(docs, t, {}, t)
  {
  }

  lemma CopiedHas(t: Table, conv: string, msgs: seq<Legacy>)
    requires msgs != [] && Importable(t, conv, msgs)
    ensures conv in Copied(t, conv, msgs)
  {
  }

  /** Importing a group reads and writes its own conversation only. */
  lemma CopiedSame(t: Table, t': Table, conv: string, msgs: seq<Legacy>)
    requires msgs != [] && (conv in t' <==> conv in t) && (conv in t ==> t'[conv] == t[conv])
    ensures Importable(t', conv, msgs) == Importable(t, conv, msgs) && Dated(t', conv, msgs) == Dated(t, conv, msgs) && GoodAt(t', conv) == GoodAt(t, conv)
    ensures Importable(t, conv, msgs) ==> conv in Copied(t, conv, msgs) && Copied(t', conv, msgs) == t'[conv := Copied(t, conv, msgs)[conv]]
    ensures !Importable(t, conv, msgs) ==> Copied(t', conv, msgs) == t'
  {
    assert Bare(t', conv) == Bare(t, conv);
  }

  /** One more group. */
  lemma OneMoreGroup(docs: seq<Legacy>, t: Table, done: set<string>, t': Table, conv: string, t'': Table)
    requires ImportedGroups(docs, t, done, t') && conv !in done && IsGroup(docs, conv) && Importable(t, conv, Group(docs, conv))
    requires conv in Copied(t, conv, Group(docs, conv)) && t'' == t'[conv := Copied(t, conv, Group(docs, conv))[conv]]
    ensures ImportedGroups(docs, t, done + {conv}, t'')
  {
    hide Copied, Importable, IsGroup, Group;
  }

  predicate IsRow(c: Conv, m: Legacy, n: nat) {
    n in c.msgs && c.msgs[n].sender == m.sender && c.msgs[n].content == m.content && c.msgs[n].key == Key(m.id) && c.msgs[n].createdAt == m.createdAt
  }

  /** The messages added follow the ones that were there, with their own sender, text, id and time;
      the last one's time, if it has one, moves the conversation and both its members on. */
  ghost predicate Inserted(c: Conv, conv: string, added: seq<Legacy>, a: string, b: string, t': Table) {
    conv in t' && var c' := t'[conv];
    && (forall n :: n in c.msgs ==> n in c'.msgs && c'.msgs[n] == c.msgs[n])
    && (forall i :: 0 <= i < |added| ==> IsRow(c', added[i], c.lastSeq + 1 + i))
    && if added == [] || added[|added| - 1].createdAt == 0 then c'.lastSeq == c.lastSeq && c'.lastAt == c.lastAt && c'.read == c.read
       else c'.lastSeq == c.lastSeq + |added| && c'.lastAt == added[|added| - 1].createdAt && c'.read == c.read[a := c'.lastSeq][b := c'.lastSeq]
  }

  lemma CopiedRows(t: Table, conv: string, msgs: seq<Legacy>)
    requires msgs != [] && Importable(t, conv, msgs)
    ensures Inserted(Bare(t, conv), conv, Missing(msgs, KeysOf(Bare(t, conv))), msgs[0].sender, msgs[0].receiver, Copied(t, conv, msgs))
  {
    var c := Bare(t, conv);
    var got := Imported(c.(lastAt := 0), msgs, KeysOf(c)).c;
    ImportedAdds(c.(lastAt := 0), msgs, KeysOf(c));
    hide Imported, Missing, KeysOf, Bare, AddedAt;
    ClosedRows(c, got, Missing(msgs, KeysOf(c)), msgs[0].sender, msgs[0].receiver, conv, Copied(t, conv, msgs));
  }

  lemma ClosedRows(c: Conv, got: Conv, added: seq<Legacy>, a: string, b: string, conv: string, t': Table)
    requires conv in t' && t'[conv] == Closed(c, got, a, b) && got.lastSeq == c.lastSeq + |added|
    requires got.lastAt == (if added == [] then 0 else added[|added| - 1].createdAt)
    requires forall n :: n in c.msgs ==> n in got.msgs && got.msgs[n] == c.msgs[n]
    requires forall i :: 0 <= i < |added| ==> AddedAt(got, added[i], c.lastSeq + 1 + i)
    ensures Inserted(c, conv, added, a, b, t')
  {
    assert t'[conv].msgs == got.msgs;
    forall i | 0 <= i < |added| ensures IsRow(t'[conv], added[i], c.lastSeq + 1 + i) {
      assert AddedAt(got, added[i], c.lastSeq + 1 + i);
    }
  }

  class Backfill {
    const service: Service

    constructor (service: Service)
      ensures this.service == service
    {
      this.service := service;
    }

    /** copyConversation: appends the messages that are not there yet. It keeps its conversation good
        exactly when nothing was missing or the last missing message has a creation time. */
    method CopyConversation(conv: string, msgs: seq<Legacy>) returns (ok: bool, inserted: nat, existing: nat)
      requires GoodAt(service.table, conv) && Batch(conv, msgs)
      modifies service
      ensures service.table == Copied(old(service.table), conv, msgs)
      ensures ok ==> inserted == |Missing(msgs, KeysOf(Bare(old(service.table), conv)))| && inserted + existing == |msgs|
      ensures ok ==> (GoodAt(service.table, conv) <==> Dated(old(service.table), conv, msgs))
      ensures !ok ==> service.table == old(service.table)
      ensures ok <==> Importable(old(service.table), conv, msgs)
      ensures ok ==> Inserted(Bare(old(service.table), conv), conv, Missing(msgs, KeysOf(Bare(old(service.table), conv))), msgs[0].sender, msgs[0].receiver, service.table)
    {
      hide GoodAt, Dated, ConversationID, UserId;
      var t := service.table;
      var bare := Bare(t, conv);
      var have := KeysOf(bare);
      var c := bare.(lastAt := 0);
      ghost var start := c;
      ok, inserted, existing := true, 0, 0;
      assert msgs[0..] == msgs;
      for i := 0 to |msgs|
        invariant Imported(c, msgs[i..], have) == Imported(start, msgs, have)
        invariant inserted + existing == i && inserted + |Missing(msgs[i..], have)| == |Missing(msgs, have)|
        invariant service.table == t && c.read == start.read
      {
        var m := msgs[i];
        assert msgs[i..][0] == m && msgs[i..][1..] == msgs[i + 1..];
        if m.id in have {
          existing := existing + 1;
          continue;
        }
        var found, n := FindKey(c, m.sender, Key(m.id));
        if found || c.lastSeq + 1 in c.msgs {
          assert Imported(c, msgs[i..], have).Refused?;
          return false, inserted, existing;
        }
        c := c.(lastSeq := c.lastSeq + 1, lastAt := m.createdAt, msgs := c.msgs[c.lastSeq + 1 := FromLegacy(m)]);
        inserted := inserted + 1;
      }
      assert msgs[|msgs|..] == [];
      assert Imported(start, msgs, have) == Import(c);
      CopyKeepsGoodIff(t, conv, msgs);
      CopiedRows(t, conv, msgs);
      if c.lastAt == 0 {
        service.table := t[conv := bare.(msgs := c.msgs)];
        return;
      }
      var a, b := msgs[0].sender, msgs[0].receiver;
      service.table := t[conv := c.(read := c.read[a := c.lastSeq][b := c.lastSeq])];
    }

    /** messages: groups the readable documents by conversation and imports the groups in id order,
        each ordered by time, up to the first that fails; broken are the conversations whose
        transaction fails for a reason of its own. Whatever happens, what was imported is complete,
        the rest is untouched, and the service's invariant holds afterwards exactly when in every
        imported group the last missing message has a creation time. */
    method ImportMessages(docs: seq<Legacy>, broken: set<string>) returns (ok: bool, rejected: nat, ghost done: set<string>)
      requires service.Valid() && forall d :: d in docs ==> UserId(d.sender) && UserId(d.receiver)
      modifies service
      ensures ImportedGroups(docs, old(service.table), done, service.table)
      ensures forall conv :: conv in done ==> Importable(old(service.table), conv, Group(docs, conv)) && conv !in broken
      ensures ok ==> forall d :: d in docs && d.sender != "" && d.receiver != "" && d.sender != d.receiver && 0 < |d.content| <= 4000 ==>
        ConversationID(d.sender, d.receiver) in done
      ensures !ok ==> exists conv :: StopsAt(docs, old(service.table), done, conv, broken)
      ensures forall d | d in docs && d.sender != "" && d.receiver != "" && d.sender != d.receiver && 0 < |d.content| <= 4000
                         && ConversationID(d.sender, d.receiver) in done :: Present(service.table, d)
      ensures service.Valid() <==> forall conv :: conv in done ==> Dated(old(service.table), conv, Group(docs, conv))
      ensures rejected == |set i | 0 <= i < |docs| && (docs[i].sender == "" || docs[i].receiver == "" || docs[i].sender == docs[i].receiver
                                                       || docs[i].content == "" || |docs[i].content| > 4000)|
    {
      hide Importable, Copied, Dated, Inv, Group, OfConv, Readable, ConvOf, ImportedGroups, KeysOf, Unreadable;
      ghost var t := service.table;
      NoneImported(docs, t);
      var byConv;
      byConv, rejected := GroupByConversation(docs);
      var left := byConv.Keys;
      done, ok := {}, true;
      while left != {} && ok
        invariant service.Named() && left <= byConv.Keys && done !! left && done <= byConv.Keys
        invariant if ok then done + left == byConv.Keys else exists conv :: StopsAt(docs, t, done, conv, broken)
        invariant forall c, d :: c in done && d in left ==> Less(c, d)
        invariant ImportedGroups(docs, t, done, service.table)
        invariant forall conv :: conv in done ==> Importable(t, conv, Group(docs, conv)) && conv !in broken
        decreases |left|
      {
        Order.LeastId(left);
        var conv :| conv in left && Order.IsLeastId(conv, left);
        StoppingHere(docs, t, done, byConv.Keys, left, conv, broken);
        left := left - {conv};
        ok := ImportGroup(docs, t, done, conv, byConv[conv], conv in broken);
        if ok {
          done := done + {conv};
        }
      }
      ImportValidIff(docs, t, done, service.table);
      GroupsPresent(docs, t, done, service.table);
      RejectedCounts(docs);
      ReadableMeans(docs);
    }

    method ImportGroup(ghost docs: seq<Legacy>, ghost t: Table, ghost done: set<string>, conv: string, group: seq<Legacy>, broken: bool) returns (ok: bool)
      requires Inv(t) && service.Named() && forall d :: d in docs ==> UserId(d.sender) && UserId(d.receiver)
      requires ImportedGroups(docs, t, done, service.table) && conv !in done && group == OfConv(docs, conv) != []
      modifies service
      ensures service.Named() && (ok <==> Importable(t, conv, Group(docs, conv)) && !broken)
      ensures ImportedGroups(docs, t, if ok then done + {conv} else done, service.table)
    {
      hide Importable, Copied, Dated, Good, Batch, SortByTime;
      if broken {
        return false;
      }
      var msgs := SortByTime(group);
      GroupBatch(docs, conv);
      CopiedSame(t, service.table, conv, msgs);
      var inserted, existing;
      ok, inserted, existing := CopyConversation(conv, msgs);
      if ok {
        OneMoreGroup(docs, t, done, old(service.table), conv, service.table);
      }
    }

    method GroupByConversation(docs: seq<Legacy>) returns (byConv: map<string, seq<Legacy>>, rejected: nat)
      ensures forall conv :: conv in byConv ==> byConv[conv] == OfConv(docs, conv) != []
      ensures forall conv :: IsGroup(docs, conv) ==> conv in byConv
      ensures rejected == Unreadable(docs)
      ensures forall d :: d in docs && Readable(d) ==> ConvOf(d) in byConv
    {
      byConv, rejected := map[], 0;
      for i := 0 to |docs|
        invariant Grouped(docs[..i], byConv) && rejected == Unreadable(docs[..i])
      {
        GroupStep(docs, i, byConv);
        assert docs[..i + 1][..i] == docs[..i];
        if Readable(docs[i]) {
          var conv := ConvOf(docs[i]);
          byConv := byConv[conv := (if conv in byConv then byConv[conv] else []) + [docs[i]]];
        } else {
          rejected := rejected + 1;
        }
      }
      assert docs[..|docs|] == docs;
      forall d | d in docs && Readable(d) ensures ConvOf(d) in byConv {
        OfConvHas(docs, ConvOf(d));
        assert d in OfConv(docs, ConvOf(d));
      }
    }
  }

  ghost predicate Grouped(docs: seq<Legacy>, byConv: map<string, seq<Legacy>>) {
    forall conv :: OfConv(docs, conv) == (if conv in byConv then byConv[conv] else []) && (conv in byConv ==> byConv[conv] != [])
  }

  lemma GroupStep(docs: seq<Legacy>, i: nat, byConv: map<string, seq<Legacy>>)
    requires i < |docs| && Grouped(docs[..i], byConv)
    ensures var conv := ConvOf(docs[i]);
      Grouped(docs[..i + 1], if Readable(docs[i]) then byConv[conv := (if conv in byConv then byConv[conv] else []) + [docs[i]]] else byConv)
  {
    assert docs[..i + 1][..i] == docs[..i] && docs[..i + 1][i] == docs[i];
    hide Readable, ConvOf;
    var conv := ConvOf(docs[i]);
    var next := if Readable(docs[i]) then byConv[conv := (if conv in byConv then byConv[conv] else []) + [docs[i]]] else byConv;
    forall c ensures OfConv(docs[..i + 1], c) == (if c in next then next[c] else []) && (c in next ==> next[c] != []) {
      assert OfConv(docs[..i], c) == if c in byConv then byConv[c] else [];
    }
  }

  /** An imported document is in its conversation. */
  lemma GroupHas(docs: seq<Legacy>, t: Table, d: Legacy)
    requires d in docs && Readable(d) && Importable(t, ConvOf(d), Group(docs, ConvOf(d)))
    requires forall x :: x in docs ==> UserId(x.sender) && UserId(x.receiver)
    ensures var conv := ConvOf(d); Group(docs, conv) != [] && conv in Copied(t, conv, Group(docs, conv)) && d.id in KeysOf(Copied(t, conv, Group(docs, conv))[conv])
  {
    OfConvHas(docs, ConvOf(d));
    GroupBatch(docs, ConvOf(d));
    CopiedKeys(t, ConvOf(d), Group(docs, ConvOf(d)));
  }

  lemma GroupsPresent(docs: seq<Legacy>, t: Table, done: set<string>, t': Table)
    requires ImportedGroups(docs, t, done, t')
    requires forall conv :: conv in done ==> Importable(t, conv, Group(docs, conv))
    requires forall x :: x in docs ==> UserId(x.sender) && UserId(x.receiver)
    ensures forall d :: d in docs && Readable(d) && ConvOf(d) in done ==> Present(t', d)
  {
    hide Importable, Copied, Group, ConvOf, KeysOf, Readable;
    forall d | d in docs && Readable(d) && ConvOf(d) in done ensures Present(t', d) {
      GroupHas(docs, t, d);
    }
  }
}
