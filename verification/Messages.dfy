/** services/message: conversations with per-conversation sequence numbers. A transaction holds the
    conversation's row lock, so any interleaving of sends, read markers and imports is a sequence of
    whole operations. */
module Messages {
  import opened Order
  import opened Text

  // ── identifiers ──

  predicate UserId(u: string) { ':' !in u }

  const DM := "dm:"

  function ConversationID(a: string, b: string): string {
    if Less(b, a) then DM + b + ":" + a else DM + a + ":" + b
  }

  function MessageID(conv: string, n: nat): string { conv + ":" + Decimal(n) }

  /** strings.Split */
  function Split(s: string, sep: char): seq<string> {
    if s == [] then [""]
    else if s[0] == sep then [""] + Split(s[1..], sep)
    else var rest := Split(s[1..], sep); if rest == [] then [[s[0]]] else [[s[0]] + rest[0]] + rest[1..]
  }

  function OtherParticipant(conv: string, me: string): string {
    var body := if DM <= conv then conv[|DM|..] else conv;
    var parts := Split(body, ':');
    if |parts| == 2 && parts[0] == me then parts[1] else if |parts| == 2 then parts[0] else ""
  }

  lemma {:induction false} SplitPlain(s: string, sep: char)
    requires sep !in s
    ensures Split(s, sep) == [s]
  {
    if s != [] {
      SplitPlain(s[1..], sep);
      assert s == [s[0]] + s[1..];
    }
  }

  lemma {:induction false} SplitPair(a: string, b: string, sep: char)
    requires sep !in a && sep !in b
    ensures Split(a + [sep] + b, sep) == [a, b]
  {
    if a == [] {
      assert ([] + [sep] + b)[1..] == b;
      SplitPlain(b, sep);
    } else {
      assert (a + [sep] + b)[1..] == a[1..] + [sep] + b && (a + [sep] + b)[0] == a[0];
      SplitPair(a[1..], b, sep);
      assert [a[0]] + a[1..] == a && [a[1..], b][1..] == [b];
    }
  }

  /** One conversation per pair, whoever asks, and the other participant can be read off its id. */
  lemma {:induction false} ConversationOfPair(a: string, b: string)
    requires UserId(a) && UserId(b)
    ensures ConversationID(a, b) == ConversationID(b, a)
    ensures OtherParticipant(ConversationID(a, b), a) == b && OtherParticipant(ConversationID(a, b), b) == a
  {
    Trichotomy(a, b);
    Asymmetric(a, b);
    var x, y := if Less(b, a) then b else a, if Less(b, a) then a else b;
    var id := ConversationID(a, b);
    assert id == DM + (x + [':'] + y) && id[|DM|..] == x + [':'] + y;
    SplitPair(x, y, ':');
    hide Split, ConversationID, Less;
    assert DM <= id;
  }

  lemma {:induction false} ConversationInjective(a: string, b: string, c: string, d: string)
    requires UserId(a) && UserId(b) && UserId(c) && UserId(d) && ConversationID(a, b) == ConversationID(c, d)
    ensures {a, b} == {c, d}
  {
    var x, y := if Less(b, a) then b else a, if Less(b, a) then a else b;
    var u, v := if Less(d, c) then d else c, if Less(d, c) then c else d;
    assert (DM + x + ":" + y)[|DM|..] == x + [':'] + y && (DM + u + ":" + v)[|DM|..] == u + [':'] + v;
    CutAtFirst(x, y, u, v, ':');
  }

  lemma {:induction false} MessageIDInjective(c: string, m: nat, d: string, n: nat)
    requires MessageID(c, m) == MessageID(d, n)
    ensures c == d && m == n
  {
    DecimalDigits(m);
    DecimalDigits(n);
    CutAtLast(c, Decimal(m), d, Decimal(n), ':');
    DecimalInjective(m, n);
  }

  // ── rows ──

  datatype Key = NoKey | Key(id: string)

  datatype Message = Message(sender: string, content: string, key: Key, createdAt: int)

  /** A conversation row, its members' read positions and its messages by seq. lastAt 0 stands for no
      last_message_at. */
  datatype Conv = Conv(lastSeq: nat, lastAt: int, read: map<string, int>, msgs: map<nat, Message>)

  type Table = map<string, Conv>

  /** A message of the old index; createdAt 0 is the zero time. */
  datatype Legacy = Legacy(id: string, sender: string, receiver: string, content: string, createdAt: int)

  ghost predicate Stored(c: Conv, sender: string, k: Key, n: nat) {
    n in c.msgs && c.msgs[n].sender == sender && c.msgs[n].key == k && k.Key?
  }

  ghost predicate Known(c: Conv, sender: string, k: Key) { exists n :: Stored(c, sender, k, n) }

  function Opened(t: Table, a: string, b: string): Conv {
    var id := ConversationID(a, b);
    if id in t then t[id] else Conv(0, 0, map[a := 0, b := 0], map[])
  }

  /** The three statements that store a message. */
  function Appended(c: Conv, m: Message): Conv {
    var n := c.lastSeq + 1;
    Conv(n, m.createdAt, if m.sender in c.read then c.read[m.sender := n] else c.read, c.msgs[n := m])
  }

  ghost function Sent(t: Table, m: Message, receiver: string): Table {
    var c := Opened(t, m.sender, receiver);
    if Known(c, m.sender, m.key) || c.lastSeq + 1 in c.msgs then t
    else t[ConversationID(m.sender, receiver) := Appended(c, m)]
  }

  function Min(a: int, b: int): int { if a < b then a else b }

  function Max(a: int, b: int): int { if a < b then b else a }

  function Marked(t: Table, user: string, other: string, upTo: int): Table {
    var id := ConversationID(user, other);
    if id in t && user in t[id].read
    then t[id := t[id].(read := t[id].read[user := Max(t[id].read[user], Min(upTo, t[id].lastSeq))])]
    else t
  }

  function KeysOf(c: Conv): set<string> { set n | n in c.msgs && c.msgs[n].key.Key? :: c.msgs[n].key.id }

  function FromLegacy(m: Legacy): Message { Message(m.sender, m.content, Key(m.id), m.createdAt) }

  /** The import loop: ids already present are skipped, a second insert of a key or a seq fails and
      rolls back; lastSeq and lastAt are the loop's variables. */
  datatype Import = Import(c: Conv) | Refused

  ghost function Imported(c: Conv, msgs: seq<Legacy>, have: set<string>): Import
    decreases |msgs|
  {
    if msgs == [] then Import(c)
    else if msgs[0].id in have then Imported(c, msgs[1..], have)
    else if Known(c, msgs[0].sender, Key(msgs[0].id)) || c.lastSeq + 1 in c.msgs then Refused
    else Imported(Advanced(c, msgs[0]), msgs[1..], have)
  }

  function Bare(t: Table, conv: string): Conv { if conv in t then t[conv] else Conv(0, 0, map[], map[]) }

  /** What the import leaves: the conversation and its members move only when the last message
      inserted has a creation time. */
  function Closed(c: Conv, got: Conv, a: string, b: string): Conv {
    if got.lastAt == 0 then c.(msgs := got.msgs)
    else got.(read := c.read[a := got.lastSeq][b := got.lastSeq])
  }

  ghost function Copied(t: Table, conv: string, msgs: seq<Legacy>): Table
    requires msgs != []
  {
    var c := Bare(t, conv);
    var got := Imported(c.(lastAt := 0), msgs, KeysOf(c));
    if got.Refused? then t else t[conv := Closed(c, got.c, msgs[0].sender, msgs[0].receiver)]
  }

  // ── what every operation keeps ──

  /** Seqs are exactly 1..lastSeq. */
  ghost predicate Dense(c: Conv) {
    forall n :: n in c.msgs <==> 1 <= n <= c.lastSeq
  }

  /** At most one message per sender and non-empty key. */
  ghost predicate OncePerKey(c: Conv) {
    forall m, n :: m in c.msgs && n in c.msgs && c.msgs[m].key.Key? && c.msgs[m].key == c.msgs[n].key && c.msgs[m].sender == c.msgs[n].sender ==> m == n
  }

  ghost predicate Good(id: string, c: Conv) {
    && Dense(c) && OncePerKey(c) && (c.lastSeq > 0 ==> c.lastAt != 0)
    && (forall u :: u in c.read ==> 0 <= c.read[u] <= c.lastSeq)
    && (forall a, b :: UserId(a) && UserId(b) && ConversationID(a, b) == id ==> c.read.Keys == {a, b})
  }

  ghost predicate Inv(t: Table) { forall id :: id in t ==> Good(id, t[id]) }

  lemma OpenedGood(t: Table, a: string, b: string)
    requires Inv(t) && UserId(a) && UserId(b)
    ensures Good(ConversationID(a, b), Opened(t, a, b))
  {
    forall x, y | UserId(x) && UserId(y) && ConversationID(x, y) == ConversationID(a, b) ensures {x, y} == {a, b} {
      ConversationInjective(x, y, a, b);
    }
  }

  lemma AppendedUnique(c: Conv, m: Message, c': Conv)
    requires Dense(c) && OncePerKey(c) && !Known(c, m.sender, m.key) && c'.lastSeq == c.lastSeq + 1 && c'.msgs == c.msgs[c.lastSeq + 1 := m]
    ensures Dense(c') && OncePerKey(c')
  {
    forall n | n in c.msgs && c.msgs[n].sender == m.sender && m.key.Key? ensures c.msgs[n].key != m.key {
      assert !Stored(c, m.sender, m.key, n);
    }
  }

  lemma AppendedGood(id: string, c: Conv, m: Message)
    requires Good(id, c) && !Known(c, m.sender, m.key) && m.createdAt != 0
    ensures Good(id, Appended(c, m))
  {
    AppendedUnique(c, m, Appended(c, m));
    assert Appended(c, m).read.Keys == c.read.Keys;
  }

  lemma SendKeepsInv(t: Table, m: Message, receiver: string)
    requires Inv(t) && UserId(m.sender) && UserId(receiver) && m.createdAt != 0
    ensures Inv(Sent(t, m, receiver))
  {
    OpenedGood(t, m.sender, receiver);
    var c := Opened(t, m.sender, receiver);
    if !Known(c, m.sender, m.key) {
      AppendedGood(ConversationID(m.sender, receiver), c, m);
    }
  }

  lemma MarkKeepsInv(t: Table, user: string, other: string, upTo: int)
    requires Inv(t)
    ensures Inv(Marked(t, user, other, upTo))
  {
  }

  lemma {:induction false} ImportedDense(c: Conv, msgs: seq<Legacy>, have: set<string>)
    requires Dense(c) && OncePerKey(c) && Imported(c, msgs, have).Import?
    ensures var got := Imported(c, msgs, have).c;
      Dense(got) && OncePerKey(got) && got.lastSeq >= c.lastSeq && got.read == c.read && forall n :: n in c.msgs ==> n in got.msgs && got.msgs[n] == c.msgs[n]
    decreases |msgs|
  {
    if msgs != [] {
      if msgs[0].id in have {
        ImportedDense(c, msgs[1..], have);
      } else {
        ImportOne(c, FromLegacy(msgs[0]));
        ImportedDense(c.(lastSeq := c.lastSeq + 1, lastAt := msgs[0].createdAt, msgs := c.msgs[c.lastSeq + 1 := FromLegacy(msgs[0])]), msgs[1..], have);
      }
    }
  }

  lemma ImportOne(c: Conv, m: Message)
    requires Dense(c) && OncePerKey(c) && !Known(c, m.sender, m.key)
    ensures var c' := c.(lastSeq := c.lastSeq + 1, lastAt := m.createdAt, msgs := c.msgs[c.lastSeq + 1 := m]); Dense(c') && OncePerKey(c')
  {
    AppendedUnique(c, m, c.(lastSeq := c.lastSeq + 1, lastAt := m.createdAt, msgs := c.msgs[c.lastSeq + 1 := m]));
  }

  /** The messages the import adds: the ones whose id is not there yet. */
  function Missing(msgs: seq<Legacy>, have: set<string>): seq<Legacy> {
    if msgs == [] then [] else (if msgs[0].id in have then [] else [msgs[0]]) + Missing(msgs[1..], have)
  }

  predicate AddedAt(got: Conv, m: Legacy, n: nat) { n in got.msgs && got.msgs[n] == FromLegacy(m) }

  /** The import loop's state after one more message. */
  function Advanced(c: Conv, m: Legacy): Conv {
    c.(lastSeq := c.lastSeq + 1, lastAt := m.createdAt, msgs := c.msgs[c.lastSeq + 1 := FromLegacy(m)])
  }

  lemma {:induction false} ImportedKeeps(c: Conv, msgs: seq<Legacy>, have: set<string>)
    requires Imported(c, msgs, have).Import?
    ensures var got := Imported(c, msgs, have).c; forall n :: n in c.msgs ==> n in got.msgs && got.msgs[n] == c.msgs[n]
    decreases |msgs|
  {
    if msgs != [] {
      ImportedKeeps(if msgs[0].id in have then c else Advanced(c, msgs[0]), msgs[1..], have);
    }
  }

  lemma {:induction false} ImportedCounts(c: Conv, msgs: seq<Legacy>, have: set<string>)
    requires Imported(c, msgs, have).Import?
    ensures var got, added := Imported(c, msgs, have).c, Missing(msgs, have);
      got.lastSeq == c.lastSeq + |added| && got.lastAt == (if added == [] then c.lastAt else added[|added| - 1].createdAt)
    decreases |msgs|
  {
    if msgs != [] {
      ImportedCounts(if msgs[0].id in have then c else Advanced(c, msgs[0]), msgs[1..], have);
    }
  }

  lemma {:induction false} ImportedPlaces(c: Conv, msgs: seq<Legacy>, have: set<string>, i: nat)
    requires Imported(c, msgs, have).Import? && i < |Missing(msgs, have)|
    ensures AddedAt(Imported(c, msgs, have).c, Missing(msgs, have)[i], c.lastSeq + 1 + i)
    decreases |msgs|
  {
    if msgs[0].id in have {
      ImportedPlaces(c, msgs[1..], have, i);
    } else {
      var c' := Advanced(c, msgs[0]);
      ImportedKeeps(c', msgs[1..], have);
      assert Imported(c, msgs, have) == Imported(c', msgs[1..], have) && Missing(msgs, have) == [msgs[0]] + Missing(msgs[1..], have);
      assert c'.lastSeq in c'.msgs;
      if i > 0 {
        ImportedPlaces(c', msgs[1..], have, i - 1);
      }
    }
  }

  lemma ImportedAdds(c: Conv, msgs: seq<Legacy>, have: set<string>)
    requires Imported(c, msgs, have).Import?
    ensures var got, added := Imported(c, msgs, have).c, Missing(msgs, have);
      && got.lastSeq == c.lastSeq + |added| && got.lastAt == (if added == [] then c.lastAt else added[|added| - 1].createdAt)
      && (forall n :: n in c.msgs ==> n in got.msgs && got.msgs[n] == c.msgs[n])
      && forall i :: 0 <= i < |added| ==> AddedAt(got, added[i], c.lastSeq + 1 + i)
  {
    ImportedKeeps(c, msgs, have);
    ImportedCounts(c, msgs, have);
    hide Imported, Missing, AddedAt;
    forall i | 0 <= i < |Missing(msgs, have)| ensures AddedAt(Imported(c, msgs, have).c, Missing(msgs, have)[i], c.lastSeq + 1 + i) {
      ImportedPlaces(c, msgs, have, i);
    }
  }

  lemma {:induction false} MissingHas(msgs: seq<Legacy>, have: set<string>)
    ensures forall m :: m in Missing(msgs, have) <==> m in msgs && m.id !in have
  {
    if msgs != [] {
      MissingHas(msgs[1..], have);
      assert msgs == [msgs[0]] + msgs[1..];
    }
  }

  // ── the order of the import ──

  predicate Before(a: Legacy, b: Legacy) {
    a.createdAt < b.createdAt || (a.createdAt == b.createdAt && Less(a.id, b.id))
  }

  function InsertByTime(m: Legacy, s: seq<Legacy>): (r: seq<Legacy>)
    ensures multiset(r) == multiset{m} + multiset(s)
  {
    if s == [] || Before(m, s[0]) then [m] + s
    else
      assert s == [s[0]] + s[1..];
      [s[0]] + InsertByTime(m, s[1..])
  }

  /** The library sort, oldest first. */
  function SortByTime(s: seq<Legacy>): (r: seq<Legacy>)
    ensures multiset(r) == multiset(s)
  {
    if s == [] then []
    else
      assert s == s[..|s| - 1] + [s[|s| - 1]];
      InsertByTime(s[|s| - 1], SortByTime(s[..|s| - 1]))
  }

  /** Oldest first, by id among messages of one time. */
  ghost predicate Ordered(s: seq<Legacy>) { forall i, j :: 0 <= i < j < |s| ==> !Before(s[j], s[i]) }

  lemma InTurn(a: Legacy, b: Legacy, c: Legacy)
    ensures !(Before(a, b) && Before(b, a)) && (!Before(b, a) && !Before(c, b) ==> !Before(c, a))
  {
    Trichotomy(a.id, b.id);
    Trichotomy(b.id, c.id);
    Asymmetric(a.id, b.id);
    Asymmetric(a.id, c.id);
    if Less(a.id, b.id) && Less(b.id, c.id) {
      Transitive(a.id, b.id, c.id);
    }
  }

  lemma FirstInTurn(first: Legacy, s: seq<Legacy>)
    requires Ordered(s) && (s != [] ==> !Before(s[0], first))
    ensures Ordered([first] + s)
  {
    hide Before;
    forall j | 0 <= j < |s| ensures !Before(s[j], first) {
      if j > 0 {
        InTurn(first, s[0], s[j]);
      }
    }
  }

  lemma {:induction false} InsertKeepsTurn(m: Legacy, s: seq<Legacy>)
    requires Ordered(s)
    ensures Ordered(InsertByTime(m, s))
  {
    hide Before;
    if s == [] {
    } else if Before(m, s[0]) {
      InTurn(m, s[0], s[0]);
      FirstInTurn(m, s);
    } else {
      InsertKeepsTurn(m, s[1..]);
      FirstInTurn(s[0], InsertByTime(m, s[1..]));
    }
  }

  lemma {:induction false} SortedInTurn(s: seq<Legacy>)
    ensures Ordered(SortByTime(s))
  {
    if s != [] {
      SortedInTurn(s[..|s| - 1]);
      InsertKeepsTurn(s[|s| - 1], SortByTime(s[..|s| - 1]));
    }
  }

  ghost predicate ByTime(s: seq<Legacy>) { forall i, j :: 0 <= i < j < |s| ==> s[i].createdAt <= s[j].createdAt }

  lemma {:induction false} InsertKeepsOrder(m: Legacy, s: seq<Legacy>)
    requires ByTime(s)
    ensures ByTime(InsertByTime(m, s))
  {
    if s != [] && !Before(m, s[0]) {
      InsertKeepsOrder(m, s[1..]);
      var rest := InsertByTime(m, s[1..]);
      forall j | 0 <= j < |rest| ensures s[0].createdAt <= rest[j].createdAt {
        assert rest[j] in multiset(rest);
        if rest[j] != m {
          var k :| 0 <= k < |s[1..]| && s[1..][k] == rest[j];
          assert s[k + 1] == rest[j];
        }
      }
    }
  }

  lemma {:induction false} SortedByTime(s: seq<Legacy>)
    ensures ByTime(SortByTime(s))
  {
    if s != [] {
      SortedByTime(s[..|s| - 1]);
      InsertKeepsOrder(s[|s| - 1], SortByTime(s[..|s| - 1]));
    }
  }

  lemma {:induction false} MissingByTime(msgs: seq<Legacy>, have: set<string>)
    requires ByTime(msgs)
    ensures ByTime(Missing(msgs, have))
  {
    if msgs != [] {
      MissingByTime(msgs[1..], have);
      MissingHas(msgs[1..], have);
      var rest := Missing(msgs[1..], have);
      forall j | 0 <= j < |rest| ensures msgs[0].createdAt <= rest[j].createdAt {
        assert rest[j] in rest;
        var k :| 0 <= k < |msgs[1..]| && msgs[1..][k] == rest[j];
        assert msgs[k + 1] == rest[j];
      }
    }
  }

  /** In the order messages imports them, the last missing one lacks a creation time exactly when
      all of them do. */
  lemma {:induction false} LastMissingIsDated(msgs: seq<Legacy>, have: set<string>)
    requires ByTime(msgs) && (forall m :: m in msgs ==> m.createdAt >= 0) && Missing(msgs, have) != []
    ensures Missing(msgs, have)[|Missing(msgs, have)| - 1].createdAt != 0 <==> exists m :: m in Missing(msgs, have) && m.createdAt != 0
  {
    var added := Missing(msgs, have);
    MissingByTime(msgs, have);
    MissingHas(msgs, have);
    assert added[|added| - 1] in added;
    forall m | m in added ensures m.createdAt <= added[|added| - 1].createdAt && m.createdAt >= 0 {
      var i :| 0 <= i < |added| && added[i] == m;
    }
  }

  /** Everything in the batch belongs to this conversation. */
  predicate Batch(conv: string, msgs: seq<Legacy>) {
    msgs != [] && forall m :: m in msgs ==> UserId(m.sender) && UserId(m.receiver) && ConversationID(m.sender, m.receiver) == conv
  }

  ghost predicate GoodAt(t: Table, conv: string) { conv in t ==> Good(conv, t[conv]) }

  predicate LastIsDated(added: seq<Legacy>) { added != [] ==> added[|added| - 1].createdAt != 0 }

  /** Nothing of the batch is missing, or the last missing message has a creation time. */
  predicate Dated(t: Table, conv: string, msgs: seq<Legacy>) {
    LastIsDated(Missing(msgs, KeysOf(Bare(t, conv))))
  }

  /** No insert of the import fails. */
  ghost predicate Importable(t: Table, conv: string, msgs: seq<Legacy>) {
    Imported(Bare(t, conv).(lastAt := 0), msgs, KeysOf(Bare(t, conv))).Import?
  }

  lemma BareCore(t: Table, conv: string)
    requires GoodAt(t, conv)
    ensures var c := Bare(t, conv).(lastAt := 0); Dense(c) && OncePerKey(c) && forall u :: u in c.read ==> 0 <= c.read[u] <= c.lastSeq
  {
  }

  lemma MembersOf(conv: string, a: string, b: string)
    requires UserId(a) && UserId(b) && ConversationID(a, b) == conv
    ensures forall x, y :: UserId(x) && UserId(y) && ConversationID(x, y) == conv ==> {x, y} == {a, b}
  {
    forall x, y | UserId(x) && UserId(y) && ConversationID(x, y) == conv ensures {x, y} == {a, b} {
      ConversationInjective(x, y, a, b);
    }
  }

  /** The import keeps its conversation good exactly when nothing was missing or the last missing
      message has a creation time: with only zero times the rows are stored but last_seq stays
      behind. */
  lemma {:induction false} CopyKeepsGoodIff(t: Table, conv: string, msgs: seq<Legacy>)
    requires GoodAt(t, conv) && Batch(conv, msgs) && Importable(t, conv, msgs)
    ensures GoodAt(Copied(t, conv, msgs), conv) <==> Dated(t, conv, msgs)
  {
    var c0 := Bare(t, conv);
    var c, have := c0.(lastAt := 0), KeysOf(c0);
    BareCore(t, conv);
    ImportedDense(c, msgs, have);
    ImportedAdds(c, msgs, have);
    var got, added := Imported(c, msgs, have).c, Missing(msgs, have);
    var t', a, b := Copied(t, conv, msgs), msgs[0].sender, msgs[0].receiver;
    assert msgs[0] in msgs;
    MembersOf(conv, a, b);
    if added == [] {
      NothingMissing(t, conv, msgs);
    } else if added[|added| - 1].createdAt != 0 {
      MovedGood(conv, c0, got, a, b);
    } else {
      assert AddedAt(got, added[0], c.lastSeq + 1);
      assert !Dense(t'[conv]);
    }
  }

  /** So the import keeps the invariant of the whole table under the same condition. */
  lemma CopyKeepsInvIff(t: Table, conv: string, msgs: seq<Legacy>)
    requires Inv(t) && Batch(conv, msgs) && Importable(t, conv, msgs)
    ensures Inv(Copied(t, conv, msgs)) <==> Dated(t, conv, msgs)
  {
    CopyKeepsGoodIff(t, conv, msgs);
    var t' := Copied(t, conv, msgs);
    assert conv in t' && forall id :: id in t' && id != conv ==> id in t && t'[id] == t[id];
  }

  /** One old message without a creation time: it is stored as number 1 but last_seq stays 0, and from
      then on nothing can be sent in that conversation, because every send takes number 1 again. */
  lemma {:induction false} UndatedImportBlocksSends(a: string, b: string, content: string)
    requires UserId(a) && UserId(b)
    ensures var conv, doc := ConversationID(a, b), Legacy("m", a, b, content, 0);
      var t := Copied(map[], conv, [doc]);
      && Batch(conv, [doc]) && Importable(map[], conv, [doc])
      && t == map[conv := Conv(0, 0, map[], map[1 := FromLegacy(doc)])] && !Inv(t)
      && forall m: Message, receiver :: ConversationID(m.sender, receiver) == conv ==> Sent(t, m, receiver) == t
  {
    var conv, doc := ConversationID(a, b), Legacy("m", a, b, content, 0);
    var c := Conv(0, 0, map[], map[]);
    assert KeysOf(c) == {} && [doc][1..] == [];
    assert Imported(c, [doc], {}) == Imported(Advanced(c, doc), [], {});
    var t := Copied(map[], conv, [doc]);
    assert t[conv].msgs == map[1 := FromLegacy(doc)];
    assert 1 in t[conv].msgs && !Dense(t[conv]);
  }

  lemma MovedGood(conv: string, c0: Conv, got: Conv, a: string, b: string)
    requires Dense(got) && OncePerKey(got) && got.lastAt != 0 && got.lastSeq >= c0.lastSeq
    requires UserId(a) && UserId(b) && ConversationID(a, b) == conv
    requires forall u :: u in c0.read ==> 0 <= c0.read[u] <= c0.lastSeq && u in {a, b}
    ensures Good(conv, Closed(c0, got, a, b))
  {
    MembersOf(conv, a, b);
    assert Closed(c0, got, a, b).read.Keys == {a, b};
  }

  lemma NothingMissing(t: Table, conv: string, msgs: seq<Legacy>)
    requires GoodAt(t, conv) && Batch(conv, msgs) && Missing(msgs, KeysOf(Bare(t, conv))) == []
    ensures conv in t && Copied(t, conv, msgs) == t
  {
    var c := Bare(t, conv);
    MissingHas(msgs, KeysOf(c));
    assert msgs[0] in msgs && msgs[0].id in KeysOf(c);
    SkipAll(c.(lastAt := 0), msgs, KeysOf(c));
    assert Closed(c, c.(lastAt := 0), msgs[0].sender, msgs[0].receiver) == c;
    assert t[conv := c] == t;
  }

  lemma {:induction false} SkipAll(c: Conv, msgs: seq<Legacy>, have: set<string>)
    requires forall m :: m in msgs ==> m.id in have
    ensures Imported(c, msgs, have) == Import(c)
    decreases |msgs|
  {
    if msgs != [] {
      assert msgs[0] in msgs;
      SkipAll(c, msgs[1..], have);
    }
  }

  // ── any sequence of operations ──

  datatype Op = Send(m: Message, receiver: string) | Mark(user: string, other: string, upTo: int) | Copy(conv: string, msgs: seq<Legacy>)

  /** Who may be named, and for an import: its last missing message has a creation time. */
  ghost predicate Legal(t: Table, op: Op) {
    match op
    case Send(m, receiver) => UserId(m.sender) && UserId(receiver) && m.createdAt != 0
    case Mark(_, _, _) => true
    case Copy(conv, msgs) =>
      Batch(conv, msgs) && Dated(t, conv, msgs)
  }

  ghost function Next(t: Table, op: Op): Table
    requires Legal(t, op)
  {
    match op
    case Send(m, receiver) => Sent(t, m, receiver)
    case Mark(user, other, upTo) => Marked(t, user, other, upTo)
    case Copy(conv, msgs) => Copied(t, conv, msgs)
  }

  ghost predicate Runs(t: Table, ops: seq<Op>)
    decreases |ops|
  {
    ops == [] || (Legal(t, ops[0]) && Runs(Next(t, ops[0]), ops[1..]))
  }

  ghost function End(t: Table, ops: seq<Op>): Table
    requires Runs(t, ops)
    decreases |ops|
  {
    if ops == [] then t else End(Next(t, ops[0]), ops[1..])
  }

  /** Messages never change, seqs and read positions never go back. */
  ghost predicate LaterConv(c: Conv, c': Conv) {
    && c.lastSeq <= c'.lastSeq
    && (forall n :: n in c.msgs ==> n in c'.msgs && c'.msgs[n] == c.msgs[n])
    && (forall u :: u in c.read ==> u in c'.read && c.read[u] <= c'.read[u])
  }

  ghost predicate Later(t: Table, t': Table) {
    forall id :: id in t ==> id in t' && LaterConv(t[id], t'[id])
  }

  lemma CopyLater(t: Table, conv: string, msgs: seq<Legacy>)
    requires Inv(t) && Legal(t, Copy(conv, msgs))
    ensures Inv(Copied(t, conv, msgs)) && Later(t, Copied(t, conv, msgs))
  {
    var c0 := Bare(t, conv);
    var c, have := c0.(lastAt := 0), KeysOf(c0);
    if Imported(c, msgs, have).Import? {
      CopyKeepsInvIff(t, conv, msgs);
      BareCore(t, conv);
      ImportedDense(c, msgs, have);
      ClosedLater(c0, Imported(c, msgs, have).c, msgs[0].sender, msgs[0].receiver);
      hide Dense, OncePerKey, Good, Imported, Missing, Batch, Later, LaterConv, Closed, Inv;
      UpdateLater(t, conv, Closed(c0, Imported(c, msgs, have).c, msgs[0].sender, msgs[0].receiver));
    } else {
      assert Copied(t, conv, msgs) == t;
    }
  }

  lemma UpdateLater(t: Table, conv: string, c: Conv)
    requires LaterConv(Bare(t, conv), c)
    ensures Later(t, t[conv := c])
  {
  }

  lemma ClosedLater(c: Conv, got: Conv, a: string, b: string)
    requires c.lastSeq <= got.lastSeq && (forall n :: n in c.msgs ==> n in got.msgs && got.msgs[n] == c.msgs[n])
    requires forall u :: u in c.read ==> c.read[u] <= c.lastSeq
    ensures LaterConv(c, Closed(c, got, a, b))
  {
  }

  lemma SendLater(t: Table, m: Message, receiver: string)
    requires Inv(t)
    ensures Later(t, Sent(t, m, receiver))
  {
    var id := ConversationID(m.sender, receiver);
    if id in t {
      assert Good(id, t[id]);
    }
  }

  lemma MarkLater(t: Table, user: string, other: string, upTo: int)
    ensures Later(t, Marked(t, user, other, upTo))
  {
  }

  lemma StepKeeps(t: Table, op: Op)
    requires Inv(t) && Legal(t, op)
    ensures Inv(Next(t, op)) && Later(t, Next(t, op))
  {
    hide Inv, Later, Sent, Marked, Copied;
    match op
    case Send(m, receiver) =>
      SendKeepsInv(t, m, receiver);
      SendLater(t, m, receiver);
    case Mark(user, other, upTo) =>
      MarkKeepsInv(t, user, other, upTo);
      MarkLater(t, user, other, upTo);
    case Copy(conv, msgs) =>
      CopyLater(t, conv, msgs);
  }

  /** In every sequence of sends, retries, read markers and imports each conversation's seqs are
      exactly 1..last_seq, no key is used twice by a sender, read positions stay within the
      conversation, and nothing ever goes back. */
  lemma {:induction false} RunKeeps(t: Table, ops: seq<Op>)
    requires Inv(t) && Runs(t, ops)
    ensures Inv(End(t, ops)) && Later(t, End(t, ops))
    decreases |ops|
  {
    if ops != [] {
      StepKeeps(t, ops[0]);
      RunKeeps(Next(t, ops[0]), ops[1..]);
      LaterTwice(t, Next(t, ops[0]), End(t, ops));
    }
  }

  lemma LaterTwice(a: Table, b: Table, c: Table)
    requires Later(a, b) && Later(b, c)
    ensures Later(a, c)
  {
    forall id | id in a ensures id in c && LaterConv(a[id], c[id]) {
      assert LaterConv(a[id], b[id]) && LaterConv(b[id], c[id]);
    }
  }

  // ── seq order is time order ──

  ghost predicate TimesRise(c: Conv) {
    forall m, n :: m in c.msgs && n in c.msgs && m <= n ==> c.msgs[m].createdAt <= c.msgs[n].createdAt
  }

  /** A new message keeps seq order and time order together exactly when it is not older than the last
      one: hence clock_timestamp() under the row lock, and not the transaction's start. */
  lemma {:induction false} SendKeepsTimesIff(c: Conv, m: Message)
    requires Dense(c) && TimesRise(c)
    ensures TimesRise(Appended(c, m)) <==> c.lastSeq == 0 || c.msgs[c.lastSeq].createdAt <= m.createdAt
  {
    var c' := Appended(c, m);
    if c.lastSeq > 0 {
      assert c.lastSeq in c'.msgs && c.lastSeq + 1 in c'.msgs && c'.msgs[c.lastSeq] == c.msgs[c.lastSeq];
    }
  }

  /** An import, which is in time order itself, does when its first new message is not older than the
      last one there. */
  lemma {:induction false} ImportKeepsTimesIff(c: Conv, msgs: seq<Legacy>, have: set<string>)
    requires Dense(c) && OncePerKey(c) && TimesRise(c) && ByTime(msgs) && Imported(c, msgs, have).Import?
    ensures var added := Missing(msgs, have);
      TimesRise(Imported(c, msgs, have).c) <==> added == [] || c.lastSeq == 0 || c.msgs[c.lastSeq].createdAt <= added[0].createdAt
  {
    var got, added := Imported(c, msgs, have).c, Missing(msgs, have);
    ImportedDense(c, msgs, have);
    ImportedAdds(c, msgs, have);
    MissingByTime(msgs, have);
    hide Imported, Missing;
    forall n | n in got.msgs && n > c.lastSeq ensures got.msgs[n] == FromLegacy(added[n - c.lastSeq - 1]) {
      assert AddedAt(got, added[n - c.lastSeq - 1], c.lastSeq + 1 + (n - c.lastSeq - 1));
    }
    if added != [] && c.lastSeq > 0 {
      assert AddedAt(got, added[0], c.lastSeq + 1);
      assert c.lastSeq in got.msgs && got.msgs[c.lastSeq] == c.msgs[c.lastSeq];
    }
    assert forall n :: n in got.msgs && n <= c.lastSeq ==> n in c.msgs && got.msgs[n] == c.msgs[n];
  }

  /** No message of the table is later than this. */
  ghost predicate NoneAfter(t: Table, now: int) {
    forall id, n :: id in t && n in t[id].msgs ==> t[id].msgs[n].createdAt <= now
  }

  ghost predicate AllRise(t: Table) { forall id :: id in t ==> TimesRise(t[id]) }

  /** Only sends and read markers, the sends stamped by a clock that does not go back. */
  ghost predicate Clocked(ops: seq<Op>, now: int)
    decreases |ops|
  {
    ops != [] ==> match ops[0]
      case Send(m, _) => now <= m.createdAt && Clocked(ops[1..], m.createdAt)
      case Mark(_, _, _) => Clocked(ops[1..], now)
      case Copy(_, _) => false
  }

  lemma SendRises(t: Table, m: Message, receiver: string, now: int)
    requires Inv(t) && AllRise(t) && NoneAfter(t, now) && now <= m.createdAt && UserId(m.sender) && UserId(receiver)
    ensures AllRise(Sent(t, m, receiver)) && NoneAfter(Sent(t, m, receiver), m.createdAt)
  {
    OpenedGood(t, m.sender, receiver);
    var c := Opened(t, m.sender, receiver);
    SendKeepsTimesIff(c, m);
  }

  /** So with a steady clock seq order is time order in every conversation, throughout. */
  lemma {:induction false} RunTimesRise(t: Table, ops: seq<Op>, now: int)
    requires Inv(t) && AllRise(t) && NoneAfter(t, now) && Runs(t, ops) && Clocked(ops, now)
    ensures AllRise(End(t, ops))
    decreases |ops|
  {
    if ops != [] {
      StepKeeps(t, ops[0]);
      var t' := Next(t, ops[0]);
      match ops[0]
      case Send(m, receiver) =>
        SendRises(t, m, receiver, now);
        RunTimesRise(t', ops[1..], m.createdAt);
      case Mark(user, other, upTo) =>
        MarkRises(t, user, other, upTo, now);
        RunTimesRise(t', ops[1..], now);
    }
  }

  lemma MarkRises(t: Table, user: string, other: string, upTo: int, now: int)
    requires AllRise(t) && NoneAfter(t, now)
    ensures AllRise(Marked(t, user, other, upTo)) && NoneAfter(Marked(t, user, other, upTo), now)
  {
    var t' := Marked(t, user, other, upTo);
    assert forall id :: id in t' ==> id in t && t'[id].msgs == t[id].msgs;
  }

  /** However much happened since, a retry with the same key finds the message the first attempt
      stored, and only that one, and stores nothing. */
  lemma {:induction false} RetryFindsFirst(t: Table, ops: seq<Op>, m: Message, receiver: string, n: nat, again: Message)
    requires Inv(t) && Runs(t, ops) && UserId(m.sender) && UserId(receiver)
    requires ConversationID(m.sender, receiver) in t && Stored(t[ConversationID(m.sender, receiver)], m.sender, m.key, n)
    requires again.sender == m.sender && again.key == m.key
    ensures var t', id := End(t, ops), ConversationID(m.sender, receiver);
      && id in t' && Stored(t'[id], m.sender, m.key, n) && t'[id].msgs[n] == t[id].msgs[n]
      && (forall k :: Stored(t'[id], m.sender, m.key, k) ==> k == n)
      && Sent(t', again, receiver) == t'
  {
    RunKeeps(t, ops);
    var t', id := End(t, ops), ConversationID(m.sender, receiver);
    assert LaterConv(t[id], t'[id]) && Good(id, t'[id]);
    assert Stored(t'[id], again.sender, again.key, n);
  }

  lemma CopiedKeys(t: Table, conv: string, msgs: seq<Legacy>)
    requires Batch(conv, msgs) && Importable(t, conv, msgs)
    ensures conv in Copied(t, conv, msgs) && forall m :: m in msgs ==> m.id in KeysOf(Copied(t, conv, msgs)[conv])
  {
    var c0 := Bare(t, conv);
    var c, have := c0.(lastAt := 0), KeysOf(c0);
    ImportedAdds(c, msgs, have);
    MissingHas(msgs, have);
    var got, added, after := Imported(c, msgs, have).c, Missing(msgs, have), Copied(t, conv, msgs)[conv];
    assert after.msgs == got.msgs;
    forall m | m in msgs ensures m.id in KeysOf(after) {
      if m.id in have {
        var n :| n in c0.msgs && c0.msgs[n].key == Key(m.id);
        assert got.msgs[n].key.id == m.id;
      } else {
        var i :| 0 <= i < |added| && added[i] == m;
        assert AddedAt(got, added[i], c.lastSeq + 1 + i);
        assert got.msgs[c.lastSeq + 1 + i].key.id == m.id;
      }
    }
  }

  lemma {:induction false} NoneMissing(msgs: seq<Legacy>, have: set<string>)
    requires forall m :: m in msgs ==> m.id in have
    ensures Missing(msgs, have) == []
  {
    if msgs != [] {
      assert msgs[0] in msgs;
      NoneMissing(msgs[1..], have);
    }
  }

  /** Running the import again, whatever happened in between, changes nothing. */
  lemma {:induction false} CopyTwice(t: Table, conv: string, msgs: seq<Legacy>, ops: seq<Op>)
    requires Inv(t) && Legal(t, Copy(conv, msgs))
    requires Importable(t, conv, msgs)
    requires Runs(Copied(t, conv, msgs), ops)
    ensures var e := End(Copied(t, conv, msgs), ops); Copied(e, conv, msgs) == e
  {
    var t' := Copied(t, conv, msgs);
    CopyLater(t, conv, msgs);
    CopiedKeys(t, conv, msgs);
    RunKeeps(t', ops);
    var e := End(t', ops);
    assert LaterConv(t'[conv], e[conv]);
    forall m | m in msgs ensures m.id in KeysOf(e[conv]) {
      var n :| n in t'[conv].msgs && t'[conv].msgs[n].key == Key(m.id);
      assert e[conv].msgs[n].key.id == m.id;
    }
    NoneMissing(msgs, KeysOf(e[conv]));
    NothingMissing(e, conv, msgs);
  }

  // ── paging ──

  function Range(lo: nat, hi: nat): (s: seq<nat>)
    ensures |s| == if lo <= hi then hi - lo + 1 else 0
    ensures forall i :: 0 <= i < |s| ==> s[i] == lo + i
  {
    if lo > hi then [] else seq(hi - lo + 1, i requires 0 <= i => lo + i)
  }

  lemma RangeJoin(lo: nat, mid: nat, hi: nat)
    requires lo <= mid + 1 && mid <= hi
    ensures Range(lo, mid) + Range(mid + 1, hi) == Range(lo, hi)
  {
  }

  /** A page of seqs, oldest first; next is 0 at the start of the conversation. */
  datatype Page = Page(seqs: seq<nat>, next: nat, more: bool)

  /** The newest limit messages before a position (0: no position) of a conversation 1..k. */
  function PageBack(k: nat, before: nat, limit: nat): Page {
    var hi := if before == 0 || before > k then k else before - 1;
    if hi > limit then Page(Range(hi - limit + 1, hi), hi - limit + 1, false) else Page(Range(1, hi), 0, false)
  }

  /** The oldest limit messages after a position. */
  function PageAfter(k: nat, after: nat, limit: nat): Page {
    if k > after + limit then Page(Range(after + 1, after + limit), 0, true) else Page(Range(after + 1, k), 0, false)
  }

  /** A page back is the newest limit of the messages before the position, a page on the oldest limit
      of those after it; each says whether more are left. */
  lemma {:induction false} PagesAreWindows(k: nat, at: nat, limit: nat)
    ensures var hi, p := if 0 < at <= k then at - 1 else k, PageBack(k, at, limit);
      |p.seqs| == Min(hi, limit) && (forall i :: 0 <= i < |p.seqs| ==> p.seqs[i] == hi - |p.seqs| + 1 + i)
      && (p.next != 0 <==> hi > limit) && (hi > limit > 0 ==> p.next == p.seqs[0])
    ensures var p := PageAfter(k, at, limit);
      |p.seqs| == Min(Max(k - at, 0), limit) && (forall i :: 0 <= i < |p.seqs| ==> p.seqs[i] == at + 1 + i) && (p.more <==> k - at > limit)
  {
  }

  predicate Rising(ks: seq<nat>) { forall i, j :: 0 <= i < j < |ks| ==> ks[i] <= ks[j] }

  /** Following NextBeforeSeq; ks is last_seq as each request finds it. */
  function ScrollBack(ks: seq<nat>, before: nat, limit: nat): seq<nat>
    requires ks != []
    decreases |ks|
  {
    var page := PageBack(ks[0], before, limit);
    (if page.next != 0 && |ks| > 1 then ScrollBack(ks[1..], page.next, limit) else []) + page.seqs
  }

  predicate ReachedStart(ks: seq<nat>, before: nat, limit: nat)
    requires ks != []
    decreases |ks|
  {
    var next := PageBack(ks[0], before, limit).next;
    next != 0 ==> |ks| > 1 && ReachedStart(ks[1..], next, limit)
  }

  lemma RisingTail(ks: seq<nat>)
    requires Rising(ks) && |ks| > 1
    ensures ks[0] <= ks[1] && Rising(ks[1..])
  {
  }

  /** Scrolling back to the start shows each of the messages there were at the first page exactly
      once and in order, whatever is sent meanwhile. */
  lemma {:induction false} ScrollBackIsComplete(ks: seq<nat>, before: nat, limit: nat)
    requires ks != [] && Rising(ks) && limit >= 1 && ReachedStart(ks, before, limit)
    ensures ScrollBack(ks, before, limit) == Range(1, if before == 0 || before > ks[0] then ks[0] else before - 1)
    decreases |ks|
  {
    var hi := if before == 0 || before > ks[0] then ks[0] else before - 1;
    var page := PageBack(ks[0], before, limit);
    assert page.seqs == Range(if page.next == 0 then 1 else page.next, hi) && page.next <= ks[0];
    if page.next != 0 {
      RisingTail(ks);
      hide Rising, Range, PageBack;
      ScrollBackIsComplete(ks[1..], page.next, limit);
      RangeJoin(1, page.next - 1, hi);
    } else {
      assert [] + page.seqs == page.seqs;
    }
  }

  lemma {:induction false} ScrollBackTerminates(ks: seq<nat>, before: nat, limit: nat)
    requires ks != [] && Rising(ks) && limit >= 1
    requires (if before == 0 || before > ks[0] then ks[0] else before - 1) <= limit * |ks|
    ensures ReachedStart(ks, before, limit)
    decreases |ks|
  {
    var page, n := PageBack(ks[0], before, limit), |ks|;
    if page.next != 0 {
      assert limit * n == limit + limit * (n - 1) && (n == 1 ==> limit * n == limit);
      if n > 1 {
        RisingTail(ks);
        ScrollBackTerminates(ks[1..], page.next, limit);
      }
    }
  }

  function LastSeen(after: nat, page: Page): nat { if page.seqs == [] then after else page.seqs[|page.seqs| - 1] }

  /** Polling with the last seq seen. */
  function Poll(ks: seq<nat>, after: nat, limit: nat): seq<nat>
    decreases |ks|
  {
    if ks == [] then [] else
      var page := PageAfter(ks[0], after, limit);
      page.seqs + Poll(ks[1..], LastSeen(after, page), limit)
  }

  function PolledTo(ks: seq<nat>, after: nat, limit: nat): nat
    decreases |ks|
  {
    if ks == [] then after else PolledTo(ks[1..], LastSeen(after, PageAfter(ks[0], after, limit)), limit)
  }

  predicate LastPollCut(ks: seq<nat>, after: nat, limit: nat)
    requires ks != []
    decreases |ks|
  {
    var page := PageAfter(ks[0], after, limit);
    if |ks| == 1 then page.more else LastPollCut(ks[1..], LastSeen(after, page), limit)
  }

  /** Polling returns every message after the first position once, in order and without a gap, up
      to the last one there was at the final poll unless that page says there is more. */
  lemma {:induction false} PollHasNoGap(ks: seq<nat>, after: nat, limit: nat)
    requires ks != [] && Rising(ks) && limit >= 1 && after <= ks[0]
    ensures after <= PolledTo(ks, after, limit) <= ks[|ks| - 1]
    ensures Poll(ks, after, limit) == Range(after + 1, PolledTo(ks, after, limit))
    ensures !LastPollCut(ks, after, limit) ==> PolledTo(ks, after, limit) == ks[|ks| - 1]
    decreases |ks|
  {
    var page := PageAfter(ks[0], after, limit);
    var seen := LastSeen(after, page);
    PollPage(ks[0], after, limit);
    hide Range, PageAfter, LastSeen;
    assert Poll(ks, after, limit) == page.seqs + Poll(ks[1..], seen, limit) && PolledTo(ks, after, limit) == PolledTo(ks[1..], seen, limit);
    if |ks| > 1 {
      assert LastPollCut(ks, after, limit) == LastPollCut(ks[1..], seen, limit);
      RisingTail(ks);
      var last := ks[1..][|ks| - 2];
      assert last == ks[|ks| - 1];
      hide Rising, Poll, PolledTo, LastPollCut;
      PollHasNoGap(ks[1..], seen, limit);
      RangeJoin(after + 1, seen, PolledTo(ks, after, limit));
    } else {
      assert ks[1..] == [] && page.seqs + [] == page.seqs;
    }
  }

  lemma PollPage(k: nat, after: nat, limit: nat)
    requires limit >= 1 && after <= k
    ensures var page := PageAfter(k, after, limit);
      after <= LastSeen(after, page) <= k && page.seqs == Range(after + 1, LastSeen(after, page)) && (!page.more ==> LastSeen(after, page) == k)
  {
  }

  /** Position 0 means no position: the answer is the newest page, so starting to poll from 0 misses
      nothing exactly when the conversation fits one page. */
  lemma {:induction false} PollFromZero(k: nat, limit: nat)
    ensures PageBack(k, 0, limit).seqs == Range(1, k) <==> k <= limit
  {
    if k > limit {
      assert |PageBack(k, 0, limit).seqs| == limit != |Range(1, k)|;
    }
  }

  /** Three messages and pages of two: a client that starts at 0 is shown the last two, and polling on
      from there never brings the first. */
  lemma {:induction false} PollFromZeroMisses(ks: seq<nat>)
    requires ks != [] && Rising(ks) && 3 <= ks[0]
    ensures PageBack(3, 0, 2).seqs == [2, 3] && LastSeen(0, PageBack(3, 0, 2)) == 3
    ensures 1 !in Poll(ks, 3, 2)
  {
    PollHasNoGap(ks, 3, 2);
  }
}
