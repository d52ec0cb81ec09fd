/** shared/consumer/tracker.go: turns out-of-order completions into in-order commit positions. */
module Tracker {
  import opened Order

  datatype Part = Part(topic: string, partition: int)

  datatype Position = Position(part: Part, offset: int)

  datatype PartState = PartState(pending: seq<int>, done: set<int>, ready: int, committed: int)

  const FRESH := PartState([], {}, -1, -1)

  // ── what each operation does to one partition ──

  function StateOf(parts: map<Part, PartState>, p: Part): PartState {
    if p in parts then parts[p] else FRESH
  }

  function TrackIn(s: PartState, offset: int): PartState {
    s.(pending := s.pending + [offset])
  }

  function Drain(s: PartState): PartState
    decreases |s.pending|
  {
    if s.pending != [] && s.pending[0] in s.done
    then Drain(PartState(s.pending[1..], s.done - {s.pending[0]}, s.pending[0], s.committed))
    else s
  }

  function DoneIn(s: PartState, offset: int): PartState {
    Drain(s.(done := s.done + {offset}))
  }

  predicate Due(s: PartState) { s.ready > s.committed }

  function HandOut(s: PartState): PartState {
    if Due(s) then s.(committed := s.ready) else s
  }

  function RewindIn(s: PartState, offset: int): PartState {
    if s.committed >= offset then s.(committed := offset - 1) else s
  }

  function HandOutAll(parts: map<Part, PartState>): map<Part, PartState> {
    map p | p in parts :: HandOut(parts[p])
  }

  predicate Before(a: Position, b: Position) {
    if a.part.topic != b.part.topic then Less(a.part.topic, b.part.topic) else a.part.partition < b.part.partition
  }

  ghost predicate Sorted(out: seq<Position>) {
    forall i, j :: 0 <= i < j < |out| ==> Before(out[i], out[j])
  }

  function InsertPosition(x: Position, s: seq<Position>): seq<Position> {
    if s == [] || Before(x, s[0]) then [x] + s else [s[0]] + InsertPosition(x, s[1..])
  }

  function SortPositions(s: seq<Position>): seq<Position> {
    if s == [] then [] else InsertPosition(s[0], SortPositions(s[1..]))
  }

  lemma BeforeOrder(a: Position, b: Position, c: Position)
    ensures Before(a, b) && Before(b, c) ==> Before(a, c)
    ensures Before(a, b) || Before(b, a) || a.part == b.part
  {
    if Less(a.part.topic, b.part.topic) && Less(b.part.topic, c.part.topic) {
      Transitive(a.part.topic, b.part.topic, c.part.topic);
    }
    Asymmetric(a.part.topic, c.part.topic);
    Asymmetric(a.part.topic, b.part.topic);
    Trichotomy(a.part.topic, b.part.topic);
  }

  lemma BeforeIrreflexive(a: Position, b: Position)
    requires Before(a, b)
    ensures a.part != b.part
  {
    Asymmetric(a.part.topic, b.part.topic);
  }

  lemma {:induction false} InsertPositionSorts(x: Position, s: seq<Position>)
    requires Sorted(s) && forall y :: y in s ==> y.part != x.part
    ensures Sorted(InsertPosition(x, s))
    ensures forall y :: y in InsertPosition(x, s) <==> y == x || y in s
  {
    if s == [] {
    } else if Before(x, s[0]) {
      forall j | 0 <= j < |s| ensures Before(x, s[j]) {
        BeforeOrder(x, s[0], s[j]);
      }
    } else {
      assert s == [s[0]] + s[1..];
      InsertPositionSorts(x, s[1..]);
      BeforeOrder(x, s[0], x);
      var r := InsertPosition(x, s[1..]);
      forall j | 0 <= j < |r| ensures Before(s[0], r[j]) {
        assert r[j] in r;
      }
    }
  }

  lemma {:induction false} SortPositionsSorts(s: seq<Position>)
    requires forall i, j :: 0 <= i < j < |s| ==> s[i].part != s[j].part
    ensures Sorted(SortPositions(s)) && forall y :: y in SortPositions(s) <==> y in s
  {
    if s != [] {
      assert s == [s[0]] + s[1..];
      SortPositionsSorts(s[1..]);
      InsertPositionSorts(s[0], SortPositions(s[1..]));
    }
  }

  class Tracker {
    var parts: map<Part, PartState>

    constructor ()
      ensures parts == map[]
    {
      parts := map[];
    }

    /** Whatever history a partition's state stood for, it now stands for that history with the
        offset fetched last; nothing is due that was not, and no other partition moves. */
    method Track(p: Part, offset: int)
      modifies this
      ensures parts == old(parts)[p := TrackIn(StateOf(old(parts), p), offset)]
      ensures forall f, d :: Tracks(StateOf(old(parts), p), f, d) && offset !in d && offset !in f ==>
                Tracks(StateOf(parts, p), f + [offset], d)
      ensures forall q :: Due(StateOf(parts, q)) == Due(StateOf(old(parts), q))
    {
      var s := StateOf(parts, p);
      forall f, d | Tracks(s, f, d) && offset !in d && offset !in f ensures Tracks(TrackIn(s, offset), f + [offset], d) {
        TrackRefines(s, f, d, offset);
      }
      hide Tracks;
      parts := parts[p := s.(pending := s.pending + [offset])];
    }

    method Done(p: Part, offset: int)
      modifies this
      ensures parts == old(parts)[p := DoneIn(StateOf(old(parts), p), offset)]
    {
      var s := StateOf(parts, p);
      s := s.(done := s.done + {offset});
      while s.pending != [] && s.pending[0] in s.done
        invariant Drain(s) == DoneIn(StateOf(old(parts), p), offset)
        decreases |s.pending|
      {
        s := s.(ready := s.pending[0]);
        s := s.(done := s.done - {s.pending[0]});
        s := s.(pending := s.pending[1..]);
      }
      parts := parts[p := s];
    }

    /** Per partition the newest position not handed out yet, in (topic, partition) order. */
    method Committable() returns (out: seq<Position>)
      modifies this
      ensures parts == HandOutAll(old(parts))
      ensures Sorted(out)
      ensures forall i, j :: 0 <= i < j < |out| ==>
        Less(out[i].part.topic, out[j].part.topic) || (out[i].part.topic == out[j].part.topic && out[i].part.partition < out[j].part.partition)
      ensures forall x :: x in out <==> x.part in old(parts) && Due(old(parts)[x.part]) && x.offset == old(parts)[x.part].ready
    {
      out := [];
      var todo := parts.Keys;
      while todo != {}
        invariant todo <= old(parts).Keys == parts.Keys
        invariant forall p :: p in parts ==> parts[p] == if p in todo then old(parts)[p] else HandOut(old(parts)[p])
        invariant forall x :: x in out <==> x.part in old(parts) && x.part !in todo && Due(old(parts)[x.part]) && x.offset == old(parts)[x.part].ready
        invariant forall i, j :: 0 <= i < j < |out| ==> out[i].part != out[j].part
      {
        var p :| p in todo;
        todo := todo - {p};
        var s := parts[p];
        if s.ready > s.committed {
          forall x | x in out ensures x.part != p {}
          out := out + [Position(p, s.ready)];
          parts := parts[p := s.(committed := s.ready)];
        }
      }
      SortPositionsSorts(out);
      out := SortPositions(out);
    }

    method Rewind(pos: Position)
      modifies this
      ensures parts == old(parts)[pos.part := RewindIn(StateOf(old(parts), pos.part), pos.offset)]
    {
      var s := StateOf(parts, pos.part);
      if s.committed >= pos.offset {
        s := s.(committed := pos.offset - 1);
      }
      parts := parts[pos.part := s];
    }
  }

  // ── the simple specification: what was fetched, what is finished ──

  ghost predicate Increasing(s: seq<int>) {
    (forall i :: 0 <= i < |s| ==> s[i] >= 0) && forall i, j :: 0 <= i < j < |s| ==> s[i] < s[j]
  }

  /** The length of the longest finished prefix. */
  function Prefix(fetched: seq<int>, finished: set<int>): nat {
    if fetched == [] || fetched[0] !in finished then 0 else 1 + Prefix(fetched[1..], finished)
  }

  /** The last offset of the longest finished prefix, -1 when it is empty. */
  function EndOfPrefix(fetched: seq<int>, finished: set<int>): int {
    var n := Prefix(fetched, finished);
    PrefixBound(fetched, finished);
    if n == 0 then -1 else fetched[n - 1]
  }

  lemma {:induction false} PrefixBound(fetched: seq<int>, finished: set<int>)
    ensures var n := Prefix(fetched, finished);
      && n <= |fetched| && (forall i :: 0 <= i < n ==> fetched[i] in finished)
      && (n < |fetched| ==> fetched[n] !in finished)
  {
    if fetched != [] && fetched[0] in finished {
      PrefixBound(fetched[1..], finished);
    }
  }

  lemma {:induction false} PrefixIs(fetched: seq<int>, finished: set<int>, n: nat)
    requires n <= |fetched| && (forall i :: 0 <= i < n ==> fetched[i] in finished)
    requires n < |fetched| ==> fetched[n] !in finished
    ensures Prefix(fetched, finished) == n
  {
    if n > 0 {
      assert fetched[0] in finished;
      PrefixIs(fetched[1..], finished, n - 1);
    }
  }

  /** The tracker's state for a partition is the one its history determines. */
  ghost predicate Tracks(s: PartState, fetched: seq<int>, finished: set<int>) {
    PrefixBound(fetched, finished);
    var n := Prefix(fetched, finished);
    s.pending == fetched[n..] && s.done == (set o | o in finished && o in fetched[n..]) && s.ready == EndOfPrefix(fetched, finished)
  }

  lemma {:induction false} DrainReachesPrefix(s: PartState, fetched: seq<int>, finished: set<int>, n: nat)
    requires Increasing(fetched) && n <= |fetched|
    requires forall i :: 0 <= i < n ==> fetched[i] in finished
    requires s.pending == fetched[n..] && s.done == (set o | o in finished && o in fetched[n..])
    requires s.ready == if n == 0 then -1 else fetched[n - 1]
    ensures Tracks(Drain(s), fetched, finished) && Drain(s).committed == s.committed
    decreases |fetched| - n
  {
    if n < |fetched| && fetched[n] in finished {
      var s' := PartState(s.pending[1..], s.done - {s.pending[0]}, s.pending[0], s.committed);
      assert fetched[n..] == [fetched[n]] + fetched[n + 1..];
      assert forall i :: n + 1 <= i < |fetched| ==> fetched[i] != fetched[n];
      DrainReachesPrefix(s', fetched, finished, n + 1);
    } else {
      PrefixIs(fetched, finished, n);
    }
  }

  lemma {:induction false} DoneRefines(s: PartState, fetched: seq<int>, finished: set<int>, o: int)
    requires Increasing(fetched) && Tracks(s, fetched, finished) && o in fetched && o !in finished
    ensures Tracks(DoneIn(s, o), fetched, finished + {o}) && DoneIn(s, o).committed == s.committed
    ensures DoneIn(s, o).ready >= s.ready
  {
    PrefixBound(fetched, finished);
    var n := Prefix(fetched, finished);
    InSuffix(fetched, finished, n, o);
    DrainReachesPrefix(s.(done := s.done + {o}), fetched, finished + {o}, n);
    ReadyGrows(fetched, finished, finished + {o});
  }

  lemma InSuffix(fetched: seq<int>, finished: set<int>, n: nat, o: int)
    requires n <= |fetched| && o in fetched && forall i :: 0 <= i < n ==> fetched[i] in finished
    ensures o !in finished ==> o in fetched[n..]
  {
    var i :| 0 <= i < |fetched| && fetched[i] == o;
    if i >= n {
      assert fetched[n..][i - n] == o;
    }
  }

  lemma ReadyGrows(fetched: seq<int>, finished: set<int>, more: set<int>)
    requires Increasing(fetched) && finished <= more
    ensures EndOfPrefix(fetched, finished) <= EndOfPrefix(fetched, more)
  {
    PrefixGrows(fetched, finished, more);
    PrefixBound(fetched, more);
  }

  lemma {:induction false} PrefixGrows(fetched: seq<int>, finished: set<int>, more: set<int>)
    requires finished <= more
    ensures Prefix(fetched, finished) <= Prefix(fetched, more)
  {
    if fetched != [] && fetched[0] in finished {
      PrefixGrows(fetched[1..], finished, more);
    }
  }

  lemma {:induction false} TrackRefines(s: PartState, fetched: seq<int>, finished: set<int>, o: int)
    requires Tracks(s, fetched, finished) && o !in finished && o !in fetched
    ensures Tracks(TrackIn(s, o), fetched + [o], finished)
    ensures EndOfPrefix(fetched + [o], finished) == EndOfPrefix(fetched, finished)
  {
    PrefixBound(fetched, finished);
    var n := Prefix(fetched, finished);
    assert forall i :: 0 <= i < n ==> (fetched + [o])[i] == fetched[i];
    PrefixIs(fetched + [o], finished, n);
    assert (fetched + [o])[n..] == fetched[n..] + [o];
  }

  // ── any interleaving of Track, Done, Committable and the commit's outcome ──

  datatype Op = Fetch(o: int) | Finish(o: int) | Offer | Accept | Refuse

  /** One partition with the single committer: offered is the position being committed (-1: none),
      rewound the one whose commit failed since the last offer. */
  datatype Life = Life(s: PartState, fetched: seq<int>, finished: set<int>, offered: int, rewound: int,
                       offers: seq<int>, accepted: seq<int>)

  const BORN := Life(FRESH, [], {}, -1, -1, [], [])

  predicate Enabled(l: Life, op: Op) {
    match op
    case Fetch(o) => o >= 0 && (l.fetched != [] ==> l.fetched[|l.fetched| - 1] < o)
    case Finish(o) => o in l.fetched && o !in l.finished
    case Offer => l.offered < 0
    case Accept => l.offered >= 0
    case Refuse => l.offered >= 0
  }

  function Next(l: Life, op: Op): Life
    requires Enabled(l, op)
  {
    match op
    case Fetch(o) => l.(s := TrackIn(l.s, o), fetched := l.fetched + [o])
    case Finish(o) => l.(s := DoneIn(l.s, o), finished := l.finished + {o})
    case Offer =>
      if Due(l.s)
      then l.(s := HandOut(l.s), offered := l.s.ready, rewound := -1, offers := l.offers + [l.s.ready])
      else l
    case Accept => l.(offered := -1, accepted := l.accepted + [l.offered])
    case Refuse => l.(s := RewindIn(l.s, l.offered), offered := -1, rewound := l.offered)
  }

  predicate Runs(l: Life, ops: seq<Op>)
    decreases |ops|
  {
    ops == [] || (Enabled(l, ops[0]) && Runs(Next(l, ops[0]), ops[1..]))
  }

  function End(l: Life, ops: seq<Op>): Life
    requires Runs(l, ops)
    decreases |ops|
  {
    if ops == [] then l else End(Next(l, ops[0]), ops[1..])
  }

  function Last(s: seq<int>): int { if s == [] then -1 else s[|s| - 1] }

  /** The state is the one the history determines. */
  ghost predicate Faithful(l: Life) {
    && Increasing(l.fetched) && (forall o :: o in l.finished ==> o in l.fetched)
    && Tracks(l.s, l.fetched, l.finished)
  }

  /** Offsets handed out never decrease and accepted commits strictly increase; what was rewound
      is still due at the same or a higher offset, so the next offer repeats it. */
  ghost predicate Ordered(l: Life) {
    && (forall i, j :: 0 <= i < j < |l.offers| ==> l.offers[i] <= l.offers[j])
    && (forall i, j :: 0 <= i < j < |l.accepted| ==> l.accepted[i] < l.accepted[j])
    && -1 <= Last(l.accepted) <= l.s.committed <= l.s.ready
    && Last(l.offers) <= l.s.ready
    && (l.offered >= 0 ==> l.s.committed == l.offered && Last(l.accepted) < l.offered && l.rewound < 0)
    && (l.rewound >= 0 ==> l.s.committed < l.rewound <= l.s.ready)
  }

  ghost predicate AllFinishedUpTo(l: Life, o: int) {
    forall x :: x in l.fetched && x <= o ==> x in l.finished
  }

  ghost predicate Sound(l: Life) {
    Faithful(l) && Ordered(l)
  }

  lemma ReadyIsFinished(l: Life)
    requires Faithful(l)
    ensures AllFinishedUpTo(l, l.s.ready) && l.s.ready >= -1
    ensures l.s.ready >= 0 ==> l.s.ready in l.fetched
  {
    PrefixBound(l.fetched, l.finished);
  }

  lemma IncreasingOn(f: seq<int>, o: int)
    requires Increasing(f) && o >= 0 && (f != [] ==> f[|f| - 1] < o)
    ensures Increasing(f + [o]) && forall x :: x in f ==> x < o
  {
    forall x | x in f ensures x < o {
      var i :| 0 <= i < |f| && f[i] == x;
    }
  }

  lemma FetchFaithful(l: Life, o: int)
    requires Faithful(l) && Enabled(l, Fetch(o))
    ensures Faithful(Next(l, Fetch(o)))
  {
    IncreasingOn(l.fetched, o);
    assert o !in l.finished && o !in l.fetched;
    TrackRefines(l.s, l.fetched, l.finished, o);
  }

  lemma FetchSound(l: Life, o: int)
    requires Sound(l) && Enabled(l, Fetch(o))
    ensures Sound(Next(l, Fetch(o)))
  {
    FetchFaithful(l, o);
    hide Faithful;
    assert TrackIn(l.s, o).committed == l.s.committed && TrackIn(l.s, o).ready == l.s.ready;
  }

  lemma FinishSound(l: Life, o: int)
    requires Sound(l) && Enabled(l, Finish(o))
    ensures Sound(Next(l, Finish(o)))
  {
    DoneRefines(l.s, l.fetched, l.finished, o);
  }

  lemma CommitSound(l: Life, op: Op)
    requires Sound(l) && Enabled(l, op) && (op.Offer? || op.Accept? || op.Refuse?)
    ensures Sound(Next(l, op))
  {
    ReadyIsFinished(l);
  }

  /** The tracker refines the specification over every interleaving. */
  lemma {:induction false} TrackerSound(l: Life, ops: seq<Op>)
    requires Sound(l) && Runs(l, ops)
    ensures Sound(End(l, ops))
    decreases |ops|
  {
    if ops != [] {
      match ops[0] {
        case Fetch(o) => FetchSound(l, o);
        case Finish(o) => FinishSound(l, o);
        case _ => CommitSound(l, ops[0]);
      }
      TrackerSound(Next(l, ops[0]), ops[1..]);
    }
  }

  lemma {:induction false} TrackerSoundFromStart(ops: seq<Op>)
    requires Runs(BORN, ops)
    ensures Sound(End(BORN, ops))
    ensures End(BORN, ops).s.ready == EndOfPrefix(End(BORN, ops).fetched, End(BORN, ops).finished)
  {
    PrefixBound([], {});
    assert Tracks(FRESH, [], {});
    TrackerSound(BORN, ops);
  }

  /** After a failed commit the next offer is made, at the refused offset or above. */
  lemma {:induction false} RefusedIsOfferedAgain(ops: seq<Op>)
    requires Runs(BORN, ops) && End(BORN, ops).rewound >= 0
    ensures var l := End(BORN, ops);
      Enabled(l, Offer) && Next(l, Offer).offered >= l.rewound
  {
    TrackerSoundFromStart(ops);
  }
}
