/** shared/consumer/consumer.go: one fetch loop, bounded queues, workers with retry and dead
    letters, and a committer, as a machine of atomic steps. */
module Consumer {
  import opened Order
  import opened Tracker

  datatype Msg = Msg(part: Part, offset: int, key: string)

  /** Keys share a worker exactly when their hashes do, and every worker gets the keys that hash to it. */
  lemma {:induction false} RouteIff(cfg: Config, a: string, b: string)
    requires cfg.Valid()
    ensures cfg.Route(a) < cfg.workers && (cfg.Route(a) == cfg.Route(b) <==> cfg.hash(a) % cfg.workers == cfg.hash(b) % cfg.workers)
    ensures cfg.hash(a) < cfg.workers ==> cfg.Route(a) == cfg.hash(a)
  {
  }

  function Pos(m: Msg): Position { Position(m.part, m.offset) }

  /** hash stands for FNV-1a of the key; dlq says whether a dead-letter topic is configured. */
  datatype Config = Config(workers: nat, queueSize: nat, maxAttempts: nat, dlq: bool, hash: string -> nat) {
    ghost predicate Valid() { workers > 0 && queueSize > 0 && maxAttempts > 0 }

    function Route(key: string): nat {
      if workers <= 1 then 0 else hash(key) % workers
    }
  }

  /** Where a worker is inside process: at the head of the attempt loop, in the handler, at the
      head of the dead-letter loop, publishing, or finished with tracker.Done still to call. */
  datatype Work = Idle | Try(m: Msg, attempt: nat) | Running(m: Msg, attempt: nat)
                | TryDLQ(m: Msg) | Publishing(m: Msg) | Finished(m: Msg) | Exited

  /** finished and lost are history: what process returned true and false for. */
  datatype Lane = Lane(queue: seq<Msg>, work: Work, finished: seq<Msg>, lost: seq<Msg>)

  datatype Loop = Fetching | Sending(m: Msg) | Checking | Ended | Closed

  datatype Committer = Waiting | Committing(todo: seq<Position>, final: bool) | Returned

  datatype State = State(
    loop: Loop, cancelled: bool, lanes: seq<Lane>,
    parts: map<Part, PartState>, committer: Committer, broker: map<Part, int>,
    // history
    fetched: seq<Msg>, dropped: seq<Msg>, handled: set<Msg>, parked: set<Msg>, marked: set<Position>, clean: bool)

  datatype Step =
    | Cancel
    | Fetch(m: Msg) | FetchFail | Send | Drop | Check | Close
    | Receive(w: nat) | Leave(w: nat) | Begin(w: nat) | Abandon(w: nat)
    | HandlerOk(w: nat) | HandlerErr(w: nat)
    | Publish(w: nat) | PublishOk(w: nat) | PublishErr(w: nat, delivered: bool)
    | MarkDone(w: nat)
    | Tick(todo: seq<Position>) | CommitOk | CommitErr(applied: bool) | Settle | Final(todo: seq<Position>)

  function Init(cfg: Config): State {
    State(Fetching, false, seq(cfg.workers, _ => Lane([], Idle, [], [])),
          map[], Waiting, map[], [], [], {}, {}, {}, true)
  }

  /** Tracker.Committable's answer. */
  ghost predicate Listing(todo: seq<Position>, parts: map<Part, PartState>) {
    && (forall i, j :: 0 <= i < j < |todo| ==> todo[i].part != todo[j].part)
    && (forall x :: x in todo <==> x.part in parts && Due(parts[x.part]) && x.offset == parts[x.part].ready)
  }

  function WorkOf(s: State, w: nat): Work {
    if w < |s.lanes| then s.lanes[w].work else Exited
  }

  ghost predicate Enabled(cfg: Config, s: State, st: Step) {
    match st
    case Cancel => true
    case Fetch(m) => s.loop == Fetching && m.offset >= 0
                     && forall x :: x in s.fetched && x.part == m.part ==> x.offset < m.offset
    case FetchFail => s.loop == Fetching
    case Send => s.loop.Sending? && cfg.Route(s.loop.m.key) < |s.lanes|
                 && |s.lanes[cfg.Route(s.loop.m.key)].queue| < cfg.queueSize
    case Drop => s.loop.Sending? && s.cancelled
    case Check => s.loop == Checking
    case Close => s.loop == Ended
    case Receive(w) => w < |s.lanes| && s.lanes[w].work == Idle && s.lanes[w].queue != []
    case Leave(w) => w < |s.lanes| && s.lanes[w].work == Idle && s.lanes[w].queue == [] && s.loop == Closed
    case Begin(w) => WorkOf(s, w).Try? && !s.cancelled
    case Abandon(w) => (WorkOf(s, w).Try? || WorkOf(s, w).TryDLQ?) && s.cancelled
    case HandlerOk(w) => WorkOf(s, w).Running?
    case HandlerErr(w) => WorkOf(s, w).Running?
    case Publish(w) => WorkOf(s, w).TryDLQ? && !s.cancelled
    case PublishOk(w) => WorkOf(s, w).Publishing?
    case PublishErr(w, _) => WorkOf(s, w).Publishing?
    case MarkDone(w) => WorkOf(s, w).Finished?
    case Tick(todo) => s.committer == Waiting && Listing(todo, s.parts)
    case CommitOk => s.committer.Committing? && s.committer.todo != []
    case CommitErr(_) => s.committer.Committing? && s.committer.todo != []
    case Settle => s.committer.Committing? && s.committer.todo == []
    case Final(todo) => s.committer == Waiting && s.loop == Closed && Listing(todo, s.parts)
                        && forall w :: 0 <= w < |s.lanes| ==> s.lanes[w].work == Exited
  }

  function SetLane(s: State, w: nat, l: Lane): State
    requires w < |s.lanes|
  {
    s.(lanes := s.lanes[w := l])
  }

  ghost function Next(cfg: Config, s: State, st: Step): State
    requires Enabled(cfg, s, st)
  {
    match st
    case Cancel => s.(cancelled := true)
    case Fetch(m) => s.(loop := Sending(m), fetched := s.fetched + [m],
                        parts := s.parts[m.part := TrackIn(StateOf(s.parts, m.part), m.offset)])
    case FetchFail => s.(loop := Ended)
    case Send =>
      var w := cfg.Route(s.loop.m.key);
      var l := s.lanes[w];
      SetLane(s.(loop := Checking), w, l.(queue := l.queue + [s.loop.m]))
    case Drop => s.(loop := Checking, dropped := s.dropped + [s.loop.m])
    case Check => s.(loop := if s.cancelled then Ended else Fetching)
    case Close => s.(loop := Closed)
    case Receive(w) =>
      var l := s.lanes[w];
      SetLane(s, w, l.(work := Try(l.queue[0], 1), queue := l.queue[1..]))
    case Leave(w) => SetLane(s, w, s.lanes[w].(work := Exited))
    case Begin(w) =>
      var l := s.lanes[w];
      SetLane(s, w, l.(work := Running(l.work.m, l.work.attempt)))
    case Abandon(w) =>
      var l := s.lanes[w];
      SetLane(s, w, l.(work := Idle, lost := l.lost + [l.work.m]))
    case HandlerOk(w) =>
      var l := s.lanes[w];
      SetLane(s.(handled := s.handled + {l.work.m}), w, l.(work := Finished(l.work.m), finished := l.finished + [l.work.m]))
    case HandlerErr(w) =>
      var l := s.lanes[w];
      SetLane(s, w, l.(work := if l.work.attempt < cfg.maxAttempts || !cfg.dlq
                               then Try(l.work.m, l.work.attempt + 1) else TryDLQ(l.work.m)))
    case Publish(w) => SetLane(s, w, s.lanes[w].(work := Publishing(s.lanes[w].work.m)))
    case PublishOk(w) =>
      var l := s.lanes[w];
      SetLane(s.(parked := s.parked + {l.work.m}), w, l.(work := Finished(l.work.m), finished := l.finished + [l.work.m]))
    case PublishErr(w, delivered) =>
      var l := s.lanes[w];
      SetLane(s.(parked := if delivered then s.parked + {l.work.m} else s.parked), w, l.(work := TryDLQ(l.work.m)))
    case MarkDone(w) =>
      var m := s.lanes[w].work.m;
      SetLane(s.(parts := s.parts[m.part := DoneIn(StateOf(s.parts, m.part), m.offset)], marked := s.marked + {Pos(m)}),
              w, s.lanes[w].(work := Idle))
    case Tick(todo) => s.(committer := Committing(todo, false), parts := HandOutAll(s.parts))
    case CommitOk =>
      var pos := s.committer.todo[0];
      s.(broker := s.broker[pos.part := pos.offset], committer := s.committer.(todo := s.committer.todo[1..]))
    case CommitErr(applied) =>
      var pos := s.committer.todo[0];
      s.(broker := if applied then s.broker[pos.part := pos.offset] else s.broker,
         parts := s.parts[pos.part := RewindIn(StateOf(s.parts, pos.part), pos.offset)],
         committer := s.committer.(todo := s.committer.todo[1..]), clean := false)
    case Settle => s.(committer := if s.committer.final then Returned else Waiting)
    case Final(todo) => s.(committer := Committing(todo, true), parts := HandOutAll(s.parts), clean := true)
  }

  ghost predicate Runs(cfg: Config, s: State, steps: seq<Step>)
    decreases |steps|
  {
    steps == [] || (Enabled(cfg, s, steps[0]) && Runs(cfg, Next(cfg, s, steps[0]), steps[1..]))
  }

  ghost function End(cfg: Config, s: State, steps: seq<Step>): State
    requires Runs(cfg, s, steps)
    decreases |steps|
  {
    if steps == [] then s else End(cfg, Next(cfg, s, steps[0]), steps[1..])
  }

  // ── projections of the fetch history ──

  function Front<T>(s: seq<T>): seq<T>
    requires s != []
  {
    s[..|s| - 1]
  }

  function LastOf<T>(s: seq<T>): T
    requires s != []
  {
    s[|s| - 1]
  }

  /** The messages routed to worker w, in fetch order. */
  function Stream(cfg: Config, s: seq<Msg>, w: nat): seq<Msg> {
    if s == [] then [] else Stream(cfg, Front(s), w) + (if cfg.Route(LastOf(s).key) == w then [LastOf(s)] else [])
  }

  function OfKey(s: seq<Msg>, key: string): seq<Msg> {
    if s == [] then [] else OfKey(Front(s), key) + (if LastOf(s).key == key then [LastOf(s)] else [])
  }

  function Offsets(s: seq<Msg>, p: Part): seq<int> {
    if s == [] then [] else Offsets(Front(s), p) + (if LastOf(s).part == p then [LastOf(s).offset] else [])
  }

  function OffsetSet(marked: set<Position>, p: Part): set<int> {
    set x | x in marked && x.part == p :: x.offset
  }

  lemma {:induction false} StreamMembers(cfg: Config, s: seq<Msg>, w: nat, m: Msg)
    ensures m in Stream(cfg, s, w) <==> m in s && cfg.Route(m.key) == w
  {
    if s != [] {
      StreamMembers(cfg, Front(s), w, m);
      assert s == Front(s) + [LastOf(s)];
    }
  }

  lemma {:induction false} OffsetsMembers(s: seq<Msg>, p: Part, o: int)
    ensures o in Offsets(s, p) <==> exists m :: m in s && m.part == p && m.offset == o
  {
    if s != [] {
      OffsetsMembers(Front(s), p, o);
      assert s == Front(s) + [LastOf(s)];
      if LastOf(s).part == p && LastOf(s).offset == o {
        assert LastOf(s) in s;
      }
    }
  }

  ghost predicate Distinct(s: seq<Msg>) {
    forall i, j :: 0 <= i < j < |s| ==> Pos(s[i]) != Pos(s[j])
  }

  lemma {:induction false} StreamDistinct(cfg: Config, s: seq<Msg>, w: nat)
    requires Distinct(s)
    ensures Distinct(Stream(cfg, s, w))
  {
    if s != [] {
      StreamDistinct(cfg, Front(s), w);
      var t := Stream(cfg, Front(s), w);
      forall i | 0 <= i < |t| ensures Pos(t[i]) != Pos(LastOf(s)) {
        StreamMembers(cfg, Front(s), w, t[i]);
      }
    }
  }

  // ── flow: every fetched message is in exactly one place ──

  function InHand(work: Work): seq<Msg> {
    if work.Try? || work.Running? || work.TryDLQ? || work.Publishing? then [work.m] else []
  }

  function Outbound(cfg: Config, s: State, w: nat): seq<Msg> {
    (if s.loop.Sending? && cfg.Route(s.loop.m.key) == w then [s.loop.m] else []) + Stream(cfg, s.dropped, w)
  }

  /** A worker's stream is what it finished, then what shutdown made it give up, then the message
      in hand, then its queue, then what the fetch loop holds for it. */
  ghost predicate FlowOf(cfg: Config, s: State, w: nat)
    requires w < |s.lanes|
  {
    Stream(cfg, s.fetched, w) == Content(s.lanes[w]) + Outbound(cfg, s, w)
  }

  function Content(l: Lane): seq<Msg> { l.finished + l.lost + InHand(l.work) + l.queue }

  ghost predicate Flow(cfg: Config, s: State) {
    && |s.lanes| == cfg.workers
    && Distinct(s.fetched)
    && (forall w :: 0 <= w < |s.lanes| ==> FlowOf(cfg, s, w))
  }

  /** Messages are given up only after cancellation, and a worker that gave one up starts none. */
  ghost predicate Shutdown(cfg: Config, s: State) {
    && (s.dropped != [] ==> s.cancelled && (s.loop == Checking || s.loop == Ended || s.loop == Closed))
    && (forall w :: 0 <= w < |s.lanes| ==> LaneShutdown(cfg, s.lanes[w], s.cancelled, s.loop == Closed))
  }

  predicate LaneShutdown(cfg: Config, l: Lane, cancelled: bool, closed: bool) {
    && |l.queue| <= cfg.queueSize
    && (l.lost != [] ==> cancelled && (l.work == Idle || l.work == Exited || (l.work.Try? && l.work.attempt == 1)))
    && (l.work == Exited ==> l.queue == [] && closed)
    && (l.work.Try? || l.work.Running? ==> l.work.attempt >= 1 && (cfg.dlq ==> l.work.attempt <= cfg.maxAttempts))
    && (l.work.TryDLQ? || l.work.Publishing? ==> cfg.dlq)
  }

  lemma StreamSnoc(cfg: Config, s: seq<Msg>, m: Msg, w: nat)
    ensures Stream(cfg, s + [m], w) == Stream(cfg, s, w) + (if cfg.Route(m.key) == w then [m] else [])
  {
    assert Front(s + [m]) == s;
  }

  predicate LoopStep(st: Step) { st.Fetch? || st.FetchFail? || st.Send? || st.Drop? || st.Check? || st.Close? }

  predicate LaneStep(st: Step) {
    st.Receive? || st.Leave? || st.Begin? || st.Abandon? || st.HandlerOk? || st.HandlerErr?
    || st.Publish? || st.PublishOk? || st.PublishErr? || st.MarkDone?
  }

  lemma ReceiveKeeps(l: Lane)
    requires l.work == Idle && l.queue != []
    ensures Content(l.(work := Try(l.queue[0], 1), queue := l.queue[1..])) == Content(l)
  {
    assert l.queue == [l.queue[0]] + l.queue[1..];
  }

  lemma FinishKeeps(l: Lane, m: Msg)
    requires InHand(l.work) == [m] && l.lost == []
    ensures Content(l.(work := Finished(m), finished := l.finished + [m])) == Content(l)
  {
  }

  lemma GiveUpKeeps(l: Lane, m: Msg)
    requires InHand(l.work) == [m]
    ensures Content(l.(work := Idle, lost := l.lost + [m])) == Content(l)
  {
  }

  lemma EnqueueAdds(l: Lane, m: Msg)
    ensures Content(l.(queue := l.queue + [m])) == Content(l) + [m]
  {
  }

  lemma FetchFlow(cfg: Config, s: State, m: Msg, w: nat)
    requires Flow(cfg, s) && Shutdown(cfg, s) && Enabled(cfg, s, Step.Fetch(m)) && w < |s.lanes|
    ensures FlowOf(cfg, Next(cfg, s, Step.Fetch(m)), w)
  {
    var s' := Next(cfg, s, Step.Fetch(m));
    assert s'.lanes == s.lanes && s'.fetched == s.fetched + [m] && s'.dropped == s.dropped == [] && s'.loop == Sending(m) && !s.loop.Sending?;
    assert FlowOf(cfg, s, w);
    StreamSnoc(cfg, s.fetched, m, w);
    hide Next, Enabled, Shutdown, Flow;
    assert Outbound(cfg, s, w) == [] && Outbound(cfg, s', w) == if cfg.Route(m.key) == w then [m] else [];
    hide Outbound, Stream, Content;
    assert Content(s.lanes[w]) + [] == Content(s.lanes[w]);
  }

  lemma SendFlow(cfg: Config, s: State, w: nat)
    requires Flow(cfg, s) && Shutdown(cfg, s) && Enabled(cfg, s, Send) && w < |s.lanes|
    ensures FlowOf(cfg, Next(cfg, s, Send), w)
  {
    assert FlowOf(cfg, s, w);
    assert s.dropped == [];
    EnqueueAdds(s.lanes[w], s.loop.m);
    assert Outbound(cfg, Next(cfg, s, Send), w) == [];
  }

  lemma DropFlow(cfg: Config, s: State, w: nat)
    requires Flow(cfg, s) && Shutdown(cfg, s) && Enabled(cfg, s, Drop) && w < |s.lanes|
    ensures FlowOf(cfg, Next(cfg, s, Drop), w)
  {
    assert FlowOf(cfg, s, w);
    assert s.dropped == [];
    StreamSnoc(cfg, s.dropped, s.loop.m, w);
    assert Outbound(cfg, Next(cfg, s, Drop), w) == Outbound(cfg, s, w);
  }

  lemma LaneFlow(cfg: Config, s: State, st: Step)
    requires Shutdown(cfg, s) && Enabled(cfg, s, st) && LaneStep(st)
    ensures st.w < |s.lanes| && Content(Next(cfg, s, st).lanes[st.w]) == Content(s.lanes[st.w])
  {
    var l := s.lanes[st.w];
    if st.Receive? {
      ReceiveKeeps(l);
    } else if st.HandlerOk? || st.PublishOk? {
      FinishKeeps(l, l.work.m);
    } else if st.Abandon? {
      GiveUpKeeps(l, l.work.m);
    } else {
      var l' := Next(cfg, s, st).lanes[st.w];
      assert InHand(l'.work) == InHand(l.work) && l'.queue == l.queue && l'.finished == l.finished && l'.lost == l.lost;
    }
  }

  /** A worker's step touches its own lane and nothing of the fetch loop. */
  lemma LaneFrame(cfg: Config, s: State, st: Step)
    requires Enabled(cfg, s, st) && LaneStep(st)
    ensures st.w < |s.lanes| && |Next(cfg, s, st).lanes| == |s.lanes|
    ensures forall w :: 0 <= w < |s.lanes| && w != st.w ==> Next(cfg, s, st).lanes[w] == s.lanes[w]
    ensures Next(cfg, s, st).fetched == s.fetched && Next(cfg, s, st).loop == s.loop && Next(cfg, s, st).dropped == s.dropped
  {
  }

  lemma FlowStep(cfg: Config, s: State, st: Step)
    requires cfg.Valid() && Flow(cfg, s) && Shutdown(cfg, s) && Enabled(cfg, s, st)
    ensures Flow(cfg, Next(cfg, s, st))
  {
    var s' := Next(cfg, s, st);
    if LaneStep(st) {
      LaneFlow(cfg, s, st);
      LaneFrame(cfg, s, st);
      hide Next, Enabled;
      forall w | 0 <= w < |s'.lanes| ensures FlowOf(cfg, s', w) {
        assert FlowOf(cfg, s, w);
      }
    } else if LoopStep(st) {
      LoopFlow(cfg, s, st, s');
    } else {
      RestFlow(cfg, s, st, s');
    }
  }

  lemma LoopFlow(cfg: Config, s: State, st: Step, s': State)
    requires cfg.Valid() && Flow(cfg, s) && Shutdown(cfg, s) && Enabled(cfg, s, st) && LoopStep(st) && s' == Next(cfg, s, st)
    ensures Flow(cfg, s')
  {
    assert |s'.lanes| == |s.lanes|;
    forall w | 0 <= w < |s'.lanes| ensures FlowOf(cfg, s', w) {
      if st.Fetch? {
        FetchFlow(cfg, s, st.m, w);
      } else if st.Send? {
        SendFlow(cfg, s, w);
      } else if st.Drop? {
        DropFlow(cfg, s, w);
      } else {
        assert FlowOf(cfg, s, w);
      }
    }
    if st.Fetch? {
      FetchDistinct(s.fetched, st.m);
    }
  }

  lemma RestFlow(cfg: Config, s: State, st: Step, s': State)
    requires Flow(cfg, s) && Enabled(cfg, s, st) && !LaneStep(st) && !LoopStep(st) && s' == Next(cfg, s, st)
    ensures Flow(cfg, s')
  {
    assert s'.lanes == s.lanes && s'.fetched == s.fetched && s'.loop == s.loop && s'.dropped == s.dropped;
    hide Next, Enabled;
    forall w | 0 <= w < |s'.lanes| ensures FlowOf(cfg, s', w) {
      assert FlowOf(cfg, s, w);
    }
  }

  lemma FetchDistinct(fetched: seq<Msg>, m: Msg)
    requires Distinct(fetched) && forall x :: x in fetched && x.part == m.part ==> x.offset < m.offset
    ensures Distinct(fetched + [m])
  {
    forall i | 0 <= i < |fetched| ensures Pos(fetched[i]) != Pos(m) {
      assert fetched[i] in fetched;
    }
  }

  lemma ShutdownStep(cfg: Config, s: State, st: Step)
    requires cfg.Valid() && Flow(cfg, s) && Shutdown(cfg, s) && Enabled(cfg, s, st)
    ensures Shutdown(cfg, Next(cfg, s, st))
  {
    var s' := Next(cfg, s, st);
    forall w | 0 <= w < |s'.lanes| ensures LaneShutdown(cfg, s'.lanes[w], s'.cancelled, s'.loop == Closed) {
      LaneShutdownStep(cfg, s, st, s', w);
    }
  }

  lemma OwnLaneShutdown(cfg: Config, s: State, st: Step, s': State, w: nat)
    requires cfg.Valid() && Enabled(cfg, s, st) && s' == Next(cfg, s, st) && LaneStep(st) && st.w == w && w < |s.lanes|
    requires LaneShutdown(cfg, s.lanes[w], s.cancelled, s.loop == Closed)
    ensures |s'.lanes| == |s.lanes| && LaneShutdown(cfg, s'.lanes[w], s'.cancelled, s'.loop == Closed)
  {
  }

  lemma OtherLaneKept(cfg: Config, s: State, st: Step, s': State, w: nat)
    requires Enabled(cfg, s, st) && s' == Next(cfg, s, st) && w < |s.lanes| && !st.Send? && (LaneStep(st) ==> st.w != w)
    ensures |s'.lanes| == |s.lanes| && s'.lanes[w] == s.lanes[w]
    ensures (s.cancelled ==> s'.cancelled) && (s.loop == Closed ==> s'.loop == Closed)
  {
  }

  lemma LaneShutdownStep(cfg: Config, s: State, st: Step, s': State, w: nat)
    requires cfg.Valid() && Flow(cfg, s) && Shutdown(cfg, s) && Enabled(cfg, s, st) && s' == Next(cfg, s, st)
    requires w < |s'.lanes|
    ensures |s'.lanes| == |s.lanes| && LaneShutdown(cfg, s'.lanes[w], s'.cancelled, s'.loop == Closed)
  {
    assert LaneShutdown(cfg, s.lanes[w], s.cancelled, s.loop == Closed);
    assert |s'.lanes| == |s.lanes|;
    if st.Send? {
      SendLaneShutdown(cfg, s, s', w);
    } else {
      hide Next, Enabled;
      if LaneStep(st) && st.w == w {
        OwnLaneShutdown(cfg, s, st, s', w);
      } else {
        OtherLaneKept(cfg, s, st, s', w);
      }
    }
  }

  lemma SendLaneShutdown(cfg: Config, s: State, s': State, w: nat)
    requires Enabled(cfg, s, Send) && s' == Next(cfg, s, Send) && w < |s.lanes|
    requires LaneShutdown(cfg, s.lanes[w], s.cancelled, s.loop == Closed)
    requires s.loop != Closed ==> s.lanes[w].work != Exited
    ensures LaneShutdown(cfg, s'.lanes[w], s'.cancelled, s'.loop == Closed)
  {
  }

  // ── accounting: what the tracker was told ──

  predicate IsFinished(cfg: Config, s: State, m: Msg) {
    cfg.Route(m.key) < |s.lanes| && m in s.lanes[cfg.Route(m.key)].finished
  }

  /** A message is marked once process returned true for it and the worker moved on; whatever
      process returned true for was handled or is in the dead-letter topic. */
  ghost predicate Accounted(cfg: Config, s: State) {
    && (forall pos :: pos in s.marked ==> exists m :: m in s.fetched && Pos(m) == pos)
    && (forall m :: m in s.fetched ==>
          (Pos(m) in s.marked <==> IsFinished(cfg, s, m) && s.lanes[cfg.Route(m.key)].work != Finished(m)))
    && (forall m :: m in s.fetched && IsFinished(cfg, s, m) ==> m in s.handled || m in s.parked)
    && (forall w :: 0 <= w < |s.lanes| && s.lanes[w].work.Finished? ==> s.lanes[w].work.m in s.lanes[w].finished)
  }

  lemma LaneHolds(cfg: Config, s: State, w: nat, m: Msg)
    requires Flow(cfg, s) && w < |s.lanes| && m in Content(s.lanes[w])
    ensures m in s.fetched && cfg.Route(m.key) == w
  {
    assert FlowOf(cfg, s, w);
    assert m in Stream(cfg, s.fetched, w);
    StreamMembers(cfg, s.fetched, w, m);
  }

  lemma InHandIsUnfinished(cfg: Config, s: State, w: nat)
    requires Flow(cfg, s) && w < |s.lanes| && InHand(s.lanes[w].work) != []
    ensures var m := s.lanes[w].work.m;
      m in s.fetched && cfg.Route(m.key) == w && m !in s.lanes[w].finished
  {
    var l := s.lanes[w];
    var m := l.work.m;
    assert FlowOf(cfg, s, w);
    StreamDistinct(cfg, s.fetched, w);
    var t := Stream(cfg, s.fetched, w);
    var k := |l.finished| + |l.lost|;
    assert t[k] == m;
    assert m in Content(l);
    LaneHolds(cfg, s, w, m);
    forall i | 0 <= i < |l.finished| ensures l.finished[i] != m {
      assert t[i] == l.finished[i];
    }
  }

  lemma SamePosition(s: seq<Msg>, a: Msg, b: Msg)
    requires Distinct(s) && a in s && b in s && Pos(a) == Pos(b)
    ensures a == b
  {
    var i :| 0 <= i < |s| && s[i] == a;
    var j :| 0 <= j < |s| && s[j] == b;
  }

  lemma FetchAccounted(cfg: Config, s: State, m: Msg)
    requires Flow(cfg, s) && Accounted(cfg, s) && Enabled(cfg, s, Step.Fetch(m))
    ensures Accounted(cfg, Next(cfg, s, Step.Fetch(m)))
  {
    var s' := Next(cfg, s, Step.Fetch(m));
    assert forall x :: x in s'.fetched <==> x in s.fetched || x == m;
    assert m !in s.fetched && Pos(m) !in s.marked;
    if IsFinished(cfg, s, m) {
      assert m in Content(s.lanes[cfg.Route(m.key)]);
      LaneHolds(cfg, s, cfg.Route(m.key), m);
    }
  }

  lemma FinishAccounted(cfg: Config, s: State, st: Step)
    requires Flow(cfg, s) && Accounted(cfg, s) && Enabled(cfg, s, st) && (st.HandlerOk? || st.PublishOk?)
    ensures Accounted(cfg, Next(cfg, s, st))
  {
    InHandIsUnfinished(cfg, s, st.w);
    FinishAdds(cfg, s, st, Next(cfg, s, st));
    hide Next, Enabled, Flow, Accounted;
    OneMoreFinished(cfg, s, st.w, s.lanes[st.w].work.m, Next(cfg, s, st));
  }

  lemma OneMoreFinished(cfg: Config, s: State, w: nat, m: Msg, s': State)
    requires Accounted(cfg, s) && w < |s.lanes| && InHand(s.lanes[w].work) == [m]
    requires var l := s.lanes[w];
      && m in s.fetched && cfg.Route(m.key) == w && m !in l.finished && (m in s'.handled || m in s'.parked)
      && s'.lanes == s.lanes[w := l.(work := Finished(m), finished := l.finished + [m])]
    requires s'.fetched == s.fetched && s'.marked == s.marked && s.handled <= s'.handled && s.parked <= s'.parked
    ensures Accounted(cfg, s')
  {
    forall x | x in s.fetched ensures IsFinished(cfg, s', x) <==> IsFinished(cfg, s, x) || x == m {
    }
    assert !IsFinished(cfg, s, m) && Pos(m) !in s.marked;
  }

  lemma FinishAdds(cfg: Config, s: State, st: Step, s': State)
    requires Enabled(cfg, s, st) && (st.HandlerOk? || st.PublishOk?) && s' == Next(cfg, s, st)
    ensures st.w < |s.lanes| && InHand(s.lanes[st.w].work) == [s.lanes[st.w].work.m]
    ensures var l := s.lanes[st.w];
      s'.lanes == s.lanes[st.w := l.(work := Finished(l.work.m), finished := l.finished + [l.work.m])]
    ensures s'.fetched == s.fetched && s'.marked == s.marked && s.handled <= s'.handled && s.parked <= s'.parked
    ensures s.lanes[st.w].work.m in s'.handled || s.lanes[st.w].work.m in s'.parked
  {
  }

  lemma MarkAccounted(cfg: Config, s: State, w: nat)
    requires Flow(cfg, s) && Accounted(cfg, s) && Enabled(cfg, s, MarkDone(w))
    ensures Accounted(cfg, Next(cfg, s, MarkDone(w)))
  {
    var m := s.lanes[w].work.m;
    assert m in Content(s.lanes[w]);
    LaneHolds(cfg, s, w, m);
    forall x | x in s.fetched && Pos(x) == Pos(m) ensures x == m {
      SamePosition(s.fetched, x, m);
    }
    MarkKeepsFinished(cfg, s, w, Next(cfg, s, MarkDone(w)));
    hide Next, Enabled, Flow;
  }

  lemma MarkKeepsFinished(cfg: Config, s: State, w: nat, s': State)
    requires Enabled(cfg, s, MarkDone(w)) && s' == Next(cfg, s, MarkDone(w))
    ensures s'.fetched == s.fetched && s'.marked == s.marked + {Pos(s.lanes[w].work.m)} && s'.handled == s.handled && s'.parked == s.parked
    ensures |s'.lanes| == |s.lanes| && s'.lanes == s.lanes[w := s.lanes[w].(work := Idle)]
  {
  }

  lemma AccountedStep(cfg: Config, s: State, st: Step)
    requires Flow(cfg, s) && Accounted(cfg, s) && Enabled(cfg, s, st)
    ensures Accounted(cfg, Next(cfg, s, st))
  {
    if st.Fetch? {
      FetchAccounted(cfg, s, st.m);
    } else if st.HandlerOk? || st.PublishOk? {
      FinishAccounted(cfg, s, st);
    } else if st.MarkDone? {
      MarkAccounted(cfg, s, st.w);
    } else {
      RestAccounted(cfg, s, st, Next(cfg, s, st));
    }
  }

  lemma RestKeepsHistory(cfg: Config, s: State, st: Step, s': State)
    requires Enabled(cfg, s, st) && s' == Next(cfg, s, st)
    requires !st.Fetch? && !st.HandlerOk? && !st.PublishOk? && !st.MarkDone?
    ensures s'.fetched == s.fetched && s'.marked == s.marked && s.handled <= s'.handled && s.parked <= s'.parked
  {
  }

  lemma RestKeepsFinished(cfg: Config, s: State, st: Step, s': State, w: nat)
    requires Enabled(cfg, s, st) && s' == Next(cfg, s, st) && w < |s.lanes|
    requires !st.Fetch? && !st.HandlerOk? && !st.PublishOk? && !st.MarkDone?
    ensures |s'.lanes| == |s.lanes| && s'.lanes[w].finished == s.lanes[w].finished
    ensures s'.lanes[w].work == s.lanes[w].work || (!s'.lanes[w].work.Finished? && !s.lanes[w].work.Finished?)
  {
  }

  lemma RestAccounted(cfg: Config, s: State, st: Step, s': State)
    requires Accounted(cfg, s) && Enabled(cfg, s, st) && s' == Next(cfg, s, st)
    requires !st.Fetch? && !st.HandlerOk? && !st.PublishOk? && !st.MarkDone?
    ensures Accounted(cfg, s')
  {
    RestKeepsHistory(cfg, s, st, s');
    assert |s'.lanes| == |s.lanes|;
    hide Next, Enabled;
    forall w | 0 <= w < |s.lanes|
      ensures s'.lanes[w].finished == s.lanes[w].finished
      ensures s'.lanes[w].work == s.lanes[w].work || (!s'.lanes[w].work.Finished? && !s.lanes[w].work.Finished?)
    {
      RestKeepsFinished(cfg, s, st, s', w);
    }
  }

  // ── the tracker's state is the one this history determines ──

  ghost predicate Determined(ps: PartState, f: seq<int>, d: set<int>) {
    Increasing(f) && (forall o :: o in d ==> o in f) && Tracks(ps, f, d)
  }

  ghost predicate LinkedAt(s: State, p: Part) {
    Determined(StateOf(s.parts, p), Offsets(s.fetched, p), OffsetSet(s.marked, p))
  }

  ghost predicate Linked(s: State) {
    forall p :: LinkedAt(s, p)
  }

  lemma TrackDetermined(ps: PartState, f: seq<int>, d: set<int>, o: int)
    requires Determined(ps, f, d) && o >= 0 && forall x :: x in f ==> x < o
    ensures Determined(TrackIn(ps, o), f + [o], d)
  {
    TrackRefines(ps, f, d, o);
    assert forall i :: 0 <= i < |f| ==> f[i] in f;
  }

  lemma DoneDetermined(ps: PartState, f: seq<int>, d: set<int>, o: int)
    requires Determined(ps, f, d) && o in f && o !in d
    ensures Determined(DoneIn(ps, o), f, d + {o})
    ensures DoneIn(ps, o).ready >= ps.ready && DoneIn(ps, o).committed == ps.committed
  {
    DoneRefines(ps, f, d, o);
  }

  lemma OffsetsSnoc(fetched: seq<Msg>, m: Msg, p: Part)
    ensures Offsets(fetched + [m], p) == Offsets(fetched, p) + (if m.part == p then [m.offset] else [])
    ensures m.part != p ==> Offsets(fetched + [m], p) == Offsets(fetched, p)
  {
    assert Front(fetched + [m]) == fetched;
  }

  lemma FetchedLast(fetched: seq<Msg>, m: Msg)
    requires forall x :: x in fetched && x.part == m.part ==> x.offset < m.offset
    ensures forall o :: o in Offsets(fetched, m.part) ==> o < m.offset
  {
    forall o | o in Offsets(fetched, m.part) ensures o < m.offset {
      OffsetsMembers(fetched, m.part, o);
    }
  }

  lemma FetchLinked(cfg: Config, s: State, m: Msg, p: Part)
    requires LinkedAt(s, p) && Enabled(cfg, s, Step.Fetch(m))
    ensures LinkedAt(Next(cfg, s, Step.Fetch(m)), p)
  {
    var f, s' := Offsets(s.fetched, p), Next(cfg, s, Step.Fetch(m));
    OffsetsSnoc(s.fetched, m, p);
    FetchedLast(s.fetched, m);
    assert s'.marked == s.marked && s'.fetched == s.fetched + [m];
    assert StateOf(s'.parts, p) == if p == m.part then TrackIn(StateOf(s.parts, p), m.offset) else StateOf(s.parts, p);
    hide Next, Enabled, Offsets, OffsetSet;
    if p == m.part {
      TrackDetermined(StateOf(s.parts, p), f, OffsetSet(s.marked, p), m.offset);
    }
  }

  /** What a worker is about to mark was fetched and is not marked yet. */
  lemma MarkIsNew(cfg: Config, s: State, w: nat)
    requires Flow(cfg, s) && Accounted(cfg, s) && WorkOf(s, w).Finished?
    ensures var m := s.lanes[w].work.m;
      m.offset in Offsets(s.fetched, m.part) && m.offset !in OffsetSet(s.marked, m.part)
  {
    var m := s.lanes[w].work.m;
    assert m in Content(s.lanes[w]);
    LaneHolds(cfg, s, w, m);
    OffsetsMembers(s.fetched, m.part, m.offset);
    assert Pos(m) !in s.marked;
    forall x | x in s.marked && x.part == m.part ensures x.offset != m.offset {
      assert x != Pos(m);
    }
  }

  lemma MarkLinked(cfg: Config, s: State, w: nat, p: Part)
    requires Flow(cfg, s) && Accounted(cfg, s) && LinkedAt(s, p) && Enabled(cfg, s, MarkDone(w))
    ensures LinkedAt(Next(cfg, s, MarkDone(w)), p)
    ensures StateOf(s.parts, p).ready <= StateOf(Next(cfg, s, MarkDone(w)).parts, p).ready
    ensures StateOf(s.parts, p).committed == StateOf(Next(cfg, s, MarkDone(w)).parts, p).committed
  {
    MarkIsNew(cfg, s, w);
    MarkedAt(s, Next(cfg, s, MarkDone(w)), s.lanes[w].work.m, p);
  }

  lemma MarkedAt(s: State, s': State, m: Msg, p: Part)
    requires LinkedAt(s, p) && m.offset in Offsets(s.fetched, m.part) && m.offset !in OffsetSet(s.marked, m.part)
    requires s'.fetched == s.fetched && s'.marked == s.marked + {Pos(m)}
    requires s'.parts == s.parts[m.part := DoneIn(StateOf(s.parts, m.part), m.offset)]
    ensures LinkedAt(s', p)
    ensures StateOf(s.parts, p).ready <= StateOf(s'.parts, p).ready
    ensures StateOf(s.parts, p).committed == StateOf(s'.parts, p).committed
  {
    OffsetSetAdd(s.marked, m, p);
    if p == m.part {
      DoneDetermined(StateOf(s.parts, p), Offsets(s.fetched, p), OffsetSet(s.marked, p), m.offset);
    } else {
      assert StateOf(s'.parts, p) == StateOf(s.parts, p);
      assert OffsetSet(s'.marked, p) == OffsetSet(s.marked, p);
    }
  }

  lemma OffsetSetAdd(marked: set<Position>, m: Msg, p: Part)
    ensures OffsetSet(marked + {Pos(m)}, p) == OffsetSet(marked, p) + (if p == m.part then {m.offset} else {})
  {
    forall o | o in OffsetSet(marked, p) + (if p == m.part then {m.offset} else {})
      ensures o in OffsetSet(marked + {Pos(m)}, p)
    {
      assert Position(p, o) in marked + {Pos(m)};
    }
  }

  lemma LinkedStep(cfg: Config, s: State, st: Step)
    requires Flow(cfg, s) && Accounted(cfg, s) && Linked(s) && Enabled(cfg, s, st)
    ensures Linked(Next(cfg, s, st))
  {
    var s' := Next(cfg, s, st);
    forall p ensures LinkedAt(s', p) {
      assert LinkedAt(s, p);
      if st.Fetch? {
        FetchLinked(cfg, s, st.m, p);
      } else if st.MarkDone? {
        MarkLinked(cfg, s, st.w, p);
      } else {
        RestLinked(cfg, s, st, s', p);
      }
    }
  }

  /** Every other step leaves a partition's tracker alone but for what is committed. */
  lemma RestParts(cfg: Config, s: State, st: Step, s': State, p: Part)
    requires Enabled(cfg, s, st) && !st.Fetch? && !st.MarkDone? && s' == Next(cfg, s, st)
    ensures s'.fetched == s.fetched && s'.marked == s.marked
    ensures StateOf(s'.parts, p) == StateOf(s.parts, p).(committed := StateOf(s'.parts, p).committed)
  {
  }

  lemma RestLinked(cfg: Config, s: State, st: Step, s': State, p: Part)
    requires LinkedAt(s, p) && Enabled(cfg, s, st) && !st.Fetch? && !st.MarkDone? && s' == Next(cfg, s, st)
    ensures LinkedAt(s', p)
  {
    RestParts(cfg, s, st, s', p);
    hide Next, Enabled;
  }

  // ── commits ──

  function BrokerAt(s: State, p: Part): int {
    if p in s.broker then s.broker[p] else -1
  }

  /** The position still to be committed for a partition, -1 when there is none. */
  function TodoAt(todo: seq<Position>, p: Part): int {
    if todo == [] then -1 else if todo[0].part == p then todo[0].offset else TodoAt(todo[1..], p)
  }

  function Pending(s: State): seq<Position> {
    if s.committer.Committing? then s.committer.todo else []
  }

  ghost predicate CommitAt(s: State, p: Part) {
    var ps := StateOf(s.parts, p);
    && BrokerAt(s, p) <= ps.ready && -1 <= ps.committed <= ps.ready
    && (TodoAt(Pending(s), p) >= 0 ==> ps.committed == TodoAt(Pending(s), p))
    && (TodoAt(Pending(s), p) < 0 && ps.committed == ps.ready ==> BrokerAt(s, p) == ps.ready)
    && ((s.committer == Returned || (s.committer.Committing? && s.committer.final)) && s.clean ==> ps.committed == ps.ready)
  }

  ghost predicate Commits(s: State) {
    && (forall p :: CommitAt(s, p))
    && (forall x :: x in Pending(s) ==> x.offset >= 0)
    && (forall i, j :: 0 <= i < j < |Pending(s)| ==> Pending(s)[i].part != Pending(s)[j].part)
    && (s.committer == Returned || (s.committer.Committing? && s.committer.final) ==>
          s.loop == Closed && forall w :: 0 <= w < |s.lanes| ==> s.lanes[w].work == Exited)
  }

  lemma {:induction false} TodoMembers(todo: seq<Position>, p: Part)
    requires forall x :: x in todo ==> x.offset >= 0
    ensures TodoAt(todo, p) >= 0 ==> Position(p, TodoAt(todo, p)) in todo
    ensures TodoAt(todo, p) < 0 ==> forall x :: x in todo ==> x.part != p
  {
    if todo != [] {
      assert todo == [todo[0]] + todo[1..];
      if todo[0].part != p {
        TodoMembers(todo[1..], p);
      }
    }
  }

  lemma OfferCommits(cfg: Config, s: State, st: Step)
    requires Commits(s) && Enabled(cfg, s, st) && (st.Tick? || st.Final?)
    ensures Commits(Next(cfg, s, st))
  {
    var s' := Next(cfg, s, st);
    forall x | x in st.todo ensures x.offset >= 0 {
      assert CommitAt(s, x.part);
    }
    forall p ensures CommitAt(s', p) {
      assert CommitAt(s, p);
      TodoMembers(st.todo, p);
      var ps := StateOf(s.parts, p);
      assert StateOf(s'.parts, p) == HandOut(ps);
      if Due(ps) {
        assert Position(p, ps.ready) in st.todo;
      }
    }
  }

  lemma OutcomeCommits(cfg: Config, s: State, st: Step)
    requires Commits(s) && Enabled(cfg, s, st) && (st.CommitOk? || st.CommitErr?)
    ensures Commits(Next(cfg, s, st))
  {
    var s' := Next(cfg, s, st);
    var todo := s.committer.todo;
    assert todo == [todo[0]] + todo[1..] && Pending(s) == todo && Pending(s') == todo[1..];
    assert s'.loop == s.loop && s'.lanes == s.lanes && s'.committer == s.committer.(todo := todo[1..]);
    assert st.CommitErr? ==> !s'.clean;
    forall p ensures CommitAt(s', p) {
      assert CommitAt(s, p);
      TodoMembers(todo[1..], p);
      if p == todo[0].part {
        assert todo[0] in todo;
        assert TodoAt(todo[1..], p) < 0;
      }
    }
  }

  lemma CommitsStep(cfg: Config, s: State, st: Step)
    requires Flow(cfg, s) && Accounted(cfg, s) && Linked(s) && Commits(s) && Shutdown(cfg, s) && Enabled(cfg, s, st)
    ensures Commits(Next(cfg, s, st))
  {
    if st.Tick? || st.Final? {
      OfferCommits(cfg, s, st);
    } else if st.CommitOk? || st.CommitErr? {
      OutcomeCommits(cfg, s, st);
    } else if st.MarkDone? {
      MarkCommits(cfg, s, st.w);
    } else {
      OtherCommits(cfg, s, st);
    }
  }

  lemma MarkCommits(cfg: Config, s: State, w: nat)
    requires Flow(cfg, s) && Accounted(cfg, s) && Linked(s) && Commits(s) && Enabled(cfg, s, MarkDone(w))
    ensures Commits(Next(cfg, s, MarkDone(w)))
  {
    var s' := Next(cfg, s, MarkDone(w));
    assert w < |s.lanes| && s.lanes[w].work != Exited;
    assert s'.committer == s.committer && s'.broker == s.broker && s'.clean == s.clean && s'.loop == s.loop;
    assert !(s.committer == Returned || (s.committer.Committing? && s.committer.final));
    hide Next, Accounted, Flow;
    forall p ensures CommitAt(s', p) {
      assert CommitAt(s, p) && LinkedAt(s, p);
      MarkLinked(cfg, s, w, p);
    }
  }

  /** Steps that are none of the committer's, and its Settle, leave the commit state alone. */
  lemma CommitFrame(cfg: Config, s: State, st: Step, s': State)
    requires Enabled(cfg, s, st) && s' == Next(cfg, s, st)
    requires !st.Tick? && !st.Final? && !st.CommitOk? && !st.CommitErr? && !st.MarkDone?
    ensures s'.broker == s.broker && s'.clean == s.clean
    ensures s'.committer == s.committer || (st.Settle? && s.committer.Committing? && s.committer.todo == [])
    ensures st.Settle? ==> s'.committer == (if s.committer.final then Returned else Waiting)
    ensures s'.parts == s.parts || (st.Fetch? && s'.parts == s.parts[st.m.part := TrackIn(StateOf(s.parts, st.m.part), st.m.offset)])
  {
  }

  lemma StaysClosed(cfg: Config, s: State, st: Step, s': State)
    requires Enabled(cfg, s, st) && s' == Next(cfg, s, st)
    ensures |s'.lanes| == |s.lanes| && (s.loop == Closed ==> s'.loop == Closed)
    ensures forall w :: 0 <= w < |s.lanes| && s.lanes[w].work == Exited ==> s'.lanes[w].work == Exited
  {
    assert s.loop == Closed ==> s'.loop == Closed;
    forall w | 0 <= w < |s.lanes| && s.lanes[w].work == Exited ensures s'.lanes[w].work == Exited {
      StaysExited(cfg, s, st, s', w);
    }
  }

  lemma StaysExited(cfg: Config, s: State, st: Step, s': State, w: nat)
    requires Enabled(cfg, s, st) && s' == Next(cfg, s, st) && w < |s.lanes| && s.lanes[w].work == Exited
    ensures |s'.lanes| == |s.lanes| && s'.lanes[w].work == Exited
  {
  }

  lemma OtherCommits(cfg: Config, s: State, st: Step)
    requires Commits(s) && Enabled(cfg, s, st)
    requires !st.Tick? && !st.Final? && !st.CommitOk? && !st.CommitErr? && !st.MarkDone?
    ensures Commits(Next(cfg, s, st))
  {
    var s' := Next(cfg, s, st);
    CommitFrame(cfg, s, st, s');
    StaysClosed(cfg, s, st, s');
    assert st.Settle? ==> s.committer.Committing? && s.committer.todo == [];
    hide Next, Enabled;
    assert Pending(s') == Pending(s);
    forall p ensures CommitAt(s', p) {
      assert CommitAt(s, p);
      assert StateOf(s'.parts, p).ready == StateOf(s.parts, p).ready && StateOf(s'.parts, p).committed == StateOf(s.parts, p).committed;
    }
  }

  // ── backlog ──

  function Sum(f: Lane -> nat, lanes: seq<Lane>): nat {
    if lanes == [] then 0 else f(lanes[0]) + Sum(f, lanes[1..])
  }

  function Load(l: Lane): nat { |l.lost| + |InHand(l.work)| + |l.queue| }

  function FinishedCount(l: Lane): nat { |l.finished| }

  lemma {:induction false} SumUpdate(f: Lane -> nat, lanes: seq<Lane>, w: nat, l: Lane)
    requires w < |lanes|
    ensures Sum(f, lanes[w := l]) == Sum(f, lanes) - f(lanes[w]) + f(l)
  {
    if w == 0 {
      assert lanes[0 := l][1..] == lanes[1..];
    } else {
      assert lanes[w := l][1..] == lanes[1..][w - 1 := l];
      SumUpdate(f, lanes[1..], w - 1, l);
    }
  }

  lemma {:induction false} SumBound(f: Lane -> nat, lanes: seq<Lane>, each: nat)
    requires forall i :: 0 <= i < |lanes| ==> f(lanes[i]) <= each
    ensures Sum(f, lanes) <= |lanes| * each
  {
    if lanes != [] {
      assert forall i :: 0 <= i < |lanes[1..]| ==> lanes[1..][i] == lanes[i + 1];
      SumBound(f, lanes[1..], each);
      assert |lanes| * each == each + (|lanes| - 1) * each;
    }
  }

  function Held(s: State): nat { (if s.loop.Sending? then 1 else 0) + |s.dropped| }

  /** Fetched messages that process did not return true for. */
  function Unfinished(s: State): int { |s.fetched| - Sum(FinishedCount, s.lanes) }

  ghost predicate Backlog(cfg: Config, s: State) {
    && |s.fetched| == Sum(FinishedCount, s.lanes) + Sum(Load, s.lanes) + Held(s)
    && Unfinished(s) <= cfg.workers * (cfg.queueSize + 1) + (if s.loop == Fetching then 0 else 1)
  }

  lemma CheckBacklog(cfg: Config, s: State)
    requires |s.lanes| == cfg.workers && Shutdown(cfg, s) && Backlog(cfg, s) && s.loop == Checking
    ensures Backlog(cfg, Next(cfg, s, Check))
  {
    if !s.cancelled {
      assert s.dropped == [];
      forall w | 0 <= w < |s.lanes| ensures Load(s.lanes[w]) <= cfg.queueSize + 1 {
        assert s.lanes[w].lost == [];
      }
      SumBound(Load, s.lanes, cfg.queueSize + 1);
    }
  }

  lemma LaneBacklog(cfg: Config, s: State, st: Step)
    requires Shutdown(cfg, s) && Backlog(cfg, s) && Enabled(cfg, s, st) && LaneStep(st)
    ensures Backlog(cfg, Next(cfg, s, st))
  {
    hide Next, Enabled;
    var s' := Next(cfg, s, st);
    var w := st.w;
    LaneProgress(cfg, s, st, s');
    LaneFlow(cfg, s, st);
    LaneFrame(cfg, s, st);
    var l, l' := s.lanes[w], s'.lanes[w];
    assert s'.lanes == s.lanes[w := l'];
    SumUpdate(FinishedCount, s.lanes, w, l');
    SumUpdate(Load, s.lanes, w, l');
    assert |Content(l)| == FinishedCount(l) + Load(l) && |Content(l')| == FinishedCount(l') + Load(l');
  }

  lemma LaneProgress(cfg: Config, s: State, st: Step, s': State)
    requires Enabled(cfg, s, st) && LaneStep(st) && s' == Next(cfg, s, st)
    ensures st.w < |s.lanes| == |s'.lanes| && FinishedCount(s.lanes[st.w]) <= FinishedCount(s'.lanes[st.w])
  {
  }

  lemma BacklogStep(cfg: Config, s: State, st: Step)
    requires |s.lanes| == cfg.workers && Shutdown(cfg, s) && Backlog(cfg, s) && Enabled(cfg, s, st)
    ensures Backlog(cfg, Next(cfg, s, st))
  {
    var s' := Next(cfg, s, st);
    if LaneStep(st) {
      LaneBacklog(cfg, s, st);
    } else if st.Check? {
      CheckBacklog(cfg, s);
    } else if st.Send? {
      var w := cfg.Route(s.loop.m.key);
      SumUpdate(FinishedCount, s.lanes, w, s'.lanes[w]);
      SumUpdate(Load, s.lanes, w, s'.lanes[w]);
    } else {
      assert s'.lanes == s.lanes;
    }
  }

  // ── every reachable state ──

  ghost predicate Inv(cfg: Config, s: State) {
    Flow(cfg, s) && Shutdown(cfg, s) && Accounted(cfg, s) && Linked(s) && Commits(s) && Backlog(cfg, s)
  }

  lemma {:induction false} IdleLanes(f: Lane -> nat, n: nat)
    requires f(Lane([], Idle, [], [])) == 0
    ensures Sum(f, seq(n, _ => Lane([], Idle, [], []))) == 0
  {
    if n > 0 {
      assert seq(n, _ => Lane([], Idle, [], []))[1..] == seq(n - 1, _ => Lane([], Idle, [], []));
      IdleLanes(f, n - 1);
    }
  }

  lemma InitInv(cfg: Config)
    requires cfg.Valid()
    ensures Inv(cfg, Init(cfg))
  {
    var s := Init(cfg);
    assert Accounted(cfg, s) && Commits(s);
    InitFlow(cfg);
    IdleLanes(Load, cfg.workers);
    IdleLanes(FinishedCount, cfg.workers);
    assert Backlog(cfg, s);
    hide Flow, Shutdown, Accounted, Commits, Backlog;
    forall p ensures LinkedAt(s, p) {
      assert OffsetSet(s.marked, p) == {};
      PrefixBound([], {});
    }
  }

  lemma InitFlow(cfg: Config)
    requires cfg.Valid()
    ensures Flow(cfg, Init(cfg)) && Shutdown(cfg, Init(cfg))
  {
  }

  lemma {:induction false} RunInv(cfg: Config, s: State, steps: seq<Step>)
    requires cfg.Valid() && Inv(cfg, s) && Runs(cfg, s, steps)
    ensures Inv(cfg, End(cfg, s, steps))
    decreases |steps|
  {
    if steps != [] {
      FlowStep(cfg, s, steps[0]);
      ShutdownStep(cfg, s, steps[0]);
      AccountedStep(cfg, s, steps[0]);
      LinkedStep(cfg, s, steps[0]);
      CommitsStep(cfg, s, steps[0]);
      BacklogStep(cfg, s, steps[0]);
      RunInv(cfg, Next(cfg, s, steps[0]), steps[1..]);
    }
  }

  /** The step ends a run of the handler on m well. */
  ghost predicate Handles(s: State, st: Step, m: Msg) {
    st.HandlerOk? && WorkOf(s, st.w).Running? && WorkOf(s, st.w).m == m
  }

  /** The step puts m in the dead-letter topic, acknowledged or not. */
  ghost predicate Parks(s: State, st: Step, m: Msg) {
    (st.PublishOk? || (st.PublishErr? && st.delivered)) && WorkOf(s, st.w).Publishing? && WorkOf(s, st.w).m == m
  }

  /** Some step of the run handled or parked m. */
  ghost predicate Processed(cfg: Config, s: State, steps: seq<Step>, m: Msg)
    requires Runs(cfg, s, steps)
    decreases |steps|
  {
    steps != [] && (Handles(s, steps[0], m) || Parks(s, steps[0], m) || Processed(cfg, Next(cfg, s, steps[0]), steps[1..], m))
  }

  lemma StepProcesses(cfg: Config, s: State, st: Step, m: Msg)
    requires Enabled(cfg, s, st)
    ensures var s' := Next(cfg, s, st); (m in s'.handled || m in s'.parked) && m !in s.handled && m !in s.parked ==> Handles(s, st, m) || Parks(s, st, m)
  {
  }

  lemma {:induction false} RunProcesses(cfg: Config, s: State, steps: seq<Step>, m: Msg)
    requires Runs(cfg, s, steps) && m !in s.handled && m !in s.parked
    ensures var e := End(cfg, s, steps); m in e.handled || m in e.parked ==> Processed(cfg, s, steps, m)
    decreases |steps|
  {
    if steps != [] {
      StepProcesses(cfg, s, steps[0], m);
      hide Enabled, Next, Handles, Parks;
      var s' := Next(cfg, s, steps[0]);
      if m !in s'.handled && m !in s'.parked {
        RunProcesses(cfg, s', steps[1..], m);
      }
    }
  }

  /** At-least-once: of whatever lies at or below a committed offset some run of the handler ended
      well, or it was put in the dead-letter topic. */
  lemma {:induction false} CommittedIsProcessed(cfg: Config, steps: seq<Step>, m: Msg)
    requires cfg.Valid() && Runs(cfg, Init(cfg), steps)
    requires var s := End(cfg, Init(cfg), steps); m in s.fetched && m.offset <= BrokerAt(s, m.part)
    ensures Processed(cfg, Init(cfg), steps, m)
  {
    InitInv(cfg);
    RunInv(cfg, Init(cfg), steps);
    var s := End(cfg, Init(cfg), steps);
    assert CommitAt(s, m.part) && LinkedAt(s, m.part);
    CommittedIsFinished(cfg, s, m);
    RunProcesses(cfg, Init(cfg), steps, m);
  }

  lemma UpToReady(ps: PartState, f: seq<int>, d: set<int>, o: int)
    requires Determined(ps, f, d) && o in f && o <= ps.ready
    ensures o in d
  {
    PrefixBound(f, d);
    var i :| 0 <= i < |f| && f[i] == o;
    var n := Prefix(f, d);
    assert forall k :: n <= k < |f| && n > 0 ==> f[n - 1] < f[k];
  }

  lemma CommittedIsFinished(cfg: Config, s: State, m: Msg)
    requires Accounted(cfg, s) && LinkedAt(s, m.part) && CommitAt(s, m.part)
    requires m in s.fetched && m.offset <= BrokerAt(s, m.part)
    ensures m in s.handled || m in s.parked
  {
    OffsetsMembers(s.fetched, m.part, m.offset);
    UpToReady(StateOf(s.parts, m.part), Offsets(s.fetched, m.part), OffsetSet(s.marked, m.part), m.offset);
    assert Pos(m) in s.marked;
  }

  function FinishedSet(cfg: Config, s: State, p: Part): set<int> {
    set m | m in s.fetched && m.part == p && IsFinished(cfg, s, m) :: m.offset
  }

  /** When Run returns and the final commits were accepted, each partition's committed offset is
      the end of its longest finished prefix. */
  lemma {:induction false} FinalCommitExact(cfg: Config, steps: seq<Step>, p: Part)
    requires cfg.Valid() && Runs(cfg, Init(cfg), steps)
    requires var s := End(cfg, Init(cfg), steps); s.committer == Returned && s.clean
    ensures var s := End(cfg, Init(cfg), steps);
      BrokerAt(s, p) == EndOfPrefix(Offsets(s.fetched, p), FinishedSet(cfg, s, p))
  {
    InitInv(cfg);
    RunInv(cfg, Init(cfg), steps);
    var s := End(cfg, Init(cfg), steps);
    assert CommitAt(s, p) && LinkedAt(s, p);
    ReturnedIsExact(cfg, s, p);
  }

  lemma MarkedIsFinished(cfg: Config, s: State, p: Part)
    requires forall pos :: pos in s.marked ==> exists m :: m in s.fetched && Pos(m) == pos
    requires forall m :: m in s.fetched ==> (Pos(m) in s.marked <==> IsFinished(cfg, s, m))
    ensures OffsetSet(s.marked, p) == FinishedSet(cfg, s, p)
  {
    hide IsFinished;
    forall o | o in OffsetSet(s.marked, p) ensures o in FinishedSet(cfg, s, p) {
      var m :| m in s.fetched && Pos(m) == Position(p, o);
    }
    forall m | m in s.fetched && m.part == p && IsFinished(cfg, s, m) ensures m.offset in OffsetSet(s.marked, p) {
      assert Pos(m) in s.marked;
    }
  }

  lemma ReturnedIsExact(cfg: Config, s: State, p: Part)
    requires Accounted(cfg, s) && CommitAt(s, p) && LinkedAt(s, p) && s.committer == Returned && s.clean
    requires forall w :: 0 <= w < |s.lanes| ==> s.lanes[w].work == Exited
    ensures BrokerAt(s, p) == EndOfPrefix(Offsets(s.fetched, p), FinishedSet(cfg, s, p))
  {
    forall m | m in s.fetched ensures Pos(m) in s.marked <==> IsFinished(cfg, s, m) {
      if cfg.Route(m.key) < |s.lanes| {
        assert s.lanes[cfg.Route(m.key)].work == Exited;
      }
    }
    MarkedIsFinished(cfg, s, p);
    hide Accounted, OffsetSet, FinishedSet, Offsets;
  }

  lemma {:induction false} OfKeyConcat(a: seq<Msg>, b: seq<Msg>, key: string)
    ensures OfKey(a + b, key) == OfKey(a, key) + OfKey(b, key)
  {
    if b == [] {
      assert a + b == a;
    } else {
      assert Front(a + b) == a + Front(b) && LastOf(a + b) == LastOf(b);
      OfKeyConcat(a, Front(b), key);
    }
  }

  lemma {:induction false} OfKeyStream(cfg: Config, s: seq<Msg>, key: string)
    ensures OfKey(Stream(cfg, s, cfg.Route(key)), key) == OfKey(s, key)
  {
    if s != [] {
      OfKeyStream(cfg, Front(s), key);
      var m, t := LastOf(s), Stream(cfg, Front(s), cfg.Route(key));
      if cfg.Route(m.key) == cfg.Route(key) {
        assert Front(t + [m]) == t;
      } else {
        assert Stream(cfg, s, cfg.Route(key)) == t;
      }
    }
  }

  /** Per-key order: in every run, including a shutdown in the middle of retries, what finished of
      a key is a prefix of what was fetched of it. */
  lemma {:induction false} FinishedIsKeyPrefix(cfg: Config, steps: seq<Step>, key: string)
    requires cfg.Valid() && Runs(cfg, Init(cfg), steps)
    ensures var s := End(cfg, Init(cfg), steps);
      cfg.Route(key) < |s.lanes| && OfKey(s.lanes[cfg.Route(key)].finished, key) <= OfKey(s.fetched, key)
    ensures var s := End(cfg, Init(cfg), steps);
      forall w, m :: 0 <= w < |s.lanes| && m in s.lanes[w].finished && m.key == key ==> w == cfg.Route(key)
  {
    InitInv(cfg);
    RunInv(cfg, Init(cfg), steps);
    KeyPrefix(cfg, End(cfg, Init(cfg), steps), key);
  }

  lemma KeyPrefix(cfg: Config, s: State, key: string)
    requires cfg.Valid() && Flow(cfg, s)
    ensures cfg.Route(key) < |s.lanes| && OfKey(s.lanes[cfg.Route(key)].finished, key) <= OfKey(s.fetched, key)
    ensures forall w, m :: 0 <= w < |s.lanes| && m in s.lanes[w].finished && m.key == key ==> w == cfg.Route(key)
  {
    var w := cfg.Route(key);
    assert FlowOf(cfg, s, w);
    var l, t := s.lanes[w], Stream(cfg, s.fetched, w);
    var rest := t[|l.finished|..];
    assert t == l.finished + rest;
    OfKeyConcat(l.finished, rest, key);
    OfKeyStream(cfg, s.fetched, key);
    forall v, m | 0 <= v < |s.lanes| && m in s.lanes[v].finished && m.key == key ensures v == w {
      assert m in Content(s.lanes[v]);
      LaneHolds(cfg, s, v, m);
    }
  }

  /** No attempt on a message starts, runs or is published before every earlier message of its key
      finished. */
  lemma {:induction false} AttemptsInOrder(cfg: Config, steps: seq<Step>, w: nat, i: nat, j: nat)
    requires cfg.Valid() && Runs(cfg, Init(cfg), steps)
    requires var s := End(cfg, Init(cfg), steps);
      && i < j < |s.fetched| && s.fetched[i].key == s.fetched[j].key
      && w < |s.lanes| && InHand(s.lanes[w].work) == [s.fetched[j]]
      && (s.lanes[w].work.Try? && s.lanes[w].work.attempt == 1 ==> Enabled(cfg, s, Begin(w)))
    ensures var s := End(cfg, Init(cfg), steps); s.fetched[i] in s.lanes[w].finished
  {
    InitInv(cfg);
    RunInv(cfg, Init(cfg), steps);
    var s := End(cfg, Init(cfg), steps);
    var l := s.lanes[w];
    assert l.lost == [];
    assert FlowOf(cfg, s, w);
    InHandIsUnfinished(cfg, s, w);
    StreamOrder(cfg, s.fetched, w, i, j);
    var t := Stream(cfg, s.fetched, w);
    var a, b :| 0 <= a < b < |t| && t[a] == s.fetched[i] && t[b] == s.fetched[j];
    StreamDistinct(cfg, s.fetched, w);
    assert t[|l.finished|] == s.fetched[j];
    SameIndex(t, b, |l.finished|);
    assert l.finished[a] == t[a];
  }

  lemma SameIndex(t: seq<Msg>, a: nat, b: nat)
    requires Distinct(t) && a < |t| && b < |t| && t[a] == t[b]
    ensures a == b
  {
  }

  ghost predicate InOrder(t: seq<Msg>, x: Msg, y: Msg) {
    exists a, b :: 0 <= a < b < |t| && t[a] == x && t[b] == y
  }

  lemma {:induction false} StreamOrder(cfg: Config, s: seq<Msg>, w: nat, i: nat, j: nat)
    requires i < j < |s| && cfg.Route(s[i].key) == w && cfg.Route(s[j].key) == w
    ensures InOrder(Stream(cfg, s, w), s[i], s[j])
  {
    var t, t' := Stream(cfg, s, w), Stream(cfg, Front(s), w);
    if j < |s| - 1 {
      assert Front(s)[i] == s[i] && Front(s)[j] == s[j];
      StreamOrder(cfg, Front(s), w, i, j);
      var a, b :| 0 <= a < b < |t'| && t'[a] == s[i] && t'[b] == s[j];
      assert t[a] == s[i] && t[b] == s[j];
      assert InOrder(t, s[i], s[j]);
    } else {
      assert Front(s)[i] == s[i];
      StreamMembers(cfg, Front(s), w, s[i]);
      var a :| 0 <= a < |t'| && t'[a] == s[i];
      assert t[a] == s[i] && t[|t'|] == s[j];
    }
  }

  /** Backpressure: at most Workers·(QueueSize+1)+1 fetched messages are ever unfinished. */
  lemma {:induction false} BacklogBounded(cfg: Config, steps: seq<Step>)
    requires cfg.Valid() && Runs(cfg, Init(cfg), steps)
    ensures Unfinished(End(cfg, Init(cfg), steps)) <= cfg.workers * (cfg.queueSize + 1) + 1
  {
    InitInv(cfg);
    RunInv(cfg, Init(cfg), steps);
  }
}
