/** The shared kv client: a region that was locked for a subscription travels through channels, streams,
    feed states and workers until it is unlocked. Every goroutine step is atomic on its own, and steps
    of all goroutines interleave freely. */
module RegionTokens {
  import opened Chains
  import opened Prelude
  import opened Sums

  /** A region of a subscribed table: what a successful LockRange hands out. */
  datatype Token = Token(sub: nat, region: nat)

  type FeedId = nat

  /** What travels in `regionCh` and `requests`; a `StopTask` is a regionInfo without a locked range. */
  datatype Item = Region(tok: Token) | StopTask(sub: nat)

  datatype Status = Normal | Stopped | Removed

  /** A regionFeedState and the stream that made it. */
  datatype Feed = Feed(tok: Token, stream: nat, status: Status)

  /** Where the goroutine of a stream is: waiting for a first region, connecting, sending requests,
      out of `run`, telling workers about cleared states, giving back pending regions. */
  datatype StreamPc = Waiting | Connecting | Sending | Broken | Signalling | Failing

  /** `hand` is the region the send loop works on, `clearing` the states taken out of `states` whose
      workers are still to be told, `looked` the states that receivers have looked up for an event they
      have not sent to the worker yet, `pending` the result of clearPendingRegions. */
  datatype Stream = Stream(pc: StreamPc, requests: seq<Item>, prefetch: Option<Token>, hand: Option<Item>,
                           states: map<Token, FeedId>, clearing: set<FeedId>, looked: multiset<FeedId>, pending: seq<Item>)

  const NEW_STREAM := Stream(Waiting, [], None, None, map[], {}, multiset{}, [])

  /** A worker is idle, about to call markRemoved, or past a successful one, before and after takeState. */
  datatype Worker = Idle | Handling(f: FeedId) | GotRemoved(f: FeedId, tok: Token) | Took(f: FeedId, tok: Token)

  /** `router` is a stop task being broadcast and how many streams have it; `reports` counts the
      onRegionFail calls of workers per feed; `cut` are feeds whose stream gave up telling their worker. */
  datatype State = State(locks: set<Token>, stopped: set<nat>, regionCh: seq<Item>, router: Option<(nat, nat)>,
                         streams: seq<Stream>, feeds: seq<Feed>, events: multiset<FeedId>, workers: seq<Worker>,
                         errCh: seq<Token>, reports: multiset<FeedId>, cut: set<FeedId>)

  ghost predicate Init(s: State) {
    && s == State({}, {}, [], None, [], [], multiset{}, s.workers, [], multiset{}, {})
    && forall w | 0 <= w < |s.workers| :: s.workers[w] == Idle
  }

  datatype Step =
    | Lock(tok: Token) | StopTable(sub: nat) | NewStream
    | Route(k: nat) | RouteFail | RouteStop | Broadcast
    | Prefetch(k: nat) | Connect(k: nat) | ConnectFail(k: nat)
    | Fetch(k: nat) | SendStop(k: nat) | SendSkip(k: nat) | SendRegion(k: nat) | Break(k: nat)
    | ClearStates(k: nat) | Signal(k: nat, f: FeedId) | SignalFail(k: nat, f: FeedId) | ClearPending(k: nat, n: nat) | FailPending(k: nat) | Hang(k: nat)
    | Lookup(k: nat, tok: Token) | Deliver(k: nat, f: FeedId) | Discard(k: nat, f: FeedId)
    | Take(w: nat, f: FeedId, failed: bool) | MarkRemoved(w: nat) | TakeState(w: nat) | ReportFail(w: nat)
    | HandleError

  function MarkStopped(feeds: seq<Feed>, f: FeedId): seq<Feed>
    requires f < |feeds|
  {
    if feeds[f].status.Normal? then feeds[f := feeds[f].(status := Stopped)] else feeds
  }

  /** The states of one subscription, and what stays without them. */
  function Of(states: map<Token, FeedId>, sub: nat): set<FeedId> {
    set t | t in states && t.sub == sub :: states[t]
  }

  function Without(states: map<Token, FeedId>, sub: nat): map<Token, FeedId> {
    map t | t in states && t.sub != sub :: states[t]
  }

  /** The client: locking, routing and unlocking. */
  ghost predicate ClientNext(s: State, step: Step, s': State) {
    match step
    case Lock(t) =>
      t !in s.locks && s' == s.(locks := s.locks + {t}, regionCh := s.regionCh + [Region(t)])
    case StopTable(sub) =>
      sub !in s.stopped && s' == s.(stopped := s.stopped + {sub}, regionCh := s.regionCh + [StopTask(sub)])
    case NewStream => s' == s.(streams := s.streams + [NEW_STREAM])
    case Route(k) =>
      && s.router.None? && s.regionCh != [] && s.regionCh[0].Region? && k < |s.streams|
      && s' == s.(regionCh := s.regionCh[1..],
                  streams := s.streams[k := s.streams[k].(requests := s.streams[k].requests + [s.regionCh[0]])])
    case RouteFail =>
      && s.router.None? && s.regionCh != [] && s.regionCh[0].Region?
      && s' == s.(regionCh := s.regionCh[1..], errCh := s.errCh + [s.regionCh[0].tok])
    case RouteStop =>
      && s.router.None? && s.regionCh != [] && s.regionCh[0].StopTask?
      && s' == s.(regionCh := s.regionCh[1..], router := Some((s.regionCh[0].sub, 0)))
    case Broadcast =>
      && s.router.Some?
      && var sub, k := s.router.value.0, s.router.value.1;
      && s' == if k < |s.streams|
               then s.(streams := s.streams[k := s.streams[k].(requests := s.streams[k].requests + [StopTask(sub)])],
                       router := Some((sub, k + 1)))
               else s.(router := None)
    case HandleError =>
      s.errCh != [] && s' == s.(errCh := s.errCh[1..], locks := s.locks - {s.errCh[0]})
    case _ => false
  }

  /** A stream step that touches nothing but the stream. */
  ghost predicate StreamLocal(st: Stream, step: Step, st': Stream) {
    match step
    case Prefetch(_) =>
      && st.pc.Waiting? && st.requests != []
      && st' == if st.requests[0].StopTask? then st.(requests := st.requests[1..])
                else st.(requests := st.requests[1..], prefetch := Some(st.requests[0].tok), pc := Connecting)
    case Connect(_) =>
      && st.pc.Connecting? && st.prefetch.Some?
      && st' == st.(pc := Sending, hand := Some(Region(st.prefetch.value)), prefetch := None)
    case ConnectFail(_) => st.pc.Connecting? && st' == st.(pc := Broken)
    case Fetch(_) =>
      && st.pc.Sending? && st.hand.None? && st.clearing == {} && st.requests != []
      && st' == st.(hand := Some(st.requests[0]), requests := st.requests[1..])
    case SendStop(_) =>
      && st.pc.Sending? && st.hand.Some? && st.hand.value.StopTask?
      && var sub := st.hand.value.sub;
         st' == st.(hand := None, clearing := Of(st.states, sub), states := Without(st.states, sub))
    // The goroutine leaves `run` only after its receivers have.
    case ClearStates(_) =>
      && st.pc.Broken? && st.looked == multiset{}
      && st' == st.(pc := Signalling, clearing := st.states.Values, states := map[])
    case Lookup(_, t) =>
      && (st.pc.Sending? || st.pc.Broken?) && t in st.states
      && st' == st.(looked := st.looked + multiset{st.states[t]})
    case Discard(_, f) => f in st.looked && st' == st.(looked := st.looked - multiset{f})
    case ClearPending(_, n) =>
      && st.pc.Signalling? && st.clearing == {} && n <= |st.requests|
      && st' == st.(pc := Failing, prefetch := None, requests := st.requests[n..],
                    pending := (if st.prefetch.Some? then [Region(st.prefetch.value)] else []) + st.requests[..n])
    case Hang(_) => st.pc.Failing? && st.pending == [] && st' == st.(pc := Waiting)
    case _ => false
  }

  /** A stream step that also reaches the shared state. */
  ghost predicate StreamNext(s: State, step: Step, k: nat, s': State)
    requires k < |s.streams|
  {
    var st := s.streams[k];
    match step
    case SendSkip(_) =>
      && st.pc.Sending? && st.hand.Some? && st.hand.value.Region? && st.hand.value.tok.sub in s.stopped
      && s' == s.(errCh := s.errCh + [st.hand.value.tok], streams := s.streams[k := st.(hand := None)])
    case SendRegion(_) =>
      && st.pc.Sending? && st.hand.Some? && st.hand.value.Region? && st.hand.value.tok.sub !in s.stopped
      && s' == s.(feeds := s.feeds + [Feed(st.hand.value.tok, k, Normal)],
                  streams := s.streams[k := st.(hand := None, states := st.states[st.hand.value.tok := |s.feeds|])])
    case Break(_) =>
      st.pc.Sending? && st.hand.None? && st.clearing == {} && s' == s.(streams := s.streams[k := st.(pc := Broken)])
    // The stream's context is cancelled while the send loop tells the workers about a stopped table.
    case SignalFail(_, f) =>
      && st.pc.Sending? && f in st.clearing && f < |s.feeds|
      && s' == s.(feeds := MarkStopped(s.feeds, f), cut := s.cut + st.clearing,
                  streams := s.streams[k := st.(pc := Broken, clearing := {})])
    case Signal(_, f) =>
      && (st.pc.Sending? || st.pc.Signalling?) && f in st.clearing && f < |s.feeds|
      && s' == s.(feeds := MarkStopped(s.feeds, f), events := s.events + multiset{f},
                  streams := s.streams[k := st.(clearing := st.clearing - {f})])
    case Deliver(_, f) =>
      && f in st.looked
      && s' == s.(events := s.events + multiset{f}, streams := s.streams[k := st.(looked := st.looked - multiset{f})])
    case FailPending(_) =>
      && st.pc.Failing? && st.pending != []
      && s' == s.(errCh := if st.pending[0].Region? then s.errCh + [st.pending[0].tok] else s.errCh,
                  streams := s.streams[k := st.(pending := st.pending[1..])])
    case _ => false
  }

  ghost predicate WorkerNext(s: State, step: Step, s': State) {
    match step
    case Take(w, f, failed) =>
      && w < |s.workers| && s.workers[w].Idle? && f in s.events && f < |s.feeds|
      && s' == if failed || !s.feeds[f].status.Normal?
               then s.(events := s.events - multiset{f}, feeds := MarkStopped(s.feeds, f),
                       workers := s.workers[w := Handling(f)])
               else s.(events := s.events - multiset{f})
    case MarkRemoved(w) =>
      && w < |s.workers| && s.workers[w].Handling? && s.workers[w].f < |s.feeds|
      && var f := s.workers[w].f;
         s' == if s.feeds[f].status.Stopped?
               then s.(feeds := s.feeds[f := s.feeds[f].(status := Removed)],
                       workers := s.workers[w := GotRemoved(f, s.feeds[f].tok)])
               else s.(workers := s.workers[w := Idle])
    case TakeState(w) =>
      && w < |s.workers| && s.workers[w].GotRemoved? && s.workers[w].f < |s.feeds|
      && var k := s.feeds[s.workers[w].f].stream;
      && k < |s.streams|
      && s' == s.(streams := s.streams[k := s.streams[k].(states := s.streams[k].states - {s.workers[w].tok})],
                  workers := s.workers[w := Took(s.workers[w].f, s.workers[w].tok)])
    case ReportFail(w) =>
      && w < |s.workers| && s.workers[w].Took?
      && s' == s.(errCh := s.errCh + [s.workers[w].tok], reports := s.reports + multiset{s.workers[w].f},
                  workers := s.workers[w := Idle])
    case _ => false
  }

  ghost predicate LocalNext(s: State, step: Step, k: nat, s': State)
    requires k < |s.streams|
  {
    |s'.streams| == |s.streams| && StreamLocal(s.streams[k], step, s'.streams[k]) && s' == s.(streams := s.streams[k := s'.streams[k]])
  }

  predicate OfStream(step: Step) {
    || step.Prefetch? || step.Connect? || step.ConnectFail? || step.Fetch? || step.SendStop? || step.SendSkip?
    || step.SendRegion? || step.Break? || step.ClearStates? || step.Signal? || step.SignalFail? || step.ClearPending?
    || step.FailPending? || step.Hang? || step.Lookup? || step.Deliver? || step.Discard?
  }

  ghost predicate Next(s: State, step: Step, s': State) {
    || ClientNext(s, step, s')
    || (OfStream(step) && step.k < |s.streams| && (LocalNext(s, step, step.k, s') || StreamNext(s, step, step.k, s')))
    || WorkerNext(s, step, s')
  }

  // ---------------------------------------------------------------------------------------------
  // Where the tokens are
  // ---------------------------------------------------------------------------------------------

  /** What a stream holds at each point of its goroutine. */
  predicate StreamOk(st: Stream) {
    && (st.prefetch.Some? ==> st.pc.Connecting? || st.pc.Broken? || st.pc.Signalling?)
    && (st.hand.Some? ==> st.pc.Sending? && st.clearing == {})
    && (st.clearing != {} ==> st.pc.Sending? || st.pc.Signalling?)
    && (st.pending != [] ==> st.pc.Failing?)
  }

  function InItem(t: Token): Item -> nat {
    (i: Item) => One(i == Region(t))
  }

  ghost function InStream(t: Token): Stream -> nat {
    (st: Stream) => StreamCount(st, t)
  }

  ghost function StreamCount(st: Stream, t: Token): nat {
    Sum(st.requests, InItem(t)) + One(st.prefetch == Some(t)) + One(st.hand == Some(Region(t)))
    + Sum(st.pending, InItem(t))
  }

  function InFeed(t: Token): Feed -> nat {
    (f: Feed) => One(f.tok == t && !f.status.Removed?)
  }

  function InWorker(t: Token): Worker -> nat {
    (w: Worker) => One((w.GotRemoved? || w.Took?) && w.tok == t)
  }

  function IsToken(t: Token): Token -> nat {
    (x: Token) => One(x == t)
  }

  /** How many places hold the region: channels, stream slots and queues, feeds, workers. */
  ghost function Places(s: State, t: Token): nat {
    Sum(s.regionCh, InItem(t)) + Sum(s.streams, InStream(t)) + Sum(s.feeds, InFeed(t))
    + Sum(s.workers, InWorker(t)) + Sum(s.errCh, IsToken(t))
  }

  /** A locked region is in exactly one place, a region that is not locked in none. */
  ghost predicate Conserved(s: State) {
    forall t :: Places(s, t) == One(t in s.locks)
  }

  lemma PushConserves(streams: seq<Stream>, k: nat, i: Item, t: Token)
    requires k < |streams|
    ensures Sum(streams[k := streams[k].(requests := streams[k].requests + [i])], InStream(t))
            == Sum(streams, InStream(t)) + One(i == Region(t))
  {
    SumAppend(streams[k].requests, i, InItem(t));
    SumUpdate(streams, k, streams[k].(requests := streams[k].requests + [i]), InStream(t));
  }

  lemma RouteConserves(s: State, k: nat, s': State, t: Token)
    requires ClientNext(s, Route(k), s')
    ensures Places(s', t) == Places(s, t)
  {
    SumHead(s.regionCh, InItem(t));
    PushConserves(s.streams, k, s.regionCh[0], t);
  }

  lemma BroadcastConserves(s: State, s': State, t: Token)
    requires ClientNext(s, Broadcast, s')
    ensures Places(s', t) == Places(s, t)
  {
    var sub, k := s.router.value.0, s.router.value.1;
    if k < |s.streams| {
      PushConserves(s.streams, k, StopTask(sub), t);
    }
  }

  lemma LockConserves(s: State, x: Token, s': State, t: Token)
    requires Places(s, t) == One(t in s.locks) && ClientNext(s, Lock(x), s')
    ensures Places(s', t) == One(t in s'.locks)
  {
    SumAppend(s.regionCh, Region(x), InItem(t));
  }

  lemma RouteFailConserves(s: State, s': State, t: Token)
    requires ClientNext(s, RouteFail, s')
    ensures Places(s', t) == Places(s, t)
  {
    SumHead(s.regionCh, InItem(t));
    SumAppend(s.errCh, s.regionCh[0].tok, IsToken(t));
  }

  lemma HandleErrorConserves(s: State, s': State, t: Token)
    requires Places(s, t) == One(t in s.locks) && ClientNext(s, HandleError, s')
    ensures Places(s', t) == One(t in s'.locks)
  {
    SumHead(s.errCh, IsToken(t));
  }

  /** The client steps that move no region. */
  lemma StopOrStreamConserves(s: State, step: Step, s': State, t: Token)
    requires (step.StopTable? || step.NewStream? || step.RouteStop?) && ClientNext(s, step, s')
    ensures Places(s', t) == Places(s, t)
  {
    match step
    case StopTable(sub) => SumAppend(s.regionCh, StopTask(sub), InItem(t));
    case NewStream => SumAppend(s.streams, NEW_STREAM, InStream(t));
    case RouteStop => SumHead(s.regionCh, InItem(t));
  }

  lemma ClientConserves(s: State, step: Step, s': State, t: Token)
    requires Places(s, t) == One(t in s.locks) && ClientNext(s, step, s')
    ensures Places(s', t) == One(t in s'.locks)
  {
    match step
    case Lock(x) => LockConserves(s, x, s', t);
    case Route(k) => RouteConserves(s, k, s', t);
    case RouteFail => RouteFailConserves(s, s', t);
    case Broadcast => BroadcastConserves(s, s', t);
    case HandleError => HandleErrorConserves(s, s', t);
    case _ => StopOrStreamConserves(s, step, s', t);
  }

  lemma LocalConserves(st: Stream, step: Step, st': Stream, t: Token)
    requires StreamOk(st) && StreamLocal(st, step, st')
    ensures StreamCount(st', t) == StreamCount(st, t)
  {
    match step
    case Prefetch(_) => SumHead(st.requests, InItem(t));
    case Fetch(_) => SumHead(st.requests, InItem(t));
    case ClearPending(_, n) => PendingConserves(st, n, t);
    case _ =>
  }

  /** Changing one stream changes the sum by what the stream holds more or less. */
  lemma StreamUpdate(streams: seq<Stream>, k: nat, st: Stream, t: Token)
    requires k < |streams|
    ensures Sum(streams[k := st], InStream(t)) + StreamCount(streams[k], t) == Sum(streams, InStream(t)) + StreamCount(st, t)
  {
    SumUpdate(streams, k, st, InStream(t));
  }

  lemma MarkStoppedConserves(feeds: seq<Feed>, f: FeedId, t: Token)
    requires f < |feeds|
    ensures Sum(MarkStopped(feeds, f), InFeed(t)) == Sum(feeds, InFeed(t))
  {
    SumUpdate(feeds, f, feeds[f].(status := Stopped), InFeed(t));
  }

  lemma FailPendingConserves(s: State, k: nat, s': State, t: Token)
    requires k < |s.streams| && StreamNext(s, FailPending(k), k, s')
    ensures Places(s', t) == Places(s, t)
  {
    StreamUpdate(s.streams, k, s'.streams[k], t);
    SumHead(s.streams[k].pending, InItem(t));
    if s.streams[k].pending[0].Region? {
      SumAppend(s.errCh, s.streams[k].pending[0].tok, IsToken(t));
    }
  }

  lemma SendConserves(s: State, step: Step, k: nat, s': State, t: Token)
    requires k < |s.streams| && (step.SendSkip? || step.SendRegion?) && StreamNext(s, step, k, s')
    ensures Places(s', t) == Places(s, t)
  {
    StreamUpdate(s.streams, k, s'.streams[k], t);
    if step.SendSkip? {
      SumAppend(s.errCh, s.streams[k].hand.value.tok, IsToken(t));
    } else {
      SumAppend(s.feeds, Feed(s.streams[k].hand.value.tok, k, Normal), InFeed(t));
    }
  }

  lemma StreamConserves(s: State, step: Step, k: nat, s': State, t: Token)
    requires k < |s.streams| && StreamNext(s, step, k, s')
    ensures Places(s', t) == Places(s, t)
  {
    match step
    case SendSkip(_) => SendConserves(s, step, k, s', t);
    case SendRegion(_) => SendConserves(s, step, k, s', t);
    case Signal(_, f) =>
      StreamUpdate(s.streams, k, s'.streams[k], t);
      MarkStoppedConserves(s.feeds, f, t);
    case SignalFail(_, f) =>
      StreamUpdate(s.streams, k, s'.streams[k], t);
      MarkStoppedConserves(s.feeds, f, t);
    case FailPending(_) => FailPendingConserves(s, k, s', t);
    case Break(_) => StreamUpdate(s.streams, k, s'.streams[k], t);
    case Deliver(_, _) => StreamUpdate(s.streams, k, s'.streams[k], t);
  }

  lemma MarkRemovedConserves(s: State, w: nat, s': State, t: Token)
    requires WorkerNext(s, MarkRemoved(w), s')
    ensures Places(s', t) == Places(s, t)
  {
    SumUpdate(s.feeds, s.workers[w].f, s.feeds[s.workers[w].f].(status := Removed), InFeed(t));
    SumUpdate(s.workers, w, s'.workers[w], InWorker(t));
  }

  lemma TakeStateConserves(s: State, w: nat, s': State, t: Token)
    requires WorkerNext(s, TakeState(w), s')
    ensures Places(s', t) == Places(s, t)
  {
    var k := s.feeds[s.workers[w].f].stream;
    StreamUpdate(s.streams, k, s'.streams[k], t);
    SumUpdate(s.workers, w, s'.workers[w], InWorker(t));
  }

  lemma WorkerConserves(s: State, step: Step, s': State, t: Token)
    requires WorkerNext(s, step, s')
    ensures Places(s', t) == Places(s, t)
  {
    match step
    case Take(w, f, _) =>
      MarkStoppedConserves(s.feeds, f, t);
      SumUpdate(s.workers, w, Handling(f), InWorker(t));
    case MarkRemoved(w) => MarkRemovedConserves(s, w, s', t);
    case TakeState(w) => TakeStateConserves(s, w, s', t);
    case ReportFail(w) =>
      SumUpdate(s.workers, w, Idle, InWorker(t));
      SumAppend(s.errCh, s.workers[w].tok, IsToken(t));
  }

  lemma PendingConserves(st: Stream, n: nat, t: Token)
    requires n <= |st.requests|
    ensures var pending := (if st.prefetch.Some? then [Region(st.prefetch.value)] else []) + st.requests[..n];
            Sum(st.requests, InItem(t)) + One(st.prefetch == Some(t))
            == Sum(st.requests[n..], InItem(t)) + Sum(pending, InItem(t))
  {
    SumConcat(st.requests[..n], st.requests[n..], InItem(t));
    assert st.requests[..n] + st.requests[n..] == st.requests;
    var first := if st.prefetch.Some? then [Region(st.prefetch.value)] else [];
    SumConcat(first, st.requests[..n], InItem(t));
    if st.prefetch.Some? {
      SumHead(first, InItem(t));
    }
  }

  lemma StepConserves(s: State, step: Step, s': State)
    requires Conserved(s) && StreamsOk(s.streams) && Next(s, step, s')
    ensures Conserved(s')
  {
    forall t
      ensures Places(s', t) == One(t in s'.locks)
    {
      assert Places(s, t) == One(t in s.locks);
      if ClientNext(s, step, s') {
        ClientConserves(s, step, s', t);
      } else if WorkerNext(s, step, s') {
        WorkerConserves(s, step, s', t);
      } else if StreamNext(s, step, step.k, s') {
        StreamConserves(s, step, step.k, s', t);
      } else {
        LocalConserves(s.streams[step.k], step, s'.streams[step.k], t);
        StreamUpdate(s.streams, step.k, s'.streams[step.k], t);
      }
    }
  }

  // ---------------------------------------------------------------------------------------------
  // Feeds, their entries in the streams and their workers
  // ---------------------------------------------------------------------------------------------

  predicate StreamsOk(streams: seq<Stream>) {
    forall k | 0 <= k < |streams| :: StreamOk(streams[k])
  }

  /** An entry belongs to a feed of this stream and region that is not removed, or whose remover is
      about to take the entry away. */
  predicate EntryOk(feeds: seq<Feed>, workers: seq<Worker>, k: nat, t: Token, f: FeedId) {
    && f < |feeds| && feeds[f].tok == t && feeds[f].stream == k
    && (feeds[f].status.Removed? ==> GotRemoved(f, t) in workers)
  }

  predicate StreamLinks(st: Stream, k: nat, feeds: seq<Feed>, workers: seq<Worker>) {
    && (forall t <- st.states :: EntryOk(feeds, workers, k, t, st.states[t]))
    && (forall f <- st.clearing :: f < |feeds| && feeds[f].stream == k)
    && (forall f <- st.looked :: f < |feeds| && feeds[f].stream == k)
  }

  predicate EntriesOk(streams: seq<Stream>, feeds: seq<Feed>, workers: seq<Worker>) {
    forall k | 0 <= k < |streams| :: StreamLinks(streams[k], k, feeds, workers)
  }

  predicate WorkerOk(feeds: seq<Feed>, w: Worker) {
    match w
    case Idle => true
    case Handling(f) => f < |feeds| && !feeds[f].status.Normal?
    case GotRemoved(f, t) => f < |feeds| && feeds[f].status.Removed? && feeds[f].tok == t
    case Took(f, t) => f < |feeds| && feeds[f].status.Removed? && feeds[f].tok == t
  }

  predicate WorkersOk(feeds: seq<Feed>, workers: seq<Worker>) {
    forall w | 0 <= w < |workers| :: WorkerOk(feeds, workers[w])
  }

  predicate IdsOk(streams: seq<Stream>, feeds: seq<Feed>, events: multiset<FeedId>) {
    && (forall f | 0 <= f < |feeds| :: feeds[f].stream < |streams|)
    && (forall f <- events :: f < |feeds|)
  }

  function Holds(f: FeedId): Worker -> nat {
    (w: Worker) => One(InHand(w, f))
  }

  /** A removed feed is in the hands of one worker or was reported once; any other feed is neither. */
  ghost predicate ReportedOnce(feeds: seq<Feed>, workers: seq<Worker>, reports: multiset<FeedId>) {
    forall f: FeedId :: Sum(workers, Holds(f)) + reports[f] == One(f < |feeds| && feeds[f].status.Removed?)
  }

  /** Someone still knows of the feed: its stream, or, once it is stopped, a worker. */
  predicate Tracked(s: State, f: FeedId)
    requires f < |s.feeds|
  {
    s.feeds[f].status.Removed? || f in s.cut || KnownToStream(s, f) || Notified(s, f)
  }

  /** The stream of the feed still has it, in its map or about to signal its worker. */
  predicate KnownToStream(s: State, f: FeedId)
    requires f < |s.feeds|
  {
    var Feed(t, k, _) := s.feeds[f];
    k < |s.streams| && ((t in s.streams[k].states && s.streams[k].states[t] == f) || f in s.streams[k].clearing)
  }

  /** The feed is stopped and a worker will remove it. */
  predicate Notified(s: State, f: FeedId)
    requires f < |s.feeds|
  {
    s.feeds[f].status.Stopped? && (f in s.events || Handling(f) in s.workers)
  }

  predicate NotStranded(s: State) {
    forall f: FeedId | f < |s.feeds| :: Tracked(s, f)
  }

  /** A stream neither holds a feed twice nor one that was given up. */
  predicate Apart(st: Stream, cut: set<FeedId>) {
    && (forall t <- st.states :: st.states[t] !in cut && st.states[t] !in st.clearing)
    && (forall f <- st.clearing :: f !in cut)
  }

  predicate CutOk(s: State) {
    && (forall f <- s.cut :: f < |s.feeds|)
    && forall k | 0 <= k < |s.streams| :: Apart(s.streams[k], s.cut)
  }

  ghost predicate Inv(s: State) {
    && Conserved(s) && StreamsOk(s.streams) && EntriesOk(s.streams, s.feeds, s.workers)
    && WorkersOk(s.feeds, s.workers) && IdsOk(s.streams, s.feeds, s.events)
    && ReportedOnce(s.feeds, s.workers, s.reports) && NotStranded(s) && CutOk(s)
  }

  /** Two holders of one region would be one too many. */
  lemma FeedAndWorker(s: State, f: FeedId, w: nat, t: Token)
    requires Conserved(s) && f < |s.feeds| && w < |s.workers|
    requires s.feeds[f].tok == t && (s.workers[w].GotRemoved? || s.workers[w].Took?) && s.workers[w].tok == t
    ensures s.feeds[f].status.Removed?
  {
    assert Places(s, t) == One(t in s.locks);
    SumHas(s.feeds, f, InFeed(t));
    SumHas(s.workers, w, InWorker(t));
  }

  lemma TwoWorkers(s: State, w: nat, v: nat, t: Token)
    requires Conserved(s) && w < |s.workers| && v < |s.workers|
    requires s.workers[w].GotRemoved? && s.workers[w].tok == t
    requires s.workers[v].GotRemoved? && s.workers[v].tok == t
    ensures w == v
  {
    assert Places(s, t) == One(t in s.locks);
    if w != v {
      SumHasTwo(s.workers, w, v, InWorker(t));
    }
  }

  /** `takeState` in handleSingleRegionError never takes the state of another feed. */
  lemma TakesOwnState(s: State, w: nat, k: nat)
    requires Inv(s) && w < |s.workers| && s.workers[w].GotRemoved? && k < |s.streams|
    ensures s.workers[w].tok in s.streams[k].states ==> s.streams[k].states[s.workers[w].tok] == s.workers[w].f
  {
    var t := s.workers[w].tok;
    if t in s.streams[k].states {
      var g := s.streams[k].states[t];
      assert StreamLinks(s.streams[k], k, s.feeds, s.workers);
      assert EntryOk(s.feeds, s.workers, k, t, g);
      FeedAndWorker(s, g, w, t);
      var v :| 0 <= v < |s.workers| && s.workers[v] == GotRemoved(g, t);
      TwoWorkers(s, w, v, t);
    }
  }

  /** `setState` in the send loop never overwrites an entry, in this stream or any other. */
  lemma SetsFreshState(s: State, k: nat, j: nat)
    requires Inv(s) && k < |s.streams| && j < |s.streams|
    requires s.streams[k].hand.Some? && s.streams[k].hand.value.Region?
    ensures s.streams[k].hand.value.tok !in s.streams[j].states
  {
    var t := s.streams[k].hand.value.tok;
    assert Places(s, t) == One(t in s.locks);
    SumHas(s.streams, k, InStream(t));
    if t in s.streams[j].states {
      var g := s.streams[j].states[t];
      assert StreamLinks(s.streams[j], j, s.feeds, s.workers);
      assert EntryOk(s.feeds, s.workers, j, t, g);
      SumHas(s.feeds, g, InFeed(t));
      if s.feeds[g].status.Removed? {
        var v :| 0 <= v < |s.workers| && s.workers[v] == GotRemoved(g, t);
        SumHas(s.workers, v, InWorker(t));
      }
    }
  }

  // ---------------------------------------------------------------------------------------------
  // Every step keeps the invariant
  // ---------------------------------------------------------------------------------------------

  /** A client step changes a stream only by queueing a request, and leaves feeds and workers alone. */
  predicate SameButRequests(st: Stream, st': Stream) {
    st' == st.(requests := st'.requests)
  }

  predicate SameFeeds(s: State, s': State) {
    s'.feeds == s.feeds && s'.workers == s.workers && s'.events == s.events && s'.reports == s.reports && s'.cut == s.cut
  }

  predicate ClientEffect(s: State, s': State) {
    && SameFeeds(s, s') && |s.streams| <= |s'.streams|
    && (forall k | 0 <= k < |s.streams| :: SameButRequests(s.streams[k], s'.streams[k]))
    && (forall k | |s.streams| <= k < |s'.streams| :: s'.streams[k] == NEW_STREAM)
  }

  lemma ClientStep(s: State, step: Step, s': State)
    requires ClientNext(s, step, s')
    ensures ClientEffect(s, s')
  {
    match step
    case NewStream =>
      assert |s'.streams| == |s.streams| + 1;
    case _ =>
      assert |s'.streams| == |s.streams|;
  }

  /** A local step may only move entries to `clearing`. */
  predicate LocalEffect(st: Stream, st': Stream) {
    && StreamOk(st')
    && (forall t <- st'.states :: t in st.states && st'.states[t] == st.states[t])
    && (forall t <- st.states :: (t in st'.states && st'.states[t] == st.states[t]) || st.states[t] in st'.clearing)
    && (forall f <- st.clearing :: f in st'.clearing)
    && (forall f <- st'.clearing :: f in st.clearing || exists t <- st.states :: st.states[t] == f)
    && (forall f <- st'.looked :: f in st.looked || exists t <- st.states :: st.states[t] == f)
  }

  lemma LocalStep(st: Stream, step: Step, st': Stream)
    requires StreamOk(st) && StreamLocal(st, step, st')
    ensures LocalEffect(st, st')
  {
  }

  /** Feeds are only added, keep their region and stream, and never turn back. */
  predicate FeedsAdvance(feeds: seq<Feed>, feeds': seq<Feed>) {
    && |feeds| <= |feeds'|
    && forall f | 0 <= f < |feeds| ::
         && feeds'[f].tok == feeds[f].tok && feeds'[f].stream == feeds[f].stream
         && (feeds[f].status.Removed? ==> feeds'[f].status.Removed?)
         && (feeds'[f].status.Normal? ==> feeds[f].status.Normal?)
  }

  /** No feed loses its remover, and a newly removed one gets it. */
  ghost predicate RemoversStay(feeds: seq<Feed>, workers: seq<Worker>, feeds': seq<Feed>, workers': seq<Worker>) {
    && (forall f, t :: GotRemoved(f, t) in workers ==> GotRemoved(f, t) in workers')
    && (forall f | 0 <= f < |feeds| && f < |feeds'| ::
          feeds'[f].status.Removed? && !feeds[f].status.Removed? ==> GotRemoved(f, feeds'[f].tok) in workers')
  }

  lemma LinksStay(streams: seq<Stream>, feeds: seq<Feed>, workers: seq<Worker>, feeds': seq<Feed>, workers': seq<Worker>)
    requires EntriesOk(streams, feeds, workers) && FeedsAdvance(feeds, feeds') && RemoversStay(feeds, workers, feeds', workers')
    ensures EntriesOk(streams, feeds', workers')
  {
    forall k | 0 <= k < |streams|
      ensures StreamLinks(streams[k], k, feeds', workers')
    {
      assert StreamLinks(streams[k], k, feeds, workers);
    }
  }

  /** Changing one stream. */
  lemma LinksUpdate(streams: seq<Stream>, k: nat, st: Stream, feeds: seq<Feed>, workers: seq<Worker>)
    requires EntriesOk(streams, feeds, workers) && k < |streams| && StreamLinks(st, k, feeds, workers)
    ensures EntriesOk(streams[k := st], feeds, workers)
  {
    var streams' := streams[k := st];
    forall j | 0 <= j < |streams'|
      ensures StreamLinks(streams'[j], j, feeds, workers)
    {
      assert StreamLinks(streams[j], j, feeds, workers);
    }
  }

  lemma WorkersStay(feeds: seq<Feed>, workers: seq<Worker>, feeds': seq<Feed>)
    requires WorkersOk(feeds, workers) && FeedsAdvance(feeds, feeds')
    ensures WorkersOk(feeds', workers)
  {
    forall w | 0 <= w < |workers|
      ensures WorkerOk(feeds', workers[w])
    {
      assert WorkerOk(feeds, workers[w]);
    }
  }

  lemma WorkersUpdate(feeds: seq<Feed>, workers: seq<Worker>, w: nat, x: Worker)
    requires WorkersOk(feeds, workers) && w < |workers| && WorkerOk(feeds, x)
    ensures WorkersOk(feeds, workers[w := x]) && x in workers[w := x]
    ensures forall y :: y in workers && y != workers[w] ==> y in workers[w := x]
  {
    assert workers[w := x][w] == x;
    forall y | y in workers && y != workers[w]
      ensures y in workers[w := x]
    {
      var v :| 0 <= v < |workers| && workers[v] == y;
      assert workers[w := x][v] == y;
    }
  }

  lemma ClientKeeps(s: State, s': State)
    requires Inv(s) && ClientEffect(s, s')
    ensures StreamsOk(s'.streams) && EntriesOk(s'.streams, s'.feeds, s'.workers) && NotStranded(s')
  {
    forall k | 0 <= k < |s'.streams|
      ensures StreamLinks(s'.streams[k], k, s'.feeds, s'.workers)
    {
      assert k < |s.streams| ==> StreamLinks(s.streams[k], k, s.feeds, s.workers);
    }
    forall f: FeedId | f < |s'.feeds|
      ensures Tracked(s', f)
    {
      assert Tracked(s, f);
    }
  }

  lemma LocalKeeps(s: State, k: nat, s': State)
    requires Inv(s) && k < |s.streams| == |s'.streams| && s'.streams == s.streams[k := s'.streams[k]]
    requires LocalEffect(s.streams[k], s'.streams[k]) && SameFeeds(s, s')
    ensures StreamsOk(s'.streams) && EntriesOk(s'.streams, s'.feeds, s'.workers) && NotStranded(s')
  {
    assert StreamLinks(s.streams[k], k, s.feeds, s.workers);
    LinksUpdate(s.streams, k, s'.streams[k], s.feeds, s.workers);
    forall f: FeedId | f < |s'.feeds|
      ensures Tracked(s', f)
    {
      assert Tracked(s, f);
    }
  }

  lemma SendRegionKeeps(s: State, k: nat, s': State)
    requires Inv(s) && k < |s.streams| && StreamNext(s, SendRegion(k), k, s')
    ensures EntriesOk(s'.streams, s'.feeds, s'.workers) && WorkersOk(s'.feeds, s'.workers) && NotStranded(s')
  {
    SetsFreshState(s, k, k);
    LinksStay(s.streams, s.feeds, s.workers, s'.feeds, s'.workers);
    WorkersStay(s.feeds, s.workers, s'.feeds);
    assert StreamLinks(s.streams[k], k, s'.feeds, s.workers);
    LinksUpdate(s.streams, k, s'.streams[k], s'.feeds, s.workers);
    forall f: FeedId | f < |s'.feeds|
      ensures Tracked(s', f)
    {
      assert f < |s.feeds| ==> Tracked(s, f);
    }
  }

  lemma SignalKeeps(s: State, k: nat, f: FeedId, s': State)
    requires Inv(s) && k < |s.streams| && StreamNext(s, Signal(k, f), k, s')
    ensures EntriesOk(s'.streams, s'.feeds, s'.workers) && WorkersOk(s'.feeds, s'.workers) && NotStranded(s')
  {
    LinksStay(s.streams, s.feeds, s.workers, s'.feeds, s'.workers);
    WorkersStay(s.feeds, s.workers, s'.feeds);
    assert StreamLinks(s.streams[k], k, s'.feeds, s.workers);
    LinksUpdate(s.streams, k, s'.streams[k], s'.feeds, s.workers);
    forall g: FeedId | g < |s'.feeds|
      ensures Tracked(s', g)
    {
      assert Tracked(s, g);
    }
  }

  lemma SignalFailKeeps(s: State, k: nat, f: FeedId, s': State)
    requires Inv(s) && k < |s.streams| && StreamNext(s, SignalFail(k, f), k, s')
    ensures EntriesOk(s'.streams, s'.feeds, s'.workers) && WorkersOk(s'.feeds, s'.workers) && NotStranded(s')
  {
    LinksStay(s.streams, s.feeds, s.workers, s'.feeds, s'.workers);
    WorkersStay(s.feeds, s.workers, s'.feeds);
    assert StreamLinks(s.streams[k], k, s'.feeds, s.workers);
    LinksUpdate(s.streams, k, s'.streams[k], s'.feeds, s.workers);
    forall g: FeedId | g < |s'.feeds|
      ensures Tracked(s', g)
    {
      assert Tracked(s, g);
    }
  }

  lemma DeliverKeeps(s: State, k: nat, f: FeedId, s': State)
    requires Inv(s) && k < |s.streams| && StreamNext(s, Deliver(k, f), k, s')
    ensures EntriesOk(s'.streams, s'.feeds, s'.workers) && WorkersOk(s'.feeds, s'.workers) && NotStranded(s')
  {
    assert StreamLinks(s.streams[k], k, s.feeds, s.workers);
    LinksUpdate(s.streams, k, s'.streams[k], s.feeds, s.workers);
    forall g: FeedId | g < |s'.feeds|
      ensures Tracked(s', g)
    {
      assert Tracked(s, g);
    }
  }

  lemma TakeKeeps(s: State, step: Step, s': State)
    requires Inv(s) && step.Take? && WorkerNext(s, step, s')
    ensures EntriesOk(s'.streams, s'.feeds, s'.workers) && WorkersOk(s'.feeds, s'.workers) && NotStranded(s')
  {
    WorkersStay(s.feeds, s.workers, s'.feeds);
    WorkersUpdate(s'.feeds, s.workers, step.w, s'.workers[step.w]);
    LinksStay(s.streams, s.feeds, s.workers, s'.feeds, s'.workers);
    forall g: FeedId | g < |s'.feeds|
      ensures Tracked(s', g)
    {
      assert Tracked(s, g);
    }
  }

  lemma MarkRemovedKeeps(s: State, w: nat, s': State)
    requires Inv(s) && WorkerNext(s, MarkRemoved(w), s')
    ensures EntriesOk(s'.streams, s'.feeds, s'.workers) && WorkersOk(s'.feeds, s'.workers) && NotStranded(s')
  {
    WorkersStay(s.feeds, s.workers, s'.feeds);
    WorkersUpdate(s'.feeds, s.workers, w, s'.workers[w]);
    LinksStay(s.streams, s.feeds, s.workers, s'.feeds, s'.workers);
    assert WorkerOk(s.feeds, s.workers[w]);
    forall g: FeedId | g < |s'.feeds|
      ensures Tracked(s', g)
    {
      assert Tracked(s, g);
    }
  }

  lemma TakeStateKeeps(s: State, w: nat, s': State)
    requires Inv(s) && WorkerNext(s, TakeState(w), s')
    ensures EntriesOk(s'.streams, s'.feeds, s'.workers) && WorkersOk(s'.feeds, s'.workers) && NotStranded(s')
  {
    assert WorkerOk(s.feeds, s.workers[w]);
    WorkersUpdate(s.feeds, s.workers, w, s'.workers[w]);
    TakesOwnState(s, w, s.feeds[s.workers[w].f].stream);
    forall k | 0 <= k < |s'.streams|
      ensures StreamLinks(s'.streams[k], k, s'.feeds, s'.workers)
    {
      assert StreamLinks(s.streams[k], k, s.feeds, s.workers);
    }
    forall g: FeedId | g < |s'.feeds|
      ensures Tracked(s', g)
    {
      assert Tracked(s, g);
    }
  }

  lemma ReportFailKeeps(s: State, w: nat, s': State)
    requires Inv(s) && WorkerNext(s, ReportFail(w), s')
    ensures EntriesOk(s'.streams, s'.feeds, s'.workers) && WorkersOk(s'.feeds, s'.workers) && NotStranded(s')
  {
    WorkersUpdate(s.feeds, s.workers, w, Idle);
    LinksStay(s.streams, s.feeds, s.workers, s'.feeds, s'.workers);
    forall g: FeedId | g < |s'.feeds|
      ensures Tracked(s', g)
    {
      assert Tracked(s, g);
    }
  }

  lemma StreamNextKeeps(s: State, step: Step, k: nat, s': State)
    requires Inv(s) && k < |s.streams| && StreamNext(s, step, k, s')
    ensures StreamsOk(s'.streams) && IdsOk(s'.streams, s'.feeds, s'.events)
    ensures EntriesOk(s'.streams, s'.feeds, s'.workers) && WorkersOk(s'.feeds, s'.workers) && NotStranded(s')
  {
    StreamNextIds(s, step, k, s');
    match step
    case SendSkip(_) => QuietStep(s, step, k, s');
    case SendRegion(_) => SendRegionKeeps(s, k, s');
    case Break(_) => QuietStep(s, step, k, s');
    case Signal(_, f) => SignalKeeps(s, k, f, s');
    case SignalFail(_, f) => SignalFailKeeps(s, k, f, s');
    case Deliver(_, f) => DeliverKeeps(s, k, f, s');
    case FailPending(_) => QuietStep(s, step, k, s');
  }

  lemma StreamNextIds(s: State, step: Step, k: nat, s': State)
    requires Inv(s) && k < |s.streams| && StreamNext(s, step, k, s')
    ensures StreamsOk(s'.streams) && IdsOk(s'.streams, s'.feeds, s'.events)
  {
    assert StreamOk(s.streams[k]) && StreamLinks(s.streams[k], k, s.feeds, s.workers);
  }

  /** Steps that leave the states of the stream and everything about feeds alone. */
  lemma QuietStep(s: State, step: Step, k: nat, s': State)
    requires Inv(s) && k < |s.streams| && StreamNext(s, step, k, s') && (step.SendSkip? || step.Break? || step.FailPending?)
    ensures EntriesOk(s'.streams, s'.feeds, s'.workers) && WorkersOk(s'.feeds, s'.workers) && NotStranded(s')
  {
    assert StreamOk(s.streams[k]);
    LocalKeeps(s, k, s');
  }

  lemma WorkerNextKeeps(s: State, step: Step, s': State)
    requires Inv(s) && WorkerNext(s, step, s')
    ensures StreamsOk(s'.streams) && IdsOk(s'.streams, s'.feeds, s'.events)
    ensures EntriesOk(s'.streams, s'.feeds, s'.workers) && WorkersOk(s'.feeds, s'.workers) && NotStranded(s')
  {
    match step
    case Take(_, _, _) => TakeKeeps(s, step, s');
    case MarkRemoved(w) => MarkRemovedKeeps(s, w, s');
    case TakeState(w) =>
      TakeStateKeeps(s, w, s');
      assert StreamOk(s.streams[s.feeds[s.workers[w].f].stream]);
    case ReportFail(w) => ReportFailKeeps(s, w, s');
  }

  predicate InHand(w: Worker, f: FeedId) {
    (w.GotRemoved? || w.Took?) && w.f == f
  }

  lemma HoldsUpdate(workers: seq<Worker>, w: nat, x: Worker, f: FeedId)
    requires w < |workers|
    ensures Sum(workers[w := x], Holds(f)) + One(InHand(workers[w], f)) == Sum(workers, Holds(f)) + One(InHand(x, f))
  {
    SumUpdate(workers, w, x, Holds(f));
  }

  /** Only a worker that changed a feed from stopped to removed reports it, and does so once. */
  lemma WorkerReports(s: State, step: Step, s': State, f: FeedId)
    requires WorkersOk(s.feeds, s.workers) && WorkerNext(s, step, s')
    requires Sum(s.workers, Holds(f)) + s.reports[f] == One(f < |s.feeds| && s.feeds[f].status.Removed?)
    ensures Sum(s'.workers, Holds(f)) + s'.reports[f] == One(f < |s'.feeds| && s'.feeds[f].status.Removed?)
  {
    match step
    case Take(w, g, _) => HoldsUpdate(s.workers, w, Handling(g), f);
    case MarkRemoved(w) =>
      HoldsUpdate(s.workers, w, Idle, f);
      HoldsUpdate(s.workers, w, GotRemoved(s.workers[w].f, s.feeds[s.workers[w].f].tok), f);
    case TakeState(w) => HoldsUpdate(s.workers, w, Took(s.workers[w].f, s.workers[w].tok), f);
    case ReportFail(w) => HoldsUpdate(s.workers, w, Idle, f);
  }

  lemma StreamReports(s: State, step: Step, k: nat, s': State)
    requires ReportedOnce(s.feeds, s.workers, s.reports) && k < |s.streams| && StreamNext(s, step, k, s')
    ensures ReportedOnce(s'.feeds, s'.workers, s'.reports)
  {
  }

  // Feeds that a stream gave up on.

  lemma LocalKeepsApart(st: Stream, step: Step, st': Stream, k: nat, feeds: seq<Feed>, workers: seq<Worker>, cut: set<FeedId>)
    requires StreamOk(st) && StreamLinks(st, k, feeds, workers) && Apart(st, cut) && StreamLocal(st, step, st')
    ensures Apart(st', cut)
  {
    assert forall t, u | t in st.states && u in st.states && st.states[t] == st.states[u] ::
        EntryOk(feeds, workers, k, t, st.states[t]) && EntryOk(feeds, workers, k, u, st.states[u]) ==> t == u;
  }

  /** Giving up the feeds of one stream touches no other stream. */
  lemma CutKeepsApart(s: State, k: nat, j: nat, cut: set<FeedId>)
    requires Inv(s) && k < |s.streams| && j < |s.streams| && j != k && cut == s.cut + s.streams[k].clearing
    ensures Apart(s.streams[j], cut)
  {
    assert StreamLinks(s.streams[k], k, s.feeds, s.workers) && StreamLinks(s.streams[j], j, s.feeds, s.workers);
    assert Apart(s.streams[j], s.cut);
    forall t | t in s.streams[j].states
      ensures s.streams[j].states[t] !in cut
    {
      assert EntryOk(s.feeds, s.workers, j, t, s.streams[j].states[t]);
    }
  }

  lemma StreamKeepsCut(s: State, step: Step, k: nat, s': State)
    requires Inv(s) && k < |s.streams| && StreamNext(s, step, k, s')
    ensures CutOk(s')
  {
    assert StreamLinks(s.streams[k], k, s.feeds, s.workers) && Apart(s.streams[k], s.cut);
    forall j | 0 <= j < |s'.streams|
      ensures Apart(s'.streams[j], s'.cut)
    {
      assert Apart(s.streams[j], s.cut);
      if step.SignalFail? && j != k {
        CutKeepsApart(s, k, j, s'.cut);
      }
    }
  }

  lemma ClientKeepsCut(s: State, s': State)
    requires CutOk(s) && ClientEffect(s, s')
    ensures CutOk(s')
  {
    forall k | 0 <= k < |s'.streams|
      ensures Apart(s'.streams[k], s'.cut)
    {
      assert k < |s.streams| ==> Apart(s.streams[k], s.cut) && SameButRequests(s.streams[k], s'.streams[k]);
    }
  }

  lemma WorkerKeepsCut(s: State, step: Step, s': State)
    requires CutOk(s) && WorkerNext(s, step, s')
    ensures CutOk(s')
  {
    forall k | 0 <= k < |s'.streams|
      ensures Apart(s'.streams[k], s'.cut)
    {
      assert Apart(s.streams[k], s.cut);
    }
  }

  lemma LocalKeepsCut(s: State, step: Step, k: nat, s': State)
    requires Inv(s) && k < |s.streams| && LocalNext(s, step, k, s')
    ensures CutOk(s')
  {
    assert StreamOk(s.streams[k]) && Apart(s.streams[k], s.cut) && StreamLinks(s.streams[k], k, s.feeds, s.workers);
    LocalKeepsApart(s.streams[k], step, s'.streams[k], k, s.feeds, s.workers, s.cut);
    forall j | 0 <= j < |s'.streams|
      ensures Apart(s'.streams[j], s'.cut)
    {
      assert Apart(s.streams[j], s.cut);
    }
  }

  lemma StepKeepsCut(s: State, step: Step, s': State)
    requires Inv(s) && Next(s, step, s')
    ensures CutOk(s')
  {
    if ClientNext(s, step, s') {
      ClientStep(s, step, s');
      ClientKeepsCut(s, s');
    } else if WorkerNext(s, step, s') {
      WorkerKeepsCut(s, step, s');
    } else if StreamNext(s, step, step.k, s') {
      StreamKeepsCut(s, step, step.k, s');
    } else {
      LocalKeepsCut(s, step, step.k, s');
    }
  }

  lemma StepKeepsInv(s: State, step: Step, s': State)
    requires Inv(s) && Next(s, step, s')
    ensures Inv(s')
  {
    StepConserves(s, step, s');
    StepKeepsCut(s, step, s');
    if ClientNext(s, step, s') {
      ClientStep(s, step, s');
      ClientKeeps(s, s');
    } else if WorkerNext(s, step, s') {
      WorkerNextKeeps(s, step, s');
      forall f: FeedId
        ensures Sum(s'.workers, Holds(f)) + s'.reports[f] == One(f < |s'.feeds| && s'.feeds[f].status.Removed?)
      {
        WorkerReports(s, step, s', f);
      }
    } else if StreamNext(s, step, step.k, s') {
      StreamNextKeeps(s, step, step.k, s');
      StreamReports(s, step, step.k, s');
    } else {
      LocalStep(s.streams[step.k], step, s'.streams[step.k]);
      LocalKeeps(s, step.k, s');
    }
  }

  // ---------------------------------------------------------------------------------------------
  // Whole runs
  // ---------------------------------------------------------------------------------------------

  ghost function Moves(): (State, Step, State) -> bool {
    (s, step, s') => Next(s, step, s')
  }

  ghost predicate Run(states: seq<State>, steps: seq<Step>) {
    Chain(Moves(), states, steps) && Init(states[0])
  }

  lemma StepOf(states: seq<State>, steps: seq<Step>, n: nat)
    requires Run(states, steps) && n < |steps|
    ensures Next(states[n], steps[n], states[n + 1])
  {
    assert Moves()(states[n], steps[n], states[n + 1]);
  }

  lemma InitHasInv(s: State)
    requires Init(s)
    ensures Inv(s)
  {
    forall t
      ensures Places(s, t) == One(t in s.locks)
    {
      SumZero(s.workers, InWorker(t));
    }
    forall f: FeedId
      ensures Sum(s.workers, Holds(f)) == 0
    {
      SumZero(s.workers, Holds(f));
    }
  }

  lemma {:induction false} RunKeepsInv(states: seq<State>, steps: seq<Step>, n: nat)
    requires Run(states, steps) && n <= |steps|
    ensures Inv(states[n])
    decreases n
  {
    if n == 0 {
      InitHasInv(states[0]);
    } else {
      RunKeepsInv(states, steps, n - 1);
      StepOf(states, steps, n - 1);
      StepKeepsInv(states[n - 1], steps[n - 1], states[n]);
    }
  }

  /** From LockRange to UnlockRange a region is in exactly one place, and before and after in none. */
  lemma RegionInOnePlace(states: seq<State>, steps: seq<Step>, n: nat, t: Token)
    requires Run(states, steps) && n <= |steps|
    ensures Places(states[n], t) == if t in states[n].locks then 1 else 0
  {
    RunKeepsInv(states, steps, n);
  }

  /** The error handler only ever unlocks a region that is locked. */
  lemma UnlocksOnlyLocked(states: seq<State>, steps: seq<Step>, n: nat)
    requires Run(states, steps) && n <= |steps|
    ensures forall t <- states[n].errCh :: t in states[n].locks
  {
    RunKeepsInv(states, steps, n);
    forall t | t in states[n].errCh
      ensures t in states[n].locks
    {
      var i :| 0 <= i < |states[n].errCh| && states[n].errCh[i] == t;
      SumHas(states[n].errCh, i, IsToken(t));
      assert Places(states[n], t) == One(t in states[n].locks);
    }
  }

  /** Whatever streams and workers do concurrently, a feed state is reported at most once, and only
      after it was removed. */
  lemma ReportedAtMostOnce(states: seq<State>, steps: seq<Step>, n: nat, f: FeedId)
    requires Run(states, steps) && n <= |steps|
    ensures states[n].reports[f] <= 1
    ensures f in states[n].reports ==> f < |states[n].feeds| && states[n].feeds[f].status.Removed?
  {
    RunKeepsInv(states, steps, n);
    assert Sum(states[n].workers, Holds(f)) + states[n].reports[f]
        == One(f < |states[n].feeds| && states[n].feeds[f].status.Removed?);
  }

  /** A feed that is not removed is known to its stream or its worker is notified, if and only if its
      stream did not break while telling the workers about a deregistered table, or an event of another
      origin notified the worker after all. */
  lemma NoFeedIsStranded(states: seq<State>, steps: seq<Step>, n: nat, f: FeedId)
    requires Run(states, steps) && n <= |steps| && f < |states[n].feeds| && !states[n].feeds[f].status.Removed?
    ensures KnownToStream(states[n], f) || Notified(states[n], f) <==> f !in states[n].cut || Notified(states[n], f)
  {
    RunKeepsInv(states, steps, n);
    assert Tracked(states[n], f);
    var k := states[n].feeds[f].stream;
    assert k < |states[n].streams| ==> Apart(states[n].streams[k], states[n].cut);
  }

  /** So as long as no stream breaks there, no feed is stranded. */
  lemma {:induction false} NoBreakNoCut(states: seq<State>, steps: seq<Step>, n: nat)
    requires Run(states, steps) && n <= |steps| && forall i | 0 <= i < n :: !steps[i].SignalFail?
    ensures states[n].cut == {}
    decreases n
  {
    if n > 0 {
      NoBreakNoCut(states, steps, n - 1);
      StepOf(states, steps, n - 1);
    }
  }

  lemma NothingStrandedWithoutBreak(states: seq<State>, steps: seq<Step>, n: nat, f: FeedId)
    requires Run(states, steps) && n <= |steps| && forall i | 0 <= i < n :: !steps[i].SignalFail?
    requires f < |states[n].feeds| && !states[n].feeds[f].status.Removed?
    ensures KnownToStream(states[n], f) || Notified(states[n], f)
  {
    NoBreakNoCut(states, steps, n);
    NoFeedIsStranded(states, steps, n, f);
  }

  /** A feed that nobody knows of any more: no stream, no receiver, no queued event, no worker. */
  predicate Forgot(st: Stream, f: FeedId) {
    (forall t <- st.states :: st.states[t] != f) && f !in st.clearing && f !in st.looked
  }

  predicate Orphan(s: State, f: FeedId) {
    && f < |s.feeds| && !s.feeds[f].status.Removed?
    && (forall k | 0 <= k < |s.streams| :: Forgot(s.streams[k], f))
    && f !in s.events && Handling(f) !in s.workers
  }

  /** The orphans are exactly the feeds that a breaking stream gave up on and for which no event is on
      its way. */
  lemma OrphanIff(states: seq<State>, steps: seq<Step>, n: nat, f: FeedId)
    requires Run(states, steps) && n <= |steps| && f < |states[n].feeds| && !states[n].feeds[f].status.Removed?
    ensures var s := states[n];
            Orphan(s, f) <==>
            && f in s.cut && f !in s.events && Handling(f) !in s.workers
            && forall k | 0 <= k < |s.streams| :: f !in s.streams[k].looked
  {
    var s := states[n];
    RunKeepsInv(states, steps, n);
    assert Tracked(s, f);
    forall k | 0 <= k < |s.streams|
      ensures f in s.cut && f !in s.streams[k].looked ==> Forgot(s.streams[k], f)
    {
      assert Apart(s.streams[k], s.cut);
    }
    if Orphan(s, f) {
      var k := s.feeds[f].stream;
      assert k < |s.streams| ==> Forgot(s.streams[k], f);
    }
  }

  lemma ClientKeepsOrphan(s: State, step: Step, s': State, f: FeedId)
    requires Orphan(s, f) && ClientNext(s, step, s')
    ensures Orphan(s', f)
  {
    ClientStep(s, step, s');
    forall k | 0 <= k < |s'.streams|
      ensures Forgot(s'.streams[k], f)
    {
      assert k < |s.streams| ==> Forgot(s.streams[k], f) && SameButRequests(s.streams[k], s'.streams[k]);
    }
  }

  lemma LocalKeepsOrphan(s: State, step: Step, k: nat, s': State, f: FeedId)
    requires Orphan(s, f) && k < |s.streams| && StreamOk(s.streams[k]) && LocalNext(s, step, k, s')
    ensures Orphan(s', f)
  {
    LocalStep(s.streams[k], step, s'.streams[k]);
    forall j | 0 <= j < |s'.streams|
      ensures Forgot(s'.streams[j], f)
    {
      assert Forgot(s.streams[j], f);
    }
  }

  lemma StreamKeepsOrphan(s: State, step: Step, k: nat, s': State, f: FeedId)
    requires Orphan(s, f) && k < |s.streams| && StreamNext(s, step, k, s')
    ensures Orphan(s', f)
  {
    assert Forgot(s.streams[k], f);
    forall j | 0 <= j < |s'.streams|
      ensures Forgot(s'.streams[j], f)
    {
      assert Forgot(s.streams[j], f);
    }
  }

  lemma WorkerKeepsOrphan(s: State, step: Step, s': State, f: FeedId)
    requires Orphan(s, f) && WorkerNext(s, step, s')
    ensures Orphan(s', f)
  {
    forall j | 0 <= j < |s'.streams|
      ensures Forgot(s'.streams[j], f)
    {
      assert Forgot(s.streams[j], f);
    }
  }

  lemma StepKeepsOrphan(s: State, step: Step, s': State, f: FeedId)
    requires Inv(s) && Orphan(s, f) && Next(s, step, s')
    ensures Orphan(s', f)
  {
    if ClientNext(s, step, s') {
      ClientKeepsOrphan(s, step, s', f);
    } else if WorkerNext(s, step, s') {
      WorkerKeepsOrphan(s, step, s', f);
    } else if StreamNext(s, step, step.k, s') {
      StreamKeepsOrphan(s, step, step.k, s', f);
    } else {
      assert StreamOk(s.streams[step.k]);
      LocalKeepsOrphan(s, step, step.k, s', f);
    }
  }

  lemma FeedIsLocked(s: State, f: FeedId)
    requires Conserved(s) && f < |s.feeds| && !s.feeds[f].status.Removed?
    ensures s.feeds[f].tok in s.locks
  {
    var t := s.feeds[f].tok;
    SumHas(s.feeds, f, InFeed(t));
    assert Places(s, t) == One(t in s.locks);
  }

  lemma {:induction false} OrphanStays(states: seq<State>, steps: seq<Step>, m: nat, n: nat, f: FeedId)
    requires Run(states, steps) && m <= n <= |steps| && Orphan(states[m], f)
    ensures Orphan(states[n], f)
    decreases n
  {
    if m < n {
      OrphanStays(states, steps, m, n - 1, f);
      OrphanStaysOnce(states, steps, n - 1, f);
    }
  }

  lemma OrphanStaysOnce(states: seq<State>, steps: seq<Step>, n: nat, f: FeedId)
    requires Run(states, steps) && n < |steps| && Orphan(states[n], f)
    ensures Orphan(states[n + 1], f)
  {
    RunKeepsInv(states, steps, n);
    StepOf(states, steps, n);
    StepKeepsOrphan(states[n], steps[n], states[n + 1], f);
  }

  /** An orphan stays one: it is never removed, and its region is never unlocked. */
  lemma OrphanIsForever(states: seq<State>, steps: seq<Step>, m: nat, n: nat, f: FeedId)
    requires Run(states, steps) && m <= n <= |steps| && Orphan(states[m], f)
    ensures Orphan(states[n], f) && states[n].feeds[f].tok in states[n].locks
  {
    OrphanStays(states, steps, m, n, f);
    RunKeepsInv(states, steps, n);
    FeedIsLocked(states[n], f);
  }

  /** A stream that waits for its first region has no prefetched one, and a request is only sent for a
      region without an entry, so neither is ever overwritten. */
  lemma NothingIsOverwritten(states: seq<State>, steps: seq<Step>, n: nat, k: nat)
    requires Run(states, steps) && n <= |steps| && k < |states[n].streams|
    ensures states[n].streams[k].pc.Waiting? ==> states[n].streams[k].prefetch.None?
    ensures states[n].streams[k].hand.Some? && states[n].streams[k].hand.value.Region? ==>
              states[n].streams[k].hand.value.tok !in states[n].streams[k].states
  {
    RunKeepsInv(states, steps, n);
    assert StreamOk(states[n].streams[k]);
    if states[n].streams[k].hand.Some? && states[n].streams[k].hand.value.Region? {
      SetsFreshState(states[n], k, k);
    }
  }

  // The exception is real: deregistering a table takes its states out of the map, and a stream that breaks
  // before telling the worker leaves a stopped feed behind that nobody knows of.

  const EX_TOKEN := Token(1, 1)
  const EX_STREAM := Stream(Sending, [], None, None, map[EX_TOKEN := 0], {}, multiset{}, [])

  function ExState(regionCh: seq<Item>, router: Option<(nat, nat)>, streams: seq<Stream>, feeds: seq<Feed>,
                   stopped: set<nat>, cut: set<FeedId>): State {
    State({EX_TOKEN}, stopped, regionCh, router, streams, feeds, multiset{}, [Idle], [], multiset{}, cut)
  }

  /** Subscribing one region up to its feed. */
  function ExSubscribe(): (seq<State>, seq<Step>) {
    var empty := State({}, {}, [], None, [], [], multiset{}, [Idle], [], multiset{}, {});
    var t := EX_TOKEN;
    ([empty,
      empty.(streams := [NEW_STREAM]),
      ExState([Region(t)], None, [NEW_STREAM], [], {}, {}),
      ExState([], None, [NEW_STREAM.(requests := [Region(t)])], [], {}, {}),
      ExState([], None, [NEW_STREAM.(pc := Connecting, prefetch := Some(t))], [], {}, {}),
      ExState([], None, [NEW_STREAM.(pc := Sending, hand := Some(Region(t)))], [], {}, {}),
      ExState([], None, [EX_STREAM], [Feed(t, 0, Normal)], {}, {})],
     [NewStream, Lock(t), Route(0), Prefetch(0), Connect(0), SendRegion(0)])
  }

  /** Deregistering its table while the stream breaks. */
  function ExUnsubscribe(): (seq<State>, seq<Step>) {
    var feeds := [Feed(EX_TOKEN, 0, Normal)];
    var taken := EX_STREAM.(states := map[], clearing := {0});
    ([ExState([StopTask(1)], None, [EX_STREAM], feeds, {1}, {}),
      ExState([], Some((1, 0)), [EX_STREAM], feeds, {1}, {}),
      ExState([], Some((1, 1)), [EX_STREAM.(requests := [StopTask(1)])], feeds, {1}, {}),
      ExState([], Some((1, 1)), [EX_STREAM.(hand := Some(StopTask(1)))], feeds, {1}, {}),
      ExState([], Some((1, 1)), [taken], feeds, {1}, {}),
      ExState([], Some((1, 1)), [taken.(pc := Broken, clearing := {})], [Feed(EX_TOKEN, 0, Stopped)], {1}, {0})],
     [StopTable(1), RouteStop, Broadcast, Fetch(0), SendStop(0), SignalFail(0, 0)])
  }

  lemma ExSubscribes()
    ensures Run(ExSubscribe().0, ExSubscribe().1)
  {
    var (states, steps) := ExSubscribe();
    ExRoutes();
    assert LocalNext(states[3], steps[3], 0, states[4]);
    assert LocalNext(states[4], steps[4], 0, states[5]);
    assert StreamNext(states[5], steps[5], 0, states[6]);
  }

  lemma ExRoutes()
    ensures forall i | 0 <= i < 3 :: Next(ExSubscribe().0[i], ExSubscribe().1[i], ExSubscribe().0[i + 1])
  {
    var (states, steps) := ExSubscribe();
    assert ClientNext(states[0], steps[0], states[1]);
    assert ClientNext(states[1], steps[1], states[2]);
    assert ClientNext(states[2], steps[2], states[3]);
  }

  lemma ExSignals()
    ensures var (states, steps) := ExUnsubscribe();
            && LocalNext(states[2], steps[3], 0, states[3]) && LocalNext(states[3], steps[4], 0, states[4])
            && StreamNext(states[4], steps[5], 0, states[5])
  {
    assert Of(EX_STREAM.states, 1) == {0} && Without(EX_STREAM.states, 1) == map[];
  }

  lemma ExBroadcasts()
    ensures var (states, steps) := ExUnsubscribe();
            && Next(ExSubscribe().0[6], steps[0], states[0])
            && Next(states[0], steps[1], states[1]) && Next(states[1], steps[2], states[2])
  {
    var (states, steps) := ExUnsubscribe();
    assert ClientNext(ExSubscribe().0[6], steps[0], states[0]);
    assert ClientNext(states[0], steps[1], states[1]);
    assert ClientNext(states[1], steps[2], states[2]);
  }

  /** A run that ends with an orphan, stopped but not removed: whatever follows, its region stays locked. */
  lemma BrokenStreamStrandsFeed() returns (states: seq<State>, steps: seq<Step>)
    ensures Run(states, steps)
    ensures var s := states[|steps|];
            && s.feeds == [Feed(EX_TOKEN, 0, Stopped)] && EX_TOKEN in s.locks
            && Orphan(s, 0)
  {
    var (first, steps1) := ExSubscribe();
    var (second, steps2) := ExUnsubscribe();
    ExSubscribes();
    ExBroadcasts();
    ExSignals();
    ConcatChain(Moves(), first, steps1, second, steps2);
    states, steps := first + second, steps1 + steps2;
  }
}
