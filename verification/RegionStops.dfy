/** Deregistering a table in the shared kv client: the stop task reaches every stream, a stream that has
    handled it never serves the table again, and the table gets no new feed. */
module RegionStops {
  import opened Prelude
  import opened RegionTokens

  predicate ItemKnown(i: Item, stopped: set<nat>) {
    i.StopTask? ==> i.sub in stopped
  }

  predicate AllKnown(items: seq<Item>, stopped: set<nat>) {
    forall i | 0 <= i < |items| :: ItemKnown(items[i], stopped)
  }

  /** Stop tasks travel only for tables that were deregistered. */
  predicate StreamKnown(st: Stream, stopped: set<nat>) {
    AllKnown(st.requests, stopped) && AllKnown(st.pending, stopped) && (st.hand.Some? ==> ItemKnown(st.hand.value, stopped))
  }

  predicate StopsKnown(s: State) {
    && AllKnown(s.regionCh, s.stopped) && (s.router.Some? ==> s.router.value.0 in s.stopped)
    && forall k | 0 <= k < |s.streams| :: StreamKnown(s.streams[k], s.stopped)
  }

  /** The stream serves the table. */
  predicate Serves(st: Stream, sub: nat) {
    exists t <- st.states :: t.sub == sub
  }

  lemma LocalKeepsKnown(st: Stream, step: Step, st': Stream, stopped: set<nat>)
    requires StreamKnown(st, stopped) && StreamLocal(st, step, st')
    ensures StreamKnown(st', stopped)
    ensures forall sub :: Serves(st', sub) ==> Serves(st, sub)
  {
  }

  /** What a step does to the deregistered tables, the feeds and the tables a stream serves. */
  ghost predicate StopEffect(s: State, s': State) {
    && s.stopped <= s'.stopped && |s.feeds| <= |s'.feeds| && |s.streams| <= |s'.streams|
    && (forall f | 0 <= f < |s.feeds| :: s'.feeds[f].tok == s.feeds[f].tok)
    && (forall f | |s.feeds| <= f < |s'.feeds| :: s'.feeds[f].tok.sub !in s.stopped)
    && (forall k, sub | 0 <= k < |s.streams| && sub in s.stopped :: Serves(s'.streams[k], sub) ==> Serves(s.streams[k], sub))
  }

  lemma ClientStops(s: State, step: Step, s': State)
    requires StopsKnown(s) && ClientNext(s, step, s')
    ensures StopsKnown(s') && StopEffect(s, s')
  {
    forall k | 0 <= k < |s'.streams|
      ensures StreamKnown(s'.streams[k], s'.stopped)
    {
      assert k < |s.streams| ==> StreamKnown(s.streams[k], s.stopped);
    }
  }

  lemma LocalStops(s: State, step: Step, k: nat, s': State)
    requires StopsKnown(s) && k < |s.streams| && LocalNext(s, step, k, s')
    ensures StopsKnown(s') && StopEffect(s, s')
  {
    LocalKeepsKnown(s.streams[k], step, s'.streams[k], s.stopped);
  }

  lemma StreamStops(s: State, step: Step, k: nat, s': State)
    requires StopsKnown(s) && k < |s.streams| && StreamNext(s, step, k, s')
    ensures StopsKnown(s') && StopEffect(s, s')
  {
    assert StreamKnown(s.streams[k], s.stopped);
  }

  lemma WorkerStops(s: State, step: Step, s': State)
    requires StopsKnown(s) && WorkerNext(s, step, s')
    ensures StopsKnown(s') && StopEffect(s, s')
  {
    forall k | 0 <= k < |s'.streams|
      ensures StreamKnown(s'.streams[k], s'.stopped)
    {
      assert StreamKnown(s.streams[k], s.stopped);
    }
  }

  lemma StepStops(s: State, step: Step, s': State)
    requires StopsKnown(s) && Next(s, step, s')
    ensures StopsKnown(s') && StopEffect(s, s')
  {
    if ClientNext(s, step, s') {
      ClientStops(s, step, s');
    } else if WorkerNext(s, step, s') {
      WorkerStops(s, step, s');
    } else if StreamNext(s, step, step.k, s') {
      StreamStops(s, step, step.k, s');
    } else {
      LocalStops(s, step, step.k, s');
    }
  }

  lemma {:induction false} RunStops(states: seq<State>, steps: seq<Step>, n: nat)
    requires Run(states, steps) && n <= |steps|
    ensures StopsKnown(states[n])
    decreases n
  {
    if n > 0 {
      RunStops(states, steps, n - 1);
      StepOf(states, steps, n - 1);
      StepStops(states[n - 1], steps[n - 1], states[n]);
    }
  }

  /** From its deregistration on a table gets no new feed. */
  lemma {:induction false} StoppedTableGetsNoFeed(states: seq<State>, steps: seq<Step>, m: nat, n: nat, sub: nat, f: FeedId)
    requires Run(states, steps) && m <= n <= |steps| && sub in states[m].stopped
    requires f < |states[n].feeds| && states[n].feeds[f].tok.sub == sub
    ensures f < |states[m].feeds| && sub in states[n].stopped
    decreases n
  {
    if m < n {
      RunStops(states, steps, n - 1);
      StepOf(states, steps, n - 1);
      StepStops(states[n - 1], steps[n - 1], states[n]);
      StoppedStays(states, steps, m, n - 1, sub);
      StoppedTableGetsNoFeed(states, steps, m, n - 1, sub, f);
    }
  }

  lemma {:induction false} StoppedStays(states: seq<State>, steps: seq<Step>, m: nat, n: nat, sub: nat)
    requires Run(states, steps) && m <= n <= |steps| && sub in states[m].stopped
    ensures sub in states[n].stopped && |states[m].streams| <= |states[n].streams|
    decreases n
  {
    if m < n {
      StoppedStays(states, steps, m, n - 1, sub);
      RunStops(states, steps, n - 1);
      StepOf(states, steps, n - 1);
      StepStops(states[n - 1], steps[n - 1], states[n]);
    }
  }

  /** The stop task takes every state of the table out of the stream and puts its feed among those whose
      workers are told; other tables' states stay. */
  lemma StopTaskClears(states: seq<State>, steps: seq<Step>, n: nat, k: nat, t: Token)
    requires Run(states, steps) && n < |steps| && steps[n] == SendStop(k)
    ensures k < |states[n].streams| == |states[n + 1].streams|
    ensures states[n].streams[k].hand.Some? && states[n].streams[k].hand.value.StopTask?
    ensures var st, st' := states[n].streams[k], states[n + 1].streams[k];
            if t.sub == st.hand.value.sub
            then t !in st'.states && (t in st.states ==> st.states[t] in st'.clearing)
            else (t in st'.states <==> t in st.states) && (t in st.states ==> st'.states[t] == st.states[t])
  {
    StepOf(states, steps, n);
  }

  /** A stream that has handled the stop task never serves the table again. */
  lemma {:induction false} StreamNeverServesAgain(states: seq<State>, steps: seq<Step>, m: nat, n: nat, k: nat, sub: nat)
    requires Run(states, steps) && m < n <= |steps| && steps[m] == SendStop(k)
    requires k < |states[m].streams| && states[m].streams[k].hand == Some(StopTask(sub))
    ensures k < |states[n].streams| && !Serves(states[n].streams[k], sub) && sub in states[n].stopped
    decreases n
  {
    RunStops(states, steps, n - 1);
    StepOf(states, steps, n - 1);
    StepStops(states[n - 1], steps[n - 1], states[n]);
    if m + 1 < n {
      StreamNeverServesAgain(states, steps, m, n - 1, k, sub);
    } else {
      assert StreamKnown(states[m].streams[k], states[m].stopped);
    }
  }

  /** A worker that gets a failing event, or any event of a feed that is not running, stops the feed and goes
      on to remove it; an ordinary event of a running feed changes no feed. */
  lemma FailureEndsFeed(states: seq<State>, steps: seq<Step>, n: nat, w: nat, f: FeedId, failed: bool)
    requires Run(states, steps) && n < |steps| && steps[n] == Take(w, f, failed)
    ensures f < |states[n].feeds| == |states[n + 1].feeds| && w < |states[n].workers| == |states[n + 1].workers|
    ensures if failed || states[n].feeds[f].status != Normal
            then states[n + 1].feeds[f].status != Normal && states[n + 1].workers[w] == Handling(f)
            else states[n + 1].feeds == states[n].feeds && states[n + 1].workers == states[n].workers
  {
    StepOf(states, steps, n);
  }

  // ---------------------------------------------------------------------------------------------
  // The broadcast
  // ---------------------------------------------------------------------------------------------

  /** Between steps `m` and `n` the stop task was appended to the requests of stream `k`. */
  ghost predicate Reached(states: seq<State>, m: nat, n: nat, k: nat, sub: nat)
    requires n < |states|
  {
    exists j | m <= j < n :: k < |states[j].streams| && k < |states[j + 1].streams| &&
      states[j + 1].streams[k].requests == states[j].streams[k].requests + [StopTask(sub)]
  }

  ghost predicate ReachedBelow(states: seq<State>, m: nat, n: nat, c: nat, sub: nat)
    requires n < |states|
  {
    forall k | 0 <= k < c :: Reached(states, m, n, k, sub)
  }

  lemma {:induction false} BroadcastReaches(states: seq<State>, steps: seq<Step>, m: nat, n: nat, sub: nat)
    requires Run(states, steps) && m < n <= |steps| && steps[m].RouteStop?
    requires states[m].regionCh != [] && states[m].regionCh[0] == StopTask(sub)
    requires forall i | m < i <= n :: states[i].router.Some?
    ensures states[n].router.value.0 == sub
    ensures ReachedBelow(states, m, n, states[n].router.value.1, sub)
    decreases n
  {
    StepOf(states, steps, n - 1);
    if m + 1 < n {
      BroadcastReaches(states, steps, m, n - 1, sub);
      BroadcastOnce(states, steps, m, n - 1, sub);
    }
  }

  lemma BroadcastOnce(states: seq<State>, steps: seq<Step>, m: nat, n: nat, sub: nat)
    requires Run(states, steps) && m < n < |steps| && states[n].router.Some? && states[n].router.value.0 == sub
    requires ReachedBelow(states, m, n, states[n].router.value.1, sub)
    ensures states[n + 1].router.Some? ==>
              states[n + 1].router.value.0 == sub && ReachedBelow(states, m, n + 1, states[n + 1].router.value.1, sub)
    ensures states[n + 1].router.None? ==> states[n].router.value.1 >= |states[n].streams|
  {
    StepOf(states, steps, n);
    if states[n + 1].router.Some? {
      var n', c := n + 1, states[n + 1].router.value.1;
      forall k | 0 <= k < c
        ensures Reached(states, m, n', k, sub)
      {
        if k < states[n].router.value.1 {
          assert Reached(states, m, n, k, sub);
        } else {
          assert states[n + 1].streams[k].requests == states[n].streams[k].requests + [StopTask(sub)];
        }
      }
    }
  }

  /** When the router is through with a stop task, every stream there is has got it. */
  lemma StopReachesEveryStream(states: seq<State>, steps: seq<Step>, m: nat, n: nat, sub: nat, k: nat)
    requires Run(states, steps) && m + 1 < n <= |steps| && steps[m].RouteStop?
    requires states[m].regionCh != [] && states[m].regionCh[0] == StopTask(sub)
    requires (forall i | m < i < n :: states[i].router.Some?) && states[n].router.None?
    requires k < |states[n].streams|
    ensures Reached(states, m, n, k, sub)
  {
    BroadcastReaches(states, steps, m, n - 1, sub);
    BroadcastOnce(states, steps, m, n - 1, sub);
    StepOf(states, steps, n - 1);
    assert k < |states[n - 1].streams|;
    assert Reached(states, m, n - 1, k, sub);
  }
}
