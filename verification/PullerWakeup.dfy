/** The multiplexing puller: event handlers cache resolved events of a table progress and schedule it,
    advancers drain the cache. The machine interleaves single atomic accesses of all goroutines. */
module PullerWakeup {
  import opened Prelude
  import opened Sums

  const CACHE_SIZE: nat := 256    // tableResolvedTsBufferSize
  const ADVANCE_CH_SIZE: nat := 128
  const BATCH: nat := 128

  /** A resolved event; what the frontier answers after forwarding it is up to the frontier. */
  type Event = nat

  /** `sent` is every resolved ts given to the consumer. */
  datatype Progress = Progress(cache: seq<Event>, scheduled: bool, resolvedTs: nat, sent: seq<nat>, removed: bool)

  const NEW_PROGRESS := Progress([], false, 0, [], false)

  /** A goroutine: about to try the `scheduled` flag, having won it, draining a cache (`i` events done),
      having a frontier value, having found it larger, having stored it, about to clear the flag, about
      to look at the cache once more. */
  datatype Thread =
    | Idle
    | Need(p: nat) | Send(p: nat)
    | Drain(p: nat, i: nat) | Have(p: nat, i: nat, ts: nat) | Larger(p: nat, i: nat, ts: nat) | Stored(p: nat, i: nat, ts: nat)
    | Done(p: nat) | Check(p: nat)

  datatype State = State(progresses: seq<Progress>, advanceCh: seq<nat>, threads: seq<Thread>)

  predicate Init(s: State) {
    s.progresses == [] && s.advanceCh == [] && forall t | 0 <= t < |s.threads| :: s.threads[t] == Idle
  }

  datatype Step = Subscribe | Unsubscribe(q: nat) | Push(t: nat, q: nat, e: Event) | Drop
                | TrySchedule(t: nat) | SendCh(t: nat)
                | Receive(t: nat) | TakeOne(t: nat, frontier: nat) | Compare(t: nat) | Store(t: nat) | Consume(t: nat)
                | Clear(t: nat) | Recheck(t: nat)

  /** How one thread and the progress it works on change. */
  predicate ThreadNext(step: Step, x: Thread, g: Progress, x': Thread, g': Progress) {
    match step
    case TrySchedule(_) =>
      && x.Need?
      && if g.scheduled then x' == Idle && g' == g else x' == Send(x.p) && g' == g.(scheduled := true)
    case TakeOne(_, frontier) =>
      && x.Drain?
      && if x.i == BATCH || g.cache == [] then x' == Done(x.p) && g' == g
         else x' == Have(x.p, x.i, frontier) && g' == g.(cache := g.cache[1..])
    case Compare(_) =>
      && x.Have? && g' == g
      && x' == if x.ts > g.resolvedTs then Larger(x.p, x.i, x.ts) else Drain(x.p, x.i + 1)
    case Store(_) => x.Larger? && x' == Stored(x.p, x.i, x.ts) && g' == g.(resolvedTs := x.ts)
    case Consume(_) =>
      && x.Stored? && x' == Drain(x.p, x.i + 1)
      && g' == if g.removed then g else g.(sent := g.sent + [x.ts])
    case Clear(_) => x.Done? && x' == Check(x.p) && g' == g.(scheduled := false)
    case Recheck(_) => x.Check? && g' == g && x' == if g.cache == [] then Idle else Need(x.p)
    case _ => false
  }

  predicate OfThread(step: Step) {
    || step.TrySchedule? || step.TakeOne? || step.Compare? || step.Store? || step.Consume? || step.Clear? || step.Recheck?
  }

  /** Steps on `advanceCh` and those that start on an idle thread or on none. */
  ghost predicate SharedNext(s: State, step: Step, s': State) {
    match step
    case Subscribe => s' == s.(progresses := s.progresses + [NEW_PROGRESS])
    case Unsubscribe(q) =>
      q < |s.progresses| && s' == s.(progresses := s.progresses[q := s.progresses[q].(removed := true)])
    case Push(t, q, e) =>
      && t < |s.threads| && s.threads[t].Idle? && q < |s.progresses| && |s.progresses[q].cache| < CACHE_SIZE
      && s' == s.(progresses := s.progresses[q := s.progresses[q].(cache := s.progresses[q].cache + [e])],
                  threads := s.threads[t := Need(q)])
    case Drop => s' == s
    case SendCh(t) =>
      && t < |s.threads| && s.threads[t].Send? && |s.advanceCh| < ADVANCE_CH_SIZE
      && s' == s.(advanceCh := s.advanceCh + [s.threads[t].p], threads := s.threads[t := Idle])
    case Receive(t) =>
      && t < |s.threads| && s.threads[t].Idle? && s.advanceCh != []
      && s' == s.(advanceCh := s.advanceCh[1..], threads := s.threads[t := Drain(s.advanceCh[0], 0)])
    case _ => false
  }

  ghost predicate OwnNext(s: State, step: Step, s': State) {
    && OfThread(step) && step.t < |s.threads| && !s.threads[step.t].Idle?
    && var p := s.threads[step.t].p;
    && p < |s.progresses| && |s'.threads| == |s.threads| && |s'.progresses| == |s.progresses|
    && ThreadNext(step, s.threads[step.t], s.progresses[p], s'.threads[step.t], s'.progresses[p])
    && s' == s.(threads := s.threads[step.t := s'.threads[step.t]], progresses := s.progresses[p := s'.progresses[p]])
  }

  ghost predicate Next(s: State, step: Step, s': State) {
    SharedNext(s, step, s') || OwnNext(s, step, s')
  }

  // ---------------------------------------------------------------------------------------------
  // The schedule token
  // ---------------------------------------------------------------------------------------------

  /** An advancer that works on the progress and has not cleared its flag yet. */
  predicate Draining(x: Thread, p: nat) {
    (x.Drain? || x.Have? || x.Larger? || x.Stored? || x.Done?) && x.p == p
  }

  predicate HasToken(x: Thread, p: nat) {
    x == Send(p) || Draining(x, p)
  }

  function InThread(p: nat): Thread -> nat {
    (x: Thread) => One(HasToken(x, p))
  }

  function InCh(p: nat): nat -> nat {
    (q: nat) => One(q == p)
  }

  ghost function Tokens(s: State, p: nat): nat {
    Sum(s.advanceCh, InCh(p)) + Sum(s.threads, InThread(p))
  }

  predicate IsScheduled(s: State, p: nat) {
    p < |s.progresses| && s.progresses[p].scheduled
  }

  /** A scheduled progress has one token, any other none. */
  ghost predicate TokensOk(s: State) {
    forall p: nat :: Tokens(s, p) == One(IsScheduled(s, p))
  }

  /** Cached events have someone in charge. */
  predicate Awake(g: Progress, p: nat, threads: seq<Thread>) {
    g.cache != [] ==> g.scheduled || Need(p) in threads || Check(p) in threads
  }

  predicate WakeOk(s: State) {
    forall p: nat | p < |s.progresses| :: Awake(s.progresses[p], p, s.threads)
  }

  predicate Increasing(s: seq<nat>) {
    forall i, j | 0 <= i < j < |s| :: s[i] < s[j]
  }

  predicate AllBelow(s: seq<nat>, ts: nat) {
    forall i | 0 <= i < |s| :: s[i] < ts
  }

  predicate ProgressOk(g: Progress) {
    |g.cache| <= CACHE_SIZE && Increasing(g.sent) && AllBelow(g.sent, g.resolvedTs + 1)
  }

  predicate ThreadOk(x: Thread, progresses: seq<Progress>) {
    x.Idle? || (
      && x.p < |progresses|
      && (x.Larger? ==> x.ts > progresses[x.p].resolvedTs)
      && (x.Stored? ==> x.ts == progresses[x.p].resolvedTs && AllBelow(progresses[x.p].sent, x.ts)))
  }

  predicate ThreadsOk(s: State) {
    && (forall t | 0 <= t < |s.threads| :: ThreadOk(s.threads[t], s.progresses))
    && (forall i | 0 <= i < |s.advanceCh| :: s.advanceCh[i] < |s.progresses|)
    && (forall p | 0 <= p < |s.progresses| :: ProgressOk(s.progresses[p]))
  }

  ghost predicate Inv(s: State) {
    TokensOk(s) && WakeOk(s) && ThreadsOk(s)
  }

  lemma TokenUpdate(threads: seq<Thread>, t: nat, x: Thread, p: nat)
    requires t < |threads|
    ensures Sum(threads[t := x], InThread(p)) + One(HasToken(threads[t], p)) == Sum(threads, InThread(p)) + One(HasToken(x, p))
  {
    SumUpdate(threads, t, x, InThread(p));
  }

  lemma SharedTokens(s: State, step: Step, s': State, p: nat)
    requires Tokens(s, p) == One(IsScheduled(s, p)) && SharedNext(s, step, s')
    ensures Tokens(s', p) == One(IsScheduled(s', p))
  {
    match step
    case Push(t, q, _) => TokenUpdate(s.threads, t, Need(q), p);
    case SendCh(t) =>
      TokenUpdate(s.threads, t, Idle, p);
      SumAppend(s.advanceCh, s.threads[t].p, InCh(p));
    case Receive(t) =>
      TokenUpdate(s.threads, t, Drain(s.advanceCh[0], 0), p);
      SumHead(s.advanceCh, InCh(p));
    case _ =>
  }

  lemma OwnTokens(s: State, step: Step, s': State, p: nat)
    requires TokensOk(s) && OwnNext(s, step, s')
    ensures Tokens(s', p) == One(IsScheduled(s', p))
  {
    var x := s.threads[step.t];
    assert Tokens(s, p) == One(IsScheduled(s, p));
    TokenUpdate(s.threads, step.t, s'.threads[step.t], p);
    SumHas(s.threads, step.t, InThread(p));
  }

  /** At most one thread holds the token of a progress. */
  lemma OneHolder(s: State, t: nat, u: nat, p: nat)
    requires TokensOk(s) && t < |s.threads| && u < |s.threads| && HasToken(s.threads[t], p) && HasToken(s.threads[u], p)
    ensures t == u
  {
    assert Tokens(s, p) == One(IsScheduled(s, p));
    if t != u {
      SumHasTwo(s.threads, t, u, InThread(p));
    }
  }

  lemma StepKeepsTokens(s: State, step: Step, s': State)
    requires TokensOk(s) && Next(s, step, s')
    ensures TokensOk(s')
  {
    forall p: nat
      ensures Tokens(s', p) == One(IsScheduled(s', p))
    {
      assert Tokens(s, p) == One(IsScheduled(s, p));
      if SharedNext(s, step, s') {
        SharedTokens(s, step, s', p);
      } else {
        OwnTokens(s, step, s', p);
      }
    }
  }

  // ---------------------------------------------------------------------------------------------
  // Nothing waits in the cache unnoticed
  // ---------------------------------------------------------------------------------------------

  lemma ThreadUpdate(threads: seq<Thread>, t: nat, x: Thread)
    requires t < |threads|
    ensures x in threads[t := x]
    ensures forall y :: y in threads && y != threads[t] ==> y in threads[t := x]
  {
    assert threads[t := x][t] == x;
    forall y | y in threads && y != threads[t]
      ensures y in threads[t := x]
    {
      var v :| 0 <= v < |threads| && threads[v] == y;
      assert threads[t := x][v] == y;
    }
  }

  lemma StepKeepsWake(s: State, step: Step, s': State)
    requires WakeOk(s) && Next(s, step, s')
    ensures WakeOk(s')
  {
    if !step.Subscribe? && !step.Unsubscribe? && !step.Drop? {
      ThreadUpdate(s.threads, step.t, s'.threads[step.t]);
    }
    forall p: nat | p < |s'.progresses|
      ensures Awake(s'.progresses[p], p, s'.threads)
    {
      assert p < |s.progresses| ==> Awake(s.progresses[p], p, s.threads);
    }
  }

  // ---------------------------------------------------------------------------------------------
  // What is sent increases
  // ---------------------------------------------------------------------------------------------

  lemma SharedThreads(s: State, step: Step, s': State)
    requires ThreadsOk(s) && SharedNext(s, step, s')
    ensures ThreadsOk(s')
  {
    forall t | 0 <= t < |s'.threads|
      ensures ThreadOk(s'.threads[t], s'.progresses)
    {
      assert ThreadOk(s.threads[t], s.progresses);
    }
  }

  lemma OwnThreads(s: State, step: Step, s': State)
    requires Inv(s) && OwnNext(s, step, s')
    ensures ThreadsOk(s')
  {
    var p := s.threads[step.t].p;
    assert ThreadOk(s.threads[step.t], s.progresses) && ProgressOk(s.progresses[p]);
    forall u | 0 <= u < |s'.threads|
      ensures ThreadOk(s'.threads[u], s'.progresses)
    {
      assert ThreadOk(s.threads[u], s.progresses);
      if HasToken(s.threads[u], p) && HasToken(s.threads[step.t], p) {
        OneHolder(s, step.t, u, p);
      }
    }
  }

  lemma StepKeepsInv(s: State, step: Step, s': State)
    requires Inv(s) && Next(s, step, s')
    ensures Inv(s')
  {
    StepKeepsTokens(s, step, s');
    StepKeepsWake(s, step, s');
    if SharedNext(s, step, s') {
      SharedThreads(s, step, s');
    } else {
      OwnThreads(s, step, s');
    }
  }

  // ---------------------------------------------------------------------------------------------
  // Whole runs
  // ---------------------------------------------------------------------------------------------

  ghost predicate Run(states: seq<State>, steps: seq<Step>) {
    && |states| == |steps| + 1 && Init(states[0])
    && forall i | 0 <= i < |steps| :: Next(states[i], steps[i], states[i + 1])
  }

  lemma InitHasInv(s: State)
    requires Init(s)
    ensures Inv(s)
  {
    forall p: nat
      ensures Tokens(s, p) == 0
    {
      SumZero(s.threads, InThread(p));
    }
  }

  lemma {:induction false} RunKeepsInv(states: seq<State>, steps: seq<Step>, n: nat)
    requires Run(states, steps) && n <= |steps|
    ensures Inv(states[n])
    decreases n
  {
    if n == 0 {
      InitHasInv(states[0]);
    } else {
      RunKeepsInv(states, steps, n - 1);
      StepKeepsInv(states[n - 1], steps[n - 1], states[n]);
    }
  }

  /** No lost wake-up: whenever events wait in a cache, the progress is in the advance channel, with an
      advancer or about to be sent, or a goroutine is about to schedule it or to look again. */
  lemma CachedEventsAreNoticed(states: seq<State>, steps: seq<Step>, n: nat, p: nat)
    requires Run(states, steps) && n <= |steps| && p < |states[n].progresses| && states[n].progresses[p].cache != []
    ensures || p in states[n].advanceCh || (exists x <- states[n].threads :: HasToken(x, p))
            || Need(p) in states[n].threads || Check(p) in states[n].threads
  {
    var s := states[n];
    RunKeepsInv(states, steps, n);
    assert Awake(s.progresses[p], p, s.threads);
    if s.progresses[p].scheduled && p !in s.advanceCh && (forall x <- s.threads :: !HasToken(x, p)) {
      assert Tokens(s, p) == One(IsScheduled(s, p));
      SumZero(s.advanceCh, InCh(p));
      SumZero(s.threads, InThread(p));
    }
  }

  /** At most one advancer works on a progress at any time. */
  lemma AdvancersExcludeEachOther(states: seq<State>, steps: seq<Step>, n: nat, p: nat, t: nat, u: nat)
    requires Run(states, steps) && n <= |steps| && t < |states[n].threads| && u < |states[n].threads|
    requires Draining(states[n].threads[t], p) && Draining(states[n].threads[u], p)
    ensures t == u && p !in states[n].advanceCh
  {
    var s := states[n];
    RunKeepsInv(states, steps, n);
    OneHolder(s, t, u, p);
    assert Tokens(s, p) == One(IsScheduled(s, p));
    SumHas(s.threads, t, InThread(p));
    if p in s.advanceCh {
      var i :| 0 <= i < |s.advanceCh| && s.advanceCh[i] == p;
      SumHas(s.advanceCh, i, InCh(p));
    }
  }

  /** The resolved timestamps the consumer gets for a progress strictly increase. */
  lemma SentResolvedTsIncreases(states: seq<State>, steps: seq<Step>, n: nat, p: nat, i: nat, j: nat)
    requires Run(states, steps) && n <= |steps| && p < |states[n].progresses|
    requires i < j < |states[n].progresses[p].sent|
    ensures states[n].progresses[p].sent[i] < states[n].progresses[p].sent[j] <= states[n].progresses[p].resolvedTs
  {
    RunKeepsInv(states, steps, n);
    assert ProgressOk(states[n].progresses[p]);
  }

  // ---------------------------------------------------------------------------------------------
  // What is stored is sent
  // ---------------------------------------------------------------------------------------------

  /** The stored resolved ts was sent, or the advancer that stored it is about to send it, unless there is
      none yet or the progress was removed. */
  predicate Accounted(g: Progress, p: nat, threads: seq<Thread>) {
    g.resolvedTs == 0 || g.resolvedTs in g.sent || g.removed || exists x <- threads :: x.Stored? && x.p == p
  }

  predicate AllAccounted(s: State) {
    forall p: nat | p < |s.progresses| :: Accounted(s.progresses[p], p, s.threads)
  }

  lemma StepKeepsAccounted(s: State, step: Step, s': State)
    requires Inv(s) && AllAccounted(s) && Next(s, step, s')
    ensures AllAccounted(s')
  {
    if !step.Subscribe? && !step.Unsubscribe? && !step.Drop? {
      ThreadUpdate(s.threads, step.t, s'.threads[step.t]);
      assert ThreadOk(s.threads[step.t], s.progresses);
    }
    forall p: nat | p < |s'.progresses|
      ensures Accounted(s'.progresses[p], p, s'.threads)
    {
      assert p < |s.progresses| ==> Accounted(s.progresses[p], p, s.threads);
    }
  }

  lemma {:induction false} RunKeepsAccounted(states: seq<State>, steps: seq<Step>, n: nat)
    requires Run(states, steps) && n <= |steps|
    ensures AllAccounted(states[n])
    decreases n
  {
    if n > 0 {
      RunKeepsAccounted(states, steps, n - 1);
      RunKeepsInv(states, steps, n - 1);
      StepKeepsAccounted(states[n - 1], steps[n - 1], states[n]);
    }
  }

  /** A stored resolved ts of a subscribed table reaches the consumer: whenever no advancer is between
      storing and sending, it is the last one sent. */
  lemma StoredIsSent(states: seq<State>, steps: seq<Step>, n: nat, p: nat)
    requires Run(states, steps) && n <= |steps| && p < |states[n].progresses|
    requires !states[n].progresses[p].removed && states[n].progresses[p].resolvedTs > 0
    requires forall x <- states[n].threads :: !(x.Stored? && x.p == p)
    ensures var g := states[n].progresses[p]; g.sent != [] && g.sent[|g.sent| - 1] == g.resolvedTs
  {
    RunKeepsAccounted(states, steps, n);
    RunKeepsInv(states, steps, n);
    assert Accounted(states[n].progresses[p], p, states[n].threads) && ProgressOk(states[n].progresses[p]);
  }

  /** An advancer is through with a frontier value only when the stored resolved ts is at least that value. */
  lemma FrontierIsStored(states: seq<State>, steps: seq<Step>, n: nat, t: nat)
    requires Run(states, steps) && n < |steps| && t < |states[n].threads| == |states[n + 1].threads|
    requires var x := states[n].threads[t]; x.Have? || x.Larger? || x.Stored?
    requires states[n + 1].threads[t].Drain?
    ensures states[n].threads[t].p < |states[n + 1].progresses|
    ensures states[n].threads[t].ts <= states[n + 1].progresses[states[n].threads[t].p].resolvedTs
  {
    RunKeepsInv(states, steps, n);
    assert ThreadOk(states[n].threads[t], states[n].progresses);
    assert Next(states[n], steps[n], states[n + 1]);
  }

  /** A step changes a cache only by appending a pushed event, whose thread then schedules the progress, or by
      handing its first event to an advancer, who then has a value of the frontier. */
  lemma EventsAreTakenInTurn(states: seq<State>, steps: seq<Step>, n: nat, p: nat)
    requires Run(states, steps) && n < |steps| && p < |states[n].progresses|
    ensures p < |states[n + 1].progresses|
    ensures var a, b, step := states[n].progresses[p].cache, states[n + 1].progresses[p].cache, steps[n];
            || b == a
            || (step.Push? && step.q == p && b == a + [step.e] && step.t < |states[n + 1].threads|
                && states[n + 1].threads[step.t] == Need(p))
            || (step.TakeOne? && a != [] && b == a[1..] && step.t < |states[n + 1].threads|
                && states[n + 1].threads[step.t].Have? && states[n + 1].threads[step.t].p == p)
  {
    assert Next(states[n], steps[n], states[n + 1]);
  }

  /** An advancer stops only when the cache is empty or its batch is done, and looks again afterwards. */
  lemma AdvancerDrainsBatch(states: seq<State>, steps: seq<Step>, n: nat, t: nat, p: nat, i: nat)
    requires Run(states, steps) && n < |steps| && t < |states[n].threads| == |states[n + 1].threads|
    requires states[n].threads[t] == Drain(p, i) && states[n + 1].threads[t].Done?
    ensures p < |states[n].progresses| && (i == BATCH || states[n].progresses[p].cache == [])
  {
    RunKeepsInv(states, steps, n);
    assert ThreadOk(states[n].threads[t], states[n].progresses);
    assert Next(states[n], steps[n], states[n + 1]);
  }
}
