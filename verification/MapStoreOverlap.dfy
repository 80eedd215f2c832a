/** Several store objects over one document: when exactly no update is lost. A
    schedule is right whatever its update functions make of other documents if
    and only if each mutate takes effect on a document that is still what it
    loaded. */
module MapStoreOverlap {
  import opened Wrappers
  import opened MapStore
  import opened MapStoreSchedules

  // ----- one effect ------------------------------------------------------

  /** What taking effect does agrees with the sequential meaning of the call. */
  ghost predicate EffectRight<V>(s: System<V>, a: Action<V>)
    requires TakesEffect(s, a)
  {
    var fn, snapshot := s.threads[a.thread].fn, s.threads[a.thread].snapshot;
    match a
    case Apply(_) => Mutated(s.doc, fn, Works) == s.doc
    case Save(_, fails) =>
        if fails then !MutateOk(s.doc, fn, SetFails) else Mutated(s.doc, fn, Works) == fn(snapshot).doc
  }

  function EffectOf<V>(s: System<V>, a: Action<V>): Effect<V>
    requires TakesEffect(s, a)
  {
    var p := s.threads[a.thread];
    var io := if a.Save? && a.fails then SetFails else Works;
    Effect(p.n, a.thread, Mutate(p.fn), io, if a.Save? && a.fails then Failed else Done)
  }

  lemma {:induction false} EffectSteps<V>(s: System<V>, a: Action<V>, objects: Objects)
    requires TakesEffect(s, a) && Enabled(s, a, objects)
    ensures var e, s' := EffectOf(s, a), Step(s, a, objects);
            && s' == Settle(s, a.thread, e.n, e.call, e.io, e.answer).(doc := s'.doc)
            && (EffectRight(s, a) <==>
                s'.doc == After(s.doc, e.call, e.io) && e.answer == AnswerOf(s.doc, e.call, e.io))
  {
  }

  /** After the step the run is explained exactly when the effect was right. */
  lemma {:induction false} EffectExplained<V>(doc0: map<string, V>, s: System<V>, a: Action<V>, objects: Objects)
    requires Explained(doc0, s) && TakesEffect(s, a) && Enabled(s, a, objects)
    ensures Explained(doc0, Step(s, a, objects)) <==> EffectRight(s, a)
  {
    var e, s' := EffectOf(s, a), Step(s, a, objects);
    EffectSteps(s, a, objects);
    ReplayOne(doc0, s.log, e);
    if EffectRight(s, a) {
      SettleExplained(doc0, s, a.thread, e.call, e.io);
    }
    if Explained(doc0, s') {
      LastAnswer(doc0, s.log, e);
    }
  }

  lemma {:induction false} LastAnswer<V>(doc0: map<string, V>, log: seq<Effect<V>>, e: Effect<V>)
    requires AnswersMatch(doc0, log + [e])
    ensures AnswersRight(Replay(doc0, log), e)
  {
    var all := log + [e];
    assert all[..|log|] == log;
    assert AnswersRight(Replay(doc0, all[..|log|]), all[|log|]);
  }

  // ----- another update function -----------------------------------------

  /** The same call with another update function. */
  function Redo<V>(call: Call<V>, g: Update<V>): Call<V> { if call.Mutate? then Mutate(g) else call }

  function SwapPhase<V>(p: Phase<V>, n: nat, g: Update<V>): Phase<V> {
    if p.n != n then p
    else
      match p
      case Waiting(_, call) => Waiting(n, Redo(call, g))
      case Holding(_, call) => Holding(n, Redo(call, g))
      case Loaded(_, _, snapshot) => Loaded(n, g, snapshot)
      case Applied(_, _, snapshot) => Applied(n, g, snapshot)
      case Settled(_, _, _, _) => p
  }

  function SwapStarted<V>(c: Started<V>, i: nat, n: nat, g: Update<V>): Started<V> {
    if i == n then c.(call := Redo(c.call, g)) else c
  }

  function SwapEffect<V>(e: Effect<V>, n: nat, g: Update<V>): Effect<V> {
    if e.n == n then e.(call := Redo(e.call, g)) else e
  }

  function SwapThreads<V>(threads: map<nat, Phase<V>>, n: nat, g: Update<V>): map<nat, Phase<V>> {
    map t | t in threads :: SwapPhase(threads[t], n, g)
  }

  function SwapLog<V>(log: seq<Effect<V>>, n: nat, g: Update<V>): seq<Effect<V>> {
    seq(|log|, i requires 0 <= i < |log| => SwapEffect(log[i], n, g))
  }

  function SwapAll<V>(started: seq<Started<V>>, n: nat, g: Update<V>): seq<Started<V>> {
    seq(|started|, i requires 0 <= i < |started| => SwapStarted(started[i], i, n, g))
  }

  /** The system had the n-th call been started with g. */
  function Swap<V>(s: System<V>, n: nat, g: Update<V>): System<V> {
    s.(threads := SwapThreads(s.threads, n, g), started := SwapAll(s.started, n, g), log := SwapLog(s.log, n, g))
  }

  /** The k-th call is started by the next start. */
  function SwapAction<V>(a: Action<V>, k: nat, n: nat, g: Update<V>): Action<V> {
    if a.Start? && k == n then Start(a.thread, Redo(a.call, g)) else a
  }

  function SwapSchedule<V>(schedule: seq<Action<V>>, k: nat, n: nat, g: Update<V>): seq<Action<V>> {
    if schedule == [] then []
    else [SwapAction(schedule[0], k, n, g)]
         + SwapSchedule(schedule[1..], if schedule[0].Start? then k + 1 else k, n, g)
  }

  predicate HasSnapshot<V>(p: Phase<V>, n: nat) { (p.Loaded? || p.Applied?) && p.n == n }

  /** On what the n-th call loaded, g does what its own function does. */
  ghost predicate Agrees<V>(s: System<V>, n: nat, g: Update<V>) {
    forall t :: t in s.threads && HasSnapshot(s.threads[t], n) ==>
      g(s.threads[t].snapshot) == s.threads[t].fn(s.threads[t].snapshot)
  }

  ghost predicate AgreesAlong<V>(s: System<V>, schedule: seq<Action<V>>, objects: Objects, n: nat, g: Update<V>)
    requires Runs(s, schedule, objects)
    decreases |schedule|
  {
    Agrees(s, n, g) && (schedule == [] || AgreesAlong(Step(s, schedule[0], objects), schedule[1..], objects, n, g))
  }

  // ----- the run does not notice -----------------------------------------

  lemma {:induction false} SwapOne<V>(threads: map<nat, Phase<V>>, t: nat, p: Phase<V>, n: nat, g: Update<V>)
    ensures SwapThreads(threads[t := p], n, g) == SwapThreads(threads, n, g)[t := SwapPhase(p, n, g)]
    ensures SwapThreads(threads - {t}, n, g) == SwapThreads(threads, n, g) - {t}
  {
  }

  lemma {:induction false} SwapSettle<V>(
      s: System<V>, t: nat, k: nat, call: Call<V>, io: Io, answer: Answer<V>, n: nat, g: Update<V>)
    ensures Settle(Swap(s, n, g), t, k, if k == n then Redo(call, g) else call, io, answer)
         == Swap(Settle(s, t, k, call, io, answer), n, g)
  {
    var e := Effect(k, t, call, io, answer);
    SwapOne(s.threads, t, Settled(k, !call.Peek?, answer, |s.log|), n, g);
    assert SwapLog(s.log + [e], n, g) == SwapLog(s.log, n, g) + [SwapEffect(e, n, g)];
  }

  ghost predicate SwapsStep<V>(s: System<V>, a: Action<V>, objects: Objects, n: nat, g: Update<V>)
    requires Enabled(s, a, objects)
  {
    var a' := SwapAction(a, |s.started|, n, g);
    && Enabled(Swap(s, n, g), a', objects)
    && Step(Swap(s, n, g), a', objects) == Swap(Step(s, a, objects), n, g)
  }

  lemma {:induction false} SwapStart<V>(s: System<V>, a: Action<V>, objects: Objects, n: nat, g: Update<V>)
    requires a.Start? && Enabled(s, a, objects)
    ensures SwapsStep(s, a, objects, n, g)
  {
    var c := Started(a.thread, a.call, |s.log|);
    SwapOne(s.threads, a.thread, Waiting(|s.started|, a.call), n, g);
    assert SwapAll(s.started + [c], n, g) == SwapAll(s.started, n, g) + [SwapStarted(c, |s.started|, n, g)];
  }

  lemma {:induction false} SwapLoad<V>(s: System<V>, a: Action<V>, objects: Objects, n: nat, g: Update<V>)
    requires a.Load? && Enabled(s, a, objects)
    ensures SwapsStep(s, a, objects, n, g)
  {
    var t := a.thread;
    var k, call := s.threads[t].n, s.threads[t].call;
    if a.fails {
      SwapSettle(s, t, k, call, GetFails, Failed, n, g);
    } else if call.Mutate? {
      SwapOne(s.threads, t, Loaded(k, call.fn, s.doc), n, g);
    } else {
      SwapSettle(s, t, k, call, Works, AnswerOf(s.doc, call, Works), n, g);
    }
  }

  lemma {:induction false} SwapApply<V>(s: System<V>, a: Action<V>, objects: Objects, n: nat, g: Update<V>)
    requires a.Apply? && Enabled(s, a, objects) && Agrees(s, n, g)
    ensures SwapsStep(s, a, objects, n, g)
  {
    var t := a.thread;
    var p := s.threads[t];
    assert p.n == n ==> g(p.snapshot) == p.fn(p.snapshot);
    if p.fn(p.snapshot).changed {
      SwapOne(s.threads, t, Applied(p.n, p.fn, p.snapshot), n, g);
    } else {
      SwapSettle(s, t, p.n, Mutate(p.fn), Works, Done, n, g);
    }
  }

  lemma {:induction false} SwapSave<V>(s: System<V>, a: Action<V>, objects: Objects, n: nat, g: Update<V>)
    requires a.Save? && Enabled(s, a, objects) && Agrees(s, n, g)
    ensures SwapsStep(s, a, objects, n, g)
  {
    var t := a.thread;
    var p := s.threads[t];
    assert p.n == n ==> g(p.snapshot) == p.fn(p.snapshot);
    if a.fails {
      SwapSettle(s, t, p.n, Mutate(p.fn), SetFails, Failed, n, g);
    } else {
      SwapSettle(s, t, p.n, Mutate(p.fn), Works, Done, n, g);
    }
  }

  lemma {:induction false} SwapMutex<V>(s: System<V>, a: Action<V>, objects: Objects, n: nat, g: Update<V>)
    requires (a.Lock? || a.Unlock?) && Enabled(s, a, objects)
    ensures SwapsStep(s, a, objects, n, g)
  {
    if a.Lock? {
      SwapOne(s.threads, a.thread, Holding(s.threads[a.thread].n, s.threads[a.thread].call), n, g);
    } else {
      SwapOne(s.threads, a.thread, s.threads[a.thread], n, g);
    }
  }

  /** A step with the other function does the same. */
  lemma {:induction false} SwapStep<V>(s: System<V>, a: Action<V>, objects: Objects, n: nat, g: Update<V>)
    requires Enabled(s, a, objects) && Agrees(s, n, g)
    ensures SwapsStep(s, a, objects, n, g)
    ensures |Step(s, a, objects).started| == if a.Start? then |s.started| + 1 else |s.started|
  {
    match a {
      case Start(_, _) => SwapStart(s, a, objects, n, g);
      case Load(_, _) => SwapLoad(s, a, objects, n, g);
      case Apply(_) => SwapApply(s, a, objects, n, g);
      case Save(_, _) => SwapSave(s, a, objects, n, g);
      case _ => SwapMutex(s, a, objects, n, g);
    }
  }

  /** It takes effect, and is disturbed, alike. */
  lemma {:induction false} SwapUndisturbed<V>(s: System<V>, a: Action<V>, n: nat, g: Update<V>)
    requires Agrees(s, n, g)
    ensures Undisturbed(Swap(s, n, g), SwapAction(a, |s.started|, n, g)) <==> Undisturbed(s, a)
  {
    if a.thread in s.threads {
      var p := s.threads[a.thread];
      assert HasSnapshot(p, n) ==> g(p.snapshot) == p.fn(p.snapshot);
    }
  }

  lemma {:induction false} SwapRun<V>(s: System<V>, schedule: seq<Action<V>>, objects: Objects, n: nat, g: Update<V>)
    requires Runs(s, schedule, objects) && AgreesAlong(s, schedule, objects, n, g)
    ensures Runs(Swap(s, n, g), SwapSchedule(schedule, |s.started|, n, g), objects)
    ensures NeverDisturbed(Swap(s, n, g), SwapSchedule(schedule, |s.started|, n, g), objects)
            <==> NeverDisturbed(s, schedule, objects)
    decreases |schedule|
  {
    if schedule != [] {
      SwapStep(s, schedule[0], objects, n, g);
      SwapUndisturbed(s, schedule[0], n, g);
      SwapRun(Step(s, schedule[0], objects), schedule[1..], objects, n, g);
      var swapped := SwapSchedule(schedule, |s.started|, n, g);
      assert swapped[1..] == SwapSchedule(schedule[1..], |Step(s, schedule[0], objects).started|, n, g);
    }
  }

  // ----- explained all along ---------------------------------------------

  /** The schedule runs, and is explained at every moment. */
  ghost predicate ExplainedAlong<V>(doc0: map<string, V>, s: System<V>, schedule: seq<Action<V>>, objects: Objects)
    decreases |schedule|
  {
    && Explained(doc0, s)
    && (schedule == []
        || (Enabled(s, schedule[0], objects)
            && ExplainedAlong(doc0, Step(s, schedule[0], objects), schedule[1..], objects)))
  }

  lemma {:induction false} UndisturbedAlong<V>(
      doc0: map<string, V>, s: System<V>, schedule: seq<Action<V>>, objects: Objects)
    requires Explained(doc0, s) && Runs(s, schedule, objects) && NeverDisturbed(s, schedule, objects)
    ensures ExplainedAlong(doc0, s, schedule, objects)
    decreases |schedule|
  {
    if schedule != [] {
      StepExplained(doc0, s, schedule[0], objects);
      UndisturbedAlong(doc0, Step(s, schedule[0], objects), schedule[1..], objects);
    }
  }

  // ----- a disturbance shows ---------------------------------------------

  /** Something else than fn to make of the stored document, so that what takes
      effect is wrong. */
  ghost function Trap<V>(a: Action<V>, doc: map<string, V>, snapshot: map<string, V>, fn: Update<V>): Change<V> {
    if a.Apply? || (a.Save? && !a.fails && fn(snapshot).doc == doc) then Change(snapshot, true) else Change(doc, false)
  }

  /** A mutate that takes effect on a document other than the loaded one is wrong
      for some function that does the same on the loaded one. */
  lemma {:induction false} StaleIsWrong<V>(doc0: map<string, V>, s: System<V>, a: Action<V>, objects: Objects)
      returns (n: nat, g: Update<V>)
    requires Explained(doc0, s) && Enabled(s, a, objects) && !Undisturbed(s, a)
    ensures n == s.threads[a.thread].n && Agrees(s, n, g) && !Effective(s.log, n)
    ensures !Explained(doc0, Swap(Step(s, a, objects), n, g)) && Step(s, a, objects).log != s.log
  {
    var p := s.threads[a.thread];
    n := p.n;
    g := Trapped(p.fn, s.doc, Trap(a, s.doc, p.snapshot, p.fn));
    assert PhaseFits(s.started, s.log, a.thread, p);
    TrappedAgrees(s, a.thread, g);
    SwapExplained(doc0, s, n, g);
    SwapTakesEffect(s, a, n, g);
    TrapIsWrong(Swap(s, n, g), a, p.fn);
    SwapStep(s, a, objects, n, g);
    EffectExplained(doc0, Swap(s, n, g), a, objects);
  }

  /** fn, but for one document. */
  ghost function Trapped<V>(fn: Update<V>, doc: map<string, V>, trap: Change<V>): Update<V> {
    (m: map<string, V>) => if m == doc then trap else fn(m)
  }

  lemma {:induction false} TrappedAgrees<V>(s: System<V>, t: nat, g: Update<V>)
    requires Accounted(s) && t in s.threads && HasSnapshot(s.threads[t], s.threads[t].n)
    requires g(s.threads[t].snapshot) == s.threads[t].fn(s.threads[t].snapshot)
    ensures Agrees(s, s.threads[t].n, g)
  {
    OnlyThread(s, t);
  }

  lemma {:induction false} TrapIsWrong<V>(s: System<V>, a: Action<V>, fn: Update<V>)
    requires TakesEffect(s, a) && s.threads[a.thread].snapshot != s.doc
    requires var p := s.threads[a.thread];
             p.fn(s.doc) == Trap(a, s.doc, p.snapshot, fn) && p.fn(p.snapshot) == fn(p.snapshot)
    ensures !EffectRight(s, a)
  {
  }

  /** One thread works on a call. */
  lemma {:induction false} OnlyThread<V>(s: System<V>, t: nat)
    requires Accounted(s) && t in s.threads
    ensures forall u :: u in s.threads && s.threads[u].n == s.threads[t].n ==> u == t
  {
    assert PhaseFits(s.started, s.log, t, s.threads[t]);
    forall u | u in s.threads && s.threads[u].n == s.threads[t].n ensures u == t {
      assert PhaseFits(s.started, s.log, u, s.threads[u]);
    }
  }

  lemma {:induction false} SwapTakesEffect<V>(s: System<V>, a: Action<V>, n: nat, g: Update<V>)
    requires TakesEffect(s, a) && s.threads[a.thread].n == n && Agrees(s, n, g)
    ensures TakesEffect(Swap(s, n, g), a)
  {
    assert HasSnapshot(s.threads[a.thread], n);
  }

  /** Before the n-th call takes effect, the run with the other function is
      explained as well. */
  lemma {:induction false} SwapExplained<V>(doc0: map<string, V>, s: System<V>, n: nat, g: Update<V>)
    requires Explained(doc0, s) && !Effective(s.log, n) && Agrees(s, n, g)
    ensures Explained(doc0, Swap(s, n, g))
  {
    var s' := Swap(s, n, g);
    assert s'.log == s.log;
    SwapAccounted(s, n, g);
    forall t | t in s'.threads && s'.threads[t].Applied? ensures s'.threads[t].fn(s'.threads[t].snapshot).changed {
      assert HasSnapshot(s.threads[t], s.threads[t].n);
    }
  }

  lemma {:induction false} SwapAccounted<V>(s: System<V>, n: nat, g: Update<V>)
    requires Accounted(s) && !Effective(s.log, n)
    ensures Accounted(Swap(s, n, g))
  {
    var s' := Swap(s, n, g);
    assert s'.log == s.log;
    forall i | 0 <= i < |s.log| ensures EffectFits(s'.started, s.log[i], i) {
      assert EffectFits(s.started, s.log[i], i);
    }
    forall t | t in s.threads ensures PhaseFits(s'.started, s'.log, t, s'.threads[t]) {
      assert PhaseFits(s.started, s.log, t, s.threads[t]);
    }
    SwapKeepsRest(s, n, g);
  }

  lemma {:induction false} SwapKeepsRest<V>(s: System<V>, n: nat, g: Update<V>)
    requires Accounted(s) && !Effective(s.log, n)
    ensures var s' := Swap(s, n, g);
            && ReturnsFit(s'.log, s'.threads, s'.returned) && NoneLost(s'.started, s'.threads, s'.returned)
            && SinceFits(s')
  {
    var s' := Swap(s, n, g);
    assert s'.log == s.log;
    forall k | 0 <= k < |s'.started|
      ensures Delivered(s'.returned, k)
                || (s'.started[k].thread in s'.threads && s'.threads[s'.started[k].thread].n == k)
    {
      assert s'.started[k].thread == s.started[k].thread;
    }
  }

  /** Once it has taken effect, the function of a call is never asked again. */
  lemma {:induction false} DoneAgrees<V>(s: System<V>, schedule: seq<Action<V>>, objects: Objects, n: nat, g: Update<V>)
    requires Accounted(s) && Effective(s.log, n) && Runs(s, schedule, objects)
    ensures AgreesAlong(s, schedule, objects, n, g)
    decreases |schedule|
  {
    forall t | t in s.threads ensures !HasSnapshot(s.threads[t], n) {
      assert PhaseFits(s.started, s.log, t, s.threads[t]);
    }
    if schedule != [] {
      var s' := Step(s, schedule[0], objects);
      StepAccounted(s, schedule[0], objects);
      EffectiveStays(s, schedule[0], objects, n);
      DoneAgrees(s', schedule[1..], objects, n, g);
    }
  }

  lemma {:induction false} EffectiveStays<V>(s: System<V>, a: Action<V>, objects: Objects, n: nat)
    requires Enabled(s, a, objects)
    ensures Effective(s.log, n) ==> Effective(Step(s, a, objects).log, n)
  {
    var s' := Step(s, a, objects);
    assert s.log <= s'.log;
    if Effective(s.log, n) {
      var i :| 0 <= i < |s.log| && s.log[i].n == n;
      assert s'.log[i].n == n;
    }
  }

  /** A function that agrees after a step agreed before it, unless its call took
      effect in it. */
  lemma {:induction false} AgreedBefore<V>(s: System<V>, a: Action<V>, objects: Objects, n: nat, g: Update<V>)
    requires Enabled(s, a, objects) && Agrees(Step(s, a, objects), n, g) && !Effective(Step(s, a, objects).log, n)
    ensures Agrees(s, n, g) && !Effective(s.log, n)
  {
    var s' := Step(s, a, objects);
    EffectiveStays(s, a, objects, n);
    forall t | t in s.threads && HasSnapshot(s.threads[t], n)
      ensures g(s.threads[t].snapshot) == s.threads[t].fn(s.threads[t].snapshot)
    {
      SnapshotStays(s, a, objects, t, n);
      assert HasSnapshot(s'.threads[t], n);
    }
  }

  lemma {:induction false} SnapshotStays<V>(s: System<V>, a: Action<V>, objects: Objects, t: nat, n: nat)
    requires Enabled(s, a, objects) && t in s.threads && HasSnapshot(s.threads[t], n)
    requires !Effective(Step(s, a, objects).log, n)
    ensures var s' := Step(s, a, objects);
            && t in s'.threads && HasSnapshot(s'.threads[t], n)
            && s'.threads[t].snapshot == s.threads[t].snapshot && s'.threads[t].fn == s.threads[t].fn
  {
    NewEffect(s, a, objects);
  }

  lemma {:induction false} NewEffect<V>(s: System<V>, a: Action<V>, objects: Objects)
    requires Enabled(s, a, objects)
    ensures Step(s, a, objects).log != s.log ==>
              a.thread in s.threads && Effective(Step(s, a, objects).log, s.threads[a.thread].n)
  {
    var s' := Step(s, a, objects);
    if s'.log != s.log {
      assert s'.log[|s.log|].n == s.threads[a.thread].n;
    }
  }

  /** A disturbed schedule is wrong for some choice of the function of one call
      that makes no difference to the run. */
  lemma {:induction false} DisturbanceShows<V>(
      doc0: map<string, V>, s: System<V>, schedule: seq<Action<V>>, objects: Objects)
      returns (n: nat, g: Update<V>)
    requires Explained(doc0, s) && Runs(s, schedule, objects) && !NeverDisturbed(s, schedule, objects)
    ensures AgreesAlong(s, schedule, objects, n, g) && !Effective(s.log, n)
    ensures !ExplainedAlong(doc0, Swap(s, n, g), SwapSchedule(schedule, |s.started|, n, g), objects)
    decreases |schedule|
  {
    var a, rest, s' := schedule[0], schedule[1..], Step(s, schedule[0], objects);
    if !Undisturbed(s, a) {
      n, g := StaleIsWrong(doc0, s, a, objects);
      StepAccounted(s, a, objects);
      NewEffect(s, a, objects);
      DoneAgrees(s', rest, objects, n, g);
    } else {
      StepExplained(doc0, s, a, objects);
      n, g := DisturbanceShows(doc0, s', rest, objects);
      AgreedBefore(s, a, objects, n, g);
    }
    WrongFromStep(doc0, s, schedule, objects, n, g);
  }

  /** What is wrong after a step is wrong from before it. */
  lemma {:induction false} WrongFromStep<V>(
      doc0: map<string, V>, s: System<V>, schedule: seq<Action<V>>, objects: Objects, n: nat, g: Update<V>)
    requires schedule != [] && Enabled(s, schedule[0], objects) && Agrees(s, n, g)
    requires var s' := Step(s, schedule[0], objects);
             !ExplainedAlong(doc0, Swap(s', n, g), SwapSchedule(schedule[1..], |s'.started|, n, g), objects)
    ensures !ExplainedAlong(doc0, Swap(s, n, g), SwapSchedule(schedule, |s.started|, n, g), objects)
  {
    SwapStep(s, schedule[0], objects, n, g);
    assert SwapSchedule(schedule, |s.started|, n, g)[1..]
        == SwapSchedule(schedule[1..], |Step(s, schedule[0], objects).started|, n, g);
  }

  // ----- the exact conditions --------------------------------------------

  lemma {:induction false} SwapInitially<V>(doc0: map<string, V>, n: nat, g: Update<V>)
    ensures Swap(Initially(doc0), n, g) == Initially(doc0)
  {
  }

  /** For any schedule of any threads over any store objects: it is explained at
      every moment, whatever the function of a call would make of documents it
      never sees, if and only if each mutate takes effect on a document that is
      still what it loaded. */
  lemma {:induction false} UndisturbedExactly<V>(doc0: map<string, V>, schedule: seq<Action<V>>, objects: Objects)
    requires Runs(Initially(doc0), schedule, objects)
    ensures NeverDisturbed(Initially(doc0), schedule, objects)
            <==> forall n, g :: AgreesAlong(Initially(doc0), schedule, objects, n, g) ==>
                   ExplainedAlong(doc0, Initially(doc0), SwapSchedule(schedule, 0, n, g), objects)
  {
    var s := Initially(doc0);
    if NeverDisturbed(s, schedule, objects) {
      forall n: nat, g: Update<V> | AgreesAlong(s, schedule, objects, n, g)
        ensures ExplainedAlong(doc0, s, SwapSchedule(schedule, 0, n, g), objects)
      {
        SwapInitially(doc0, n, g);
        SwapRun(s, schedule, objects, n, g);
        UndisturbedAlong(doc0, s, SwapSchedule(schedule, 0, n, g), objects);
      }
    } else {
      var n, g := DisturbanceShows(doc0, s, schedule, objects);
      SwapInitially(doc0, n, g);
    }
  }

  /** The same actions, with any update functions. */
  ghost predicate SameShape<V>(a: seq<Action<V>>, b: seq<Action<V>>) {
    |a| == |b| && forall i :: 0 <= i < |a| ==> SameAction(a[i], b[i])
  }

  ghost predicate SameAction<V>(a: Action<V>, b: Action<V>) {
    if a.Start? && a.call.Mutate? then b.Start? && b.thread == a.thread && b.call.Mutate? else a == b
  }

  lemma {:induction false} SwapKeepsShape<V>(schedule: seq<Action<V>>, k: nat, n: nat, g: Update<V>)
    ensures SameShape(schedule, SwapSchedule(schedule, k, n, g))
  {
    if schedule != [] {
      SwapKeepsShape(schedule[1..], if schedule[0].Start? then k + 1 else k, n, g);
    }
  }

  /** The schedules of a shape that run. */
  ghost predicate Choice<V>(doc0: map<string, V>, schedule: seq<Action<V>>, other: seq<Action<V>>, objects: Objects) {
    SameShape(schedule, other) && Runs(Initially(doc0), other, objects)
  }

  /** A shape of schedule is explained at every moment for every choice of update
      functions if and only if none of the choices is ever disturbed. */
  lemma {:induction false} EveryChoiceExactly<V>(doc0: map<string, V>, schedule: seq<Action<V>>, objects: Objects)
    ensures (forall other :: Choice(doc0, schedule, other, objects) ==>
              ExplainedAlong(doc0, Initially(doc0), other, objects))
            <==> (forall other :: Choice(doc0, schedule, other, objects) ==>
                NeverDisturbed(Initially(doc0), other, objects))
  {
    forall other | Choice(doc0, schedule, other, objects) && NeverDisturbed(Initially(doc0), other, objects)
      ensures ExplainedAlong(doc0, Initially(doc0), other, objects)
    {
      UndisturbedAlong(doc0, Initially(doc0), other, objects);
    }
    if other :| Choice(doc0, schedule, other, objects) && !NeverDisturbed(Initially(doc0), other, objects) {
      var swapped := DisturbedChoice(doc0, schedule, other, objects);
    }
  }

  lemma {:induction false} DisturbedChoice<V>(
      doc0: map<string, V>, schedule: seq<Action<V>>, other: seq<Action<V>>, objects: Objects)
      returns (swapped: seq<Action<V>>)
    requires Choice(doc0, schedule, other, objects) && !NeverDisturbed(Initially(doc0), other, objects)
    ensures Choice(doc0, schedule, swapped, objects) && !ExplainedAlong(doc0, Initially(doc0), swapped, objects)
  {
    var s := Initially(doc0);
    var n, g := DisturbanceShows(doc0, s, other, objects);
    swapped := SwapSchedule(other, 0, n, g);
    SwapInitially(doc0, n, g);
    SwapRun(s, other, objects, n, g);
    SwapKeepsShape(other, 0, n, g);
    assert forall i :: 0 <= i < |schedule| ==> SameAction(schedule[i], other[i]) && SameAction(other[i], swapped[i]);
  }
}
