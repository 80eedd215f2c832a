/** Concurrent use of one stored document: get and mutate as separate lock,
    load, apply, save and unlock steps of any number of threads. Each thread
    works through one store object; threads of the same object share its
    mutex, threads of different objects over the same document do not. */
module MapStoreSchedules {
  import opened Wrappers
  import opened MapStore

  /** A call: get, mutate, or the unlocked load of Principals and candidates. */
  datatype Call<!V> = Get(key: string) | Mutate(fn: Update<V>) | Peek

  datatype Answer<V> = Failed | Found(value: Option<V>) | Done | Whole(doc: map<string, V>)

  /** The sequential meaning of a call on a plain map. */
  function After<V>(doc: map<string, V>, call: Call<V>, io: Io): map<string, V> {
    if call.Mutate? then Mutated(doc, call.fn, io) else doc
  }

  function AnswerOf<V>(doc: map<string, V>, call: Call<V>, io: Io): Answer<V> {
    match call
    case Get(k) => if io.GetFails? then Failed else Found(if k in doc then Some(doc[k]) else None)
    case Peek => if io.GetFails? then Failed else Whole(doc)
    case Mutate(fn) => if MutateOk(doc, fn, io) then Done else Failed
  }

  /** Where a thread stands within its call, the n-th that was started. */
  datatype Phase<!V> =
    | Waiting(n: nat, call: Call<V>)
    | Holding(n: nat, call: Call<V>)
    | Loaded(n: nat, fn: Update<V>, snapshot: map<string, V>)
    | Applied(n: nat, fn: Update<V>, snapshot: map<string, V>)
    | Settled(n: nat, locked: bool, answer: Answer<V>, at: nat)   // at: its place in the log

  /** A call that a thread started when the log had this length. */
  datatype Started<!V> = Started(thread: nat, call: Call<V>, since: nat)

  /** One call taking effect. */
  datatype Effect<!V> = Effect(n: nat, thread: nat, call: Call<V>, io: Io, answer: Answer<V>)

  datatype Return<V> = Return(n: nat, thread: nat, answer: Answer<V>, at: nat)

  datatype System<!V> = System(
    doc: map<string, V>,
    holders: map<nat, nat>,          // store object -> thread holding its mutex
    threads: map<nat, Phase<V>>,
    started: seq<Started<V>>,        // calls in the order they were started
    log: seq<Effect<V>>,             // calls in the order they took effect
    locks: seq<nat>,                 // threads in the order they got a mutex
    returned: seq<Return<V>>)        // answers in the order they were delivered

  datatype Action<!V> =
    | Start(thread: nat, call: Call<V>)
    | Lock(thread: nat)
    | Load(thread: nat, fails: bool)
    | Apply(thread: nat)
    | Save(thread: nat, fails: bool)
    | Unlock(thread: nat)

  /** Which store object a thread uses. */
  type Objects = nat -> nat

  predicate Enabled<V>(s: System<V>, a: Action<V>, objects: Objects) {
    match a
    case Start(t, _) => t !in s.threads
    case Lock(t) => t in s.threads && s.threads[t].Waiting? && !s.threads[t].call.Peek? && objects(t) !in s.holders
    case Load(t, _) => t in s.threads && (s.threads[t].Holding? || (s.threads[t].Waiting? && s.threads[t].call.Peek?))
    case Apply(t) => t in s.threads && s.threads[t].Loaded?
    case Save(t, _) => t in s.threads && s.threads[t].Applied?
    case Unlock(t) => t in s.threads && s.threads[t].Settled?
  }

  function Settle<V>(s: System<V>, t: nat, n: nat, call: Call<V>, io: Io, answer: Answer<V>): System<V> {
    s.(threads := s.threads[t := Settled(n, !call.Peek?, answer, |s.log|)],
       log := s.log + [Effect(n, t, call, io, answer)])
  }

  function Step<V>(s: System<V>, a: Action<V>, objects: Objects): System<V>
    requires Enabled(s, a, objects)
  {
    match a
    case Start(t, call) =>
      s.(threads := s.threads[t := Waiting(|s.started|, call)], started := s.started + [Started(t, call, |s.log|)])
    case Lock(t) =>
      s.(threads := s.threads[t := Holding(s.threads[t].n, s.threads[t].call)],
         holders := s.holders[objects(t) := t], locks := s.locks + [t])
    case Load(t, fails) =>
      var n, call := s.threads[t].n, s.threads[t].call;
      if fails then Settle(s, t, n, call, GetFails, Failed)
      else if call.Mutate? then s.(threads := s.threads[t := Loaded(n, call.fn, s.doc)])
      else Settle(s, t, n, call, Works, AnswerOf(s.doc, call, Works))
    case Apply(t) =>
      var Loaded(n, fn, snapshot) := s.threads[t];
      if fn(snapshot).changed then s.(threads := s.threads[t := Applied(n, fn, snapshot)])
      else Settle(s, t, n, Mutate(fn), Works, Done)
    case Save(t, fails) =>
      var Applied(n, fn, snapshot) := s.threads[t];
      if fails then Settle(s, t, n, Mutate(fn), SetFails, Failed)
      else Settle(s, t, n, Mutate(fn), Works, Done).(doc := fn(snapshot).doc)
    case Unlock(t) =>
      var Settled(n, locked, answer, at) := s.threads[t];
      s.(threads := s.threads - {t},
         holders := if locked then s.holders - {objects(t)} else s.holders,
         returned := s.returned + [Return(n, t, answer, at)])
  }

  predicate Runs<V>(s: System<V>, schedule: seq<Action<V>>, objects: Objects)
    decreases |schedule|
  {
    schedule == [] || (Enabled(s, schedule[0], objects) && Runs(Step(s, schedule[0], objects), schedule[1..], objects))
  }

  function Run<V>(s: System<V>, schedule: seq<Action<V>>, objects: Objects): System<V>
    requires Runs(s, schedule, objects)
    decreases |schedule|
  {
    if schedule == [] then s else Run(Step(s, schedule[0], objects), schedule[1..], objects)
  }

  function Initially<V>(doc: map<string, V>): System<V> {
    System(doc, map[], map[], [], [], [], [])
  }

  // ----- the sequential run ----------------------------------------------

  /** The document after the logged calls, one at a time. */
  function Replay<V>(doc: map<string, V>, log: seq<Effect<V>>): map<string, V> {
    if log == [] then doc
    else
      var last := log[|log| - 1];
      After(Replay(doc, log[..|log| - 1]), last.call, last.io)
  }

  ghost predicate AnswersRight<V>(doc: map<string, V>, e: Effect<V>) { e.answer == AnswerOf(doc, e.call, e.io) }

  /** Every logged call got the answer it gets in that sequential run. */
  ghost predicate AnswersMatch<V>(doc: map<string, V>, log: seq<Effect<V>>) {
    forall i :: 0 <= i < |log| ==> AnswersRight(Replay(doc, log[..i]), log[i])
  }

  // ----- every call accounted for ----------------------------------------

  /** The call a thread is working on, before it took effect. */
  function CallOf<V>(p: Phase<V>): Call<V>
    requires !p.Settled?
  {
    match p
    case Waiting(_, call) => call
    case Holding(_, call) => call
    case Loaded(_, fn, _) => Mutate(fn)
    case Applied(_, fn, _) => Mutate(fn)
  }

  /** The n-th call has taken effect. */
  ghost predicate Effective<V>(log: seq<Effect<V>>, n: nat) {
    exists i :: 0 <= i < |log| && log[i].n == n
  }

  /** The n-th call took effect at this place of the log, for this thread and
      with this answer. */
  ghost predicate Logged<V>(log: seq<Effect<V>>, at: nat, n: nat, t: nat, answer: Answer<V>) {
    at < |log| && log[at].n == n && log[at].thread == t && log[at].answer == answer
  }

  /** Each effect is one started call of its thread, no call takes effect twice,
      and none before it was started. */
  ghost predicate EffectsFit<V>(started: seq<Started<V>>, log: seq<Effect<V>>) {
    && (forall i :: 0 <= i < |log| ==> EffectFits(started, log[i], i))
    && (forall i, j :: 0 <= i < j < |log| ==> log[i].n != log[j].n)
  }

  ghost predicate EffectFits<V>(started: seq<Started<V>>, e: Effect<V>, i: nat) {
    && e.n < |started| && started[e.n].thread == e.thread && started[e.n].call == e.call
    && started[e.n].since <= i
  }

  /** A thread works on the call it started; the call has taken effect exactly
      when the thread knows its answer. */
  ghost predicate PhaseFits<V>(started: seq<Started<V>>, log: seq<Effect<V>>, t: nat, p: Phase<V>) {
    && p.n < |started| && started[p.n].thread == t
    && (if p.Settled? then Logged(log, p.at, p.n, t, p.answer)
        else CallOf(p) == started[p.n].call && !Effective(log, p.n))
  }

  ghost predicate PhasesFit<V>(started: seq<Started<V>>, log: seq<Effect<V>>, threads: map<nat, Phase<V>>) {
    forall t :: t in threads ==> PhaseFits(started, log, t, threads[t])
  }

  /** Each delivered answer is that of its call's one effect, is delivered once,
      and the call is over. */
  ghost predicate ReturnsFit<V>(log: seq<Effect<V>>, threads: map<nat, Phase<V>>, returned: seq<Return<V>>) {
    && (forall i :: 0 <= i < |returned| ==>
        Logged(log, returned[i].at, returned[i].n, returned[i].thread, returned[i].answer))
    && (forall i, j :: 0 <= i < j < |returned| ==> returned[i].n != returned[j].n)
    && (forall i, t :: 0 <= i < |returned| && t in threads ==> returned[i].n != threads[t].n)
  }

  ghost predicate Delivered<V>(returned: seq<Return<V>>, n: nat) {
    exists i :: 0 <= i < |returned| && returned[i].n == n
  }

  /** No started call is lost: its answer was delivered or its thread still
      works on it. */
  ghost predicate NoneLost<V>(started: seq<Started<V>>, threads: map<nat, Phase<V>>, returned: seq<Return<V>>) {
    forall n :: 0 <= n < |started| ==>
      Delivered(returned, n) || (started[n].thread in threads && threads[started[n].thread].n == n)
  }

  /** No call was started at a length the log has yet to reach. */
  ghost predicate SinceFits<V>(s: System<V>) {
    forall k :: 0 <= k < |s.started| ==> s.started[k].since <= |s.log|
  }

  ghost predicate Accounted<V>(s: System<V>) {
    && EffectsFit(s.started, s.log) && PhasesFit(s.started, s.log, s.threads)
    && ReturnsFit(s.log, s.threads, s.returned) && NoneLost(s.started, s.threads, s.returned)
    && SinceFits(s)
  }

  /** A call goes on to write only when its function changed what it loaded. */
  ghost predicate WritesChange<V>(s: System<V>) {
    forall t :: t in s.threads && s.threads[t].Applied? ==> s.threads[t].fn(s.threads[t].snapshot).changed
  }

  /** The sequential run of the logged calls explains everything seen: the
      document, and one by one the delivered answers. The log holds the calls
      that were started, each at most once and at a place between its start and
      its return. */
  ghost predicate Explained<V>(doc0: map<string, V>, s: System<V>) {
    && s.doc == Replay(doc0, s.log)
    && AnswersMatch(doc0, s.log)
    && Accounted(s)
    && WritesChange(s)
  }

  /** Every effect belongs to exactly one call that was answered, or whose thread
      knows its answer and has yet to return. */
  lemma {:induction false} EffectsAnswered<V>(s: System<V>, i: nat)
    requires Accounted(s) && i < |s.log|
    ensures var e := s.log[i];
            || (exists j :: 0 <= j < |s.returned| && s.returned[j] == Return(e.n, e.thread, e.answer, i))
            || (e.thread in s.threads && s.threads[e.thread].Settled? && s.threads[e.thread].n == e.n
                && s.threads[e.thread].at == i && s.threads[e.thread].answer == e.answer)
  {
    var e := s.log[i];
    assert EffectFits(s.started, e, i);
    if Delivered(s.returned, e.n) {
      var j :| 0 <= j < |s.returned| && s.returned[j].n == e.n;
      assert Logged(s.log, s.returned[j].at, e.n, s.returned[j].thread, s.returned[j].answer);
    } else {
      assert PhaseFits(s.started, s.log, e.thread, s.threads[e.thread]);
      assert Effective(s.log, e.n);
    }
  }

  /** The step in which a mutate takes effect on what it loaded: it finds nothing
      to change, or it writes. */
  predicate TakesEffect<V>(s: System<V>, a: Action<V>) {
    && a.thread in s.threads
    && ((a.Apply? && s.threads[a.thread].Loaded? && !s.threads[a.thread].fn(s.threads[a.thread].snapshot).changed)
        || (a.Save? && s.threads[a.thread].Applied?))
  }

  /** What takes effect is still what is stored. */
  ghost predicate Undisturbed<V>(s: System<V>, a: Action<V>) {
    TakesEffect(s, a) ==> s.threads[a.thread].snapshot == s.doc
  }

  lemma {:induction false} ReplayOne<V>(doc: map<string, V>, log: seq<Effect<V>>, e: Effect<V>)
    ensures Replay(doc, log + [e]) == After(Replay(doc, log), e.call, e.io)
  {
    assert (log + [e])[..|log + [e]| - 1] == log;
  }

  lemma {:induction false} LogOne<V>(doc: map<string, V>, log: seq<Effect<V>>, e: Effect<V>)
    requires AnswersMatch(doc, log) && AnswersRight(Replay(doc, log), e)
    ensures AnswersMatch(doc, log + [e])
  {
    var all := log + [e];
    forall i | 0 <= i < |all| ensures AnswersRight(Replay(doc, all[..i]), all[i]) {
      if i < |log| {
        assert all[..i] == log[..i];
        assert AnswersRight(Replay(doc, log[..i]), log[i]);
      } else {
        assert all[..i] == log;
      }
    }
  }

  lemma {:induction false} StartAccounted<V>(s: System<V>, t: nat, call: Call<V>, objects: Objects)
    requires Accounted(s) && Enabled(s, Start(t, call), objects)
    ensures Accounted(Step(s, Start(t, call), objects))
  {
    var s' := Step(s, Start(t, call), objects);
    var n := |s.started|;
    assert forall k :: 0 <= k < n ==> s'.started[k] == s.started[k];
    assert forall i :: 0 <= i < |s.log| ==> EffectFits(s.started, s.log[i], i);
    assert PhaseFits(s'.started, s'.log, t, s'.threads[t]);
    forall u | u in s.threads ensures PhaseFits(s'.started, s'.log, u, s.threads[u]) && s.threads[u].n != n {
      assert PhaseFits(s.started, s.log, u, s.threads[u]);
    }
    forall i | 0 <= i < |s.returned| ensures s.returned[i].n != n {
      var r := s.returned[i];
      assert Logged(s.log, r.at, r.n, r.thread, r.answer) && EffectFits(s.started, s.log[r.at], r.at);
    }
    forall k | 0 <= k < |s'.started|
      ensures Delivered(s'.returned, k)
                || (s'.started[k].thread in s'.threads && s'.threads[s'.started[k].thread].n == k)
    {
      if k < n { assert s'.started[k] == s.started[k]; }
    }
  }

  /** A thread goes on within its call. */
  lemma {:induction false} PhaseAccounted<V>(s: System<V>, s': System<V>, t: nat)
    requires Accounted(s) && t in s.threads && t in s'.threads && !s.threads[t].Settled? && !s'.threads[t].Settled?
    requires s'.threads == s.threads[t := s'.threads[t]]
    requires s'.threads[t].n == s.threads[t].n && CallOf(s'.threads[t]) == CallOf(s.threads[t])
    requires s'.started == s.started && s'.log == s.log && s'.returned == s.returned
    ensures Accounted(s')
  {
    assert PhaseFits(s.started, s.log, t, s.threads[t]);
  }

  lemma {:induction false} SettleAccounted<V>(
      s: System<V>, s': System<V>, t: nat, call: Call<V>, io: Io, answer: Answer<V>)
    requires Accounted(s) && t in s.threads && !s.threads[t].Settled? && CallOf(s.threads[t]) == call
    requires var n := s.threads[t].n;
             && s'.threads == Settle(s, t, n, call, io, answer).threads
                 && s'.log == Settle(s, t, n, call, io, answer).log
    requires s'.started == s.started && s'.returned == s.returned
    ensures Accounted(s')
  {
    var n := s.threads[t].n;
    var e := Effect(n, t, call, io, answer);
    assert PhaseFits(s.started, s.log, t, s.threads[t]);
    assert s'.log == s.log + [e];
    LogGrows(s, s', e);
    assert Logged(s'.log, |s.log|, n, t, answer);
  }

  /** What the log said it says. */
  lemma {:induction false} LogGrows<V>(s: System<V>, s': System<V>, e: Effect<V>)
    requires Accounted(s) && s'.log == s.log + [e] && !Effective(s.log, e.n) && EffectFits(s.started, e, |s.log|)
    ensures EffectsFit(s.started, s'.log)
    ensures forall u :: u in s.threads && s.threads[u].n != e.n ==> PhaseFits(s.started, s'.log, u, s.threads[u])
    ensures forall i :: 0 <= i < |s.returned| ==>
              Logged(s'.log, s.returned[i].at, s.returned[i].n, s.returned[i].thread, s.returned[i].answer)
  {
    forall u | u in s.threads && s.threads[u].n != e.n ensures PhaseFits(s.started, s'.log, u, s.threads[u]) {
      assert PhaseFits(s.started, s.log, u, s.threads[u]);
    }
    forall i | 0 <= i < |s.returned|
      ensures Logged(s'.log, s.returned[i].at, s.returned[i].n, s.returned[i].thread, s.returned[i].answer)
    {
      assert Logged(s.log, s.returned[i].at, s.returned[i].n, s.returned[i].thread, s.returned[i].answer);
    }
    forall i, j | 0 <= i < j < |s'.log| ensures s'.log[i].n != s'.log[j].n {
      assert Effective(s.log, s.log[i].n);
    }
  }

  lemma {:induction false} UnlockAccounted<V>(s: System<V>, t: nat, objects: Objects)
    requires Accounted(s) && Enabled(s, Unlock(t), objects)
    ensures Accounted(Step(s, Unlock(t), objects))
  {
    var s' := Step(s, Unlock(t), objects);
    var p := s.threads[t];
    assert PhaseFits(s.started, s.log, t, p);
    assert s'.returned[|s.returned|].n == p.n;
    forall u | u in s'.threads ensures PhaseFits(s'.started, s'.log, u, s'.threads[u]) && s'.threads[u].n != p.n {
      assert PhaseFits(s.started, s.log, u, s.threads[u]);
    }
    UnlockLosesNone(s.started, s.threads, s.returned, t, Return(p.n, t, p.answer, p.at));
  }

  lemma {:induction false} UnlockLosesNone<V>(
      started: seq<Started<V>>, threads: map<nat, Phase<V>>, returned: seq<Return<V>>, t: nat, r: Return<V>)
    requires NoneLost(started, threads, returned) && t in threads && threads[t].n == r.n
    ensures NoneLost(started, threads - {t}, returned + [r])
  {
    forall k | 0 <= k < |started|
      ensures Delivered(returned + [r], k) || (started[k].thread in threads - {t} && threads[started[k].thread].n == k)
    {
      if Delivered(returned, k) {
        var i :| 0 <= i < |returned| && returned[i].n == k;
        assert (returned + [r])[i].n == k;
      } else if k == r.n {
        assert (returned + [r])[|returned|].n == k;
      }
    }
  }

  /** A call taking its sequential effect keeps the run explained. */
  lemma {:induction false} SettleExplained<V>(doc0: map<string, V>, s: System<V>, t: nat, call: Call<V>, io: Io)
    requires Explained(doc0, s)
    requires t in s.threads && !s.threads[t].Settled? && CallOf(s.threads[t]) == call
    ensures Explained(doc0,
              Settle(s, t, s.threads[t].n, call, io, AnswerOf(s.doc, call, io)).(doc := After(s.doc, call, io)))
  {
    var answer := AnswerOf(s.doc, call, io);
    var e := Effect(s.threads[t].n, t, call, io, answer);
    ReplayOne(doc0, s.log, e);
    LogOne(doc0, s.log, e);
    SettleAccounted(s, Settle(s, t, e.n, call, io, answer).(doc := After(s.doc, call, io)), t, call, io, answer);
  }

  lemma {:induction false} StepAccounted<V>(s: System<V>, a: Action<V>, objects: Objects)
    requires Accounted(s) && Enabled(s, a, objects)
    ensures Accounted(Step(s, a, objects))
  {
    var t, s' := a.thread, Step(s, a, objects);
    match a {
      case Start(_, call) => StartAccounted(s, t, call, objects);
      case Unlock(_) => UnlockAccounted(s, t, objects);
      case Lock(_) => PhaseAccounted(s, s', t);
      case _ => WorkAccounted(s, a, objects);
    }
  }

  lemma {:induction false} WorkAccounted<V>(s: System<V>, a: Action<V>, objects: Objects)
    requires Accounted(s) && Enabled(s, a, objects) && (a.Load? || a.Apply? || a.Save?)
    ensures Accounted(Step(s, a, objects))
  {
    var t, s' := a.thread, Step(s, a, objects);
    if s'.log == s.log {
      PhaseAccounted(s, s', t);
    } else {
      var e := s'.log[|s.log|];
      SettleAccounted(s, s', t, e.call, e.io, e.answer);
    }
  }

  lemma {:induction false} StepExplained<V>(doc0: map<string, V>, s: System<V>, a: Action<V>, objects: Objects)
    requires Explained(doc0, s) && Enabled(s, a, objects) && Undisturbed(s, a)
    ensures Explained(doc0, Step(s, a, objects))
  {
    match a {
      case Load(t, fails) => LoadExplained(doc0, s, t, fails, objects);
      case Apply(t) => ApplyExplained(doc0, s, t, objects);
      case Save(t, fails) => SaveExplained(doc0, s, t, fails, objects);
      case Unlock(t) => UnlockAccounted(s, t, objects);
      case Start(t, call) => StartAccounted(s, t, call, objects);
      case Lock(t) => PhaseExplained(doc0, s, Step(s, a, objects), t);
    }
  }

  /** A thread goes on within its call, and the document stays. */
  lemma {:induction false} PhaseExplained<V>(doc0: map<string, V>, s: System<V>, s': System<V>, t: nat)
    requires Explained(doc0, s) && t in s.threads && t in s'.threads
    requires !s.threads[t].Settled? && !s'.threads[t].Settled? && s'.threads == s.threads[t := s'.threads[t]]
    requires s'.threads[t].n == s.threads[t].n && CallOf(s'.threads[t]) == CallOf(s.threads[t])
    requires s'.threads[t].Applied? ==> s'.threads[t].fn(s'.threads[t].snapshot).changed
    requires s'.started == s.started && s'.log == s.log && s'.returned == s.returned && s'.doc == s.doc
    ensures Explained(doc0, s')
  {
    PhaseAccounted(s, s', t);
    assert WritesChange(s');
  }

  /** A call that takes effect without writing. */
  lemma {:induction false} ReadExplained<V>(
      doc0: map<string, V>, s: System<V>, s': System<V>, t: nat, call: Call<V>, io: Io)
    requires Explained(doc0, s) && t in s.threads && !s.threads[t].Settled? && CallOf(s.threads[t]) == call
    requires After(s.doc, call, io) == s.doc
    requires s' == Settle(s, t, s.threads[t].n, call, io, AnswerOf(s.doc, call, io))
    ensures Explained(doc0, s')
  {
    SettleExplained(doc0, s, t, call, io);
    assert s' == Settle(s, t, s.threads[t].n, call, io, AnswerOf(s.doc, call, io)).(doc := After(s.doc, call, io));
  }

  lemma {:induction false} LoadExplained<V>(
      doc0: map<string, V>, s: System<V>, t: nat, fails: bool, objects: Objects)
    requires Explained(doc0, s) && Enabled(s, Load(t, fails), objects)
    ensures Explained(doc0, Step(s, Load(t, fails), objects))
  {
    var call, s' := s.threads[t].call, Step(s, Load(t, fails), objects);
    if fails {
      ReadExplained(doc0, s, s', t, call, GetFails);
    } else if !call.Mutate? {
      ReadExplained(doc0, s, s', t, call, Works);
    } else {
      PhaseExplained(doc0, s, s', t);
    }
  }

  lemma {:induction false} ApplyExplained<V>(doc0: map<string, V>, s: System<V>, t: nat, objects: Objects)
    requires Explained(doc0, s) && Enabled(s, Apply(t), objects) && Undisturbed(s, Apply(t))
    ensures Explained(doc0, Step(s, Apply(t), objects))
  {
    var fn := s.threads[t].fn;
    if fn(s.threads[t].snapshot).changed {
      PhaseExplained(doc0, s, Step(s, Apply(t), objects), t);
    } else {
      ReadExplained(doc0, s, Step(s, Apply(t), objects), t, Mutate(fn), Works);
    }
  }

  lemma {:induction false} SaveExplained<V>(doc0: map<string, V>, s: System<V>, t: nat, fails: bool, objects: Objects)
    requires Explained(doc0, s) && Enabled(s, Save(t, fails), objects) && s.threads[t].snapshot == s.doc
    ensures Explained(doc0, Step(s, Save(t, fails), objects))
  {
    var p, s' := s.threads[t], Step(s, Save(t, fails), objects);
    assert p.fn(s.doc).changed;
    if fails {
      ReadExplained(doc0, s, s', t, Mutate(p.fn), SetFails);
    } else {
      assert After(s.doc, Mutate(p.fn), Works) == p.fn(s.doc).doc && AnswerOf(s.doc, Mutate(p.fn), Works) == Done;
      assert s' == Settle(s, t, p.n, Mutate(p.fn), Works, Done).(doc := p.fn(s.doc).doc);
      SettleExplained(doc0, s, t, Mutate(p.fn), Works);
    }
  }

  // ----- one store object ------------------------------------------------

  /** All threads share one store object, and so one mutex. */
  ghost predicate OneObject(objects: Objects) {
    forall t: nat :: objects(t) == 0
  }

  predicate Inside<V>(s: System<V>, t: nat) {
    t in s.threads && match s.threads[t]
                      case Waiting(_, _) => false
                      case Holding(_, call) => !call.Peek?
                      case Settled(_, locked, _, _) => locked
                      case _ => true
  }

  /** The thread got the mutex but its call has not taken effect yet. */
  predicate Pending<V>(p: Phase<V>) { p.Holding? || p.Loaded? || p.Applied? }

  function LockedThreads<V>(log: seq<Effect<V>>): seq<nat> {
    if log == [] then []
    else
      var last := log[|log| - 1];
      LockedThreads(log[..|log| - 1]) + if last.call.Peek? then [] else [last.thread]
  }

  /** The mutex is held by exactly the thread inside. */
  ghost predicate OneInside<V>(s: System<V>) {
    && s.holders.Keys <= {0}
    && (forall t: nat :: Inside(s, t) <==> 0 in s.holders && s.holders[0] == t)
    && (forall t :: t in s.threads && s.threads[t].Holding? ==> !s.threads[t].call.Peek?)
  }

  /** What the thread inside loaded is what is stored. */
  ghost predicate SnapshotFresh<V>(s: System<V>) {
    0 in s.holders && s.holders[0] in s.threads && (s.threads[s.holders[0]].Loaded? || s.threads[s.holders[0]].Applied?)
    ==> s.threads[s.holders[0]].snapshot == s.doc
  }

  /** Calls took effect in lock order. */
  ghost predicate LockOrder<V>(s: System<V>) {
    s.locks == LockedThreads(s.log) + PendingHolder(s)
  }

  /** The thread that holds the mutex, while its call has not taken effect. */
  function PendingHolder<V>(s: System<V>): seq<nat> {
    if 0 in s.holders && s.holders[0] in s.threads && Pending(s.threads[s.holders[0]]) then [s.holders[0]] else []
  }

  ghost predicate Exclusive<V>(s: System<V>) {
    OneInside(s) && SnapshotFresh(s) && LockOrder(s)
  }

  lemma {:induction false} LockOne<V>(log: seq<Effect<V>>, e: Effect<V>)
    ensures LockedThreads(log + [e]) == LockedThreads(log) + if e.call.Peek? then [] else [e.thread]
  {
    assert (log + [e])[..|log + [e]| - 1] == log;
  }

  lemma {:induction false} StepHolders<V>(s: System<V>, a: Action<V>, objects: Objects)
    requires OneObject(objects) && Enabled(s, a, objects)
    ensures var s' := Step(s, a, objects);
            && (a.Lock? ==> 0 !in s.holders && s'.holders == s.holders[0 := a.thread])
            && (a.Unlock? && Inside(s, a.thread) ==> s'.holders == s.holders - {0})
            && (a.Unlock? && !Inside(s, a.thread) ==> s'.holders == s.holders)
            && (!a.Lock? && !a.Unlock? ==> s'.holders == s.holders)
  {
    assert objects(a.thread) == 0;
  }

  lemma {:induction false} StepSelf<V>(s: System<V>, a: Action<V>, objects: Objects)
    requires Enabled(s, a, objects)
    requires a.thread in s.threads && s.threads[a.thread].Holding? ==> !s.threads[a.thread].call.Peek?
    ensures var s' := Step(s, a, objects);
            && (Inside(s', a.thread) <==> a.Lock? || (!a.Unlock? && Inside(s, a.thread)))
            && (a.thread in s'.threads && s'.threads[a.thread].Holding? ==> !s'.threads[a.thread].call.Peek?)
            && (a.Apply? || a.Save? ==> Inside(s, a.thread))
  {
  }

  lemma {:induction false} StepOneInside<V>(s: System<V>, a: Action<V>, objects: Objects)
    requires OneObject(objects) && OneInside(s) && Enabled(s, a, objects)
    ensures OneInside(Step(s, a, objects))
    ensures (a.Apply? || a.Save?) ==> 0 in s.holders && s.holders[0] == a.thread
  {
    StepHolders(s, a, objects);
    StepSelf(s, a, objects);
    StepInside(s, a, objects);
    KeepsOneInside(s, Step(s, a, objects), a.thread, a.Lock?, a.Unlock?);
  }

  lemma {:induction false} KeepsOneInside<V>(s: System<V>, s': System<V>, t: nat, lock: bool, unlock: bool)
    requires OneInside(s) && !(lock && unlock)
    requires lock ==> 0 !in s.holders && s'.holders == s.holders[0 := t]
    requires unlock ==> s'.holders == if Inside(s, t) then s.holders - {0} else s.holders
    requires !lock && !unlock ==> s'.holders == s.holders
    requires Inside(s', t) <==> lock || (!unlock && Inside(s, t))
    requires forall u :: u != t ==> (Inside(s', u) <==> Inside(s, u))
    requires forall u :: u != t ==> (u in s'.threads <==> u in s.threads)
    requires forall u :: u != t && u in s.threads ==> s'.threads[u] == s.threads[u]
    requires t in s'.threads && s'.threads[t].Holding? ==> !s'.threads[t].call.Peek?
    ensures OneInside(s')
  {
  }

  lemma {:induction false} StepExclusive<V>(s: System<V>, a: Action<V>, objects: Objects)
    requires OneObject(objects) && Exclusive(s) && Enabled(s, a, objects)
    ensures Undisturbed(s, a)
    ensures Exclusive(Step(s, a, objects))
  {
    StepOneInside(s, a, objects);
    StepSnapshot(s, a, objects);
    StepLockOrder(s, a, objects);
  }

  lemma {:induction false} StepSnapshot<V>(s: System<V>, a: Action<V>, objects: Objects)
    requires OneObject(objects) && Exclusive(s) && Enabled(s, a, objects)
    ensures SnapshotFresh(Step(s, a, objects))
  {
    StepOneInside(s, a, objects);
    assert objects(a.thread) == 0;
  }

  lemma {:induction false} StepLockOrder<V>(s: System<V>, a: Action<V>, objects: Objects)
    requires OneObject(objects) && Exclusive(s) && Enabled(s, a, objects)
    ensures LockOrder(Step(s, a, objects))
  {
    StepOneInside(s, a, objects);
    assert objects(a.thread) == 0;
    if Step(s, a, objects).log == s.log {
      QuietLockOrder(s, a, objects);
    } else {
      SettlingLockOrder(s, a, objects);
    }
  }

  lemma {:induction false} QuietLockOrder<V>(s: System<V>, a: Action<V>, objects: Objects)
    requires OneInside(s) && LockOrder(s) && Enabled(s, a, objects) && objects(a.thread) == 0
    requires (a.Apply? || a.Save?) ==> 0 in s.holders && s.holders[0] == a.thread
    requires Step(s, a, objects).log == s.log
    ensures LockOrder(Step(s, a, objects))
  {
    var s' := Step(s, a, objects);
    assert Inside(s, a.thread) <==> 0 in s.holders && s.holders[0] == a.thread;
    assert a.Lock? ==> PendingHolder(s) == [] && PendingHolder(s') == [a.thread];
    assert !a.Lock? ==> PendingHolder(s') == PendingHolder(s);
  }

  lemma {:induction false} SettlingLockOrder<V>(s: System<V>, a: Action<V>, objects: Objects)
    requires OneInside(s) && LockOrder(s) && Enabled(s, a, objects)
    requires (a.Apply? || a.Save?) ==> 0 in s.holders && s.holders[0] == a.thread
    requires Step(s, a, objects).log != s.log
    ensures LockOrder(Step(s, a, objects))
  {
    var t := a.thread;
    match a {
      case Load(_, fails) =>
        var call := s.threads[t].call;
        SettlesPending(s, t, s.threads[t].n, call, GetFails, Failed);
        SettlesPending(s, t, s.threads[t].n, call, Works, AnswerOf(s.doc, call, Works));
      case Apply(_) => SettlesPending(s, t, s.threads[t].n, Mutate(s.threads[t].fn), Works, Done);
      case Save(_, fails) =>
        SettlesPending(s, t, s.threads[t].n, Mutate(s.threads[t].fn), SetFails, Failed);
        SettlesPending(s, t, s.threads[t].n, Mutate(s.threads[t].fn), Works, Done);
    }
  }

  lemma {:induction false} SettlesPending<V>(s: System<V>, t: nat, n: nat, call: Call<V>, io: Io, answer: Answer<V>)
    requires OneInside(s) && t in s.threads
    requires Inside(s, t) <==> !call.Peek?
    requires Inside(s, t) ==> Pending(s.threads[t])
    ensures LockedThreads(Settle(s, t, n, call, io, answer).log) + PendingHolder(Settle(s, t, n, call, io, answer))
         == LockedThreads(s.log) + PendingHolder(s)
  {
    LockOne(s.log, Effect(n, t, call, io, answer));
    if call.Peek? {
      assert PendingHolder(Settle(s, t, n, call, io, answer)) == PendingHolder(s);
    } else {
      assert PendingHolder(s) == [t] && PendingHolder(Settle(s, t, n, call, io, answer)) == [];
    }
  }

  lemma {:induction false} StepInside<V>(s: System<V>, a: Action<V>, objects: Objects)
    requires Enabled(s, a, objects)
    ensures forall u :: u != a.thread ==> (Inside(Step(s, a, objects), u) <==> Inside(s, u))
    ensures forall u :: u != a.thread ==> (u in Step(s, a, objects).threads <==> u in s.threads)
    ensures forall u :: u != a.thread && u in s.threads ==> Step(s, a, objects).threads[u] == s.threads[u]
  {
  }

  /** Any schedule of any threads over one store object is equivalent to its
      calls running one at a time, in lock order, on a plain map: the document
      is the sequential one and every delivered answer the sequential answer.
      No update is lost, and a failed or unchanged call leaves no trace. */
  lemma {:induction false} Linearizable<V>(
      doc0: map<string, V>, s: System<V>, schedule: seq<Action<V>>, objects: Objects)
    requires OneObject(objects) && Runs(s, schedule, objects)
    requires Explained(doc0, s) && Exclusive(s)
    ensures Explained(doc0, Run(s, schedule, objects)) && Exclusive(Run(s, schedule, objects))
    decreases |schedule|
  {
    if schedule != [] {
      StepExclusive(s, schedule[0], objects);
      StepExplained(doc0, s, schedule[0], objects);
      Linearizable(doc0, Step(s, schedule[0], objects), schedule[1..], objects);
    }
  }

  lemma {:induction false} LinearizableFromStart<V>(doc0: map<string, V>, schedule: seq<Action<V>>, objects: Objects)
    requires OneObject(objects) && Runs(Initially(doc0), schedule, objects)
    ensures Explained(doc0, Run(Initially(doc0), schedule, objects))
    ensures Exclusive(Run(Initially(doc0), schedule, objects))
  {
    Linearizable(doc0, Initially(doc0), schedule, objects);
  }

  // ----- several store objects over one document -------------------------

  /** Every mutate of the schedule decides and writes on what it loaded. */
  ghost predicate NeverDisturbed<V>(s: System<V>, schedule: seq<Action<V>>, objects: Objects)
    requires Runs(s, schedule, objects)
    decreases |schedule|
  {
    schedule == []
        || (Undisturbed(s, schedule[0]) && NeverDisturbed(Step(s, schedule[0], objects), schedule[1..], objects))
  }

  /** With several store objects over one document, as when RemovePrincipal
      purges through stores of its own, the same holds for every schedule in
      which no other object's save falls between a mutate's load and save. */
  lemma {:induction false} UndisturbedExplained<V>(
      doc0: map<string, V>, s: System<V>, schedule: seq<Action<V>>, objects: Objects)
    requires Explained(doc0, s) && Runs(s, schedule, objects) && NeverDisturbed(s, schedule, objects)
    ensures Explained(doc0, Run(s, schedule, objects))
    decreases |schedule|
  {
    if schedule != [] {
      StepExplained(doc0, s, schedule[0], objects);
      UndisturbedExplained(doc0, Step(s, schedule[0], objects), schedule[1..], objects);
    }
  }

  function WholeCall<V>(t: nat, fn: Update<V>): seq<Action<V>> {
    [Start(t, Mutate(fn)), Lock(t), Load(t, false)] + [Apply(t), Save(t, false), Unlock(t)]
  }

  /** An uninterrupted call of an idle thread whose mutex is free. */
  lemma {:induction false} WholeCallRuns<V>(s: System<V>, t: nat, fn: Update<V>, objects: Objects)
    requires t !in s.threads && objects(t) !in s.holders && fn(s.doc).changed
    ensures Runs(s, WholeCall(t, fn), objects)
    ensures Run(s, WholeCall(t, fn), objects)
         == s.(doc := fn(s.doc).doc, started := s.started + [Started(t, Mutate(fn), |s.log|)],
               log := s.log + [Effect(|s.started|, t, Mutate(fn), Works, Done)],
               locks := s.locks + [t], returned := s.returned + [Return(|s.started|, t, Done, |s.log|)])
  {
    var loaded := LoadedAfter(s, t, fn, objects);
    var s1 := Step(loaded, Apply(t), objects);
    var s2 := Step(s1, Save(t, false), objects);
    var s3 := Step(s2, Unlock(t), objects);
    assert s3.threads == s.threads;
    assert s3.holders == s.holders;
    RunThree(loaded, Apply(t), Save(t, false), Unlock(t), objects, s3);
    RunAppend(s, [Start(t, Mutate(fn)), Lock(t), Load(t, false)], [Apply(t), Save(t, false), Unlock(t)], objects);
  }

  lemma {:induction false} LoadedAfter<V>(
      s: System<V>, t: nat, fn: Update<V>, objects: Objects) returns (loaded: System<V>)
    requires t !in s.threads && objects(t) !in s.holders
    ensures Runs(s, [Start(t, Mutate(fn)), Lock(t), Load(t, false)], objects)
    ensures loaded == Run(s, [Start(t, Mutate(fn)), Lock(t), Load(t, false)], objects)
    ensures loaded
              == s.(threads := s.threads[t := Loaded(|s.started|, fn, s.doc)], holders := s.holders[objects(t) := t],
                         started := s.started + [Started(t, Mutate(fn), |s.log|)], locks := s.locks + [t])
  {
    loaded := s.(threads := s.threads[t := Loaded(|s.started|, fn, s.doc)], holders := s.holders[objects(t) := t],
                 started := s.started + [Started(t, Mutate(fn), |s.log|)], locks := s.locks + [t]);
    RunThree(s, Start(t, Mutate(fn)), Lock(t), Load(t, false), objects, loaded);
  }

  /** The condition is needed. Thread 1, through an object of its own, loads
      to drop key b; thread 0 drops key a and is told so; thread 1 writes back
      what it loaded, and a is there again. */
  lemma {:induction false} OverlapLosesUpdate<V>(doc0: map<string, V>, a: string, b: string)
      returns (schedule: seq<Action<V>>, objects: Objects)
    requires a in doc0 && b in doc0 && a != b
    ensures Runs(Initially(doc0), schedule, objects)
    ensures Run(Initially(doc0), schedule, objects).doc == doc0 - {b}
    ensures Run(Initially(doc0), schedule, objects).returned == [Return(1, 0, Done, 0)]
    ensures |Run(Initially(doc0), schedule, objects).log| > 0
            && Run(Initially(doc0), schedule, objects).log[0].call == Mutate(Drop(a))
  {
    objects := t => t;
    var s0 := Initially(doc0);
    var begin: seq<Action<V>> := [Start(1, Mutate(Drop(b))), Lock(1), Load(1, false)];
    var end: seq<Action<V>> := [Apply(1), Save(1, false)];
    schedule := begin + (WholeCall(0, Drop(a)) + end);
    var s1 := LoadedAfter(s0, 1, Drop(b), objects);
    WholeCallRuns(s1, 0, Drop(a), objects);
    var s2 := Run(s1, WholeCall(0, Drop(a)), objects);
    var s3 := Step(s2, Apply(1), objects);
    var s4 := Step(s3, Save(1, false), objects);
    assert end[1..] == [Save(1, false)] && end[1..][1..] == [];
    assert Runs(s4, [], objects) && Run(s4, [], objects) == s4;
    assert Runs(s3, end[1..], objects);
    RunAppend(s1, WholeCall(0, Drop(a)), end, objects);
    RunAppend(s0, begin, WholeCall(0, Drop(a)) + end, objects);
  }

  lemma {:induction false} RunThree<V>(
      s: System<V>, a: Action<V>, b: Action<V>, c: Action<V>, objects: Objects, s': System<V>)
    requires Enabled(s, a, objects) && Enabled(Step(s, a, objects), b, objects)
    requires Enabled(Step(Step(s, a, objects), b, objects), c, objects)
    requires Step(Step(Step(s, a, objects), b, objects), c, objects) == s'
    ensures Runs(s, [a, b, c], objects) && Run(s, [a, b, c], objects) == s'
  {
    assert Runs(s', [], objects) && Run(s', [], objects) == s';
    assert [a, b, c][1..] == [b, c] && [b, c][1..] == [c] && [c][1..] == [];
    var s1 := Step(s, a, objects);
    var s2 := Step(s1, b, objects);
    assert Runs(s2, [c], objects) && Run(s2, [c], objects) == s';
    assert Runs(s1, [b, c], objects) && Run(s1, [b, c], objects) == s';
  }

  lemma {:induction false} RunAppend<V>(s: System<V>, xs: seq<Action<V>>, ys: seq<Action<V>>, objects: Objects)
    requires Runs(s, xs, objects) && Runs(Run(s, xs, objects), ys, objects)
    ensures Runs(s, xs + ys, objects)
    ensures Run(s, xs + ys, objects) == Run(Run(s, xs, objects), ys, objects)
    decreases |xs|
  {
    if xs == [] {
      assert xs + ys == ys;
    } else {
      assert (xs + ys)[1..] == xs[1..] + ys;
      RunAppend(Step(s, xs[0], objects), xs[1..], ys, objects);
    }
  }
}
