/** Session pruning over every run: beside the world runs a store that gets the
    same sessions and the same purges but never prunes, and nobody can tell the
    two apart. */
module SessionHistory {
  import opened Wrappers
  import opened AuthorizeForm
  import opened MapStore
  import opened Stores
  import opened Authorize
  import opened AuthorizeFacts
  import opened Lifecycle
  import opened Identity
  import opened Principals
  import opened People

  type Sessions = map<string, SessionRecord>

  /** The sessions a step started. */
  function Begun(before: Sessions, after: Sessions): Sessions {
    map t | t in after && t !in before :: after[t]
  }

  /** What one step makes of the store that never prunes. */
  function Unpruned(full: Sessions, before: Sessions, after: Sessions, e: Event): Sessions {
    if e.PurgeSessionsOf? then (if e.name == "" then full else Mutated(full, PurgeSessions(e.name), e.io))
    else full + Begun(before, after)
  }

  ghost function UnprunedAfter(cfg: Config, w: World, events: seq<Event>, full: Sessions): Sessions
    requires Serviceable(cfg) && Runs(cfg, w, events)
    decreases |events|
  {
    if events == [] then full
    else
      var w1 := Next(cfg, w, events[0]);
      UnprunedAfter(cfg, w1, events[1..], Unpruned(full, w.st.sessions, w1.st.sessions, events[0]))
  }

  /** The pruned store lacks nothing but what is expired. */
  ghost predicate Alike(w: World, full: Sessions) {
    OnlyLacksExpired(w.st.sessions, full, w.now) && full.Keys <= w.drawn
  }

  // ----- single steps ----------------------------------------------------

  /** A step that issues at most one session, under a fresh token, and prunes
      only then. */
  ghost predicate IssuesOrNot(before: Sessions, after: Sessions, drawn: Option<string>, now: int) {
    || after == before
    || (drawn.Some? && drawn.value in after && after == Unexpired(before, now)[drawn.value := after[drawn.value]])
  }

  lemma IssueSessions(cfg: Config, st: State, tail: Tail, flow: Flow, who: Grant)
    requires Serviceable(cfg)
    ensures IssuesOrNot(st.sessions, Issue(cfg, st, tail, flow, who).0.sessions, tail.sessionDraw, tail.now)
  {
    assert Issue(cfg, st, tail, flow, who).0.sessions == StartSession(cfg, st, tail, flow, who).sessions;
  }

  lemma ShapeSessions(cfg: Config, st: State, tail: Tail, flow: Flow, out: Outcome)
    requires Serviceable(cfg) && DispatchShape(cfg, st, tail, flow, out)
    ensures IssuesOrNot(st.sessions, out.st.sessions, tail.sessionDraw, tail.now)
  {
    if out.Done? && !(out.response.Show? && out.st == st) {
      var who :| MayIssue(flow, who) && (out.st, out.response) == Issue(cfg, st, tail, flow, who);
      IssueSessions(cfg, st, tail, flow, who);
    }
  }

  lemma PostSessions(cfg: Config, st: State, env: Env, post: Post) returns (out: Outcome)
    requires Serviceable(cfg)
    ensures out == AuthorizePost(cfg, st, env, post)
    ensures IssuesOrNot(st.sessions, out.st.sessions, env.tail.sessionDraw, env.tail.now)
  {
    var flow;
    flow, out := PostShape(cfg, st, env, post);
    var st1 := AfterIdentity(st, env, post.get("pairing_code"));
    if PassedGates(cfg, st, env, post, flow) && DispatchShape(cfg, st1, env.tail, flow, out) {
      ShapeSessions(cfg, st1, env.tail, flow, out);
    }
  }

  lemma FinishSessions(cfg: Config, st: State, tail: Tail, call: EnrollCall, result: EnrollResult)
    requires Serviceable(cfg)
    ensures IssuesOrNot(st.sessions, FinishEnroll(cfg, st, tail, call, result).0.sessions, tail.sessionDraw, tail.now)
  {
    var (st', response) := FinishEnroll(cfg, st, tail, call, result);
    if st' != st {
      var merged := Merged(st.principals, call.flow.who.name, result.binding);
      IssueSessions(cfg, st.(principals := merged), tail, call.flow,
          Grant(call.flow.who.name, merged[call.flow.who.name].binding));
    }
  }

  lemma IssueKeepsAlike(w: World, w': World, full: Sessions, drawn: Option<string>)
    requires Alike(w, full) && IssuesOrNot(w.st.sessions, w'.st.sessions, drawn, w.now)
    requires Drawn(drawn) !! w.drawn && w.drawn + Drawn(drawn) <= w'.drawn && w'.now == w.now
    ensures Alike(w', full + Begun(w.st.sessions, w'.st.sessions))
  {
    if w'.st.sessions != w.st.sessions {
      assert drawn.value !in full;
    }
  }

  lemma PurgeKeepsAlike(w: World, w': World, full: Sessions, name: string, io: Io)
    requires Alike(w, full) && w'.now == w.now && w'.drawn == w.drawn
    requires w'.st.sessions == if name == "" then w.st.sessions else Mutated(w.st.sessions, PurgeSessions(name), io)
    ensures Alike(w', if name == "" then full else Mutated(full, PurgeSessions(name), io))
  {
    if name != "" {
      assert Mutated(w.st.sessions, PurgeSessions(name), io) == if io.Works? then WithoutSessions(w.st.sessions, name)
          else w.st.sessions;
      assert Mutated(full, PurgeSessions(name), io) == if io.Works? then WithoutSessions(full, name) else full;
    }
  }

  lemma QuietKeepsAlike(w: World, w': World, full: Sessions)
    requires Alike(w, full) && w'.st.sessions == w.st.sessions && w.now <= w'.now && w.drawn <= w'.drawn
    ensures Alike(w', full + Begun(w.st.sessions, w'.st.sessions))
  {
    assert full + Begun(w.st.sessions, w'.st.sessions) == full;
  }

  lemma SubmitKeepsAlike(cfg: Config, w: World, id: nat, env: Env, post: Post, full: Sessions)
    requires Serviceable(cfg) && Lawful(w, Submit(id, env, post)) && Alike(w, full)
    ensures var w' := AfterSubmit(cfg, w, id, env, post);
            Alike(w', full + Begun(w.st.sessions, w'.st.sessions))
  {
    var out := PostSessions(cfg, w.st, env, post);
    IssueKeepsAlike(w, Submitted(w, id, env, post, out), full, env.tail.sessionDraw);
  }

  lemma CallbackKeepsAlike(cfg: Config, w: World, id: nat, tail: Tail, result: EnrollResult, full: Sessions)
    requires Serviceable(cfg) && Lawful(w, CallbackReturns(id, tail, result)) && Alike(w, full)
    ensures var w' := AfterCallback(cfg, w, id, tail, result);
            Alike(w', full + Begun(w.st.sessions, w'.st.sessions))
  {
    FinishSessions(cfg, w.st, tail, w.calling[id].call, result);
    IssueKeepsAlike(w, AfterCallback(cfg, w, id, tail, result), full, tail.sessionDraw);
  }

  lemma AdminKeepsSessions(st: State, e: Event)
    requires IsAdmin(e) && !e.PurgeSessionsOf?
    ensures AfterAdmin(st, e).sessions == st.sessions
  {
  }

  /** Only time moves the clock. */
  lemma OthersKeepTime(cfg: Config, w: World, e: Event)
    requires Serviceable(cfg) && Lawful(w, e) && !e.Submit? && !e.CallbackReturns? && !IsAdmin(e)
    ensures w.now <= Next(cfg, w, e).now
  {
  }

  lemma NextKeepsAlike(cfg: Config, w: World, e: Event, full: Sessions)
    requires Serviceable(cfg) && Lawful(w, e) && Alike(w, full)
    ensures Alike(Next(cfg, w, e), Unpruned(full, w.st.sessions, Next(cfg, w, e).st.sessions, e))
  {
    if e.Submit? {
      SubmitKeepsAlike(cfg, w, e.id, e.env, e.post, full);
    } else if e.CallbackReturns? {
      CallbackKeepsAlike(cfg, w, e.id, e.tail, e.result, full);
    } else if e.PurgeSessionsOf? {
      PurgeKeepsAlike(w, Next(cfg, w, e), full, e.name, e.io);
    } else if IsAdmin(e) {
      AdminKeepsSessions(w.st, e);
      QuietKeepsAlike(w, Next(cfg, w, e), full);
    } else {
      OthersLeavePeople(cfg, w, e);
      OthersKeepTime(cfg, w, e);
      QuietKeepsAlike(w, Next(cfg, w, e), full);
    }
  }

  lemma {:induction false} AlwaysAlike(cfg: Config, w: World, events: seq<Event>, full: Sessions)
    requires Serviceable(cfg) && Alike(w, full) && Runs(cfg, w, events)
    ensures Alike(After(cfg, w, events), UnprunedAfter(cfg, w, events, full))
    decreases |events|
  {
    if events != [] {
      var w1 := Next(cfg, w, events[0]);
      NextKeepsAlike(cfg, w, events[0], full);
      AlwaysAlike(cfg, w1, events[1..], Unpruned(full, w.st.sessions, w1.st.sessions, events[0]));
    }
  }

  // ----- the theorem -----------------------------------------------------

  /** In every reachable world, whoever a submission is recognized as, by code or
      by session, is whoever it would be had no session ever been pruned. */
  lemma PruningNeverShows(cfg: Config, now: int, events: seq<Event>, env: Env, entered: string, cookie: string)
    requires Serviceable(cfg) && Runs(cfg, Start(now), events)
    requires env.now == After(cfg, Start(now), events).now
    ensures var st := After(cfg, Start(now), events).st;
            VerifyIdentity(cfg, st, env, entered, cookie)
            == VerifyIdentity(cfg, st.(sessions := UnprunedAfter(cfg, Start(now), events, map[])), env, entered, cookie)
  {
    AlwaysAlike(cfg, Start(now), events, map[]);
    RecognizedAlike(cfg, After(cfg, Start(now), events), UnprunedAfter(cfg, Start(now), events, map[]), env, entered,
        cookie);
  }

  lemma RecognizedAlike(cfg: Config, w: World, full: Sessions, env: Env, entered: string, cookie: string)
    requires Alike(w, full) && env.now == w.now
    ensures VerifyIdentity(cfg, w.st, env, entered, cookie)
              == VerifyIdentity(cfg, w.st.(sessions := full), env, entered, cookie)
  {
    assert LiveSession(w.st.sessions, cookie, env.now) == LiveSession(full, cookie, env.now);
  }

  // ----- every response --------------------------------------------------

  /** The same with full as the session store: the same response or callback, the
      same effect on everything else, and the same sessions begun. */
  ghost predicate SameOutcome(st: State, out: Outcome, full: Sessions, out': Outcome) {
    && (if out.Done? then out'.Done? && out'.response == out.response else out'.Asks? && out'.call == out.call)
    && SameEffect(st, out.st, full, out'.st)
  }

  ghost predicate SameEffect(st: State, after: State, full: Sessions, after': State) {
    && after' == after.(sessions := after'.sessions)
    && Begun(full, after'.sessions) == Begun(st.sessions, after.sessions)
  }

  ghost predicate FreshIn(drawn: Option<string>, sessions: Sessions) { drawn.Some? ==> drawn.value !in sessions }

  lemma StartAlike(cfg: Config, st: State, full: Sessions, tail: Tail, flow: Flow, who: Grant)
    requires FreshIn(tail.sessionDraw, st.sessions) && FreshIn(tail.sessionDraw, full)
    ensures SameEffect(st, StartSession(cfg, st, tail, flow, who),
                       full, StartSession(cfg, st.(sessions := full), tail, flow, who))
  {
    match SessionToken(cfg, tail, flow) {
      case None => BegunNone(st.sessions, full);
      case Some(token) =>
        var rec := SessionFor(who, tail.now + cfg.sessionTTL);
        BegunOne(st.sessions, tail.now, token, rec);
        BegunOne(full, tail.now, token, rec);
    }
  }

  lemma IssueAlike(cfg: Config, st: State, full: Sessions, tail: Tail, flow: Flow, who: Grant)
    requires Serviceable(cfg) && FreshIn(tail.sessionDraw, st.sessions) && FreshIn(tail.sessionDraw, full)
    ensures Issue(cfg, st.(sessions := full), tail, flow, who).1 == Issue(cfg, st, tail, flow, who).1
    ensures SameEffect(st, Issue(cfg, st, tail, flow, who).0, full,
              Issue(cfg, st.(sessions := full), tail, flow, who).0)
  {
    StartAlike(cfg, st, full, tail, flow, who);
    var st1, st1' := StartSession(cfg, st, tail, flow, who), StartSession(cfg, st.(sessions := full), tail, flow, who);
    IssuesCode(cfg, st, tail, flow, who, st1);
    IssuesCode(cfg, st.(sessions := full), tail, flow, who, st1');
  }

  /** What issuing adds to the state in which the session is started. */
  lemma IssuesCode(cfg: Config, st: State, tail: Tail, flow: Flow, who: Grant, st1: State)
    requires Serviceable(cfg) && st1 == StartSession(cfg, st, tail, flow, who)
    ensures Issue(cfg, st, tail, flow, who).0
         == if tail.codeDraw.None? then st1
            else st1.(codes := st.codes[tail.codeDraw.value := CodeGrant(cfg, tail, flow, who)])
  {
  }

  lemma BegunNone(before: Sessions, full: Sessions)
    ensures Begun(before, before) == map[] == Begun(full, full)
  {
  }

  lemma BegunOne(before: Sessions, now: int, token: string, rec: SessionRecord)
    requires token !in before
    ensures Begun(before, Unexpired(before, now)[token := rec]) == map[token := rec]
  {
  }

  lemma DispatchAlike(cfg: Config, st: State, full: Sessions, tail: Tail, flow: Flow, get: string -> string)
    requires Serviceable(cfg) && FreshIn(tail.sessionDraw, st.sessions) && FreshIn(tail.sessionDraw, full)
    ensures SameOutcome(st, Dispatch(cfg, st, tail, flow, get), full,
              Dispatch(cfg, st.(sessions := full), tail, flow, get))
  {
    assert SameEffect(st, st, full, st.(sessions := full));
    var sets := ResolveSets(flow, Classify(get).BindingChoice?, Choices(get));
    if sets.Ok? {
      IssueAlike(cfg, st, full, tail, flow, sets.value);
    }
  }

  lemma PostAlike(cfg: Config, st: State, full: Sessions, env: Env, post: Post)
    requires Serviceable(cfg) && OnlyLacksExpired(st.sessions, full, env.now)
    requires FreshIn(env.tail.sessionDraw, full)
    ensures SameOutcome(st, AuthorizePost(cfg, st, env, post), full,
              AuthorizePost(cfg, st.(sessions := full), env, post))
  {
    AdmitAlike(cfg, st, full, env, Parse(post.get), post.get("pairing_code"), post.cookie);
    match Admit(cfg, st, env, Parse(post.get), post.get("pairing_code"), post.cookie) {
      case Turned(_, _) => BegunNone(st.sessions, full);
      case Admitted(st1, flow) => DispatchAlike(cfg, st1, full, env.tail, flow, post.get);
    }
  }

  /** The gates let the same people in. */
  lemma AdmitAlike(cfg: Config, st: State, full: Sessions, env: Env, p: AuthParams, entered: string, cookie: string)
    requires OnlyLacksExpired(st.sessions, full, env.now)
    ensures var gate, gate' := Admit(cfg, st, env, p, entered, cookie),
              Admit(cfg, st.(sessions := full), env, p, entered, cookie);
            && gate.st.sessions == st.sessions
            && gate' == gate.(st := gate.st.(sessions := full))
  {
    assert LiveSession(st.sessions, cookie, env.now) == LiveSession(full, cookie, env.now);
    assert VerifyIdentity(cfg, st, env, entered, cookie)
        == VerifyIdentity(cfg, st.(sessions := full), env, entered, cookie);
    assert ValidatedRequest(cfg, st.(sessions := full), env.clientsIo, p)
        == ValidatedRequest(cfg, st, env.clientsIo, p);
  }

  lemma FinishAlike(cfg: Config, st: State, full: Sessions, tail: Tail, call: EnrollCall, result: EnrollResult)
    requires Serviceable(cfg) && FreshIn(tail.sessionDraw, st.sessions) && FreshIn(tail.sessionDraw, full)
    ensures var (after, response) := FinishEnroll(cfg, st, tail, call, result);
            var (after', response') := FinishEnroll(cfg, st.(sessions := full), tail, call, result);
            response' == response && SameEffect(st, after, full, after')
  {
    assert SameEffect(st, st, full, st.(sessions := full));
    if result.EnrollResult? && result.choice.None? && result.binding != map[] && tail.mergeIo.Works?
       && call.flow.who.name in st.principals {
      var merged := Merged(st.principals, call.flow.who.name, result.binding);
      IssueAlike(cfg, st.(principals := merged), full, tail, call.flow,
                 Grant(call.flow.who.name, merged[call.flow.who.name].binding));
    }
  }

  /** In every reachable world, with whatever a lawful step meets, a server that
      never pruned a session gives the same response to every GET, every
      submission and every callback's result, with the same effect on everything
      but the expired sessions it still holds. */
  lemma NeverPruningAnswersAlike(cfg: Config, now: int, events: seq<Event>)
    requires Serviceable(cfg) && Runs(cfg, Start(now), events)
    ensures var w := After(cfg, Start(now), events);
            var full := UnprunedAfter(cfg, Start(now), events, map[]);
            && (forall env: Env, p, cookie :: env.now == w.now ==>
                  AuthorizeGet(cfg, w.st.(sessions := full), env, p, cookie) == AuthorizeGet(cfg, w.st, env, p, cookie))
            && (forall id, env, post :: Lawful(w, Submit(id, env, post)) ==>
                  SameOutcome(w.st, AuthorizePost(cfg, w.st, env, post),
                              full, AuthorizePost(cfg, w.st.(sessions := full), env, post)))
            && (forall id, tail, result :: Lawful(w, CallbackReturns(id, tail, result)) ==>
                  SameFinish(cfg, w, full, tail, w.calling[id].call, result))
  {
    AlwaysAlike(cfg, Start(now), events, map[]);
    var w := After(cfg, Start(now), events);
    var full := UnprunedAfter(cfg, Start(now), events, map[]);
    forall env: Env, p, cookie | env.now == w.now
      ensures AuthorizeGet(cfg, w.st.(sessions := full), env, p, cookie) == AuthorizeGet(cfg, w.st, env, p, cookie)
    {
      GetAlike(cfg, w, full, env, p, cookie);
    }
    forall id, env, post | Lawful(w, Submit(id, env, post))
      ensures SameOutcome(w.st, AuthorizePost(cfg, w.st, env, post),
                          full, AuthorizePost(cfg, w.st.(sessions := full), env, post))
    {
      SubmitAlike(cfg, w, full, id, env, post);
    }
    forall id, tail, result | Lawful(w, CallbackReturns(id, tail, result))
      ensures SameFinish(cfg, w, full, tail, w.calling[id].call, result)
    {
      CallbackAlike(cfg, w, full, id, tail, result);
    }
  }

  ghost predicate SameFinish(cfg: Config, w: World, full: Sessions, tail: Tail, call: EnrollCall, result: EnrollResult)
    requires Serviceable(cfg)
  {
    var (after, response) := FinishEnroll(cfg, w.st, tail, call, result);
    var (after', response') := FinishEnroll(cfg, w.st.(sessions := full), tail, call, result);
    response' == response && SameEffect(w.st, after, full, after')
  }

  lemma GetAlike(cfg: Config, w: World, full: Sessions, env: Env, p: AuthParams, cookie: string)
    requires Alike(w, full) && env.now == w.now
    ensures AuthorizeGet(cfg, w.st.(sessions := full), env, p, cookie) == AuthorizeGet(cfg, w.st, env, p, cookie)
  {
    assert LiveSession(w.st.sessions, cookie, env.now) == LiveSession(full, cookie, env.now);
  }

  lemma SubmitAlike(cfg: Config, w: World, full: Sessions, id: nat, env: Env, post: Post)
    requires Serviceable(cfg) && Alike(w, full) && Lawful(w, Submit(id, env, post))
    ensures SameOutcome(w.st, AuthorizePost(cfg, w.st, env, post), full,
              AuthorizePost(cfg, w.st.(sessions := full), env, post))
  {
    assert FreshIn(env.tail.sessionDraw, full);
    PostAlike(cfg, w.st, full, env, post);
  }

  lemma CallbackAlike(cfg: Config, w: World, full: Sessions, id: nat, tail: Tail, result: EnrollResult)
    requires Serviceable(cfg) && Alike(w, full) && Lawful(w, CallbackReturns(id, tail, result))
    ensures SameFinish(cfg, w, full, tail, w.calling[id].call, result)
  {
    assert FreshIn(tail.sessionDraw, full) && FreshIn(tail.sessionDraw, w.st.sessions);
    FinishAlike(cfg, w.st, full, tail, w.calling[id].call, result);
  }
}
