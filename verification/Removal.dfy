/** RemovePrincipal over every run: once it has finished, the name is gone by
    code and by session until it is added again, its sessions never come back,
    and whatever is still minted for it was under way before. */
module Removal {
  import opened Wrappers
  import opened MapStore
  import opened Stores
  import opened Authorize
  import opened AuthorizeFacts
  import opened Lifecycle
  import opened GrantLines
  import opened People

  // ----- while the name has no record ------------------------------------

  ghost predicate NoSessionFor(w: World, name: string) {
    forall t :: t in w.st.sessions ==> w.st.sessions[t].principal != name
  }

  ghost predicate SessionsDrawn(w: World) { w.st.sessions.Keys <= w.drawn }

  /** What w' authorized since w is for other names. */
  ghost predicate OthersAuthorized(w: World, w': World, name: string) {
    forall c :: c in w'.auths && c !in w.auths ==> w'.auths[c].grant.principal.name != name
  }

  /** What one step does to a name without a record. */
  ghost predicate AbsentStep(w: World, w': World, name: string) {
    && (NoSessionFor(w, name) ==> NoSessionFor(w', name))
    && OthersAuthorized(w, w', name)
  }

  lemma SubmitWhileAbsent(cfg: Config, w: World, id: nat, env: Env, post: Post, name: string)
    requires Serviceable(cfg) && Keyed(w) && FreshTail(w, env.tail)
    requires name != "" && name !in w.st.principals
    ensures AbsentStep(w, AfterSubmit(cfg, w, id, env, post), name)
  {
    var out := PostMembersOnly(cfg, w.st, env, post);
    PostIssuesOne(cfg, w.st, env, post);
    FlowWhileAbsent(w, AfterSubmit(cfg, w, id, env, post), out, env, post, name);
  }

  lemma FlowWhileAbsent(w: World, w': World, out: Outcome, env: Env, post: Post, name: string)
    requires Keyed(w) && FreshTail(w, env.tail) && name != "" && name !in w.st.principals
    requires MembersOnly(w.st, out.st, env.tail) && OutcomeIssuesOne(w.st, out, env.tail.codeDraw)
    requires w'.st == out.st
    requires w'.auths == if out.Done? then Noted(w.auths, out.st, out.response, Origin(w.st, env, post, false))
              else w.auths
    ensures AbsentStep(w, w', name)
  {
  }

  lemma CallbackWhileAbsent(cfg: Config, w: World, id: nat, tail: Tail, result: EnrollResult, name: string)
    requires Serviceable(cfg) && Keyed(w) && FreshTail(w, tail) && id in w.calling
    requires name != "" && name !in w.st.principals
    ensures AbsentStep(w, AfterCallback(cfg, w, id, tail, result), name)
  {
    FinishMembersOnly(cfg, w.st, tail, w.calling[id].call, result);
    FinishIssuesOne(cfg, w.st, tail, w.calling[id].call, result);
  }

  lemma AdminWhileAbsent(w: World, e: Event, name: string)
    requires IsAdmin(e)
    ensures AbsentStep(w, w.(st := AfterAdmin(w.st, e), printed := w.printed + AdminPrints(e)), name)
  {
    assert forall t :: t in AfterAdmin(w.st, e).sessions ==>
        t in w.st.sessions && AfterAdmin(w.st, e).sessions[t] == w.st.sessions[t];
  }

  lemma NextWhileAbsent(cfg: Config, w: World, e: Event, name: string)
    requires Serviceable(cfg) && Lawful(w, e) && Keyed(w)
    requires name != "" && name !in w.st.principals
    ensures AbsentStep(w, Next(cfg, w, e), name)
  {
    if e.Submit? {
      SubmitWhileAbsent(cfg, w, e.id, e.env, e.post, name);
    } else if e.CallbackReturns? {
      CallbackWhileAbsent(cfg, w, e.id, e.tail, e.result, name);
    } else if IsAdmin(e) {
      AdminWhileAbsent(w, e, name);
    } else {
      OthersLeavePeople(cfg, w, e);
    }
  }

  /** Until the name is added again it stays without a record; no session is
      started for it and no code issued to it. */
  lemma {:induction false} StaysAbsent(cfg: Config, w: World, events: seq<Event>, name: string)
    requires Serviceable(cfg) && Sound(cfg, w) && Runs(cfg, w, events)
    requires name != "" && name !in w.st.principals && NeverAdds(events, name)
    ensures name !in After(cfg, w, events).st.principals
    ensures AbsentStep(w, After(cfg, w, events), name)
    decreases |events|
  {
    if events != [] {
      var w1 := Next(cfg, w, events[0]);
      NextMembers(cfg, w, events[0], name);
      NextWhileAbsent(cfg, w, events[0], name);
      NextSound(cfg, w, events[0]);
      assert forall i :: 0 <= i < |events[1..]| ==> events[1..][i] == events[i + 1];
      StaysAbsent(cfg, w1, events[1..], name);
      NextNoRevival(cfg, w, events[0]);
      LinesNeverRevive(cfg, w1, events[1..], "");
    }
  }

  // ----- sessions do not come back ---------------------------------------

  /** A session token once drawn is stored later only if it is now, and with
      the same record. */
  ghost predicate NoSessionBack(w: World, w': World) {
    && w.drawn <= w'.drawn && SessionsDrawn(w')
    && forall t :: t in w.drawn && t in w'.st.sessions ==> t in w.st.sessions && w'.st.sessions[t] == w.st.sessions[t]
  }

  /** New sessions only under the token drawn. */
  lemma FreshSessions(w: World, w': World, drawn: Option<string>)
    requires SessionsDrawn(w) && Drawn(drawn) !! w.drawn && w.drawn + Drawn(drawn) <= w'.drawn
    requires SessionsFor(w.st.principals, w.st.sessions, w'.st.sessions, drawn)
    ensures NoSessionBack(w, w')
  {
  }

  lemma SubmitSessions(cfg: Config, w: World, id: nat, env: Env, post: Post)
    requires Serviceable(cfg) && SessionsDrawn(w) && FreshTail(w, env.tail)
    ensures NoSessionBack(w, AfterSubmit(cfg, w, id, env, post))
  {
    var out := PostMembersOnly(cfg, w.st, env, post);
    FreshSessions(w, AfterSubmit(cfg, w, id, env, post), env.tail.sessionDraw);
  }

  lemma CallbackSessions(cfg: Config, w: World, id: nat, tail: Tail, result: EnrollResult)
    requires Serviceable(cfg) && SessionsDrawn(w) && FreshTail(w, tail) && id in w.calling
    ensures NoSessionBack(w, AfterCallback(cfg, w, id, tail, result))
  {
    FinishMembersOnly(cfg, w.st, tail, w.calling[id].call, result);
    FreshSessions(w, AfterCallback(cfg, w, id, tail, result), tail.sessionDraw);
  }

  lemma AdminSessions(st: State, e: Event)
    requires IsAdmin(e)
    ensures forall t :: t in AfterAdmin(st, e).sessions ==>
              t in st.sessions && AfterAdmin(st, e).sessions[t] == st.sessions[t]
  {
  }

  lemma NextSessions(cfg: Config, w: World, e: Event)
    requires Serviceable(cfg) && Lawful(w, e) && SessionsDrawn(w)
    ensures NoSessionBack(w, Next(cfg, w, e))
  {
    if e.Submit? {
      SubmitSessions(cfg, w, e.id, e.env, e.post);
    } else if e.CallbackReturns? {
      CallbackSessions(cfg, w, e.id, e.tail, e.result);
    } else if IsAdmin(e) {
      AdminSessions(w.st, e);
    } else {
      OthersLeavePeople(cfg, w, e);
    }
  }

  /** Over every run, with removals and additions in any order. */
  lemma {:induction false} SessionsStayDead(cfg: Config, w: World, events: seq<Event>)
    requires Serviceable(cfg) && SessionsDrawn(w) && Runs(cfg, w, events)
    ensures NoSessionBack(w, After(cfg, w, events))
    decreases |events|
  {
    if events != [] {
      NextSessions(cfg, w, events[0]);
      SessionsStayDead(cfg, Next(cfg, w, events[0]), events[1..]);
    }
  }

  // ----- the removal -----------------------------------------------------

  ghost predicate Leads(cfg: Config, w: World, events: seq<Event>, w': World)
    requires Serviceable(cfg)
  {
    Runs(cfg, w, events) && After(cfg, w, events) == w'
  }

  /** A store operation of the removal happens at w and reports success, and
      the world goes on to w' without the name being added. */
  ghost predicate Stage(cfg: Config, w: World, e: Event, events: seq<Event>, w': World, name: string)
    requires Serviceable(cfg)
  {
    && IsAdmin(e) && Reported(w.st, e)
    && NeverAdds(events, name) && Leads(cfg, Next(cfg, w, e), events, w')
  }

  predicate Reported(st: State, e: Event) {
    match e
    case RemoveRecord(name, io) => MutateOk(st.principals, Drop(name), io)
    case PurgeRefreshOf(name, io) => MutateOk(st.refresh, PurgeRefresh(name), io)
    case PurgeSessionsOf(name, io) => MutateOk(st.sessions, PurgeSessions(name), io)
    case _ => false
  }

  /** The world before the removal, the ones in which its three store
      operations happen (record, refresh tokens, sessions, with anything in
      between), and a world after it. */
  datatype Removed = Removed(before: World, refresh: World, sessions: World, later: World)

  ghost predicate RemovalRun(
      cfg: Config, name: string, r: Removed, io: Io, io1: Io, io2: Io, a: seq<Event>, b: seq<Event>, c: seq<Event>)
    requires Serviceable(cfg)
  {
    && name != ""
    && Stage(cfg, r.before, RemoveRecord(name, io), a, r.refresh, name)
    && Stage(cfg, r.refresh, PurgeRefreshOf(name, io1), b, r.sessions, name)
    && Stage(cfg, r.sessions, PurgeSessionsOf(name, io2), c, r.later, name)
  }

  /** The world just after the refresh tokens went. */
  ghost function AtPurge(cfg: Config, r: Removed, name: string, io1: Io): World
    requires Serviceable(cfg)
  {
    Next(cfg, r.refresh, PurgeRefreshOf(name, io1))
  }

  /** One stage, for a name that has no record once its operation is done. */
  lemma StageAbsent(cfg: Config, w: World, e: Event, events: seq<Event>, w': World, name: string)
    requires Serviceable(cfg) && Sound(cfg, w) && SessionsDrawn(w) && name != ""
    requires Stage(cfg, w, e, events, w', name)
    requires name !in Next(cfg, w, e).st.principals
    ensures Sound(cfg, w') && SessionsDrawn(w') && name !in w'.st.principals
    ensures Sound(cfg, Next(cfg, w, e)) && AbsentStep(Next(cfg, w, e), w', name)
    ensures NoSessionBack(Next(cfg, w, e), w') && Accumulates(Next(cfg, w, e), w')
    ensures Next(cfg, w, e).auths == w.auths && Next(cfg, w, e).tokens == w.tokens && Next(cfg, w, e).drawn == w.drawn
  {
    var w1 := Next(cfg, w, e);
    NextSound(cfg, w, e);
    NextSessions(cfg, w, e);
    AlwaysSound(cfg, w1, events);
    StaysAbsent(cfg, w1, events, name);
    SessionsStayDead(cfg, w1, events);
    LinesNeverRevive(cfg, w1, events, "");
  }

  /** What the operations themselves take away. */
  lemma RemovesRecord(cfg: Config, w: World, name: string, io: Io)
    requires Serviceable(cfg) && Reported(w.st, RemoveRecord(name, io))
    ensures name !in Next(cfg, w, RemoveRecord(name, io)).st.principals
  {
  }

  lemma PurgesRefresh(cfg: Config, w: World, name: string, io: Io)
    requires Serviceable(cfg) && name != "" && Reported(w.st, PurgeRefreshOf(name, io))
    ensures var w' := Next(cfg, w, PurgeRefreshOf(name, io));
            w'.st.principals == w.st.principals && forall t :: t in w'.st.refresh ==>
                w'.st.refresh[t].principal.name != name
  {
  }

  lemma PurgesSessions(cfg: Config, w: World, name: string, io: Io)
    requires Serviceable(cfg) && name != "" && Reported(w.st, PurgeSessionsOf(name, io))
    ensures var w' := Next(cfg, w, PurgeSessionsOf(name, io));
            w'.st.principals == w.st.principals && NoSessionFor(w', name)
  {
  }

  // ----- the theorems ----------------------------------------------------

  ghost predicate RemovalKept(cfg: Config, name: string, r: Removed, io1: Io)
    requires Serviceable(cfg)
  {
    var p := AtPurge(cfg, r, name, io1);
    && Sound(cfg, r.before) && Sound(cfg, p) && Sound(cfg, r.later) && SessionsDrawn(r.later)
    && name !in r.later.st.principals && NoSessionFor(r.later, name)
    && OthersAuthorized(r.before, p, name) && OthersAuthorized(p, r.later, name)
    && Accumulates(r.before, p) && Accumulates(p, r.later)
    && NoSessionBack(r.before, r.later)
  }

  lemma RemovalStages(
      cfg: Config, name: string, r: Removed, io: Io, io1: Io, io2: Io, a: seq<Event>, b: seq<Event>, c: seq<Event>)
    requires Serviceable(cfg) && Sound(cfg, r.before) && SessionsDrawn(r.before)
    requires RemovalRun(cfg, name, r, io, io1, io2, a, b, c)
    ensures RemovalKept(cfg, name, r, io1)
  {
    RemovesRecord(cfg, r.before, name, io);
    StageAbsent(cfg, r.before, RemoveRecord(name, io), a, r.refresh, name);
    NextSessions(cfg, r.before, RemoveRecord(name, io));
    PurgesRefresh(cfg, r.refresh, name, io1);
    StageAbsent(cfg, r.refresh, PurgeRefreshOf(name, io1), b, r.sessions, name);
    NextSessions(cfg, r.refresh, PurgeRefreshOf(name, io1));
    PurgesSessions(cfg, r.sessions, name, io2);
    StageAbsent(cfg, r.sessions, PurgeSessionsOf(name, io2), c, r.later, name);
    NextSessions(cfg, r.sessions, PurgeSessionsOf(name, io2));
  }

  lemma StartReaches(cfg: Config, now: int, events: seq<Event>, w: World)
    requires Serviceable(cfg) && Leads(cfg, Start(now), events, w)
    ensures Sound(cfg, w) && SessionsDrawn(w)
  {
    StartSound(cfg, now);
    AlwaysSound(cfg, Start(now), events);
    SessionsStayDead(cfg, Start(now), events);
  }

  /** Once RemovePrincipal has finished, and until the name is added again,
      no code and no session is recognized as that name. */
  lemma RemovedIsGone(
      cfg: Config, now: int, past: seq<Event>, name: string, r: Removed, io: Io, io1: Io, io2: Io, a: seq<Event>,
      b: seq<Event>, c: seq<Event>)
    requires Serviceable(cfg) && Leads(cfg, Start(now), past, r.before)
              && RemovalRun(cfg, name, r, io, io1, io2, a, b, c)
    ensures name !in r.later.st.principals && NoSessionFor(r.later, name)
    ensures forall env, entered, cookie :: VerifyIdentity(cfg, r.later.st, env, entered, cookie).Recognized?
              ==> VerifyIdentity(cfg, r.later.st, env, entered, cookie).grant.name != name
  {
    StartReaches(cfg, now, past, r.before);
    RemovalStages(cfg, name, r, io, io1, io2, a, b, c);
    forall env, entered, cookie | VerifyIdentity(cfg, r.later.st, env, entered, cookie).Recognized?
      ensures VerifyIdentity(cfg, r.later.st, env, entered, cookie).grant.name != name
    {
      RecognizedIsCurrent(cfg, r.later.st, env, entered, cookie);
    }
  }

  /** A session the name had before the removal is dead ever after, even when
      the name is added again: no later world recognizes anybody by it. */
  lemma OldSessionsStayDead(
      cfg: Config, now: int, past: seq<Event>, name: string, r: Removed, io: Io, io1: Io, io2: Io, a: seq<Event>,
      b: seq<Event>, c: seq<Event>,
                                               d: seq<Event>, token: string, env: Env)
    requires Serviceable(cfg) && Leads(cfg, Start(now), past, r.before)
              && RemovalRun(cfg, name, r, io, io1, io2, a, b, c)
    requires token in r.before.st.sessions && r.before.st.sessions[token].principal == name
    requires Runs(cfg, r.later, d)
    ensures token !in After(cfg, r.later, d).st.sessions
    ensures !VerifyIdentity(cfg, After(cfg, r.later, d).st, env, "", token).Recognized?
  {
    StartReaches(cfg, now, past, r.before);
    RemovalStages(cfg, name, r, io, io1, io2, a, b, c);
    assert token in r.before.drawn && token !in r.later.st.sessions;
    SessionsStayDead(cfg, r.later, d);
    UnknownCookie(cfg, After(cfg, r.later, d).st, env, token);
  }

  lemma UnknownCookie(cfg: Config, st: State, env: Env, token: string)
    requires token !in st.sessions
    ensures !VerifyIdentity(cfg, st, env, "", token).Recognized?
  {
  }

  /** Line l belongs to name, was authorized and still held somewhere before
      the removal, and when the refresh tokens went it was held by its
      unredeemed code or by a token request under way. */
  ghost predicate UnderWay(before: World, purged: World, l: string, name: string) {
    && l in before.auths && before.auths[l].grant.principal.name == name && Carried(before, l)
    && (l in purged.st.codes || exists id :: id in purged.requests && purged.requests[id].line == l)
  }

  /** Every access token minted for the name after its refresh tokens were
      purged comes from such a line. */
  lemma LaterTokensWereUnderWay(
      cfg: Config, now: int, past: seq<Event>, name: string, r: Removed, io: Io, io1: Io, io2: Io, a: seq<Event>,
      b: seq<Event>, c: seq<Event>, i: nat)
    requires Serviceable(cfg) && Leads(cfg, Start(now), past, r.before)
              && RemovalRun(cfg, name, r, io, io1, io2, a, b, c)
    requires |AtPurge(cfg, r, name, io1).tokens| <= i < |r.later.tokens|
    requires r.later.tokens[i].token.claims.principal == name
    ensures UnderWay(r.before, AtPurge(cfg, r, name, io1), r.later.tokens[i].line, name)
  {
    StartReaches(cfg, now, past, r.before);
    RemovalStages(cfg, name, r, io, io1, io2, a, b, c);
    var l := r.later.tokens[i].line;
    var p := AtPurge(cfg, r, name, io1);
    assert TokenSays(cfg, r.later.tokens[i].token, r.later.auths[l].grant);
    assert l in p.auths && l in r.before.auths;
    assert MintedOn(p, r.later, l);
    RemovalHistory(cfg, name, r, io, io1, io2, a, b, c, l);
    PurgesRefresh(cfg, r.refresh, name, io1);
    CarriedWhere(p, l);
  }

  /** The line never revives, from before the removal and from the purge. */
  lemma RemovalHistory(
      cfg: Config, name: string, r: Removed, io: Io, io1: Io, io2: Io, a: seq<Event>, b: seq<Event>, c: seq<Event>,
      l: string)
    requires Serviceable(cfg) && Sound(cfg, r.before) && SessionsDrawn(r.before)
    requires RemovalRun(cfg, name, r, io, io1, io2, a, b, c)
    ensures NotRevived(r.before, AtPurge(cfg, r, name, io1), l)
    ensures NotRevived(AtPurge(cfg, r, name, io1), r.later, l)
  {
    var e, e1, e2 := RemoveRecord(name, io), PurgeRefreshOf(name, io1), PurgeSessionsOf(name, io2);
    var w2 := Next(cfg, r.refresh, e1);
    StepHistory(cfg, r.before, e, a, r.refresh, l);
    OneStep(cfg, r.refresh, e1, l);
    NotRevivedTransitive(r.before, r.refresh, w2, l);
    NextSound(cfg, r.refresh, e1);
    AlwaysSound(cfg, w2, b);
    LinesNeverRevive(cfg, w2, b, l);
    StepHistory(cfg, r.sessions, e2, c, r.later, l);
    NotRevivedTransitive(w2, r.sessions, r.later, l);
  }

  lemma OneStep(cfg: Config, w: World, e: Event, l: string)
    requires Serviceable(cfg) && Sound(cfg, w) && Lawful(w, e)
    ensures Accumulates(w, Next(cfg, w, e)) && NotRevived(w, Next(cfg, w, e), l)
  {
    NextNoRevival(cfg, w, e);
    StepNotRevived(w, Next(cfg, w, e), l);
  }

  lemma StepHistory(cfg: Config, w: World, e: Event, events: seq<Event>, w': World, l: string)
    requires Serviceable(cfg) && Sound(cfg, w) && Lawful(w, e) && Leads(cfg, Next(cfg, w, e), events, w')
    ensures Sound(cfg, w') && Accumulates(w, w') && NotRevived(w, w', l)
  {
    OneStep(cfg, w, e, l);
    NextSound(cfg, w, e);
    AlwaysSound(cfg, Next(cfg, w, e), events);
    LinesNeverRevive(cfg, Next(cfg, w, e), events, l);
    NotRevivedTransitive(w, Next(cfg, w, e), w', l);
  }

  /** Whatever fails or not, the operations of a removal leave the operator,
      the clients, the codes and everything of the other names as they were. */
  lemma RemovalTouchesOnlyTheName(st: State, name: string, io: Io, io1: Io, io2: Io)
    requires name != ""
    ensures var st' := AfterAdmin(AfterAdmin(AfterAdmin(st, RemoveRecord(name, io)), PurgeRefreshOf(name, io1)),
              PurgeSessionsOf(name, io2));
            && st'.operatorCode == st.operatorCode && st'.clients == st.clients && st'.codes == st.codes
            && st'.principals - {name} == st.principals - {name}
            && WithoutRefresh(st'.refresh, name) == WithoutRefresh(st.refresh, name)
            && WithoutSessions(st'.sessions, name) == WithoutSessions(st.sessions, name)
  {
    var st1 := AfterAdmin(st, RemoveRecord(name, io));
    var st2 := AfterAdmin(st1, PurgeRefreshOf(name, io1));
    var st3 := AfterAdmin(st2, PurgeSessionsOf(name, io2));
    assert st1.principals - {name} == st.principals - {name};
    assert WithoutRefresh(st2.refresh, name) == WithoutRefresh(st.refresh, name);
    assert WithoutSessions(st3.sessions, name) == WithoutSessions(st.sessions, name);
  }
}
