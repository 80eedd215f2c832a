/** What taking an authorize POST as one step leaves open: between identifying the
    person and issuing, the name may be removed. The submission does not notice,
    and a session it starts then works again once the name is added. */
module LateIssue {
  import opened Wrappers
  import opened Identity
  import opened PairingCode
  import opened Principals
  import opened Authorize
  import opened AuthorizeForm
  import opened Lifecycle

  /** Past identification the answer does not depend on the stores: whatever
      happened since, the same page, code or callback. */
  lemma IdentifiedAnswers(cfg: Config, st: State, later: State, tail: Tail, flow: Flow, get: string -> string)
    requires Serviceable(cfg)
    ensures var out, late := Dispatch(cfg, st, tail, flow, get), Dispatch(cfg, later, tail, flow, get);
            if out.Done? then late.Done? && late.response == out.response else late.Asks? && late.call == out.call
  {
    var sets := ResolveSets(flow, Classify(get).BindingChoice?, Choices(get));
    if sets.Ok? {
      IssueAnswers(cfg, st, later, tail, flow, sets.value);
    }
  }

  lemma IssueAnswers(cfg: Config, st: State, later: State, tail: Tail, flow: Flow, who: Grant)
    requires Serviceable(cfg)
    ensures Issue(cfg, later, tail, flow, who).1 == Issue(cfg, st, tail, flow, who).1
  {
  }

  /** The three operations of a removal, and the addition of the name. */
  function Gone(st: State, name: string): State {
    AfterAdmin(AfterAdmin(AfterAdmin(st, RemoveRecord(name, Works)), PurgeRefreshOf(name, Works)),
               PurgeSessionsOf(name, Works))
  }

  function Back(st: State, name: string, binding: Binding, random: Draw): State {
    AfterAdmin(st, Event.AddPrincipal(name, Some(binding), Some(random), Works))
  }

  /** Issuing after the removal and before the addition: the session it starts is
      recognized as the name, until it expires, exactly when one is started. */
  lemma LateSessionReturns(
      cfg: Config, st: State, tail: Tail, flow: Flow, who: Grant, binding: Binding, random: Draw, env: Env,
      token: string)
    requires Serviceable(cfg) && cfg.sessionTTL > 0 && who.name != "" && token != "" && token !in st.sessions
    requires tail.sessionDraw == Some(token) && env.sessionsIo.Works? && env.recordsIo.Works?
    ensures var back := Back(Issue(cfg, Gone(st, who.name), tail, flow, who).0, who.name, binding, random);
            SessionIdentity(cfg, back, env, token) == Recognized(Grant(who.name, binding))
            <==> SessionToken(cfg, tail, flow).Some? && env.now <= tail.now + cfg.sessionTTL
  {
    var gone := Gone(st, who.name);
    assert token !in gone.sessions;
    var issued := Issue(cfg, gone, tail, flow, who).0;
    var started := StartSession(cfg, gone, tail, flow, who);
    assert issued.sessions == started.sessions;
    BackKeepsSessions(issued, who.name, binding, random);
  }

  lemma BackKeepsSessions(st: State, name: string, binding: Binding, random: Draw)
    ensures Back(st, name, binding, random).sessions == st.sessions
    ensures GrantFor(Back(st, name, binding, random).principals, name) == Some(Grant(name, binding))
  {
  }
}
