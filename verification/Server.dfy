/** The server object: the handlers of authorize.go, enroll_flow.go and grant.go
    as methods that work on its stores, each proved to do to the stores, and to
    answer, what its function on State says. */
module Server {
  import opened Wrappers
  import opened Identity
  import opened Enrollment
  import opened EnrollView
  import opened Text
  import opened Audience
  import opened AuthorizeForm
  import opened BindingChoice
  import opened MapStore
  import opened Stores
  import opened Principals
  import opened Tokens
  import opened Authorize

  /** What a handler answers, or the callback it goes on to call. */
  datatype Reply = Answer(response: Response) | Callback(call: EnrollCall)

  function Said(out: Outcome): Reply {
    match out
    case Done(_, response) => Answer(response)
    case Asks(_, call) => Callback(call)
  }

  datatype TokenFault = InvalidGrant | ServerError
  datatype TokenReply = TokenError(fault: TokenFault) | TokenPair(access: Token, refresh: string, scope: string)

  /** issueTokens: nothing is stored unless the access token was minted. */
  function IssueTokens(cfg: Config, st: State, h: Held, now: int, random: Option<string>, io: Io): (State, TokenReply) {
    var access := MintHeld(cfg, h, now);
    if access.Err? then (st, TokenError(ServerError))
    else if !Stored(random, io) then (st, TokenError(ServerError))
    else (StoreRefresh(st, h, random, io), TokenPair(access.value, random.value, h.scope))
  }

  /** The authorization_code grant in one piece. */
  function TokensForCode(
      cfg: Config, st: State, now: int, code: string, clientID: string, redirectURI: string, verifier: string,
      random: Option<string>, io: Io)
    : (State, TokenReply)
  {
    var (st1, held) := RedeemCode(cfg, st, now, code, clientID, redirectURI, verifier);
    if held.None? then (st1, TokenError(InvalidGrant)) else IssueTokens(cfg, st1, held.value, now, random, io)
  }

  /** The refresh_token grant in one piece. */
  function TokensForRefresh(
      cfg: Config, st: State, now: int, token: string, clientID: string, takeIo: Io, random: Option<string>, io: Io)
    : (State, TokenReply)
  {
    var (st1, held) := RedeemRefresh(st, token, clientID, takeIo);
    if held.None?
        then (st1, TokenError(if MutateOk(st.refresh, Drop(token), takeIo) then InvalidGrant else ServerError))
    else IssueTokens(cfg, st1, held.value, now, random, io)
  }

  /** No object twice. */
  ghost predicate Apart(objects: seq<object>) {
    forall i, j :: 0 <= i < j < |objects| ==> objects[i] != objects[j]
  }

  /** The configuration a host passes to New; an enrollment is a descriptor and
      whether there is a callback. */
  datatype Settings = Settings(
    publicURL: string,
    resource: string,
    resources: seq<string>,
    tokenTTL: int,
    scopes: seq<string>,
    enrollment: Option<(bool, Descriptor)>,
    enrollmentForResource: Option<string -> Option<Enrollable>>,
    asymmetric: bool,
    sessionTTL: int,
    bindingForResource: Option<(Binding, string) -> Binding>)

  const DEFAULT_TOKEN_TTL := 3600 * SECOND
  const DEFAULT_SCOPE := "mcp"

  predicate Refuses(c: Settings, key: Option<string>) {
    || TrimSpace(c.publicURL) == ""
    || (c.enrollment.Some? && FirstProblem(c.enrollment.value.0, c.enrollment.value.1).Some?)
    || key.None?
  }

  /** cfg is what the settings ask for: the allowed audiences, the defaults for
      what is left open, and an issuer that signs for the public URL. */
  ghost predicate Configured(c: Settings, key: string, cfg: Config) {
    && cfg.default == DefaultResource(c.publicURL, c.resource)
    && cfg.resources == Audiences(cfg.default, c.resources)
    && (if c.scopes == [] then cfg.scopes == [DEFAULT_SCOPE] else cfg.scopes == c.scopes)
    && cfg.sessionTTL == c.sessionTTL
    && (cfg.enrollment.Some? <==> c.enrollment.Some?)
    && (cfg.enrollment.Some? ==> cfg.enrollment.value == c.enrollment.value.1)
    && cfg.enrollmentForResource == c.enrollmentForResource && cfg.bindingForResource == c.bindingForResource
    && SignsFor(cfg.issuer, c, key) && cfg.issuer.audience == cfg.default
  }

  predicate SignsFor(i: Issuer, c: Settings, key: string) {
    && i.signKey == Some(if c.asymmetric then Private(key) else Shared(key))
    && Matches(i.signKey.value, i.verifyKey) && i.alg == (if c.asymmetric then EdDSA else HS256)
    && i.issuer == TrimRight(c.publicURL, '/')
    && i.ttl == (if c.tokenTTL <= 0 then DEFAULT_TOKEN_TTL else c.tokenTTL)
  }

  /** New: loading the signing key may fail. */
  method New(c: Settings, key: Option<string>, s256: string -> string, clients: Entry<Client>, secret: Secret,
             records: Entry<PrincipalRecord>, refresh: Entry<RefreshGrant>, sessions: Entry<SessionRecord>)
      returns (r: Result<Server>)
    requires Apart([clients, secret, records, refresh, sessions])
    ensures r.Err? <==> Refuses(c, key)
    ensures r.Ok? ==> fresh(r.value) && r.value.Valid() && Configured(c, key.value, r.value.cfg)
    ensures r.Ok? ==>
              r.value.St()
              == State(clients.Contents(), secret.value, records.Contents(), map[], refresh.Contents(),
              sessions.Contents())
  {
    var audiences := BuildAudiences(c.publicURL, c.resource, c.resources);
    if audiences.Err? {
      return Err;
    }
    var ttl := if c.tokenTTL <= 0 then DEFAULT_TOKEN_TTL else c.tokenTTL;
    var scopes := if c.scopes == [] then [DEFAULT_SCOPE] else c.scopes;
    var enrollment: Option<Enrollable> := None;
    if c.enrollment.Some? {
      var problem := Enrollment.Validate(c.enrollment.value.0, c.enrollment.value.1);
      if problem.Some? {
        return Err;
      }
      ValidateExactly(c.enrollment.value.0, c.enrollment.value.1);
      enrollment := Some(c.enrollment.value.1);
    }
    if key.None? {
      return Err;
    }
    var (default, resources) := audiences.value;
    var issuer := if c.asymmetric
      then Issuer(EdDSA, Some(Private(key.value)), Public(key.value), TrimRight(c.publicURL, '/'), default, ttl)
      else Issuer(HS256, Some(Shared(key.value)), Shared(key.value), TrimRight(c.publicURL, '/'), default, ttl);
    DefaultIsTrimmed(c.publicURL, c.resource);
    AudiencesExactly(default, c.resources);
    var cfg := Config(default, resources, scopes, c.sessionTTL, enrollment, c.enrollmentForResource,
        c.bindingForResource, issuer, s256);
    var server := new Server(cfg, clients, secret, records, refresh, sessions);
    r := Ok(server);
  }

  class Server {
    const cfg: Config
    const clients: ClientRegistry
    const pairing: Pairing
    const codes: AuthCodeStore
    const refresh: RefreshStore
    const sessions: SessionStore

    constructor (cfg: Config, clients: Entry<Client>, secret: Secret, records: Entry<PrincipalRecord>,
                 refresh: Entry<RefreshGrant>, sessions: Entry<SessionRecord>)
      requires Serviceable(cfg) && Apart([clients, secret, records, refresh, sessions])
      ensures Valid() && this.cfg == cfg && fresh(codes)
      ensures St()
                == State(clients.Contents(), secret.value, records.Contents(), map[], refresh.Contents(),
                sessions.Contents())
    {
      this.cfg := cfg;
      this.clients := new ClientRegistry(clients);
      this.pairing := new Pairing(secret, records);
      this.codes := new AuthCodeStore(AUTH_CODE_TTL);
      this.refresh := new RefreshStore(refresh);
      this.sessions := new SessionStore(sessions, cfg.sessionTTL);
      new;
      assert [clients as object, secret, records, refresh, sessions][0] == clients;
      assert [clients as object, secret, records, refresh, sessions][1] == secret;
      assert [clients as object, secret, records, refresh, sessions][2] == records;
      assert [clients as object, secret, records, refresh, sessions][3] == refresh;
      assert [clients as object, secret, records, refresh, sessions][4] == sessions;
    }

    /** Each store has its own key of the secret store. */
    ghost predicate Valid() {
      && Serviceable(cfg) && codes.ttl == AUTH_CODE_TTL && sessions.ttl == cfg.sessionTTL
      && Apart([clients.clients.entry, pairing.secret, pairing.principals.entry, codes, refresh.grants.entry,
          sessions.records.entry])
    }

    ghost function St(): State
      reads clients.clients.entry, pairing.secret, pairing.principals.entry, codes, refresh.grants.entry,
          sessions.records.entry
    {
      State(clients.clients.Contents(), pairing.secret.value, pairing.principals.Contents(),
            codes.m, refresh.grants.Contents(), sessions.records.Contents())
    }

    // ----- request validation --------------------------------------------

    method ValidateClientRedirect(io: Io, p: AuthParams) returns (v: Verdict)
      requires Valid()
      ensures v == ClientRedirect(St(), io, p)
    {
      if p.clientID == "" {
        return Refused(ErrorPage(MissingClientID, None));
      }
      var c := clients.Get(p.clientID, io);
      if c.Err? {
        return Refused(ErrorPage(ClientLookupFailed, None));
      }
      if c.value.None? {
        return Refused(ErrorPage(UnknownClient, None));
      }
      if p.redirectURI == "" || !AllowsRedirect(c.value.value, p.redirectURI) {
        return Refused(ErrorPage(RedirectNotRegistered, None));
      }
      v := Verdict.Valid(c.value.value);
    }

    method CheckRequest(io: Io, p: AuthParams) returns (v: Verdict)
      requires Valid()
      ensures v == ValidatedRequest(cfg, St(), io, p)
    {
      v := ValidateClientRedirect(io, p);
      if v.Refused? {
        return;
      }
      if ParamError(p).Some? {
        return Refused(RedirectError(p.redirectURI, p.state, ParamError(p).value));
      }
      if ResolveFor(cfg, p).None? {
        return Refused(RedirectError(p.redirectURI, p.state, InvalidTarget));
      }
    }

    // ----- identity ------------------------------------------------------

    method SessionPrincipal(env: Env, cookie: string) returns (r: Recognition)
      requires Valid()
      ensures r == SessionIdentity(cfg, St(), env, cookie)
    {
      if cfg.sessionTTL <= 0 || cookie == "" {
        return NotRecognized;
      }
      var rec := sessions.Lookup(cookie, env.now, env.sessionsIo);
      if rec.Err? {
        return CheckFailed;
      }
      if rec.value.None? {
        return NotRecognized;
      }
      if rec.value.value.anonymous {
        return Recognized(OPERATOR);
      }
      var grant := pairing.GetGrant(rec.value.value.principal, env.recordsIo);
      r := if grant.Err? then CheckFailed else FromOption(grant.value);
    }

    method Identify(env: Env, entered: string, cookie: string) returns (r: Recognition)
      requires Valid()
      modifies pairing.secret
      ensures r == VerifyIdentity(cfg, old(St()), env, entered, cookie)
      ensures St() == AfterIdentity(old(St()), env, entered)
    {
      if entered != "" {
        var grant := pairing.VerifyPrincipal(entered, env.codeDraw, env.codeIo, env.recordsIo);
        r := if grant.Err? then CheckFailed else FromOption(grant.value);
      } else {
        r := SessionPrincipal(env, cookie);
      }
    }

    /** authorizeForm. */
    method Form(env: Env, p: AuthParams, cookie: string) returns (response: Response)
      requires Valid()
      ensures response == AuthorizeGet(cfg, St(), env, p, cookie)
    {
      var v := CheckRequest(env.clientsIo, p);
      if v.Refused? {
        return v.response;
      }
      var who := SessionPrincipal(env, cookie);
      var name := match who case Recognized(g) => (if g.name == "" then "operator" else g.name) case _ => "";
      response := Show(RenderForm(cfg, p, NoNotice, name));
    }

    // ----- issuing the code ----------------------------------------------

    /** maybeStartSession: the flow completes even when no session starts. */
    method MaybeStartSession(tail: Tail, flow: Flow, who: Grant) returns (cookie: Option<string>)
      requires Valid()
      modifies sessions.records.entry
      ensures cookie == SessionToken(cfg, tail, flow)
      ensures St() == StartSession(cfg, old(St()), tail, flow, who)
    {
      if cfg.sessionTTL <= 0 || flow.pairingCode == "" {
        return None;
      }
      var token := sessions.Issue(who, tail.sessionDraw, tail.now, tail.sessionIo);
      cookie := if token.Ok? then Some(token.value) else None;
    }

    method IssueAndRedirect(tail: Tail, flow: Flow, who: Grant) returns (response: Response)
      requires Valid()
      modifies sessions.records.entry, codes
      ensures (St(), response) == Issue(cfg, old(St()), tail, flow, who)
    {
      var cookie := MaybeStartSession(tail, flow, who);
      ghost var st1 := St();
      var resource := ResolveFor(cfg, flow.p);
      var code := codes.Issue(
        AuthGrant(flow.client.id, flow.p.redirectURI, flow.p.codeChallenge, flow.p.codeChallengeMethod,
                  GrantedScope(cfg, flow.p.scope), if resource.Some? then resource.value else "", who, 0),
        tail.codeDraw, tail.now);
      if code.Err? {
        assert St() == st1;
        return ErrorPage(CodeDrawFailed, cookie);
      }
      assert St() == st1.(codes := st1.codes[code.value := CodeGrant(cfg, tail, flow, who)]);
      response := RedirectCode(flow.p.redirectURI, flow.p.state, code.value, cookie);
    }

    method ResolveSetBindings(flow: Flow, choosing: bool, choice: string -> string) returns (r: Result<Grant>)
      ensures r == ResolveSets(flow, choosing, choice)
    {
      if flow.who.name == "" {
        return Ok(flow.who);
      }
      var keys := SetValuedKeys(flow.who.binding);
      if |keys| == 0 {
        assert !NeedsChoice(flow.who.binding);
        return Ok(flow.who);
      }
      assert keys[0] in keys;
      if !choosing {
        return Err;
      }
      var resolved := ResolveBindingChoices(flow.who.binding, choice);
      r := if resolved.None? then Err else Ok(Grant(flow.who.name, resolved.value));
    }

    // ----- enrollment ----------------------------------------------------

    method SubmitFieldsOf(flow: Flow, d: Enrollable, get: string -> string) returns (reply: Reply)
      ensures forall st :: reply == Said(SubmitFields(st, flow, d, get))
    {
      var mode := FindMode(d, get("enroll_mode"));
      if mode.None? {
        return Answer(Show(RenderEnroll(flow, d, View(PickMode, "", map[]))));
      }
      var m := mode.value;
      var values, shown, missing := CollectModeFields(m, get);
      if missing != [] {
        return Answer(Show(RenderEnroll(flow, d, View(Required(missing), m.key, shown))));
      }
      reply := Callback(EnrollCall(flow, d, EnrollRequest(flow.who.name, m.key, values, "", ""),
          View(NoNotice, m.key, shown)));
    }

    method SubmitChoiceOf(flow: Flow, d: Enrollable, get: string -> string) returns (reply: Reply)
      ensures forall st :: reply
                == Said(SubmitChoice(st, flow, d, get("enroll_mode"), get("enroll_choice"), get("enroll_state")))
    {
      var mode := FindMode(d, get("enroll_mode"));
      if mode.None? {
        return Answer(Show(RenderEnroll(flow, d, View(PickMode, "", map[]))));
      }
      var m, choice := mode.value, get("enroll_choice");
      if choice == "" {
        return Answer(Show(RenderEnroll(flow, d, View(NothingSelected, m.key, map[]))));
      }
      reply := Callback(EnrollCall(flow, d, EnrollRequest(flow.who.name, m.key, map[], choice, get("enroll_state")),
          View(NoNotice, m.key, map[])));
    }

    /** divertToEnrollment: the reply, if the flow stops here. */
    method DivertToEnrollment(flow: Flow, get: string -> string) returns (reply: Option<Reply>)
      requires Valid()
      ensures forall st, tail ::
                if reply.Some? then SaysAndRests(reply.value, Dispatch(cfg, st, tail, flow, get), st)
                else Dispatch(cfg, st, tail, flow, get)
                     == IssueOrChoose(cfg, st, tail, flow, Classify(get).BindingChoice?, Choices(get))
    {
      var e := EnrollmentOf(cfg, flow.p, flow.who);
      if e.None? {
        return None;
      }
      var step := Classify(get);
      if step.EnrollFields? {
        var r := SubmitFieldsOf(flow, e.value, get);
        return Some(r);
      }
      if step.EnrollChoice? {
        var r := SubmitChoiceOf(flow, e.value, get);
        return Some(r);
      }
      if MustEnroll(cfg, flow, get("update_credentials") != "") {
        return Some(Answer(Show(RenderEnroll(flow, e.value, View(NoNotice, "", map[])))));
      }
      reply := None;
    }

    /** The reply is the outcome's, which leaves the state as it was. */
    predicate SaysAndRests(reply: Reply, out: Outcome, st: State) { reply == Said(out) && out.st == st }

    /** finish: routes the callback's result, whatever happened to the stores
        while it ran. */
    method Finish(tail: Tail, call: EnrollCall, result: EnrollResult) returns (response: Response)
      requires Valid()
      modifies pairing.principals.entry, sessions.records.entry, codes
      ensures (St(), response) == FinishEnroll(cfg, old(St()), tail, call, result)
    {
      var flow := call.flow;
      if result.EnrollError? {
        return Show(RenderEnroll(flow, call.d, call.view.(notice := CallbackSaid(result.message))));
      }
      if result.choice.Some? {
        if result.choice.value.options == [] {
          return ErrorPage(EmptyChoice, None);
        }
        return Show(RenderChoice(flow, call.request.mode, result.choice.value));
      }
      if result.binding == map[] {
        return ErrorPage(NoBinding, None);
      }
      var merged := pairing.MergePrincipalBinding(flow.who.name, result.binding, tail.mergeIo);
      if merged.Err? || merged.value.None? {
        assert St() == old(St());
        return ErrorPage(MergeFailed, None);
      }
      MergedIsMutated(old(St()).principals, flow.who.name, result.binding);
      assert St() == old(St()).(principals := Merged(old(St()).principals, flow.who.name, result.binding));
      response := IssueAndRedirect(tail, flow, Grant(flow.who.name, merged.value.value));
    }

    // ----- the submission ------------------------------------------------

    method Submit(env: Env, post: Post) returns (reply: Reply)
      requires Valid()
      modifies pairing.secret, sessions.records.entry, codes
      ensures St() == AuthorizePost(cfg, old(St()), env, post).st
      ensures reply == Said(AuthorizePost(cfg, old(St()), env, post))
    {
      var p := Parse(post.get);
      var v := CheckRequest(env.clientsIo, p);
      if v.Refused? {
        return Answer(v.response);
      }
      var entered := post.get("pairing_code");
      var who := Identify(env, entered, post.cookie);
      if who.CheckFailed? {
        return Answer(ErrorPage(IdentityCheckFailed, None));
      }
      if who.NotRecognized? {
        return Answer(Show(RenderForm(cfg, p, WrongCode, "")));
      }
      reply := Dispatched(env.tail, Flow(v.client, p, who.grant, entered), post.get);
    }

    method Dispatched(tail: Tail, flow: Flow, get: string -> string) returns (reply: Reply)
      requires Valid()
      modifies sessions.records.entry, codes
      ensures St() == Dispatch(cfg, old(St()), tail, flow, get).st
      ensures reply == Said(Dispatch(cfg, old(St()), tail, flow, get))
    {
      var diverted := DivertToEnrollment(flow, get);
      if diverted.Some? {
        return diverted.value;
      }
      var choosing := Classify(get).BindingChoice?;
      var who := ResolveSetBindings(flow, choosing, Choices(get));
      if who.Err? {
        return Answer(Show(RenderBindings(flow, if choosing then PickOffered else NoNotice)));
      }
      var response := IssueAndRedirect(tail, flow, who.value);
      reply := Answer(response);
    }

    // ----- the token endpoint --------------------------------------------

    method IssueTokenPair(h: Held, now: int, random: Option<string>, io: Io) returns (reply: TokenReply)
      requires Valid()
      modifies refresh.grants.entry
      ensures (St(), reply) == IssueTokens(cfg, old(St()), h, now, random, io)
    {
      var tokenGrant := h.principal;
      if cfg.bindingForResource.Some? {
        tokenGrant := Grant(h.principal.name, cfg.bindingForResource.value(h.principal.binding, h.resource));
      }
      assert tokenGrant == Grant(h.principal.name, Project(cfg, h.principal.binding, h.resource));
      var access := MintFor(cfg.issuer, h.clientID, h.scope, h.resource, tokenGrant, now);
      if access.Err? {
        return TokenError(ServerError);
      }
      var token := refresh.Issue(h.clientID, h.scope, h.resource, h.principal, random, io);
      if token.Err? {
        assert St() == old(St());
        return TokenError(ServerError);
      }
      reply := TokenPair(access.value, token.value, h.scope);
    }

    method GrantAuthCode(
        now: int, code: string, clientID: string, redirectURI: string, verifier: string, random: Option<string>,
        io: Io)
        returns (reply: TokenReply)
      requires Valid()
      modifies codes, refresh.grants.entry
      ensures (St(), reply) == TokensForCode(cfg, old(St()), now, code, clientID, redirectURI, verifier, random, io)
    {
      var grant := codes.Consume(code, now);
      assert St() == old(St()).(codes := old(St()).codes - {code});
      if grant.None? {
        return TokenError(InvalidGrant);
      }
      var g := grant.value;
      if g.clientID != clientID || g.redirectURI != redirectURI {
        return TokenError(InvalidGrant);
      }
      if !VerifyPKCE(cfg, g.codeChallenge, g.codeChallengeMethod, verifier) {
        return TokenError(InvalidGrant);
      }
      reply := IssueTokenPair(Held(g.clientID, g.scope, g.resource, g.principal), now, random, io);
    }

    method GrantRefresh(now: int, token: string, clientID: string, takeIo: Io, random: Option<string>, io: Io)
        returns (reply: TokenReply)
      requires Valid()
      modifies refresh.grants.entry
      ensures (St(), reply) == TokensForRefresh(cfg, old(St()), now, token, clientID, takeIo, random, io)
    {
      var grant := refresh.Exchange(token, takeIo);
      assert St() == RedeemRefresh(old(St()), token, clientID, takeIo).0;
      if grant.Err? {
        return TokenError(ServerError);
      }
      if grant.value.None? {
        return TokenError(InvalidGrant);
      }
      var g := grant.value.value;
      if clientID != "" && clientID != g.clientID {
        return TokenError(InvalidGrant);
      }
      reply := IssueTokenPair(Held(g.clientID, g.scope, g.resource, g.principal), now, random, io);
    }
  }
}
