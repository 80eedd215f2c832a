/** authorize.go, enroll_flow.go, choose_page.go, session.go and grant.go: what
    the server does with one request, as functions on its state. A request
    whose enrollment callback runs in the middle is two functions, so that
    anything may happen to the state in between. */
module Authorize {
  import opened Wrappers
  import opened Identity
  import opened Enrollment
  import opened EnrollView
  import opened AuthorizeForm
  import opened BindingChoice
  import opened Audience
  import opened PairingCode
  import opened MapStore
  import opened Stores
  import opened Principals
  import opened Tokens

  // ----- configuration and state -----------------------------------------

  const SOME_FIELD := Field("f", "", "", "", false, false)
  const SOME_DESCRIPTOR := Descriptor("", "", [Mode("m", "", [SOME_FIELD])])

  /** Descriptors reach the server only after Validate. */
  type Enrollable = d: Descriptor | WellFormed(d) witness SOME_DESCRIPTOR

  /** The fields of a Server that New fixes; s256 stands for the hash of the
      challenge method. */
  datatype Config = Config(
    default: string,
    resources: seq<string>,
    scopes: seq<string>,
    sessionTTL: int,
    enrollment: Option<Enrollable>,
    enrollmentForResource: Option<string -> Option<Enrollable>>,
    bindingForResource: Option<(Binding, string) -> Binding>,
    issuer: Issuer,
    s256: string -> string)

  const AUTH_CODE_TTL := 60 * SECOND

  /** New never leaves the scopes or the audiences empty. */
  predicate Serviceable(cfg: Config) {
    cfg.scopes != [] && cfg.default in cfg.resources
  }

  datatype State = State(
    clients: map<string, Client>,
    operatorCode: Option<string>,
    principals: Records,
    codes: map<string, AuthGrant>,
    refresh: map<string, RefreshGrant>,
    sessions: map<string, SessionRecord>)

  // ----- requests and responses ------------------------------------------

  /** A posted form and the session cookie ("" for none). */
  datatype Post = Post(get: string -> string, cookie: string)

  datatype Fault =
    | MissingClientID | ClientLookupFailed | UnknownClient | RedirectNotRegistered
    | IdentityCheckFailed | EmptyChoice | NoBinding | MergeFailed | CodeDrawFailed

  datatype OAuthError = UnsupportedResponseType | InvalidRequest | InvalidTarget

  datatype Notice =
    | NoNotice | WrongCode | PickMode | Required(captions: seq<string>)
    | CallbackSaid(message: string) | NothingSelected | PickOffered

  datatype ChoiceOption = ChoiceOption(value: string, caption: string)
  datatype EnrollChoice = EnrollChoice(prompt: string, options: seq<ChoiceOption>, state: string)

  /** The pages of the flow. The chooser lists its sets in key order. */
  datatype Page =
    | ApprovalPage(hidden: Hidden, notice: Notice, sessionName: string, offerUpdate: bool)
    | EnrollPage(hidden: Hidden, notice: Notice, principal: string, modes: seq<ModeView>)
    | BindingPage(hidden: Hidden, notice: Notice, principal: string, sets: map<string, seq<string>>)
    | ChoicePage(hidden: Hidden, principal: string, prompt: string, options: seq<ChoiceOption>)

  /** cookie is the session the response sets, if any. */
  datatype Response =
    | Show(page: Page)
    | ErrorPage(fault: Fault, cookie: Option<string>)
    | RedirectError(uri: string, state: string, error: OAuthError)
    | RedirectCode(uri: string, state: string, code: string, cookie: Option<string>)

  /** What a request meets outside the server, up to the enrollment callback
      and after it. */
  datatype Env = Env(now: int, clientsIo: Io, codeIo: Io, codeDraw: Option<Draw>, recordsIo: Io, sessionsIo: Io,
      tail: Tail)
  datatype Tail = Tail(now: int, mergeIo: Io, sessionDraw: Option<string>, sessionIo: Io, codeDraw: Option<string>)

  // ----- request validation ----------------------------------------------

  datatype Verdict = Valid(client: Client) | Refused(response: Response)

  function ClientRedirect(st: State, io: Io, p: AuthParams): Verdict {
    if p.clientID == "" then Refused(ErrorPage(MissingClientID, None))
    else if io.GetFails? then Refused(ErrorPage(ClientLookupFailed, None))
    else if p.clientID !in st.clients then Refused(ErrorPage(UnknownClient, None))
    else if p.redirectURI == "" || !AllowsRedirect(st.clients[p.clientID], p.redirectURI) then
      Refused(ErrorPage(RedirectNotRegistered, None))
    else Valid(st.clients[p.clientID])
  }

  const S256 := "S256"

  function ParamError(p: AuthParams): Option<OAuthError> {
    if p.responseType != "code" then Some(UnsupportedResponseType)
    else if p.codeChallenge == "" || p.codeChallengeMethod != S256 then Some(InvalidRequest)
    else None
  }

  function ResolveFor(cfg: Config, p: AuthParams): Option<string> {
    Resolve(cfg.resources, cfg.default, p.resource)
  }

  /** validatedRequest: the gates shared by the form and every submission. */
  function ValidatedRequest(cfg: Config, st: State, io: Io, p: AuthParams): Verdict {
    match ClientRedirect(st, io, p)
    case Refused(r) => Refused(r)
    case Valid(client) =>
      if ParamError(p).Some? then Refused(RedirectError(p.redirectURI, p.state, ParamError(p).value))
      else if ResolveFor(cfg, p).None? then Refused(RedirectError(p.redirectURI, p.state, InvalidTarget))
      else Valid(client)
  }

  function GrantedScope(cfg: Config, requested: string): string
    requires Serviceable(cfg)
  {
    if requested != "" then requested else cfg.scopes[0]
  }

  // ----- identity --------------------------------------------------------

  datatype Recognition = CheckFailed | NotRecognized | Recognized(grant: Grant)

  function FromOption(g: Option<Grant>): Recognition {
    if g.Some? then Recognized(g.value) else NotRecognized
  }

  /** sessionPrincipal: a session yields the operator, or the current grant of
      the name it recorded. */
  function SessionIdentity(cfg: Config, st: State, env: Env, cookie: string): Recognition {
    if cfg.sessionTTL <= 0 || cookie == "" then NotRecognized
    else if env.sessionsIo.GetFails? then CheckFailed
    else
      match LiveSession(st.sessions, cookie, env.now)
      case None => NotRecognized
      case Some(rec) =>
        if rec.anonymous then Recognized(OPERATOR)
        else if env.recordsIo.GetFails? then CheckFailed
        else FromOption(GrantFor(st.principals, rec.principal))
  }

  ghost function CodeIdentity(st: State, env: Env, entered: string): Recognition {
    var shared := CodeOf(st.operatorCode, env.codeDraw, env.codeIo);
    if shared.Err? || env.recordsIo.GetFails? then CheckFailed
    else FromOption(EstablishedBy(shared.value, st.principals, entered))
  }

  /** verifyIdentity: an entered code wins, else the session. */
  ghost function VerifyIdentity(cfg: Config, st: State, env: Env, entered: string, cookie: string): Recognition {
    if entered != "" then CodeIdentity(st, env, entered) else SessionIdentity(cfg, st, env, cookie)
  }

  /** Looking for the operator code may create it. */
  function AfterIdentity(st: State, env: Env, entered: string): State {
    if entered != "" then st.(operatorCode := CodeAfter(st.operatorCode, env.codeDraw, env.codeIo)) else st
  }

  /** The label the form greets a recognized session with. */
  function SessionName(cfg: Config, st: State, env: Env, cookie: string): string {
    match SessionIdentity(cfg, st, env, cookie)
    case Recognized(g) => if g.name == "" then "operator" else g.name
    case _ => ""
  }

  // ----- enrollment ------------------------------------------------------

  function EnrollmentFor(cfg: Config, p: AuthParams): Option<Enrollable> {
    if cfg.enrollmentForResource.None? then cfg.enrollment
    else if ResolveFor(cfg, p).None? then None
    else cfg.enrollmentForResource.value(ResolveFor(cfg, p).value)
  }

  /** Enrollment applies only to named principals. */
  function EnrollmentOf(cfg: Config, p: AuthParams, who: Grant): Option<Enrollable> {
    if who.name == "" then None else EnrollmentFor(cfg, p)
  }

  function Project(cfg: Config, binding: Binding, resource: string): Binding {
    if cfg.bindingForResource.Some? then cfg.bindingForResource.value(binding, resource) else binding
  }

  function ProjectedBinding(cfg: Config, binding: Binding, p: AuthParams): Binding {
    if ResolveFor(cfg, p).Some? then Project(cfg, binding, ResolveFor(cfg, p).value) else binding
  }

  /** The request-scoped invariants of one round. */
  datatype Flow = Flow(client: Client, p: AuthParams, who: Grant, pairingCode: string)

  datatype View = View(notice: Notice, mode: string, values: Values)

  datatype EnrollRequest = EnrollRequest(principal: string, mode: string, values: Values, choice: string, state: string)

  /** A call of the enrollment callback that is under way. */
  datatype EnrollCall = EnrollCall(flow: Flow, d: Enrollable, request: EnrollRequest, view: View)

  /** What the callback returns. */
  datatype EnrollResult = EnrollError(message: string) | EnrollResult(binding: Binding, choice: Option<EnrollChoice>)

  function RenderForm(cfg: Config, p: AuthParams, notice: Notice, sessionName: string): Page {
    ApprovalPage(HiddenFields(p), notice, sessionName, EnrollmentFor(cfg, p).Some?)
  }

  function RenderEnroll(flow: Flow, d: Enrollable, view: View): Page {
    var selected := if view.mode == "" then d.modes[0].key else view.mode;
    EnrollPage(HiddenFieldsWithCode(flow.p, flow.pairingCode)["enroll" := "1"],
               view.notice, flow.who.name, ModeViews(d, selected, view.values))
  }

  function OfferedSets(binding: Binding): map<string, seq<string>> {
    map k | k in binding && IsSet(binding[k]) :: Members(binding[k])
  }

  function RenderBindings(flow: Flow, notice: Notice): Page {
    BindingPage(HiddenFieldsWithCode(flow.p, flow.pairingCode)["choose" := "1"],
                notice, flow.who.name, OfferedSets(flow.who.binding))
  }

  function ChoiceHidden(p: AuthParams, pairingCode: string, mode: string, state: string): Hidden {
    var h := HiddenFieldsWithCode(p, pairingCode)["enroll" := "1"]["enroll_choice_round" := "1"];
    var h1 := if state != "" then h["enroll_state" := state] else h;
    if mode != "" then h1["enroll_mode" := mode] else h1
  }

  function RenderChoice(flow: Flow, mode: string, choice: EnrollChoice): Page {
    ChoicePage(ChoiceHidden(flow.p, flow.pairingCode, mode, choice.state), flow.who.name, choice.prompt, choice.options)
  }

  /** The first half of an authorize POST: a response, or a callback to run. */
  datatype Outcome = Done(st: State, response: Response) | Asks(st: State, call: EnrollCall)

  /** submitFields. */
  function SubmitFields(st: State, flow: Flow, d: Enrollable, get: string -> string): Outcome {
    match ModeFor(d, get("enroll_mode"))
    case None => Done(st, Show(RenderEnroll(flow, d, View(PickMode, "", map[]))))
    case Some(m) =>
      var shown := NonSecret(m.key, m.fields, get);
      var missing := MissingLabels(m.key, m.fields, get);
      if missing != [] then Done(st, Show(RenderEnroll(flow, d, View(Required(missing), m.key, shown))))
      else Asks(st, EnrollCall(flow, d, EnrollRequest(flow.who.name, m.key, AllValues(m.key, m.fields, get), "", ""),
                               View(NoNotice, m.key, shown)))
  }

  /** submitChoice. */
  function SubmitChoice(st: State, flow: Flow, d: Enrollable, modeKey: string, choice: string, state: string): Outcome {
    match ModeFor(d, modeKey)
    case None => Done(st, Show(RenderEnroll(flow, d, View(PickMode, "", map[]))))
    case Some(m) =>
      if choice == "" then Done(st, Show(RenderEnroll(flow, d, View(NothingSelected, m.key, map[]))))
      else Asks(st, EnrollCall(flow, d, EnrollRequest(flow.who.name, m.key, map[], choice, state),
                               View(NoNotice, m.key, map[])))
  }

  // ----- issuing the code ------------------------------------------------

  function SessionToken(cfg: Config, tail: Tail, flow: Flow): Option<string> {
    if cfg.sessionTTL > 0 && flow.pairingCode != ""
        && Stored(tail.sessionDraw, tail.sessionIo) then tail.sessionDraw else None
  }

  function StartSession(cfg: Config, st: State, tail: Tail, flow: Flow, who: Grant): State {
    match SessionToken(cfg, tail, flow)
    case None => st
    case Some(token) =>
      st.(sessions := Unexpired(st.sessions, tail.now)[token := SessionFor(who, tail.now + cfg.sessionTTL)])
  }

  function CodeGrant(cfg: Config, tail: Tail, flow: Flow, who: Grant): AuthGrant
    requires Serviceable(cfg)
  {
    AuthGrant(flow.client.id, flow.p.redirectURI, flow.p.codeChallenge, flow.p.codeChallengeMethod,
              GrantedScope(cfg, flow.p.scope),
              if ResolveFor(cfg, flow.p).Some? then ResolveFor(cfg, flow.p).value else "",
              who, tail.now + AUTH_CODE_TTL)
  }

  /** issueAndRedirect: the terminal step of every path. */
  function Issue(cfg: Config, st: State, tail: Tail, flow: Flow, who: Grant): (State, Response)
    requires Serviceable(cfg)
  {
    var st1 := StartSession(cfg, st, tail, flow, who);
    var cookie := SessionToken(cfg, tail, flow);
    if tail.codeDraw.None? then (st1, ErrorPage(CodeDrawFailed, cookie))
    else (st1.(codes := st1.codes[tail.codeDraw.value := CodeGrant(cfg, tail, flow, who)]),
          RedirectCode(flow.p.redirectURI, flow.p.state, tail.codeDraw.value, cookie))
  }

  /** The submitted choices of the chooser page. */
  function Choices(get: string -> string): string -> string {
    key => get("choice_" + key)
  }

  /** resolveSetBindings: the narrowed grant, or the page to show instead. */
  function ResolveSets(flow: Flow, choosing: bool, choice: string -> string): Result<Grant> {
    if flow.who.name == "" || !NeedsChoice(flow.who.binding) then Ok(flow.who)
    else if !choosing || Resolved(flow.who.binding, choice).None? then Err
    else Ok(Grant(flow.who.name, Resolved(flow.who.binding, choice).value))
  }

  function IssueOrChoose(
      cfg: Config, st: State, tail: Tail, flow: Flow, choosing: bool, choice: string -> string): Outcome
    requires Serviceable(cfg)
  {
    match ResolveSets(flow, choosing, choice)
    case Err => Done(st, Show(RenderBindings(flow, if choosing then PickOffered else NoNotice)))
    case Ok(who) => Done(Issue(cfg, st, tail, flow, who).0, Issue(cfg, st, tail, flow, who).1)
  }

  /** divertToEnrollment shows the form to a principal unbound for this
      resource, or on request. */
  predicate MustEnroll(cfg: Config, flow: Flow, update: bool) {
    ProjectedBinding(cfg, flow.who.binding, flow.p) == map[] || update
  }

  /** What an identified person's submission does. */
  function Dispatch(cfg: Config, st: State, tail: Tail, flow: Flow, get: string -> string): Outcome
    requires Serviceable(cfg)
  {
    var step := Classify(get);
    match EnrollmentOf(cfg, flow.p, flow.who)
    case None => IssueOrChoose(cfg, st, tail, flow, step.BindingChoice?, Choices(get))
    case Some(d) =>
      if step.EnrollFields? then SubmitFields(st, flow, d, get)
      else if step.EnrollChoice?
          then SubmitChoice(st, flow, d, get("enroll_mode"), get("enroll_choice"), get("enroll_state"))
      else if MustEnroll(cfg, flow, get("update_credentials") != "") then
        Done(st, Show(RenderEnroll(flow, d, View(NoNotice, "", map[]))))
      else IssueOrChoose(cfg, st, tail, flow, step.BindingChoice?, Choices(get))
  }

  /** The gates of a submission: turned away with a response, or admitted as
      somebody. */
  datatype Gate = Turned(st: State, response: Response) | Admitted(st: State, flow: Flow)

  ghost function Admit(cfg: Config, st: State, env: Env, p: AuthParams, entered: string, cookie: string): Gate {
    match ValidatedRequest(cfg, st, env.clientsIo, p)
    case Refused(r) => Turned(st, r)
    case Valid(client) =>
      var st1 := AfterIdentity(st, env, entered);
      match VerifyIdentity(cfg, st, env, entered, cookie)
      case CheckFailed => Turned(st1, ErrorPage(IdentityCheckFailed, None))
      case NotRecognized => Turned(st1, Show(RenderForm(cfg, p, WrongCode, "")))
      case Recognized(who) => Admitted(st1, Flow(client, p, who, entered))
  }

  /** authorizeSubmit up to the callback, or to the response. */
  ghost function AuthorizePost(cfg: Config, st: State, env: Env, post: Post): Outcome
    requires Serviceable(cfg)
  {
    match Admit(cfg, st, env, Parse(post.get), post.get("pairing_code"), post.cookie)
    case Turned(st1, response) => Done(st1, response)
    case Admitted(st1, flow) => Dispatch(cfg, st1, env.tail, flow, post.get)
  }

  /** authorizeForm: the GET side. */
  function AuthorizeGet(cfg: Config, st: State, env: Env, p: AuthParams, cookie: string): Response {
    match ValidatedRequest(cfg, st, env.clientsIo, p)
    case Refused(r) => r
    case Valid(_) => Show(RenderForm(cfg, p, NoNotice, SessionName(cfg, st, env, cookie)))
  }

  /** finish: what the callback's result leads to. */
  function FinishEnroll(cfg: Config, st: State, tail: Tail, call: EnrollCall, result: EnrollResult): (State, Response)
    requires Serviceable(cfg)
  {
    var flow := call.flow;
    match result
    case EnrollError(message) => (st, Show(RenderEnroll(flow, call.d, call.view.(notice := CallbackSaid(message)))))
    case EnrollResult(binding, choice) =>
      if choice.Some? then
        if choice.value.options == [] then (st, ErrorPage(EmptyChoice, None))
        else (st, Show(RenderChoice(flow, call.request.mode, choice.value)))
      else if binding == map[] then (st, ErrorPage(NoBinding, None))
      else if !tail.mergeIo.Works? || flow.who.name !in st.principals then (st, ErrorPage(MergeFailed, None))
      else
        var merged := Merged(st.principals, flow.who.name, binding);
        Issue(cfg, st.(principals := merged), tail, flow, Grant(flow.who.name, merged[flow.who.name].binding))
  }

  // ----- the token endpoint ----------------------------------------------

  predicate VerifyPKCE(cfg: Config, challenge: string, codeMethod: string, verifier: string) {
    codeMethod == S256 && challenge != "" && verifier != "" && cfg.s256(verifier) == challenge
  }

  /** What a token request holds between taking its grant and issuing. */
  datatype Held = Held(clientID: string, scope: string, resource: string, principal: Grant)

  /** grantAuthCode up to issueTokens: the code is consumed in any case. */
  function RedeemCode(
      cfg: Config, st: State, now: int, code: string, clientID: string, redirectURI: string, verifier: string)
    : (State, Option<Held>)
  {
    var st1 := st.(codes := st.codes - {code});
    match Redeems(st.codes, code, now)
    case None => (st1, None)
    case Some(g) =>
      if g.clientID != clientID || g.redirectURI != redirectURI
          || !VerifyPKCE(cfg, g.codeChallenge, g.codeChallengeMethod, verifier)
      then (st1, None)
      else (st1, Some(Held(g.clientID, g.scope, g.resource, g.principal)))
  }

  /** grantRefresh up to issueTokens: a token that was taken out is gone, even
      when the client does not match. */
  function RedeemRefresh(st: State, token: string, clientID: string, io: Io): (State, Option<Held>) {
    var st1 := st.(refresh := Mutated(st.refresh, Drop(token), io));
    if token !in st.refresh || !io.Works? then (st1, None)
    else
      var g := st.refresh[token];
      if clientID != "" && clientID != g.clientID then (st1, None)
      else (st1, Some(Held(g.clientID, g.scope, g.resource, g.principal)))
  }

  /** The access token of issueTokens: minted over the projected binding. */
  function MintHeld(cfg: Config, h: Held, now: int): Result<Token> {
    MintFor(cfg.issuer, h.clientID, h.scope, h.resource,
            Grant(h.principal.name, Project(cfg, h.principal.binding, h.resource)), now)
  }

  /** The refresh token of issueTokens: it keeps the original principal. */
  function StoreRefresh(st: State, h: Held, random: Option<string>, io: Io): State {
    if Stored(random, io)
    then st.(refresh := st.refresh[random.value := RefreshGrant(h.clientID, h.scope, h.resource, h.principal)])
    else st
  }
}
