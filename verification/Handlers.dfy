/** What the authorize handlers answer and store, request by request, in the words
    of the request: exact conditions for each outcome. Where one handler hands over
    to the next, so do the statements. */
module Handlers {
  import opened Wrappers
  import opened Text
  import opened Identity
  import opened Enrollment
  import opened EnrollView
  import opened AuthorizeForm
  import opened BindingChoice
  import opened PairingCode
  import opened Stores
  import opened Principals
  import opened Authorize
  import opened AuthorizeFacts
  import opened Promises

  // ----- the gates -------------------------------------------------------

  predicate KnownRedirect(st: State, io: Io, p: AuthParams) {
    && p.clientID != "" && !io.GetFails? && p.clientID in st.clients
    && p.redirectURI != "" && p.redirectURI in st.clients[p.clientID].redirectURIs
  }

  /** A request passes exactly when it names a registered client and one of its
      redirect URIs, asks for a code with an S256 challenge, and for an allowed
      audience. Only a request with a registered redirect URI is ever answered
      there, with its own state; any other gets an error page. */
  lemma GatesExactly(cfg: Config, st: State, io: Io, p: AuthParams)
    requires Serviceable(cfg)
    ensures var v := ValidatedRequest(cfg, st, io, p);
            var challenged := p.codeChallenge != "" && p.codeChallengeMethod == "S256";
            var allowed := p.resource == "" || TrimRight(p.resource, '/') in cfg.resources;
            if !KnownRedirect(st, io, p)
            then v.Refused? && v.response.ErrorPage? && v.response.cookie.None?
            else if p.responseType != "code"
                then v == Refused(RedirectError(p.redirectURI, p.state, UnsupportedResponseType))
            else if !challenged then v == Refused(RedirectError(p.redirectURI, p.state, InvalidRequest))
            else if !allowed then v == Refused(RedirectError(p.redirectURI, p.state, InvalidTarget))
            else v == Verdict.Valid(st.clients[p.clientID])
  {
  }

  /** Which error page it is. */
  lemma GateFaults(cfg: Config, st: State, io: Io, p: AuthParams)
    requires !KnownRedirect(st, io, p)
    ensures ValidatedRequest(cfg, st, io, p)
         == Refused(ErrorPage(if p.clientID == "" then MissingClientID
                              else if io.GetFails? then ClientLookupFailed
                              else if p.clientID !in st.clients then UnknownClient
                              else RedirectNotRegistered, None))
  {
  }

  // ----- identity --------------------------------------------------------

  /** Sessions are on, and the cookie names one that has not expired. */
  predicate InSession(cfg: Config, st: State, now: int, cookie: string) {
    cfg.sessionTTL > 0 && cookie != "" && cookie in st.sessions && now <= st.sessions[cookie].expires
  }

  /** Without a code the session identifies: the operator, or whoever has the
      session's name and binding now. */
  lemma SessionIdentifies(cfg: Config, st: State, env: Env, cookie: string)
    ensures var r := VerifyIdentity(cfg, st, env, "", cookie);
            if cfg.sessionTTL <= 0 || cookie == "" then r == NotRecognized
            else if env.sessionsIo.GetFails? then r == CheckFailed
            else if !InSession(cfg, st, env.now, cookie) then r == NotRecognized
            else if st.sessions[cookie].anonymous then r == Recognized(Grant("", map[]))
            else if env.recordsIo.GetFails? then r == CheckFailed
            else if st.sessions[cookie].principal !in st.principals then r == NotRecognized
            else r == Recognized(Grant(st.sessions[cookie].principal,
                st.principals[st.sessions[cookie].principal].binding))
  {
  }

  /** An entered code wins: the session plays no part. */
  lemma CodeWins(cfg: Config, st: State, other: State, env: Env, entered: string, cookie: string, otherCookie: string)
    requires entered != "" && other == st.(sessions := other.sessions)
    ensures VerifyIdentity(cfg, st, env, entered, cookie) == VerifyIdentity(cfg, other, env, entered, otherCookie)
  {
  }

  /** The form for a request that passes carries it, greets whoever the session
      names, and offers to update credentials where there are any to enroll. */
  lemma GetExactly(cfg: Config, st: State, env: Env, p: AuthParams, cookie: string)
    requires Serviceable(cfg)
    ensures var v, response := ValidatedRequest(cfg, st, env.clientsIo, p), AuthorizeGet(cfg, st, env, p, cookie);
            if v.Refused? then response == v.response
            else
              && response.Show? && response.page.ApprovalPage? && Carries(response.page.hidden, p)
              && response.page.notice == NoNotice
              && response.page.sessionName == Greeting(VerifyIdentity(cfg, st, env, "", cookie))
              && (response.page.offerUpdate <==> Enrolls(cfg, p).Some?)
  {
  }

  function Greeting(r: Recognition): string {
    if !r.Recognized? then "" else if r.grant.name == "" then "operator" else r.grant.name
  }

  // ----- what is issued --------------------------------------------------

  /** A session starts exactly when they are on, a code was entered, and one can
      be drawn and stored. */
  predicate StartsSession(cfg: Config, tail: Tail, flow: Flow) {
    cfg.sessionTTL > 0 && flow.pairingCode != "" && tail.sessionDraw.Some? && tail.sessionIo.Works?
  }

  function CookieOf(cfg: Config, tail: Tail, flow: Flow): Option<string> {
    if StartsSession(cfg, tail, flow) then tail.sessionDraw else None
  }

  /** Issuing: a session as above, for its configured time, with what has expired
      pruned; then the code, for a minute, bound to the request and to whoever is
      granted; and the answer hands out both. A code that cannot be drawn is an
      error page, and the session stays. */
  lemma IssueExactly(cfg: Config, st: State, tail: Tail, flow: Flow, who: Grant)
    requires Serviceable(cfg)
    ensures var (st', response) := Issue(cfg, st, tail, flow, who);
            && st' == st.(sessions := st'.sessions, codes := st'.codes)
            && st'.sessions == (if StartsSession(cfg, tail, flow)
                 then WithoutExpired(st.sessions, tail.now)
                      [tail.sessionDraw.value := SessionRecord(who.name, who.name == "", tail.now + cfg.sessionTTL)]
                 else st.sessions)
            && (tail.codeDraw.None? ==>
                st'.codes == st.codes && response == ErrorPage(CodeDrawFailed, CookieOf(cfg, tail, flow)))
            && (tail.codeDraw.Some? ==> CodeIssued(cfg, st, tail, flow, who, st', response))
  {
    StartsExactly(cfg, st, tail, flow, who);
    var started := StartSession(cfg, st, tail, flow, who);
    if tail.codeDraw.Some? {
      GrantsExactly(cfg, tail, flow, who);
      assert Issue(cfg, st, tail, flow, who).0
          == started.(codes := st.codes[tail.codeDraw.value := CodeGrant(cfg, tail, flow, who)]);
    }
  }

  function WithoutExpired(sessions: map<string, SessionRecord>, now: int): map<string, SessionRecord> {
    map t | t in sessions && now <= sessions[t].expires :: sessions[t]
  }

  lemma StartsExactly(cfg: Config, st: State, tail: Tail, flow: Flow, who: Grant)
    ensures SessionToken(cfg, tail, flow) == CookieOf(cfg, tail, flow)
    ensures StartSession(cfg, st, tail, flow, who)
         == if StartsSession(cfg, tail, flow)
            then st.(sessions := WithoutExpired(st.sessions, tail.now)
                       [tail.sessionDraw.value := SessionRecord(who.name, who.name == "", tail.now + cfg.sessionTTL)])
            else st
  {
    assert WithoutExpired(st.sessions, tail.now) == Unexpired(st.sessions, tail.now);
  }

  lemma GrantsExactly(cfg: Config, tail: Tail, flow: Flow, who: Grant)
    requires Serviceable(cfg)
    ensures GrantOf(cfg, tail, flow, who, CodeGrant(cfg, tail, flow, who))
  {
  }

  /** The grant repeats the request, for whoever is granted, for a minute. */
  ghost predicate GrantOf(cfg: Config, tail: Tail, flow: Flow, who: Grant, g: AuthGrant) {
    && g.clientID == flow.client.id && g.redirectURI == flow.p.redirectURI
    && g.codeChallenge == flow.p.codeChallenge && g.codeChallengeMethod == flow.p.codeChallengeMethod
    && ScopeAsked(cfg, flow.p, g.scope)
    && (forall resource :: AudienceAsked(cfg, flow.p, resource) ==> g.resource == resource)
    && g.principal == who && g.expiresAt == tail.now + 60_000_000_000
  }

  ghost predicate CodeIssued(cfg: Config, st: State, tail: Tail, flow: Flow, who: Grant, st': State, response: Response)
    requires tail.codeDraw.Some?
  {
    var code := tail.codeDraw.value;
    && response == RedirectCode(flow.p.redirectURI, flow.p.state, code, CookieOf(cfg, tail, flow))
    && code in st'.codes && st'.codes == st.codes[code := st'.codes[code]]
    && GrantOf(cfg, tail, flow, who, st'.codes[code])
  }

  // ----- who is diverted to enrollment -----------------------------------

  /** The enrollment of the resource asked for. */
  function Enrolls(cfg: Config, p: AuthParams): Option<Enrollable> {
    if cfg.enrollmentForResource.None? then cfg.enrollment
    else
      var resource := if p.resource == "" then cfg.default else TrimRight(p.resource, '/');
      if p.resource != "" && resource !in cfg.resources then None else cfg.enrollmentForResource.value(resource)
  }

  /** The submission comes from the approval page or the chooser. */
  predicate NotEnrolling(get: string -> string) { get("enroll") != "1" }

  predicate ShowsEnrollment(out: Outcome) { out.Done? && out.response.Show? && out.response.page.EnrollPage? }

  /** Approving, or choosing, shows the enrollment page exactly when the name is one
      with an enrollment for the resource, and the binding that a token for this
      very resource would show is empty, or an update was asked for. */
  lemma DivertsExactly(
      cfg: Config, st: State, tail: Tail, flow: Flow, get: string -> string, resource: string, bound: Binding)
    requires Serviceable(cfg) && NotEnrolling(get) && AudienceAsked(cfg, flow.p, resource)
    requires ShownAs(cfg, flow.who.binding, resource, bound)
    ensures var out := Dispatch(cfg, st, tail, flow, get);
            && (ShowsEnrollment(out) <==>
                  flow.who.name != "" && Enrolls(cfg, flow.p).Some?
                      && (bound == map[] || get("update_credentials") != ""))
            && out.Done?
            && (ShowsEnrollment(out) ==>
                  out.st == st && FreshEnrollPage(out.response.page, flow, Enrolls(cfg, flow.p).value))
  {
    assert ResolveFor(cfg, flow.p) == Some(resource);
  }

  /** The first enrollment page: no notice, the first mode selected, no values. */
  ghost predicate FreshEnrollPage(page: Page, flow: Flow, d: Enrollable)
    requires page.EnrollPage?
  {
    && Carries(page.hidden, flow.p) && page.notice == NoNotice && page.principal == flow.who.name
    && page.modes == ModeViews(d, d.modes[0].key, map[])
  }

  // ----- the chooser -----------------------------------------------------

  /** Every set-valued key of the binding has one of its members picked. */
  predicate AllPicked(binding: Binding, get: string -> string) {
    forall k :: k in binding && IsSet(binding[k]) ==> get("choice_" + k) in Members(binding[k])
  }

  function Picked(binding: Binding, get: string -> string): Binding {
    map k | k in binding :: if IsSet(binding[k]) then get("choice_" + k) else binding[k]
  }

  /** The chooser asks for exactly the sets of the binding. */
  ghost predicate AsksToChoose(page: Page, flow: Flow, notice: Notice) {
    && page.BindingPage? && Carries(page.hidden, flow.p) && page.notice == notice && page.principal == flow.who.name
    && page.sets.Keys == set k | k in flow.who.binding && IsSet(flow.who.binding[k])
    && forall k :: k in page.sets && k in flow.who.binding ==> page.sets[k] == Members(flow.who.binding[k])
  }

  /** Where enrollment does not step in: the operator, and a name without sets, are
      issued a code for the binding as it is; a name with sets first chooses, and
      is issued one for what was picked exactly when each pick is offered. */
  lemma IssuesOrChooses(cfg: Config, st: State, tail: Tail, flow: Flow, get: string -> string)
    requires Serviceable(cfg) && NotEnrolling(get) && !ShowsEnrollment(Dispatch(cfg, st, tail, flow, get))
    ensures var out := Dispatch(cfg, st, tail, flow, get);
            var sets := flow.who.name != "" && exists k :: k in flow.who.binding && IsSet(flow.who.binding[k]);
            && out.Done?
            && (!sets ==> (out.st, out.response) == Issue(cfg, st, tail, flow, flow.who))
            && (sets && get("choose") != "1" ==>
                  out.st == st && out.response.Show? && AsksToChoose(out.response.page, flow, NoNotice))
            && (sets && get("choose") == "1" && !AllPicked(flow.who.binding, get) ==>
                  out.st == st && out.response.Show? && AsksToChoose(out.response.page, flow, PickOffered))
            && (sets && get("choose") == "1" && AllPicked(flow.who.binding, get) ==>
                  (out.st, out.response)
                      == Issue(cfg, st, tail, flow, Grant(flow.who.name, Picked(flow.who.binding, get))))
  {
    NotDiverted(cfg, st, tail, flow, get);
    PicksResolve(flow.who.binding, get);
    IssuesOrAsks(cfg, st, tail, flow, get);
  }

  lemma NotDiverted(cfg: Config, st: State, tail: Tail, flow: Flow, get: string -> string)
    requires Serviceable(cfg) && NotEnrolling(get) && !ShowsEnrollment(Dispatch(cfg, st, tail, flow, get))
    ensures Dispatch(cfg, st, tail, flow, get)
         == IssueOrChoose(cfg, st, tail, flow, get("choose") == "1", Choices(get))
  {
  }

  /** What the binding of whoever is recognized leads to. */
  lemma IssuesOrAsks(cfg: Config, st: State, tail: Tail, flow: Flow, get: string -> string)
    requires Serviceable(cfg)
    requires Resolved(flow.who.binding, Choices(get))
          == if AllPicked(flow.who.binding, get) then Some(Picked(flow.who.binding, get)) else None
    ensures var out := IssueOrChoose(cfg, st, tail, flow, get("choose") == "1", Choices(get));
            var sets := flow.who.name != "" && exists k :: k in flow.who.binding && IsSet(flow.who.binding[k]);
            && out.Done?
            && (!sets ==> out == Done(Issue(cfg, st, tail, flow, flow.who).0, Issue(cfg, st, tail, flow, flow.who).1))
            && (sets && get("choose") != "1" ==> out == Done(st, Show(RenderBindings(flow, NoNotice))))
            && (sets && get("choose") == "1" && !AllPicked(flow.who.binding, get) ==>
                  out == Done(st, Show(RenderBindings(flow, PickOffered))))
            && (sets && get("choose") == "1" && AllPicked(flow.who.binding, get) ==>
                  var who := Grant(flow.who.name, Picked(flow.who.binding, get));
                  out == Done(Issue(cfg, st, tail, flow, who).0, Issue(cfg, st, tail, flow, who).1))
    ensures AsksToChoose(RenderBindings(flow, NoNotice), flow, NoNotice)
    ensures AsksToChoose(RenderBindings(flow, PickOffered), flow, PickOffered)
  {
    ChooserAsks(flow, NoNotice);
    ChooserAsks(flow, PickOffered);
  }

  lemma ChooserAsks(flow: Flow, notice: Notice)
    ensures AsksToChoose(RenderBindings(flow, notice), flow, notice)
  {
  }

  lemma PicksResolve(binding: Binding, get: string -> string)
    ensures Resolved(binding, Choices(get)) == if AllPicked(binding, get) then Some(Picked(binding, get)) else None
  {
    if AllPicked(binding, get) {
      assert Resolved(binding, Choices(get)).value == Picked(binding, get);
    }
  }

  /** What is issued without enrolling is issued for the picks, if there was
      something to pick. */
  lemma IssuedForPicked(cfg: Config, st: State, tail: Tail, flow: Flow, get: string -> string)
    requires Serviceable(cfg) && NotEnrolling(get) && flow.who.name != ""
    requires var out := Dispatch(cfg, st, tail, flow, get); out.Done? && out.response.RedirectCode?
    ensures var out := Dispatch(cfg, st, tail, flow, get);
            && out.response.code in out.st.codes
            && out.st.codes[out.response.code].principal.binding
               == if NeedsChoice(flow.who.binding) then Picked(flow.who.binding, get) else flow.who.binding
  {
    IssuesOrChooses(cfg, st, tail, flow, get);
    var who := if NeedsChoice(flow.who.binding) then Grant(flow.who.name, Picked(flow.who.binding, get)) else flow.who;
    IssueExactly(cfg, st, tail, flow, who);
  }

  lemma PickedIsIssued(cfg: Config, st: State, tail: Tail, flow: Flow, get: string -> string, granted: Binding)
    requires Serviceable(cfg) && NotEnrolling(get) && !ShowsEnrollment(Dispatch(cfg, st, tail, flow, get))
    requires flow.who.name != "" && NeedsChoice(flow.who.binding) && get("choose") == "1"
              && AllPicked(flow.who.binding, get)
    requires granted == Picked(flow.who.binding, get) && tail.codeDraw.Some?
    ensures var out := Dispatch(cfg, st, tail, flow, get);
            && out.Done? && out.response.RedirectCode? && out.response.code in out.st.codes
            && out.st.codes[out.response.code].principal.binding == granted
  {
    IssuesOrChooses(cfg, st, tail, flow, get);
    IssueExactly(cfg, st, tail, flow, Grant(flow.who.name, granted));
  }

  /** A code issued where there is something to enroll is for a binding whose
      tokens show nothing exactly when the binding held sets and what was picked
      from them shows nothing: the picks are not looked at again. */
  lemma UnboundExactly(cfg: Config, st: State, tail: Tail, flow: Flow, get: string -> string, resource: string)
    requires Serviceable(cfg) && NotEnrolling(get) && AudienceAsked(cfg, flow.p, resource)
    requires flow.who.name != "" && Enrolls(cfg, flow.p).Some?
    requires var out := Dispatch(cfg, st, tail, flow, get); out.Done? && out.response.RedirectCode?
    ensures var out := Dispatch(cfg, st, tail, flow, get);
            && out.response.code in out.st.codes
            && (ShownAs(cfg, out.st.codes[out.response.code].principal.binding, resource, map[]) <==>
                  NeedsChoice(flow.who.binding) && ShownAs(cfg, Picked(flow.who.binding, get), resource, map[]))
  {
    var binding := flow.who.binding;
    var bound := if cfg.bindingForResource.Some? then cfg.bindingForResource.value(binding, resource) else binding;
    DivertsExactly(cfg, st, tail, flow, get, resource, bound);
    IssuedForPicked(cfg, st, tail, flow, get);
  }

  lemma PicksFirst(binding: Binding, get: string -> string, x: string, y: string)
    requires SEPARATOR !in x && TrimSpace(x) == x != "" && SEPARATOR !in y && TrimSpace(y) == y != ""
    requires binding == map["k" := x + [SEPARATOR] + y] && get("choice_k") == x
    ensures NeedsChoice(binding) && AllPicked(binding, get) && Picked(binding, get) == map["k" := x]
  {
    PairOfMembers(x, y);
    assert IsSet(binding["k"]) && "choice_" + "k" == "choice_k";
  }

  /** Which happens: the name may pick x or y, and the host shows only keys still
      bound to a set. x is picked, and the code's tokens show nothing. */
  lemma PickIssuesUnbound(
      cfg: Config, st: State, tail: Tail, flow: Flow, get: string -> string, resource: string, x: string, y: string)
    requires Serviceable(cfg) && cfg.bindingForResource.Some?
    requires forall b, r :: cfg.bindingForResource.value(b, r) == SetsOnly(b)
    requires SEPARATOR !in x && TrimSpace(x) == x != "" && SEPARATOR !in y && TrimSpace(y) == y != ""
    requires flow.who == Grant("alice", map["k" := x + [SEPARATOR] + y]) && AudienceAsked(cfg, flow.p, resource)
    requires NotEnrolling(get) && get("choose") == "1" && get("update_credentials") == "" && get("choice_k") == x
    requires tail.codeDraw.Some?
    ensures var out := Dispatch(cfg, st, tail, flow, get);
            && out.Done? && out.response.RedirectCode? && out.response.code in out.st.codes
            && ShownAs(cfg, out.st.codes[out.response.code].principal.binding, resource, map[])
  {
    PicksFirst(flow.who.binding, get, x, y);
    PickShowsNothing(x, y, flow.who.binding, map["k" := x]);
    DivertsExactly(cfg, st, tail, flow, get, resource, SetsOnly(flow.who.binding));
    PickedIsIssued(cfg, st, tail, flow, get, map["k" := x]);
  }

  // ----- what the callback receives --------------------------------------

  /** The mode a post addresses: by its key, or by none when there is just one. */
  predicate Addresses(d: Descriptor, m: Mode, posted: string) {
    m in d.modes && (m.key == posted || (posted == "" && |d.modes| == 1))
  }

  function Typed(m: Mode, f: Field, get: string -> string): string {
    TrimSpace(get("field_" + m.key + "_" + f.key))
  }

  predicate Filled(m: Mode, get: string -> string) {
    forall j :: 0 <= j < |m.fields| ==> m.fields[j].optional || Typed(m, m.fields[j], get) != ""
  }

  predicate HasTyped(values: Values, m: Mode, f: Field, get: string -> string) {
    f.key in values && values[f.key] == Typed(m, f, get)
  }

  /** The callback is asked about the person, the mode, and every field of the mode
      with what was typed, secrets included. */
  ghost predicate AsksWithFields(call: EnrollCall, flow: Flow, d: Enrollable, m: Mode, get: string -> string) {
    && call.flow == flow && call.d == d
    && call.request.principal == flow.who.name && call.request.mode == m.key
    && call.request.choice == "" && call.request.state == ""
    && (forall k :: k in call.request.values <==> exists j :: 0 <= j < |m.fields| && m.fields[j].key == k)
    && (forall j :: 0 <= j < |m.fields| ==> HasTyped(call.request.values, m, m.fields[j], get))
    && call.view.mode == m.key && EchoesOpenly(call.view.values, m, get)
  }

  /** What may be shown again: the fields that are not secret, as typed. */
  ghost predicate EchoesOpenly(values: Values, m: Mode, get: string -> string) {
    && (forall k :: k in values <==> exists j :: 0 <= j < |m.fields| && m.fields[j].key == k && !m.fields[j].secret)
    && (forall j :: 0 <= j < |m.fields| && !m.fields[j].secret ==> HasTyped(values, m, m.fields[j], get))
  }

  /** A post of the fields asks the callback exactly when it addresses a mode with
      every required field filled; else it shows the form again, naming what is
      missing, and asks nobody. */
  lemma FieldsAskExactly(cfg: Config, st: State, tail: Tail, flow: Flow, get: string -> string, d: Enrollable, m: Mode)
    requires Serviceable(cfg) && get("enroll") == "1" && get("enroll_choice_round") != "1"
    requires flow.who.name != "" && Enrolls(cfg, flow.p) == Some(d) && Addresses(d, m, get("enroll_mode"))
    ensures var out := Dispatch(cfg, st, tail, flow, get);
            && out.st == st
            && (out.Asks? <==> Filled(m, get))
            && (out.Asks? ==> AsksWithFields(out.call, flow, d, m, get))
            && (!out.Asks? ==> ShowsEnrollment(out) && MissingNamed(out.response.page, m, get))
  {
    AddressedMode(d, m, get("enroll_mode"));
    SubmitsFields(st, flow, d, m, get);
  }

  ghost predicate MissingNamed(page: Page, m: Mode, get: string -> string)
    requires page.EnrollPage?
  {
    && page.notice.Required?
    && forall s :: s in page.notice.captions <==>
         exists j :: 0 <= j < |m.fields| && !m.fields[j].optional && Typed(m, m.fields[j], get) == ""
             && m.fields[j].caption == s
  }

  lemma AddressedMode(d: Enrollable, m: Mode, posted: string)
    requires Addresses(d, m, posted)
    ensures ModeFor(d, posted) == Some(m)
  {
    var i :| 0 <= i < |d.modes| && d.modes[i] == m;
    ModeLookupInverse(d, m.key);
  }

  lemma TypedIsSubmitted(m: Mode, get: string -> string)
    ensures forall j :: 0 <= j < |m.fields| ==> Submitted(m.key, m.fields[j], get) == Typed(m, m.fields[j], get)
  {
  }

  lemma SubmitsFields(st: State, flow: Flow, d: Enrollable, m: Mode, get: string -> string)
    requires ModeFor(d, get("enroll_mode")) == Some(m)
    ensures var out := SubmitFields(st, flow, d, get);
            && out.st == st
            && (out.Asks? <==> Filled(m, get))
            && (out.Asks? ==> AsksWithFields(out.call, flow, d, m, get))
            && (!out.Asks? ==> ShowsEnrollment(out) && MissingNamed(out.response.page, m, get))
  {
    TypedIsSubmitted(m, get);
    MissingLabelsExactly(m.key, m.fields, get);
    var values := AllValues(m.key, m.fields, get);
    forall k ensures k in values <==> exists j :: 0 <= j < |m.fields| && m.fields[j].key == k {
      ValuesExactly(m.key, m.fields, get, k);
    }
    forall j | 0 <= j < |m.fields|
      ensures HasTyped(values, m, m.fields[j], get)
    {
      ValuesExactly(m.key, m.fields, get, m.fields[j].key);
    }
    Echoes(m, get);
  }

  lemma Echoes(m: Mode, get: string -> string)
    ensures EchoesOpenly(NonSecret(m.key, m.fields, get), m, get)
  {
    var values := NonSecret(m.key, m.fields, get);
    forall k ensures k in values <==> exists j :: 0 <= j < |m.fields| && m.fields[j].key == k && !m.fields[j].secret {
      ValuesExactly(m.key, m.fields, get, k);
    }
    forall j | 0 <= j < |m.fields| && !m.fields[j].secret
      ensures HasTyped(values, m, m.fields[j], get)
    {
      ValuesExactly(m.key, m.fields, get, m.fields[j].key);
    }
  }

  /** The callback is asked about the person, the mode, the choice and its own
      state, and no field values. */
  predicate AsksWithChoice(call: EnrollCall, flow: Flow, d: Enrollable, m: Mode, get: string -> string) {
    && call.flow == flow && call.d == d
    && call.request.principal == flow.who.name && call.request.mode == m.key && call.request.values == map[]
    && call.request.choice == get("enroll_choice") && call.request.state == get("enroll_state")
  }

  /** A choice is passed on exactly when one was made; else the form starts over. */
  lemma ChoiceAsksExactly(cfg: Config, st: State, tail: Tail, flow: Flow, get: string -> string, d: Enrollable, m: Mode)
    requires Serviceable(cfg) && get("enroll") == "1" && get("enroll_choice_round") == "1"
    requires flow.who.name != "" && Enrolls(cfg, flow.p) == Some(d) && Addresses(d, m, get("enroll_mode"))
    ensures var out := Dispatch(cfg, st, tail, flow, get);
            && out.st == st
            && (out.Asks? <==> get("enroll_choice") != "")
            && (out.Asks? ==> AsksWithChoice(out.call, flow, d, m, get))
            && (!out.Asks? ==> ShowsEnrollment(out) && out.response.page.notice == NothingSelected)
  {
    AddressedMode(d, m, get("enroll_mode"));
  }

  /** No mode addressed: the form again, and nobody is asked. */
  lemma UnknownMode(cfg: Config, st: State, tail: Tail, flow: Flow, get: string -> string, d: Enrollable)
    requires Serviceable(cfg) && get("enroll") == "1"
    requires flow.who.name != "" && Enrolls(cfg, flow.p) == Some(d)
    requires forall m :: !Addresses(d, m, get("enroll_mode"))
    ensures var out := Dispatch(cfg, st, tail, flow, get);
            out.st == st && ShowsEnrollment(out) && out.response.page.notice == PickMode
  {
    ModeLookupInverse(d, get("enroll_mode"));
    if ModeFor(d, get("enroll_mode")).Some? {
      var m := ModeFor(d, get("enroll_mode")).value;
      FirstModeFinds(d.modes, get("enroll_mode"));
      assert Addresses(d, m, get("enroll_mode"));
    }
  }

  // ----- what the callback's result leads to -----------------------------

  /** The enrollment form as last filled in, for another try. */
  ghost predicate FormAgain(page: Page, call: EnrollCall, notice: Notice) {
    && page.EnrollPage? && Carries(page.hidden, call.flow.p) && page.notice == notice
    && page.principal == call.flow.who.name
    && page.modes
        == ModeViews(call.d, if call.view.mode == "" then call.d.modes[0].key else call.view.mode, call.view.values)
  }

  /** An error shows the form again with its message; a choice shows its options,
      and none offered is an internal error, as are an empty binding and a merge
      that the store or a removal prevents; else the merged binding is stored and a
      code issued for it. */
  lemma FinishExactly(cfg: Config, st: State, tail: Tail, call: EnrollCall, result: EnrollResult)
    requires Serviceable(cfg)
    ensures var (st', response) := FinishEnroll(cfg, st, tail, call, result);
            var name := call.flow.who.name;
            match result
            case EnrollError(message) =>
                st' == st && response.Show? && FormAgain(response.page, call, CallbackSaid(message))
            case EnrollResult(binding, choice) =>
              if choice.Some? && choice.value.options == [] then st' == st && response == ErrorPage(EmptyChoice, None)
              else if choice.Some? then
                && st' == st && response.Show? && response.page.ChoicePage?
                    && Carries(response.page.hidden, call.flow.p)
                && response.page.principal == name && response.page.prompt == choice.value.prompt
                && response.page.options == choice.value.options
              else if binding == map[] then st' == st && response == ErrorPage(NoBinding, None)
              else if !tail.mergeIo.Works? || name !in st.principals then st' == st
                  && response == ErrorPage(MergeFailed, None)
              else
                var merged := st.principals[name].binding + binding;
                var records := st.principals[name := PrincipalRecord(st.principals[name].code, merged)];
                (st', response) == Issue(cfg, st.(principals := records), tail, call.flow, Grant(name, merged))
  {
    if result.EnrollError? {
      ShowsAgain(call, CallbackSaid(result.message));
    } else if result.choice.Some? {
      OffersChoice(call.flow, call.request.mode, result.choice.value);
    } else if call.flow.who.name in st.principals {
      var name := call.flow.who.name;
      assert Merged(st.principals, name, result.binding)
          == st.principals[name := PrincipalRecord(st.principals[name].code,
              st.principals[name].binding + result.binding)];
    }
  }

  lemma ShowsAgain(call: EnrollCall, notice: Notice)
    ensures FormAgain(RenderEnroll(call.flow, call.d, call.view.(notice := notice)), call, notice)
  {
  }

  lemma OffersChoice(flow: Flow, mode: string, choice: EnrollChoice)
    ensures Carries(RenderChoice(flow, mode, choice).hidden, flow.p)
  {
  }

  /** Each mode of the form has its fields in order, under the names they are read
      by, with what may be shown of them. */
  lemma ViewsExactly(d: Descriptor, selected: string, values: Values, i: nat, j: nat)
    requires i < |d.modes|
    ensures var views := ModeViews(d, selected, values);
            && |views| == |d.modes| && views[i].key == d.modes[i].key && views[i].caption == d.modes[i].caption
            && (views[i].selected <==> d.modes[i].key == selected) && |views[i].fields| == |d.modes[i].fields|
            && (j < |d.modes[i].fields| ==>
                  var f, v := d.modes[i].fields[j], views[i].fields[j];
                  && v.name == "field_" + d.modes[i].key + "_" + f.key && v.caption == f.caption
                  && v.help == f.help && v.snippet == f.snippet && v.secret == f.secret && v.optional == f.optional
                  && v.value == (if f.secret || f.key !in values then "" else values[f.key]))
  {
  }

  // ----- whole submissions -----------------------------------------------

  /** A submission that does not pass is answered as the gates say and changes
      nothing; one of somebody unknown gets the form again, carrying the request; a
      failed check is an error page; the rest is handled as whoever was
      recognized, who may have made the operator code by entering one. */
  lemma SubmissionExactly(cfg: Config, st: State, env: Env, post: Post)
    requires Serviceable(cfg)
    ensures var out, p, entered := AuthorizePost(cfg, st, env, post), Parse(post.get), post.get("pairing_code");
            var v, r := ValidatedRequest(cfg, st, env.clientsIo, p), VerifyIdentity(cfg, st, env, entered, post.cookie);
            var st1 := AfterIdentity(st, env, entered);
            if v.Refused? then out == Done(st, v.response)
            else if r.CheckFailed? then out == Done(st1, ErrorPage(IdentityCheckFailed, None))
            else if r.NotRecognized? then
              && out.Done? && out.st == st1 && out.response.Show? && out.response.page.ApprovalPage?
              && Carries(out.response.page.hidden, p) && out.response.page.notice == WrongCode
              && out.response.page.sessionName == ""
            else out == Dispatch(cfg, st1, env.tail, Flow(v.client, p, r.grant, entered), post.get)
  {
  }

  /** Whichever POST asks the callback, in whatever state: it came from a round of
      the enrollment of the resource asked for, and what is asked is what was
      posted, fields or choice. */
  lemma AsksWhatWasPosted(cfg: Config, st: State, env: Env, post: Post)
    requires Serviceable(cfg) && AuthorizePost(cfg, st, env, post).Asks?
    ensures var call := AuthorizePost(cfg, st, env, post).call;
            && Enrolls(cfg, Parse(post.get)) == Some(call.d) && post.get("enroll") == "1"
            && call.flow.p == Parse(post.get) && call.flow.who.name != ""
            && exists m :: Addresses(call.d, m, post.get("enroll_mode"))
                 && if post.get("enroll_choice_round") == "1" then AsksWithChoice(call, call.flow, call.d, m, post.get)
                    else AsksWithFields(call, call.flow, call.d, m, post.get)
  {
    SubmissionExactly(cfg, st, env, post);
    match Admit(cfg, st, env, Parse(post.get), post.get("pairing_code"), post.cookie) {
      case Turned(_, _) =>
      case Admitted(st1, flow) => AskingMode(cfg, st1, env.tail, flow, post.get);
    }
  }

  lemma AskingMode(cfg: Config, st: State, tail: Tail, flow: Flow, get: string -> string)
    requires Serviceable(cfg) && Dispatch(cfg, st, tail, flow, get).Asks?
    ensures var call := Dispatch(cfg, st, tail, flow, get).call;
            && call.flow == flow && Enrolls(cfg, flow.p) == Some(call.d) && get("enroll") == "1" && flow.who.name != ""
            && exists m :: Addresses(call.d, m, get("enroll_mode"))
                 && if get("enroll_choice_round") == "1" then AsksWithChoice(call, flow, call.d, m, get)
                    else AsksWithFields(call, flow, call.d, m, get)
  {
    var d := Enrolls(cfg, flow.p).value;
    if m :| Addresses(d, m, get("enroll_mode")) {
      if get("enroll_choice_round") == "1" {
        ChoiceAsksExactly(cfg, st, tail, flow, get, d, m);
      } else {
        FieldsAskExactly(cfg, st, tail, flow, get, d, m);
      }
    } else {
      UnknownMode(cfg, st, tail, flow, get, d);
    }
  }

  /** The four steps, also of forms no page would post: a round of choosing counts
      only within an enrollment, and an enrollment wins over the chooser. */
  lemma StepsExactly(get: string -> string)
    ensures Classify(get).EnrollChoice? <==> get("enroll") == "1" && get("enroll_choice_round") == "1"
    ensures Classify(get).EnrollFields? <==> get("enroll") == "1" && get("enroll_choice_round") != "1"
    ensures Classify(get).BindingChoice? <==> get("enroll") != "1" && get("choose") == "1"
    ensures Classify(get).InitialApproval? <==> get("enroll") != "1" && get("choose") != "1"
  {
  }
}
