/** What single requests guarantee, in every state. */
module AuthorizeFacts {
  import opened Identity
  import opened AuthorizeForm
  import opened BindingChoice
  import opened Stores
  import opened Principals
  import opened Authorize

  // ----- identity --------------------------------------------------------

  /** Whoever is recognized, by code or by session, is the operator or holds
      the binding stored for the name right now. */
  lemma RecognizedIsCurrent(cfg: Config, st: State, env: Env, entered: string, cookie: string)
    ensures VerifyIdentity(cfg, st, env, entered, cookie).Recognized? ==>
              var who := VerifyIdentity(cfg, st, env, entered, cookie).grant;
              who == OPERATOR || (who.name in st.principals && who.binding == st.principals[who.name].binding)
  {
    if entered != "" {
      var shared := CodeOf(st.operatorCode, env.codeDraw, env.codeIo);
      if shared.Ok? && !env.recordsIo.GetFails? {
        EstablishedIsStored(shared.value, st.principals, entered);
      }
    }
  }

  // ----- the shape of an authorize POST ----------------------------------

  /** who may be issued to the person recognized as flow.who: the same name,
      and for a named principal a narrowing of the recognized binding. */
  ghost predicate MayIssue(flow: Flow, who: Grant) {
    && who.name == flow.who.name
    && (who.name == "" ==> who == flow.who)
    && (who.name != "" ==> Narrows(who.binding, flow.who.binding))
  }

  lemma ResolveSetsNarrows(flow: Flow, choosing: bool, choice: string -> string)
    ensures ResolveSets(flow, choosing, choice).Ok? ==> MayIssue(flow, ResolveSets(flow, choosing, choice).value)
  {
    if ResolveSets(flow, choosing, choice).Ok? && flow.who.name != "" {
      if NeedsChoice(flow.who.binding) {
        ResolvedNarrows(flow.who.binding, choice, choice);
      } else {
        UnsetBindingNarrows(flow.who.binding);
      }
    }
  }

  /** A submission of an identified person shows a page and changes nothing,
      or issues one code, or calls the callback and changes nothing. */
  ghost predicate DispatchShape(cfg: Config, st: State, tail: Tail, flow: Flow, out: Outcome)
    requires Serviceable(cfg)
  {
    || (out.Done? && out.response.Show? && out.st == st)
    || (out.Done? && exists who :: MayIssue(flow, who) && (out.st, out.response) == Issue(cfg, st, tail, flow, who))
    || (out.Asks? && out.st == st && out.call.flow == flow && flow.who.name != ""
        && out.call.request.principal == flow.who.name)
  }

  lemma DispatchHasShape(cfg: Config, st: State, tail: Tail, flow: Flow, get: string -> string)
    requires Serviceable(cfg)
    ensures DispatchShape(cfg, st, tail, flow, Dispatch(cfg, st, tail, flow, get))
  {
    var choosing := Classify(get).BindingChoice?;
    ResolveSetsNarrows(flow, choosing, Choices(get));
  }

  /** The gates: the request was valid for a registered client, and somebody
      was recognized. */
  ghost predicate PassedGates(cfg: Config, st: State, env: Env, post: Post, flow: Flow) {
    && flow.p == Parse(post.get)
    && flow.pairingCode == post.get("pairing_code")
    && ValidatedRequest(cfg, st, env.clientsIo, flow.p) == Valid(flow.client)
    && VerifyIdentity(cfg, st, env, flow.pairingCode, post.cookie) == Recognized(flow.who)
  }

  ghost predicate PostShaped(cfg: Config, st: State, env: Env, post: Post, flow: Flow, out: Outcome)
    requires Serviceable(cfg)
  {
    var st1 := AfterIdentity(st, env, post.get("pairing_code"));
    || (out.Done? && !out.response.RedirectCode? && (out.st == st || out.st == st1))
    || (PassedGates(cfg, st, env, post, flow) && DispatchShape(cfg, st1, env.tail, flow, out))
  }

  const NOBODY := Flow(Client("", [], ""), AuthParams("", "", "", "", "", "", "", ""), OPERATOR, "")

  /** Every outcome of a POST: a refusal that issues nothing, or, past the
      gates, one of the shapes above. */
  lemma PostShape(cfg: Config, st: State, env: Env, post: Post) returns (flow: Flow, out: Outcome)
    requires Serviceable(cfg)
    ensures out == AuthorizePost(cfg, st, env, post)
    ensures PostShaped(cfg, st, env, post, flow, out)
  {
    var gate := Admit(cfg, st, env, Parse(post.get), post.get("pairing_code"), post.cookie);
    out := AuthorizePost(cfg, st, env, post);
    match gate {
      case Turned(_, _) => flow := NOBODY;
      case Admitted(st1, admitted) =>
        flow := admitted;
        DispatchHasShape(cfg, st1, env.tail, flow, post.get);
    }
  }

  // ----- allowed sets ----------------------------------------------------

  /** who may have been granted from st without enrolling: the operator, or a
      name with a narrowing of its stored binding. */
  ghost predicate NarrowedFrom(st: State, who: Grant) {
    || who == OPERATOR
    || (who.name != "" && who.name in st.principals && Narrows(who.binding, st.principals[who.name].binding))
    || (who.name == "" && "" in st.principals)
  }

  /** A code issued by a POST, outside the enrollment finish, to a named
      principal carries a narrowing of the binding stored for that name when
      the POST arrived. */
  lemma IssuedCodesAreNarrowed(cfg: Config, st: State, env: Env, post: Post)
    requires Serviceable(cfg)
    requires AuthorizePost(cfg, st, env, post).Done? && AuthorizePost(cfg, st, env, post).response.RedirectCode?
    ensures AuthorizePost(cfg, st, env, post).response.code in AuthorizePost(cfg, st, env, post).st.codes
    ensures NarrowedFrom(st,
              AuthorizePost(cfg, st, env, post).st.codes[AuthorizePost(cfg, st, env, post).response.code].principal)
  {
    var flow, out := PostShape(cfg, st, env, post);
    RecognizedIsCurrent(cfg, st, env, flow.pairingCode, post.cookie);
  }

  // ----- enrollment ------------------------------------------------------

  /** The one way an enrollment issues a code. */
  predicate EnrollSucceeds(st: State, tail: Tail, call: EnrollCall, result: EnrollResult) {
    && result.EnrollResult? && result.choice.None? && result.binding != map[]
    && tail.mergeIo.Works? && call.flow.who.name in st.principals
    && tail.codeDraw.Some?
  }

  /** Enrollment fails closed. Whatever the callback returns, and whatever
      happened to the state while it ran: a code is issued exactly on success;
      on an error, a further choice, an empty result, a vanished principal or
      a failing store nothing at all changes. On success the code carries the
      binding stored just after the merge, which keeps the person's pairing
      code and the keys the callback did not return, and no other record
      changes. */
  lemma EnrollmentFailsClosed(cfg: Config, st: State, tail: Tail, call: EnrollCall, result: EnrollResult)
    requires Serviceable(cfg)
    ensures var (st', response) := FinishEnroll(cfg, st, tail, call, result);
            var name := call.flow.who.name;
            && (response.RedirectCode? <==> EnrollSucceeds(st, tail, call, result))
            && (!response.RedirectCode? && !(response.ErrorPage? && response.fault.CodeDrawFailed?) ==> st' == st)
            && (response.RedirectCode? ==>
                  && name in st'.principals
                  && st'.principals
                      == st.principals[name := PrincipalRecord(st.principals[name].code,
                      st.principals[name].binding + result.binding)]
                  && response.code in st'.codes && st'.codes == st.codes[response.code := st'.codes[response.code]]
                  && st'.codes[response.code].principal == Grant(name, st'.principals[name].binding)
                  && st'.refresh == st.refresh && st'.clients == st.clients && st'.operatorCode == st.operatorCode)
  {
  }
}
