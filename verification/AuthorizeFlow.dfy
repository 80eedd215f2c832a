/** The authorize flow keeps its state in hidden inputs alone. It does what a
    server would do that remembered the request and the phase of every
    conversation and read nothing but the visible inputs: the stateless flow
    refines the remembering one. */
module AuthorizeFlow {
  import opened Wrappers
  import opened Text
  import opened Identity
  import opened Enrollment
  import opened EnrollView
  import opened AuthorizeForm
  import opened BindingChoice
  import opened Stores
  import opened Authorize
  import opened AuthorizeFacts
  import opened Promises

  // ----- the remembering server ------------------------------------------

  /** Which page the person is filling in, with what the server knew when it
      showed the page. */
  datatype Phase =
    | Approving
    | Enrolling(code: string)
    | Narrowing(code: string)
    | Choosing(code: string, mode: string, state: string)

  datatype Conversation = Conversation(p: AuthParams, phase: Phase)

  function Entered(phase: Phase, inputs: Form): string {
    if phase.Approving? then FormGet(inputs, "pairing_code") else phase.code
  }

  function InputChoice(inputs: Form): string -> string {
    key => FormGet(inputs, "choice_" + key)
  }

  function RememberedDispatch(cfg: Config, st: State, tail: Tail, flow: Flow, phase: Phase, inputs: Form): Outcome
    requires Serviceable(cfg)
  {
    var go := IssueOrChoose(cfg, st, tail, flow, phase.Narrowing?, InputChoice(inputs));
    match EnrollmentOf(cfg, flow.p, flow.who)
    case None => go
    case Some(d) =>
      match phase
      case Enrolling(_) => SubmitFields(st, flow, d, Reading(inputs))
      case Choosing(_, mode, state) => SubmitChoice(st, flow, d, mode, FormGet(inputs, "enroll_choice"), state)
      case Approving =>
        if MustEnroll(cfg, flow, FormGet(inputs, "update_credentials") != "")
            then Done(st, Show(RenderEnroll(flow, d, View(NoNotice, "", map[])))) else go
      case Narrowing(_) =>
        if MustEnroll(cfg, flow, false) then Done(st, Show(RenderEnroll(flow, d, View(NoNotice, "", map[])))) else go
  }

  ghost function RememberedPost(
      cfg: Config, st: State, env: Env, c: Conversation, inputs: Form, cookie: string): Outcome
    requires Serviceable(cfg)
  {
    match Admit(cfg, st, env, c.p, Entered(c.phase, inputs), cookie)
    case Turned(st1, response) => Done(st1, response)
    case Admitted(st1, flow) => RememberedDispatch(cfg, st1, env.tail, flow, c.phase, inputs)
  }

  /** What it remembers after showing a page; the mode and the callback's state
      matter for the choice page only. */
  function NextPhase(page: Page, entered: string, mode: string, state: string): Phase {
    match page
    case ApprovalPage(_, _, _, _) => Approving
    case EnrollPage(_, _, _, _) => Enrolling(entered)
    case BindingPage(_, _, _, _) => Narrowing(entered)
    case ChoicePage(_, _, _, _) => Choosing(entered, mode, state)
  }

  // ----- one round -------------------------------------------------------

  /** One submission: the state it meets and what it meets outside; what the
      person fills in; and, should the callback be called, the state, which
      may have changed meanwhile, and the result when it returns. */
  datatype Round = Round(st: State, env: Env, inputs: Form, cookie: string, later: State, tail: Tail,
      result: EnrollResult)

  /** How a round ends: the store, the response, and the phase then. */
  datatype Ending = Ending(st: State, response: Response, phase: Phase)

  function ChoiceState(result: EnrollResult): string {
    if result.EnrollResult? && result.choice.Some? then result.choice.value.state else ""
  }

  function Concluded(cfg: Config, out: Outcome, r: Round, entered: string): Ending
    requires Serviceable(cfg)
  {
    match out
    case Done(st, response) =>
      Ending(st, response, if response.Show? then NextPhase(response.page, entered, "", "") else Approving)
    case Asks(_, call) =>
      var (st, response) := FinishEnroll(cfg, r.later, r.tail, call, r.result);
      Ending(st, response, if response.Show?
          then NextPhase(response.page, entered, call.request.mode, ChoiceState(r.result)) else Approving)
  }

  /** The remembering server's round. */
  ghost function Remembered(cfg: Config, c: Conversation, r: Round): Ending
    requires Serviceable(cfg)
  {
    Concluded(cfg, RememberedPost(cfg, r.st, r.env, c, r.inputs, r.cookie), r, Entered(c.phase, r.inputs))
  }

  function Browser(page: Page, r: Round): Post {
    Post(Posted(r.inputs, page.hidden), r.cookie)
  }

  /** The server's round, from the page alone. */
  ghost function Stateless(cfg: Config, page: Page, r: Round): (State, Response)
    requires Serviceable(cfg)
  {
    match AuthorizePost(cfg, r.st, r.env, Browser(page, r))
    case Done(st, response) => (st, response)
    case Asks(_, call) => FinishEnroll(cfg, r.later, r.tail, call, r.result)
  }

  // ----- pages and conversations -----------------------------------------

  function HiddenOf(c: Conversation): Hidden {
    match c.phase
    case Approving => HiddenFields(c.p)
    case Enrolling(code) => HiddenFieldsWithCode(c.p, code)["enroll" := "1"]
    case Narrowing(code) => HiddenFieldsWithCode(c.p, code)["choose" := "1"]
    case Choosing(code, mode, state) => ChoiceHidden(c.p, code, mode, state)
  }

  /** The visible inputs of a page. */
  ghost predicate Offers(page: Page, name: string) {
    match page
    case ApprovalPage(_, _, _, _) => name == "pairing_code" || name == "update_credentials"
    case EnrollPage(_, _, _, modes) =>
      || name == "enroll_mode"
      || exists i, j :: 0 <= i < |modes| && 0 <= j < |modes[i].fields| && modes[i].fields[j].name == name
    case BindingPage(_, _, _, sets) => exists k :: k in sets && name == "choice_" + k
    case ChoicePage(_, _, _, _) => name == "enroll_choice"
  }

  /** The person fills in inputs of the page, with any values. */
  ghost predicate FilledIn(page: Page, inputs: Form) {
    forall i :: 0 <= i < |inputs| ==> Offers(page, inputs[i].0)
  }

  predicate KindOf(page: Page, phase: Phase) {
    match page
    case ApprovalPage(_, _, _, _) => phase.Approving?
    case EnrollPage(_, _, _, _) => phase.Enrolling?
    case BindingPage(_, _, _, _) => phase.Narrowing?
    case ChoicePage(_, _, _, _) => phase.Choosing?
  }

  predicate FieldNamed(name: string) { HasPrefix(name, "field_") }

  ghost predicate FieldsNamed(modes: seq<ModeView>) {
    forall i, j :: 0 <= i < |modes| && 0 <= j < |modes[i].fields| ==> FieldNamed(modes[i].fields[j].name)
  }

  /** The page hides exactly the conversation. */
  ghost predicate Encodes(page: Page, c: Conversation) {
    && KindOf(page, c.phase) && page.hidden == HiddenOf(c)
    && (page.EnrollPage? ==> FieldsNamed(page.modes))
  }

  // ----- names do not clash ----------------------------------------------

  const REQUEST_NAMES: set<string> :=
    {"client_id", "redirect_uri", "response_type", "code_challenge", "code_challenge_method", "state", "scope",
        "resource"}
  const MARKER_NAMES: set<string> :=
    {"pairing_code", "enroll", "enroll_choice_round", "enroll_state", "enroll_mode", "choose"}

  lemma HiddenNames(c: Conversation, name: string)
    requires name in HiddenOf(c)
    ensures name in REQUEST_NAMES || name in MARKER_NAMES
    ensures name == "enroll_mode" ==> c.phase.Choosing?
    ensures c.phase.Approving? ==> name in REQUEST_NAMES
  {
  }

  /** No descriptor key and no binding key makes an input that reads like a
      hidden one. */
  lemma ChosenNamesClear(name: string)
    requires FieldNamed(name) || HasPrefix(name, "choice_")
    ensures name !in REQUEST_NAMES && name !in MARKER_NAMES
    ensures name != "update_credentials" && name != "enroll_choice"
  {
    if FieldNamed(name) {
      assert name[0] == 'f';
    } else {
      assert name[0] == 'c' && name[3] == 'i';
    }
  }

  lemma OffersWhat(page: Page, c: Conversation, name: string)
    requires Encodes(page, c) && Offers(page, name)
    ensures !Reserved(c.phase, name)
  {
    match page {
      case EnrollPage(_, _, _, modes) => if name != "enroll_mode" { ChosenNamesClear(name); }
      case BindingPage(_, _, _, sets) => {
        var k :| k in sets && name == "choice_" + k;
        assert name[..7] == "choice_";
        ChosenNamesClear(name);
      }
      case _ =>
    }
  }

  /** Names that the inputs of the phase's page never have. */
  predicate Reserved(phase: Phase, name: string) {
    || name in REQUEST_NAMES
    || name == "enroll" || name == "enroll_choice_round" || name == "choose" || name == "enroll_state"
    || ((name == "pairing_code" || name == "update_credentials") && !phase.Approving?)
    || (name == "enroll_mode" && !phase.Enrolling?)
  }

  /** A visible input never shadows what the page hides. */
  lemma NotShadowed(page: Page, c: Conversation, inputs: Form, name: string)
    requires Encodes(page, c) && FilledIn(page, inputs) && Reserved(c.phase, name)
    ensures Posted(inputs, page.hidden)(name) == Lookup(HiddenOf(c), name)
  {
    if Names(inputs, name) {
      var i :| 0 <= i < |inputs| && inputs[i].0 == name;
      OffersWhat(page, c, name);
    }
  }

  /** And what the page does not hide is read from the visible inputs. */
  lemma ReadFromInputs(c: Conversation, inputs: Form, name: string)
    requires name !in HiddenOf(c)
    ensures Posted(inputs, HiddenOf(c))(name) == FormGet(inputs, name)
  {
    if !Names(inputs, name) {
      FormGetAppend(inputs, [], name);
      assert inputs + [] == inputs;
    }
  }

  // ----- reading a submission --------------------------------------------

  function StepOf(phase: Phase): Step {
    match phase
    case Approving => InitialApproval
    case Enrolling(_) => EnrollFields
    case Narrowing(_) => Step.BindingChoice
    case Choosing(_, _, _) => Step.EnrollChoice
  }

  /** A submission is read as what the conversation was. */
  ghost predicate ReadRight(c: Conversation, inputs: Form, get: string -> string) {
    && Parse(get) == c.p && Classify(get) == StepOf(c.phase) && get("pairing_code") == Entered(c.phase, inputs)
  }

  lemma ReadsRequest(page: Page, c: Conversation, inputs: Form)
    requires Encodes(page, c) && FilledIn(page, inputs)
    ensures Parse(Posted(inputs, page.hidden)) == c.p
  {
    forall name | name in HiddenFields(c.p) ensures !Names(inputs, name) {
      assert name in REQUEST_NAMES;
      if Names(inputs, name) {
        var i :| 0 <= i < |inputs| && inputs[i].0 == name;
        OffersWhat(page, c, name);
      }
    }
    HidesRequest(c);
    RequestRoundTrip(c.p, page.hidden, inputs);
  }

  lemma HidesRequest(c: Conversation)
    ensures Carries(HiddenOf(c), c.p)
  {
  }

  predicate InEnrollment(phase: Phase) { phase.Enrolling? || phase.Choosing? }

  lemma HidesMarkers(c: Conversation)
    ensures Lookup(HiddenOf(c), "enroll") == if InEnrollment(c.phase) then "1" else ""
    ensures Lookup(HiddenOf(c), "choose") == if c.phase.Narrowing? then "1" else ""
  {
  }

  lemma HidesRound(c: Conversation)
    ensures Lookup(HiddenOf(c), "enroll_choice_round") == if c.phase.Choosing? then "1" else ""
    ensures Lookup(HiddenOf(c), "pairing_code") == if c.phase.Approving? then "" else c.phase.code
  {
  }

  lemma ClassifiesBy(get: string -> string, phase: Phase)
    requires get("enroll") == if InEnrollment(phase) then "1" else ""
    requires get("enroll_choice_round") == if phase.Choosing? then "1" else ""
    requires get("choose") == if phase.Narrowing? then "1" else ""
    ensures Classify(get) == StepOf(phase)
  {
  }

  /** A hidden input reads back as hidden. */
  lemma ReadsHidden(page: Page, c: Conversation, inputs: Form, name: string, value: string)
    requires Encodes(page, c) && FilledIn(page, inputs)
    requires Reserved(c.phase, name) && Lookup(HiddenOf(c), name) == value
    ensures Posted(inputs, page.hidden)(name) == value
  {
    NotShadowed(page, c, inputs, name);
  }

  lemma ReadsMarkers(page: Page, c: Conversation, inputs: Form)
    requires Encodes(page, c) && FilledIn(page, inputs)
    ensures Posted(inputs, page.hidden)("enroll") == if InEnrollment(c.phase) then "1" else ""
    ensures Posted(inputs, page.hidden)("choose") == if c.phase.Narrowing? then "1" else ""
  {
    HidesMarkers(c);
    ReadsHidden(page, c, inputs, "enroll", if InEnrollment(c.phase) then "1" else "");
    ReadsHidden(page, c, inputs, "choose", if c.phase.Narrowing? then "1" else "");
  }

  lemma ReadsRound(page: Page, c: Conversation, inputs: Form)
    requires Encodes(page, c) && FilledIn(page, inputs)
    ensures Posted(inputs, page.hidden)("enroll_choice_round") == if c.phase.Choosing? then "1" else ""
  {
    HidesRound(c);
    ReadsHidden(page, c, inputs, "enroll_choice_round", if c.phase.Choosing? then "1" else "");
  }

  lemma ReadsCode(page: Page, c: Conversation, inputs: Form)
    requires Encodes(page, c) && FilledIn(page, inputs)
    ensures Posted(inputs, page.hidden)("pairing_code") == Entered(c.phase, inputs)
  {
    HidesRound(c);
    if c.phase.Approving? {
      if "pairing_code" in HiddenOf(c) { HiddenNames(c, "pairing_code"); }
      ReadFromInputs(c, inputs, "pairing_code");
    } else {
      ReadsHidden(page, c, inputs, "pairing_code", c.phase.code);
    }
  }

  lemma ReadsPhase(page: Page, c: Conversation, inputs: Form)
    requires Encodes(page, c) && FilledIn(page, inputs)
    ensures Classify(Posted(inputs, page.hidden)) == StepOf(c.phase)
  {
    ReadsMarkers(page, c, inputs);
    ReadsRound(page, c, inputs);
    ClassifiesBy(Posted(inputs, page.hidden), c.phase);
  }

  // ----- the submission is dispatched alike ------------------------------

  /** The fields of a mode are read under their own names only. */
  lemma {:induction false} SameFields(modeKey: string, fields: seq<Field>, a: string -> string, b: string -> string)
    requires forall name :: FieldNamed(name) ==> a(name) == b(name)
    ensures AllValues(modeKey, fields, a) == AllValues(modeKey, fields, b)
    ensures NonSecret(modeKey, fields, a) == NonSecret(modeKey, fields, b)
    ensures MissingLabels(modeKey, fields, a) == MissingLabels(modeKey, fields, b)
  {
    if fields != [] {
      FieldNameNamed(modeKey, fields[|fields| - 1].key);
      FieldNameNamed(modeKey, fields[0].key);
      SameFields(modeKey, fields[..|fields| - 1], a, b);
      SameFields(modeKey, fields[1..], a, b);
    }
  }

  lemma FieldNameNamed(modeKey: string, fieldKey: string)
    ensures FieldNamed(FieldInputName(modeKey, fieldKey))
  {
  }

  lemma SameSubmission(st: State, flow: Flow, d: Enrollable, a: string -> string, b: string -> string)
    requires forall name :: FieldNamed(name) || name == "enroll_mode" ==> a(name) == b(name)
    ensures SubmitFields(st, flow, d, a) == SubmitFields(st, flow, d, b)
  {
    if ModeFor(d, a("enroll_mode")).Some? {
      var m := ModeFor(d, a("enroll_mode")).value;
      SameFields(m.key, m.fields, a, b);
    }
  }

  lemma ApprovedAlike(cfg: Config, st: State, tail: Tail, flow: Flow, get: string -> string, inputs: Form)
    requires Serviceable(cfg) && Classify(get) == InitialApproval
    requires get("update_credentials") == FormGet(inputs, "update_credentials")
    ensures Dispatch(cfg, st, tail, flow, get) == RememberedDispatch(cfg, st, tail, flow, Approving, inputs)
  {
    assert ResolveSets(flow, false, Choices(get)) == ResolveSets(flow, false, InputChoice(inputs));
  }

  lemma EnrolledAlike(cfg: Config, st: State, tail: Tail, flow: Flow, get: string -> string, code: string, inputs: Form)
    requires Serviceable(cfg) && Classify(get) == EnrollFields
    requires forall name :: FieldNamed(name) || name == "enroll_mode" ==> get(name) == Reading(inputs)(name)
    ensures Dispatch(cfg, st, tail, flow, get) == RememberedDispatch(cfg, st, tail, flow, Enrolling(code), inputs)
  {
    assert ResolveSets(flow, false, Choices(get)) == ResolveSets(flow, false, InputChoice(inputs));
    if EnrollmentOf(cfg, flow.p, flow.who).Some? {
      SameSubmission(st, flow, EnrollmentOf(cfg, flow.p, flow.who).value, get, Reading(inputs));
    }
  }

  lemma ChosenAlike(cfg: Config, st: State, tail: Tail, flow: Flow, get: string -> string, phase: Phase, inputs: Form)
    requires Serviceable(cfg) && phase.Choosing? && Classify(get) == Step.EnrollChoice
    requires get("enroll_mode") == phase.mode && get("enroll_state") == phase.state
    requires get("enroll_choice") == FormGet(inputs, "enroll_choice")
    ensures Dispatch(cfg, st, tail, flow, get) == RememberedDispatch(cfg, st, tail, flow, phase, inputs)
  {
    assert ResolveSets(flow, false, Choices(get)) == ResolveSets(flow, false, InputChoice(inputs));
  }

  lemma NarrowingAlike(
      cfg: Config, st: State, tail: Tail, flow: Flow, get: string -> string, phase: Phase, inputs: Form)
    requires Serviceable(cfg) && phase.Narrowing? && Classify(get) == Step.BindingChoice
    requires get("update_credentials") == ""
    requires forall k :: k in flow.who.binding ==> Choices(get)(k) == InputChoice(inputs)(k)
    ensures Dispatch(cfg, st, tail, flow, get) == RememberedDispatch(cfg, st, tail, flow, phase, inputs)
  {
    ChoicesAlike(cfg, st, tail, flow, Choices(get), InputChoice(inputs));
  }

  lemma ChoicesAlike(cfg: Config, st: State, tail: Tail, flow: Flow, a: string -> string, b: string -> string)
    requires Serviceable(cfg)
    requires forall k :: k in flow.who.binding ==> a(k) == b(k)
    ensures IssueOrChoose(cfg, st, tail, flow, true, a) == IssueOrChoose(cfg, st, tail, flow, true, b)
  {
    ResolvedReadsStoredKeys(flow.who.binding, a, b);
    assert ResolveSets(flow, true, a) == ResolveSets(flow, true, b);
  }

  /** Inputs the page neither hides nor reserves. */
  lemma ReadsFree(c: Conversation, inputs: Form, name: string)
    requires name !in REQUEST_NAMES && (name in MARKER_NAMES ==> name == "enroll_mode" && c.phase.Enrolling?)
    ensures Posted(inputs, HiddenOf(c))(name) == FormGet(inputs, name)
  {
    if name in HiddenOf(c) { HiddenNames(c, name); }
    ReadFromInputs(c, inputs, name);
  }

  lemma ReadsFields(c: Conversation, inputs: Form, name: string)
    requires c.phase.Enrolling? && (FieldNamed(name) || name == "enroll_mode")
    ensures Posted(inputs, HiddenOf(c))(name) == FormGet(inputs, name)
  {
    if FieldNamed(name) { ChosenNamesClear(name); }
    ReadsFree(c, inputs, name);
  }

  lemma ReadsUpdate(c: Conversation, inputs: Form)
    ensures Posted(inputs, HiddenOf(c))("update_credentials") == FormGet(inputs, "update_credentials")
  {
    ReadsFree(c, inputs, "update_credentials");
  }

  lemma ApprovingDispatched(cfg: Config, st: State, tail: Tail, flow: Flow, page: Page, c: Conversation, inputs: Form)
    requires Serviceable(cfg) && Encodes(page, c) && FilledIn(page, inputs) && c.phase.Approving?
    ensures Dispatch(cfg, st, tail, flow, Posted(inputs, page.hidden))
              == RememberedDispatch(cfg, st, tail, flow, c.phase, inputs)
  {
    ReadsPhase(page, c, inputs);
    ReadsUpdate(c, inputs);
    ApprovedAlike(cfg, st, tail, flow, Posted(inputs, page.hidden), inputs);
  }

  lemma EnrollingDispatched(cfg: Config, st: State, tail: Tail, flow: Flow, page: Page, c: Conversation, inputs: Form)
    requires Serviceable(cfg) && Encodes(page, c) && FilledIn(page, inputs) && c.phase.Enrolling?
    ensures Dispatch(cfg, st, tail, flow, Posted(inputs, page.hidden))
              == RememberedDispatch(cfg, st, tail, flow, c.phase, inputs)
  {
    var get := Posted(inputs, page.hidden);
    ReadsPhase(page, c, inputs);
    forall name | FieldNamed(name) || name == "enroll_mode" ensures get(name) == Reading(inputs)(name) {
      ReadsFields(c, inputs, name);
    }
    EnrolledAlike(cfg, st, tail, flow, get, c.phase.code, inputs);
  }

  lemma NarrowingDispatched(cfg: Config, st: State, tail: Tail, flow: Flow, page: Page, c: Conversation, inputs: Form)
    requires Serviceable(cfg) && Encodes(page, c) && FilledIn(page, inputs) && c.phase.Narrowing?
    ensures Dispatch(cfg, st, tail, flow, Posted(inputs, page.hidden))
              == RememberedDispatch(cfg, st, tail, flow, c.phase, inputs)
  {
    ReadsPhase(page, c, inputs);
    HidesNoUpdate(c);
    ReadsHidden(page, c, inputs, "update_credentials", "");
    forall k ensures Choices(Posted(inputs, page.hidden))(k) == InputChoice(inputs)(k) {
      ReadsChosen(c, inputs, k);
    }
    NarrowingAlike(cfg, st, tail, flow, Posted(inputs, page.hidden), c.phase, inputs);
  }

  lemma HidesNoUpdate(c: Conversation)
    ensures Lookup(HiddenOf(c), "update_credentials") == ""
  {
    if "update_credentials" in HiddenOf(c) { HiddenNames(c, "update_credentials"); }
  }

  lemma DispatchedAlike(cfg: Config, st: State, tail: Tail, flow: Flow, page: Page, c: Conversation, inputs: Form)
    requires Serviceable(cfg) && Encodes(page, c) && FilledIn(page, inputs)
    ensures Dispatch(cfg, st, tail, flow, Posted(inputs, page.hidden))
              == RememberedDispatch(cfg, st, tail, flow, c.phase, inputs)
  {
    if c.phase.Approving? {
      ApprovingDispatched(cfg, st, tail, flow, page, c, inputs);
    } else if c.phase.Enrolling? {
      EnrollingDispatched(cfg, st, tail, flow, page, c, inputs);
    } else if c.phase.Narrowing? {
      NarrowingDispatched(cfg, st, tail, flow, page, c, inputs);
    } else {
      ReadsPhase(page, c, inputs);
      ReadsChoice(page, c, inputs);
      ChosenAlike(cfg, st, tail, flow, Posted(inputs, page.hidden), c.phase, inputs);
    }
  }

  lemma ReadsChoice(page: Page, c: Conversation, inputs: Form)
    requires Encodes(page, c) && FilledIn(page, inputs) && c.phase.Choosing?
    ensures var get := Posted(inputs, page.hidden);
            get("enroll_mode") == c.phase.mode && get("enroll_state") == c.phase.state
                && get("enroll_choice") == FormGet(inputs, "enroll_choice")
  {
    HidesChoice(c);
    ReadsHidden(page, c, inputs, "enroll_mode", c.phase.mode);
    ReadsHidden(page, c, inputs, "enroll_state", c.phase.state);
    ReadsPick(c, inputs);
  }

  lemma ReadsPick(c: Conversation, inputs: Form)
    ensures Posted(inputs, HiddenOf(c))("enroll_choice") == FormGet(inputs, "enroll_choice")
  {
    ReadsFree(c, inputs, "enroll_choice");
  }

  lemma HidesChoice(c: Conversation)
    requires c.phase.Choosing?
    ensures Lookup(HiddenOf(c), "enroll_mode") == c.phase.mode && Lookup(HiddenOf(c), "enroll_state") == c.phase.state
  {
  }

  lemma ReadsChosen(c: Conversation, inputs: Form, key: string)
    ensures Choices(Posted(inputs, HiddenOf(c)))(key) == InputChoice(inputs)(key)
  {
    var name := "choice_" + key;
    assert name[..7] == "choice_";
    ChosenNamesClear(name);
    ReadsFree(c, inputs, name);
  }

  lemma PostedAlike(cfg: Config, st: State, env: Env, page: Page, c: Conversation, inputs: Form, cookie: string)
    requires Serviceable(cfg) && Encodes(page, c) && FilledIn(page, inputs)
    ensures AuthorizePost(cfg, st, env, Post(Posted(inputs, page.hidden), cookie))
              == RememberedPost(cfg, st, env, c, inputs, cookie)
    ensures ReadRight(c, inputs, Posted(inputs, page.hidden))
  {
    var get := Posted(inputs, page.hidden);
    ReadsRequest(page, c, inputs);
    ReadsPhase(page, c, inputs);
    ReadsCode(page, c, inputs);
    match Admit(cfg, st, env, c.p, Entered(c.phase, inputs), cookie) {
      case Turned(_, _) =>
      case Admitted(st1, flow) => DispatchedAlike(cfg, st1, env.tail, flow, page, c, inputs);
    }
  }

  // ----- one round refines -----------------------------------------------

  /** The modes shown come from ModeViews, so their inputs are field names. */
  lemma EnrollEncodes(flow: Flow, d: Enrollable, view: View)
    ensures Encodes(RenderEnroll(flow, d, view), Conversation(flow.p, Enrolling(flow.pairingCode)))
  {
    var page := RenderEnroll(flow, d, view);
    forall i, j | 0 <= i < |page.modes| && 0 <= j < |page.modes[i].fields|
        ensures FieldNamed(page.modes[i].fields[j].name) {
      FieldNameNamed(d.modes[i].key, d.modes[i].fields[j].key);
    }
  }

  /** A page shown by a POST encodes the phase it leads to. */
  lemma RememberedEncodes(cfg: Config, st: State, env: Env, c: Conversation, inputs: Form, cookie: string)
    requires Serviceable(cfg)
    ensures var out := RememberedPost(cfg, st, env, c, inputs, cookie);
            out.Done? && out.response.Show? ==>
              Encodes(out.response.page,
                  Conversation(c.p, NextPhase(out.response.page, Entered(c.phase, inputs), "", "")))
    ensures var out := RememberedPost(cfg, st, env, c, inputs, cookie);
            out.Asks? ==> out.call.flow.p == c.p && out.call.flow.pairingCode == Entered(c.phase, inputs)
  {
    match Admit(cfg, st, env, c.p, Entered(c.phase, inputs), cookie) {
      case Turned(_, _) =>
      case Admitted(st1, flow) => DispatchEncodes(cfg, st1, env.tail, flow, c.phase, inputs);
    }
  }

  /** A page shown in the flow encodes the phase it leads to. */
  ghost predicate PageEncodes(flow: Flow, out: Outcome) {
    match out
    case Done(_, response) =>
      response.Show? ==>
          Encodes(response.page, Conversation(flow.p, NextPhase(response.page, flow.pairingCode, "", "")))
    case Asks(_, call) => call.flow == flow
  }

  lemma IssueLeads(cfg: Config, st: State, tail: Tail, flow: Flow, choosing: bool, choice: string -> string)
    requires Serviceable(cfg)
    ensures PageEncodes(flow, IssueOrChoose(cfg, st, tail, flow, choosing, choice))
  {
  }

  lemma FieldsLead(st: State, flow: Flow, d: Enrollable, get: string -> string)
    ensures PageEncodes(flow, SubmitFields(st, flow, d, get))
  {
    EnrollEncodes(flow, d, View(PickMode, "", map[]));
    if ModeFor(d, get("enroll_mode")).Some? {
      var m := ModeFor(d, get("enroll_mode")).value;
      EnrollEncodes(flow, d,
          View(Required(MissingLabels(m.key, m.fields, get)), m.key, NonSecret(m.key, m.fields, get)));
    }
  }

  lemma ChoiceLeads(st: State, flow: Flow, d: Enrollable, mode: string, choice: string, state: string)
    ensures PageEncodes(flow, SubmitChoice(st, flow, d, mode, choice, state))
  {
    EnrollEncodes(flow, d, View(PickMode, "", map[]));
    if ModeFor(d, mode).Some? {
      EnrollEncodes(flow, d, View(NothingSelected, ModeFor(d, mode).value.key, map[]));
    }
  }

  lemma DispatchEncodes(cfg: Config, st: State, tail: Tail, flow: Flow, phase: Phase, inputs: Form)
    requires Serviceable(cfg)
    ensures PageEncodes(flow, RememberedDispatch(cfg, st, tail, flow, phase, inputs))
  {
    IssueLeads(cfg, st, tail, flow, phase.Narrowing?, InputChoice(inputs));
    if EnrollmentOf(cfg, flow.p, flow.who).Some? {
      var d := EnrollmentOf(cfg, flow.p, flow.who).value;
      EnrollEncodes(flow, d, View(NoNotice, "", map[]));
      match phase {
        case Enrolling(_) => FieldsLead(st, flow, d, Reading(inputs));
        case Choosing(_, mode, state) => ChoiceLeads(st, flow, d, mode, FormGet(inputs, "enroll_choice"), state);
        case _ =>
      }
    }
  }

  lemma FinishEncodes(cfg: Config, st: State, tail: Tail, call: EnrollCall, result: EnrollResult)
    requires Serviceable(cfg)
    ensures var response := FinishEnroll(cfg, st, tail, call, result).1;
            response.Show? ==>
              Encodes(response.page,
                  Conversation(call.flow.p,
                  NextPhase(response.page, call.flow.pairingCode, call.request.mode, ChoiceState(result))))
  {
    if result.EnrollError? {
      EnrollEncodes(call.flow, call.d, call.view.(notice := CallbackSaid(result.message)));
    }
  }

  /** One round: the submission classifies to the phase that rendered the page
      and carries its request; the server does what the remembering one does;
      and a page it shows hides exactly what that one goes on to remember. */
  lemma RoundRefines(cfg: Config, page: Page, c: Conversation, r: Round)
    requires Serviceable(cfg) && Encodes(page, c) && FilledIn(page, r.inputs)
    ensures ReadRight(c, r.inputs, Browser(page, r).get)
    ensures Stateless(cfg, page, r) == (Remembered(cfg, c, r).st, Remembered(cfg, c, r).response)
    ensures Remembered(cfg, c, r).response.Show? ==>
              Encodes(Remembered(cfg, c, r).response.page, Conversation(c.p, Remembered(cfg, c, r).phase))
  {
    PostedAlike(cfg, r.st, r.env, page, c, r.inputs, r.cookie);
    RememberedEncodes(cfg, r.st, r.env, c, r.inputs, r.cookie);
    match RememberedPost(cfg, r.st, r.env, c, r.inputs, r.cookie) {
      case Done(_, _) =>
      case Asks(_, call) => FinishEncodes(cfg, r.later, r.tail, call, r.result);
    }
  }

  // ----- any number of rounds --------------------------------------------

  /** The rounds of one person, each filling in the page the last one showed,
      in whatever states the server is by then. */
  ghost predicate FilledRounds(cfg: Config, page: Page, rounds: seq<Round>)
    requires Serviceable(cfg)
    decreases |rounds|
  {
    rounds == []
    || (FilledIn(page, rounds[0].inputs)
        && (|rounds| > 1 ==>
            Stateless(cfg, page, rounds[0]).1.Show?
            && FilledRounds(cfg, Stateless(cfg, page, rounds[0]).1.page, rounds[1..])))
  }

  /** What the server does in each round. */
  ghost function StatelessRun(cfg: Config, page: Page, rounds: seq<Round>): seq<(State, Response)>
    requires Serviceable(cfg)
    decreases |rounds|
  {
    if rounds == [] then []
    else
      var one := Stateless(cfg, page, rounds[0]);
      [one] + if one.1.Show? then StatelessRun(cfg, one.1.page, rounds[1..]) else []
  }

  ghost function RememberedRun(cfg: Config, c: Conversation, rounds: seq<Round>): seq<(State, Response)>
    requires Serviceable(cfg)
    decreases |rounds|
  {
    if rounds == [] then []
    else
      var one := Remembered(cfg, c, rounds[0]);
      [(one.st, one.response)]
      + if one.response.Show? then RememberedRun(cfg, Conversation(c.p, one.phase), rounds[1..]) else []
  }

  /** Each submission is read as the phase the remembering server is in. */
  ghost predicate AllReadRight(cfg: Config, page: Page, c: Conversation, rounds: seq<Round>)
    requires Serviceable(cfg)
    decreases |rounds|
  {
    rounds == []
    || (ReadRight(c, rounds[0].inputs, Browser(page, rounds[0]).get)
        && (Stateless(cfg, page, rounds[0]).1.Show? ==>
              AllReadRight(cfg, Stateless(cfg, page, rounds[0]).1.page,
                  Conversation(c.p, Remembered(cfg, c, rounds[0]).phase), rounds[1..])))
  }

  lemma {:induction false} RunRefines(cfg: Config, page: Page, c: Conversation, rounds: seq<Round>)
    requires Serviceable(cfg) && Encodes(page, c) && FilledRounds(cfg, page, rounds)
    ensures StatelessRun(cfg, page, rounds) == RememberedRun(cfg, c, rounds)
    ensures AllReadRight(cfg, page, c, rounds)
    decreases |rounds|
  {
    if rounds != [] {
      RoundRefines(cfg, page, c, rounds[0]);
      var one := Stateless(cfg, page, rounds[0]);
      if one.1.Show? {
        RunRefines(cfg, one.1.page, Conversation(c.p, Remembered(cfg, c, rounds[0]).phase), rounds[1..]);
      }
    }
  }

  /** For a conversation that starts with a GET of p: whatever the descriptors
      and bindings call their keys, however many rounds follow and whatever
      the states, callbacks and people do in between, every submission is read
      as the phase that rendered its page, and every response and every store
      is that of a server that remembered p and the phase. */
  lemma FlowRefinesRememberingServer(
      cfg: Config, st: State, env: Env, p: AuthParams, cookie: string, page: Page, rounds: seq<Round>)
    requires Serviceable(cfg) && AuthorizeGet(cfg, st, env, p, cookie) == Show(page) && FilledRounds(cfg, page, rounds)
    ensures StatelessRun(cfg, page, rounds) == RememberedRun(cfg, Conversation(p, Approving), rounds)
    ensures AllReadRight(cfg, page, Conversation(p, Approving), rounds)
  {
    GetEncodes(cfg, st, env, p, cookie, page);
    RunRefines(cfg, page, Conversation(p, Approving), rounds);
  }

  lemma GetEncodes(cfg: Config, st: State, env: Env, p: AuthParams, cookie: string, page: Page)
    requires AuthorizeGet(cfg, st, env, p, cookie) == Show(page)
    ensures Encodes(page, Conversation(p, Approving))
  {
  }

  // ----- the request that is finally granted -----------------------------

  /** A code handed out for p: the redirect is p's, and the grant repeats p. */
  ghost predicate GrantsRequest(cfg: Config, p: AuthParams, st: State, response: Response)
    requires Serviceable(cfg)
  {
    && response.RedirectCode? && response.uri == p.redirectURI && response.state == p.state
    && response.code in st.codes
    && var g := st.codes[response.code];
       && g.clientID == p.clientID && g.redirectURI == p.redirectURI
       && g.codeChallenge == p.codeChallenge && g.codeChallengeMethod == p.codeChallengeMethod
       && ScopeAsked(cfg, p, g.scope) && AudienceAsked(cfg, p, g.resource)
  }

  lemma IssueGrants(cfg: Config, st: State, tail: Tail, flow: Flow, who: Grant)
    requires Serviceable(cfg) && ResolveFor(cfg, flow.p).Some? && flow.client.id == flow.p.clientID
    ensures var (st', response) := Issue(cfg, st, tail, flow, who);
            response.RedirectCode? ==> GrantsRequest(cfg, flow.p, st', response)
  {
  }

  lemma RoundGrants(cfg: Config, page: Page, c: Conversation, r: Round)
    requires Serviceable(cfg) && Encodes(page, c) && FilledIn(page, r.inputs)
    requires OwnIds(r.st.clients) && Stateless(cfg, page, r).1.RedirectCode?
    ensures GrantsRequest(cfg, c.p, Stateless(cfg, page, r).0, Stateless(cfg, page, r).1)
  {
    RoundRefines(cfg, page, c, r);
    var post := Browser(page, r);
    var flow, out := PostShape(cfg, r.st, r.env, post);
    PostGrants(cfg, r.st, r.env, post, flow, out);
    if out.Asks? {
      FinishGrants(cfg, r.later, r.tail, out.call, r.result);
    }
  }

  lemma PostGrants(cfg: Config, st: State, env: Env, post: Post, flow: Flow, out: Outcome)
    requires Serviceable(cfg) && OwnIds(st.clients) && PostShaped(cfg, st, env, post, flow, out)
    ensures out.Asks? || out.response.RedirectCode? ==> flow.p == Parse(post.get)
    ensures out.Done? && out.response.RedirectCode? ==> GrantsRequest(cfg, flow.p, out.st, out.response)
    ensures out.Asks? ==>
              out.call.flow == flow && ResolveFor(cfg, flow.p).Some? && flow.client.id == flow.p.clientID
  {
    if PassedGates(cfg, st, env, post, flow) {
      GatesOwnId(cfg, st, env, post, flow);
      if out.Done? && out.response.RedirectCode? {
        var st1 := AfterIdentity(st, env, post.get("pairing_code"));
        var who :| MayIssue(flow, who) && (out.st, out.response) == Issue(cfg, st1, env.tail, flow, who);
        IssueGrants(cfg, st1, env.tail, flow, who);
      }
    }
  }

  lemma GatesOwnId(cfg: Config, st: State, env: Env, post: Post, flow: Flow)
    requires OwnIds(st.clients) && PassedGates(cfg, st, env, post, flow)
    ensures ResolveFor(cfg, flow.p).Some? && flow.client.id == flow.p.clientID
  {
    assert flow.client == st.clients[flow.p.clientID];
  }

  lemma FinishGrants(cfg: Config, st: State, tail: Tail, call: EnrollCall, result: EnrollResult)
    requires Serviceable(cfg) && ResolveFor(cfg, call.flow.p).Some? && call.flow.client.id == call.flow.p.clientID
    ensures var (st', response) := FinishEnroll(cfg, st, tail, call, result);
            response.RedirectCode? ==> GrantsRequest(cfg, call.flow.p, st', response)
  {
  }

  /** Every code of a run is for p. */
  ghost predicate AllGrant(cfg: Config, p: AuthParams, run: seq<(State, Response)>)
    requires Serviceable(cfg)
  {
    forall i :: 0 <= i < |run| && run[i].1.RedirectCode? ==> GrantsRequest(cfg, p, run[i].0, run[i].1)
  }

  /** In every round the clients are registered under their own ids, as they
      are in every reachable world. */
  ghost predicate ClientsOwnIds(rounds: seq<Round>) {
    forall i :: 0 <= i < |rounds| ==> OwnIds(rounds[i].st.clients)
  }

  lemma {:induction false} RunGrants(cfg: Config, page: Page, c: Conversation, rounds: seq<Round>)
    requires Serviceable(cfg) && Encodes(page, c) && FilledRounds(cfg, page, rounds) && ClientsOwnIds(rounds)
    ensures AllGrant(cfg, c.p, StatelessRun(cfg, page, rounds))
    decreases |rounds|
  {
    if rounds != [] {
      var one := Stateless(cfg, page, rounds[0]);
      RoundRefines(cfg, page, c, rounds[0]);
      if one.1.RedirectCode? {
        RoundGrants(cfg, page, c, rounds[0]);
      }
      if one.1.Show? {
        assert forall i :: 0 <= i < |rounds[1..]| ==> rounds[1..][i] == rounds[i + 1];
        RunGrants(cfg, one.1.page, Conversation(c.p, Remembered(cfg, c, rounds[0]).phase), rounds[1..]);
        OneMoreGrants(cfg, c.p, one, StatelessRun(cfg, one.1.page, rounds[1..]));
      } else {
        OneMoreGrants(cfg, c.p, one, []);
      }
    }
  }

  lemma OneMoreGrants(cfg: Config, p: AuthParams, one: (State, Response), rest: seq<(State, Response)>)
    requires Serviceable(cfg) && AllGrant(cfg, p, rest)
    requires one.1.RedirectCode? ==> GrantsRequest(cfg, p, one.0, one.1)
    ensures AllGrant(cfg, p, [one] + rest)
  {
  }

  /** The code finally issued carries the parameters of the first GET, the
      client's id among them. */
  lemma CodeCarriesFirstRequest(
      cfg: Config, st: State, env: Env, p: AuthParams, cookie: string, page: Page, rounds: seq<Round>)
    requires Serviceable(cfg) && AuthorizeGet(cfg, st, env, p, cookie) == Show(page) && FilledRounds(cfg, page, rounds)
    requires ClientsOwnIds(rounds)
    ensures AllGrant(cfg, p, StatelessRun(cfg, page, rounds))
  {
    GetEncodes(cfg, st, env, p, cookie, page);
    RunGrants(cfg, page, Conversation(p, Approving), rounds);
  }
}
