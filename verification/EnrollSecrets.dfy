/** Secret inputs never come back: two enrollment submissions that differ only
    in secret values lead to the same page, unless the callback tells them
    apart. */
module EnrollSecrets {
  import opened Wrappers
  import opened Enrollment
  import opened EnrollView
  import opened AuthorizeForm
  import opened Authorize

  predicate SecretName(m: Mode, name: string) {
    exists j :: 0 <= j < |m.fields| && m.fields[j].secret && FieldInputName(m.key, m.fields[j].key) == name
  }

  /** Two submissions of mode m that agree on every non-secret input and on
      which required secrets are blank. */
  ghost predicate AgreeButSecrets(m: Mode, a: string -> string, b: string -> string) {
    && (forall name :: !SecretName(m, name) ==> a(name) == b(name))
    && (forall j :: 0 <= j < |m.fields| && m.fields[j].secret ==>
        (Missing(m.key, m.fields[j], a) <==> Missing(m.key, m.fields[j], b)))
  }

  /** Field keys are unique within a mode, so no non-secret input shares its
      name with a secret one. */
  lemma NamesTellSecrets(m: Mode, j: nat)
    requires FieldsWellFormed(m.fields) && j < |m.fields| && !m.fields[j].secret
    ensures !SecretName(m, FieldInputName(m.key, m.fields[j].key))
  {
    if SecretName(m, FieldInputName(m.key, m.fields[j].key)) {
      var k :| 0 <= k < |m.fields| && m.fields[k].secret
          && FieldInputName(m.key, m.fields[k].key) == FieldInputName(m.key, m.fields[j].key);
      SameModeNames(m.key, m.fields[k].key, m.fields[j].key);
    }
  }

  lemma SameModeNames(modeKey: string, f: string, g: string)
    requires FieldInputName(modeKey, f) == FieldInputName(modeKey, g)
    ensures f == g
  {
    var n := |FieldInputName(modeKey, "")|;
    assert FieldInputName(modeKey, f)[n..] == f;
    assert FieldInputName(modeKey, g)[n..] == g;
  }

  lemma ReadAlike(m: Mode, a: string -> string, b: string -> string)
    requires FieldsWellFormed(m.fields) && AgreeButSecrets(m, a, b)
    ensures SameButSecrets(m, a, b)
  {
    forall j | 0 <= j < |m.fields| && !m.fields[j].secret
      ensures a(FieldInputName(m.key, m.fields[j].key)) == b(FieldInputName(m.key, m.fields[j].key))
    {
      NamesTellSecrets(m, j);
    }
  }

  /** The inputs that are no fields are no secrets. */
  lemma OtherInputsAgree(m: Mode, a: string -> string, b: string -> string, name: string)
    requires AgreeButSecrets(m, a, b) && name != "" && name[0] != 'f'
    ensures a(name) == b(name)
  {
    assert !SecretName(m, name);
  }

  lemma SameRequest(m: Mode, a: string -> string, b: string -> string)
    requires AgreeButSecrets(m, a, b)
    ensures Parse(a) == Parse(b)
  {
    OtherInputsAgree(m, a, b, "client_id");
    OtherInputsAgree(m, a, b, "redirect_uri");
    OtherInputsAgree(m, a, b, "state");
    OtherInputsAgree(m, a, b, "scope");
    OtherInputsAgree(m, a, b, "resource");
    OtherInputsAgree(m, a, b, "code_challenge");
    OtherInputsAgree(m, a, b, "code_challenge_method");
    OtherInputsAgree(m, a, b, "response_type");
  }

  lemma SameMarkers(m: Mode, a: string -> string, b: string -> string)
    requires AgreeButSecrets(m, a, b)
    ensures Classify(a) == Classify(b)
    ensures a("pairing_code") == b("pairing_code") && a("enroll_mode") == b("enroll_mode")
  {
    OtherInputsAgree(m, a, b, "enroll");
    OtherInputsAgree(m, a, b, "enroll_choice_round");
    OtherInputsAgree(m, a, b, "choose");
    OtherInputsAgree(m, a, b, "pairing_code");
    OtherInputsAgree(m, a, b, "enroll_mode");
  }

  /** How a submission ends if the callback, should it be called, fails with
      the given message. */
  function EndsFailing(cfg: Config, out: Outcome, later: State, tail: Tail, message: string): (State, Response)
    requires Serviceable(cfg)
  {
    match out
    case Done(st, response) => (st, response)
    case Asks(_, call) => FinishEnroll(cfg, later, tail, call, EnrollError(message))
  }

  lemma FieldsEndAlike(
      cfg: Config, st: State, flow: Flow, d: Enrollable, m: Mode, a: string -> string, b: string -> string,
      later: State, tail: Tail, message: string)
    requires Serviceable(cfg) && a("enroll_mode") == b("enroll_mode") && ModeFor(d, a("enroll_mode")) == Some(m)
              && SameButSecrets(m, a, b)
    ensures EndsFailing(cfg, SubmitFields(st, flow, d, a), later, tail, message)
              == EndsFailing(cfg, SubmitFields(st, flow, d, b), later, tail, message)
  {
    SecretsStayHidden(m, a, b);
  }

  lemma DispatchEndsAlike(
      cfg: Config, st: State, now: Tail, flow: Flow, d: Enrollable, m: Mode, a: string -> string,
      b: string -> string, later: State, tail: Tail, message: string)
    requires Serviceable(cfg) && EnrollmentFor(cfg, flow.p) == Some(d)
    requires Classify(a) == EnrollFields && Classify(b) == EnrollFields
    requires a("enroll_mode") == b("enroll_mode") && ModeFor(d, a("enroll_mode")) == Some(m) && SameButSecrets(m, a, b)
    ensures EndsFailing(cfg, Dispatch(cfg, st, now, flow, a), later, tail, message)
              == EndsFailing(cfg, Dispatch(cfg, st, now, flow, b), later, tail, message)
  {
    assert ResolveSets(flow, false, Choices(a)) == ResolveSets(flow, false, Choices(b));
    if EnrollmentOf(cfg, flow.p, flow.who).Some? {
      FieldsEndAlike(cfg, st, flow, d, m, a, b, later, tail, message);
    }
  }

  /** Whatever the state and whoever posts: two submissions of an enrollment
      form that differ only in secret values end the same way when the callback
      error is the same. The page shown next tells nothing about a secret. */
  lemma SecretsDoNotShow(
      cfg: Config, st: State, env: Env, cookie: string, d: Enrollable, m: Mode, a: string -> string,
      b: string -> string, later: State, tail: Tail, message: string)
    requires Serviceable(cfg) && EnrollmentFor(cfg, Parse(a)) == Some(d)
    requires Classify(a) == EnrollFields && ModeFor(d, a("enroll_mode")) == Some(m) && AgreeButSecrets(m, a, b)
    ensures EndsFailing(cfg, AuthorizePost(cfg, st, env, Post(a, cookie)), later, tail, message)
         == EndsFailing(cfg, AuthorizePost(cfg, st, env, Post(b, cookie)), later, tail, message)
  {
    SameRequest(m, a, b);
    SameMarkers(m, a, b);
    ModeLookupInverse(d, a("enroll_mode"));
    ReadAlike(m, a, b);
    PostEndsAlike(cfg, st, env, cookie, d, m, a, b, later, tail, message);
  }

  lemma PostEndsAlike(
      cfg: Config, st: State, env: Env, cookie: string, d: Enrollable, m: Mode, a: string -> string,
      b: string -> string, later: State, tail: Tail, message: string)
    requires Serviceable(cfg) && EnrollmentFor(cfg, Parse(a)) == Some(d)
    requires Parse(a) == Parse(b) && a("pairing_code") == b("pairing_code")
    requires Classify(a) == EnrollFields && Classify(b) == EnrollFields
    requires a("enroll_mode") == b("enroll_mode") && ModeFor(d, a("enroll_mode")) == Some(m) && SameButSecrets(m, a, b)
    ensures EndsFailing(cfg, AuthorizePost(cfg, st, env, Post(a, cookie)), later, tail, message)
         == EndsFailing(cfg, AuthorizePost(cfg, st, env, Post(b, cookie)), later, tail, message)
  {
    match Admit(cfg, st, env, Parse(a), a("pairing_code"), cookie) {
      case Turned(_, _) =>
      case Admitted(st1, flow) => DispatchEndsAlike(cfg, st1, env.tail, flow, d, m, a, b, later, tail, message);
    }
  }
}
