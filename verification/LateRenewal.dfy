/** Runs in which RemovePrincipal succeeds and a refresh token of the removed name
    is live afterwards: the token request of alice has minted when she is removed,
    and stores its refresh token then. Every plain configuration has one. */
module LateRenewal {
  import opened Wrappers
  import opened Identity
  import opened AuthorizeForm
  import opened PairingCode
  import opened Stores
  import opened Principals
  import opened Authorize
  import opened AuthorizeFlow
  import opened Lifecycle
  import opened GrantLines
  import opened People
  import opened Removal
  import opened AfterRemoval

  // ----- the server and the people ---------------------------------------

  /** A server that signs, without sessions and enrollment; the client's verifier
      has a challenge. */
  predicate PlainHost(cfg: Config, verifier: string) {
    && Serviceable(cfg) && cfg.issuer.signKey.Some?
    && cfg.sessionTTL <= 0 && cfg.enrollment.None? && cfg.enrollmentForResource.None?
    && verifier != "" && cfg.s256(verifier) != ""
  }

  const ALICE := "alice"
  const HERS: Draw := [0, 0, 0, 0, 0, 0, 0, 0, 0, 0, 0, 0, 0, 0, 0, 0]
  const OPERATORS: Draw := [1, 1, 1, 1, 1, 1, 1, 1, 1, 1, 1, 1, 1, 1, 1, 1]
  const URI := "https://app/cb"
  const APP := Client("app", [URI], "App")

  function Request(challenge: string): AuthParams { AuthParams("app", URI, "", "", "", challenge, "S256", "code") }

  function Typed(): Form { [("pairing_code", Code(HERS))] }

  function Approval(challenge: string): Post { Post(Posted(Typed(), HiddenFields(Request(challenge))), "") }

  const TAIL := Tail(0, Works, None, Works, Some("code"))

  function Around(): Env { Env(0, Works, Works, Some(OPERATORS), Works, Works, TAIL) }

  // ----- up to the approval ----------------------------------------------

  function Add(): Event { Event.AddPrincipal(ALICE, None, Some(HERS), Works) }
  function Registers(): Event { Event.Register([URI], "App", Some("app"), Works) }

  function Members(): Records { map[ALICE := PrincipalRecord(Code(HERS), map[])] }

  function Joined(): State { State(map["app" := APP], None, Members(), map[], map[], map[]) }

  function BeforeApproval(): World {
    World(Joined(), 0, map[], map[], {"app"}, {Code(HERS)}, map[], map[], map[], [], [])
  }

  lemma Begins(cfg: Config)
    requires Serviceable(cfg)
    ensures Leads(cfg, Start(0), [Add()] + ([Registers()] + []), BeforeApproval())
  {
    var w1 := Next(cfg, Start(0), Add());
    assert w1.st == EMPTY.(principals := Members()) && w1.printed == {Code(HERS)};
    assert Next(cfg, w1, Registers()) == BeforeApproval();
    RunNone(cfg, BeforeApproval());
    RunFirst(cfg, w1, Registers(), []);
    RunFirst(cfg, Start(0), Add(), [Registers()] + []);
  }

  lemma CodesDiffer()
    ensures Code(HERS) != Code(OPERATORS)
  {
    assert Bit(HERS, 7) != Bit(OPERATORS, 7);
    CodeDeterminesBits(HERS, OPERATORS);
  }

  // ----- the approval ----------------------------------------------------

  function Approved(challenge: string): Flow { Flow(APP, Request(challenge), Grant(ALICE, map[]), Code(HERS)) }

  lemma JoinedCodes()
    ensures CodesSound(BeforeApproval())
  {
    assert IsPrinted(Code(HERS));
  }

  lemma AliceIdentified(r: Recognition)
    requires Identifies(BeforeApproval(), Code(OPERATORS), Code(HERS), r)
    ensures r == Recognized(Grant(ALICE, map[]))
  {
    assert ALICE in Members() && Members()[ALICE] == PrincipalRecord(Code(HERS), map[]);
  }

  lemma AliceIsRecognized(cfg: Config)
    ensures VerifyIdentity(cfg, Joined(), Around(), Code(HERS), "") == Recognized(Grant(ALICE, map[]))
  {
    CodesDiffer();
    JoinedCodes();
    assert PrintedBy(Some(OPERATORS)) !! {Code(HERS)};
    assert Code(HERS) != "" by { assert Code(HERS)[0] == 'm'; }
    CodesIdentifyIn(cfg, BeforeApproval(), Around(), Code(HERS), "");
    AliceIdentified(VerifyIdentity(cfg, Joined(), Around(), Code(HERS), ""));
  }

  lemma PassesGates(cfg: Config, challenge: string)
    requires Serviceable(cfg) && challenge != ""
    ensures Admit(cfg, Joined(), Around(), Request(challenge), Code(HERS), "")
         == Admitted(AfterIdentity(Joined(), Around(), Code(HERS)), Approved(challenge))
  {
    AliceIsRecognized(cfg);
    assert ValidatedRequest(cfg, Joined(), Works, Request(challenge)) == Verdict.Valid(APP);
  }

  function Granted(cfg: Config, challenge: string): AuthGrant
    requires Serviceable(cfg)
  {
    AuthGrant("app", URI, challenge, "S256", cfg.scopes[0], cfg.default, Grant(ALICE, map[]), AUTH_CODE_TTL)
  }

  lemma GetsCode(cfg: Config, challenge: string, verifier: string, st: State)
    requires PlainHost(cfg, verifier) && st.codes == map[]
    ensures RememberedDispatch(cfg, st, TAIL, Approved(challenge), Approving, Typed())
         == Done(st.(codes := map["code" := Granted(cfg, challenge)]), RedirectCode(URI, "", "code", None))
  {
    var flow, who := Approved(challenge), Grant(ALICE, map[]);
    assert EnrollmentOf(cfg, flow.p, who).None?;
    assert ResolveSets(flow, false, InputChoice(Typed())) == Ok(who);
    assert SessionToken(cfg, TAIL, flow).None?;
    assert CodeGrant(cfg, TAIL, flow, who) == Granted(cfg, challenge);
  }

  function ApprovedState(cfg: Config, challenge: string): State
    requires Serviceable(cfg)
  {
    State(map["app" := APP], Some(Code(OPERATORS)), Members(), map["code" := Granted(cfg, challenge)], map[], map[])
  }

  lemma Approves(cfg: Config, challenge: string, verifier: string)
    requires PlainHost(cfg, verifier) && challenge != ""
    ensures AuthorizePost(cfg, Joined(), Around(), Approval(challenge))
         == Done(ApprovedState(cfg, challenge), RedirectCode(URI, "", "code", None))
  {
    var page := ApprovalPage(HiddenFields(Request(challenge)), NoNotice, "", false);
    var c := Conversation(Request(challenge), Approving);
    assert FilledIn(page, Typed()) by {
      assert forall i :: 0 <= i < |Typed()| ==> Typed()[i].0 == "pairing_code";
    }
    assert Encodes(page, c);
    PostedAlike(cfg, Joined(), Around(), page, c, Typed(), "");
    PassesGates(cfg, challenge);
    GetsCode(cfg, challenge, verifier, AfterIdentity(Joined(), Around(), Code(HERS)));
  }

  // ----- the token request -----------------------------------------------

  function Submits(challenge: string): Event { Submit(0, Around(), Approval(challenge)) }

  lemma SubmitGrants(cfg: Config, challenge: string, verifier: string)
    requires PlainHost(cfg, verifier) && challenge != ""
    ensures Lawful(BeforeApproval(), Submits(challenge))
    ensures var w := Next(cfg, BeforeApproval(), Submits(challenge));
            w.st == ApprovedState(cfg, challenge) && w.requests == map[] && w.now == 0
  {
    Approves(cfg, challenge, verifier);
    CodesDiffer();
  }

  function Takes(verifier: string): Event { TakeCode(0, "code", "app", URI, verifier) }

  lemma CodeRedeems(cfg: Config, w: World, verifier: string)
    requires PlainHost(cfg, verifier) && w.requests == map[] && w.now == 0
    requires w.st == ApprovedState(cfg, cfg.s256(verifier))
    ensures var w' := Next(cfg, w, Takes(verifier));
            && 0 in w'.requests && !w'.requests[0].minted && w'.requests[0].held.principal.name == ALICE
            && w'.st.principals == Members()
  {
    var g := Granted(cfg, cfg.s256(verifier));
    assert Redeems(w.st.codes, "code", 0) == Some(g);
    assert VerifyPKCE(cfg, g.codeChallenge, g.codeChallengeMethod, verifier);
    assert RedeemCode(cfg, w.st, 0, "code", "app", URI, verifier)
        == (w.st.(codes := w.st.codes - {"code"}), Some(HeldOf(g)));
  }

  /** A reachable world in which a token request of alice has minted. */
  lemma AliceMints(cfg: Config, verifier: string) returns (past: seq<Event>, w: World)
    requires PlainHost(cfg, verifier)
    ensures Leads(cfg, Start(0), past, w)
    ensures 0 in w.requests && w.requests[0].minted && w.requests[0].held.principal.name == ALICE
    ensures ALICE in w.st.principals
  {
    var challenge := cfg.s256(verifier);
    var w0 := BeforeApproval();
    SubmitGrants(cfg, challenge, verifier);
    var w1 := Next(cfg, w0, Submits(challenge));
    CodeRedeems(cfg, w1, verifier);
    var w2 := Next(cfg, w1, Takes(verifier));
    MintLands(cfg, w2, 0);
    w := Next(cfg, w2, Mint(0));
    RunNone(cfg, w);
    RunFirst(cfg, w2, Mint(0), []);
    RunFirst(cfg, w1, Takes(verifier), [Mint(0)] + []);
    var rest := [Takes(verifier)] + ([Mint(0)] + []);
    RunFirst(cfg, w0, Submits(challenge), rest);
    var last := [Submits(challenge)] + rest;
    Begins(cfg);
    past := [Add()] + ([Registers()] + []) + last;
    RunOn(cfg, Start(0), [Add()] + ([Registers()] + []), last);
  }

  /** One run after the other. */
  lemma {:induction false} RunOn(cfg: Config, w: World, xs: seq<Event>, ys: seq<Event>)
    requires Serviceable(cfg) && Runs(cfg, w, xs) && Runs(cfg, After(cfg, w, xs), ys)
    ensures Runs(cfg, w, xs + ys) && After(cfg, w, xs + ys) == After(cfg, After(cfg, w, xs), ys)
    decreases |xs|
  {
    if xs == [] {
      assert xs + ys == ys;
    } else {
      assert (xs + ys)[1..] == xs[1..] + ys;
      RunOn(cfg, Next(cfg, w, xs[0]), xs[1..], ys);
    }
  }

  // ----- the removal -----------------------------------------------------

  /** A stage of the removal with nothing else in between. */
  lemma BareStage(cfg: Config, w: World, e: Event, name: string)
    requires Serviceable(cfg) && IsAdmin(e) && Reported(w.st, e)
    ensures Stage(cfg, w, e, [], Next(cfg, w, e), name)
  {
    RunNone(cfg, Next(cfg, w, e));
  }

  /** From any world in which a request of the name has minted: the removal goes
      through, and then the request stores its refresh token. */
  lemma RemovalThenRenewal(cfg: Config, w: World, id: nat, name: string) returns (r: Removed, c: seq<Event>)
    requires Serviceable(cfg) && name != "" && id in w.requests && w.requests[id].minted
    requires w.requests[id].held.principal.name == name
    ensures r.before == w && RemovalRun(cfg, name, r, Works, Works, Works, [], [], c)
    ensures |c| == 1 && c[0].Renew? && name !in r.later.st.principals && !NoRefreshOf(r.later, name)
  {
    var e, e1, e2 := RemoveRecord(name, Works), PurgeRefreshOf(name, Works), PurgeSessionsOf(name, Works);
    var w1 := Next(cfg, w, e);
    var w2 := Next(cfg, w1, e1);
    var w3 := Next(cfg, w2, e2);
    RemovalKeepsRequests(cfg, w, name);
    RemovalTakesRecord(cfg, w, name);
    BareStage(cfg, w, e, name);
    BareStage(cfg, w1, e1, name);
    c := MintedRenews(cfg, w3, id);
    r := Removed(w, w1, w2, After(cfg, w3, c));
    LastStage(cfg, w2, e2, c, name);
  }

  lemma RemovalTakesRecord(cfg: Config, w: World, name: string)
    requires Serviceable(cfg) && name != ""
    ensures var w2 := Next(cfg, Next(cfg, w, RemoveRecord(name, Works)), PurgeRefreshOf(name, Works));
            name !in Next(cfg, w2, PurgeSessionsOf(name, Works)).st.principals
  {
    var w1 := Next(cfg, w, RemoveRecord(name, Works));
    RemovesRecord(cfg, w, name, Works);
    PurgesRefresh(cfg, w1, name, Works);
    PurgesSessions(cfg, Next(cfg, w1, PurgeRefreshOf(name, Works)), name, Works);
  }

  lemma LastStage(cfg: Config, w: World, e: Event, c: seq<Event>, name: string)
    requires Serviceable(cfg) && IsAdmin(e) && Reported(w.st, e) && NeverAdds(c, name) && Runs(cfg, Next(cfg, w, e), c)
    ensures Stage(cfg, w, e, c, After(cfg, Next(cfg, w, e), c), name)
  {
  }

  lemma RemovalKeepsRequests(cfg: Config, w: World, name: string)
    requires Serviceable(cfg)
    ensures Next(cfg, Next(cfg, Next(cfg, w, RemoveRecord(name, Works)), PurgeRefreshOf(name, Works)),
              PurgeSessionsOf(name, Works)).requests
         == w.requests
  {
  }

  /** A run from an empty store in which alice is removed, all three operations of
      the removal succeed, and afterwards a refresh token of hers is live. */
  lemma RefreshOutlivesRemoval(cfg: Config, verifier: string)
      returns (past: seq<Event>, r: Removed, c: seq<Event>)
    requires PlainHost(cfg, verifier)
    ensures Leads(cfg, Start(0), past, r.before) && ALICE in r.before.st.principals
    ensures RemovalRun(cfg, ALICE, r, Works, Works, Works, [], [], c)
    ensures ALICE !in r.later.st.principals
    ensures exists t :: t in r.later.st.refresh && r.later.st.refresh[t].principal.name == ALICE
  {
    var w;
    past, w := AliceMints(cfg, verifier);
    r, c := RemovalThenRenewal(cfg, w, 0, ALICE);
  }
}
