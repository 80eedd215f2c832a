/** Principals over every run: codes that stay distinct and retire for good,
    and what keeps membership and bindings. */
module People {
  import opened Wrappers
  import opened Identity
  import opened PairingCode
  import opened Stores
  import opened Principals
  import opened Authorize
  import opened AuthorizeFacts
  import opened Lifecycle

  // ----- what one step does to people ------------------------------------

  /** The same names, with their codes and at least their binding keys. */
  ghost predicate RecordsKept(m: Records, m': Records) {
    && m'.Keys == m.Keys
    && forall n :: n in m ==> m'[n].code == m[n].code && m[n].binding.Keys <= m'[n].binding.Keys
  }

  /** New sessions carry the token drawn, and are for the operator or a name
      that has a record. */
  ghost predicate SessionsFor(
      m: Records, sessions: map<string, SessionRecord>, sessions': map<string, SessionRecord>, drawn: Option<string>) {
    forall t :: t in sessions' ==>
      || (t in sessions && sessions'[t] == sessions[t])
      || (drawn == Some(t) && (sessions'[t].principal == "" || sessions'[t].principal in m))
  }

  /** New codes are for the operator or a name that has a record. */
  ghost predicate CodesFor(m: Records, codes: map<string, AuthGrant>, codes': map<string, AuthGrant>) {
    forall c :: c in codes' && c !in codes ==> codes'[c].principal.name == "" || codes'[c].principal.name in m
  }

  /** What a submission or a callback's return does to people. */
  ghost predicate MembersOnly(st: State, st': State, tail: Tail) {
    && RecordsKept(st.principals, st'.principals)
    && SessionsFor(st.principals, st.sessions, st'.sessions, tail.sessionDraw)
    && CodesFor(st.principals, st.codes, st'.codes)
  }

  lemma IssueMembersOnly(cfg: Config, m: Records, st: State, tail: Tail, flow: Flow, who: Grant)
    requires Serviceable(cfg)
    requires who.name == "" || who.name in m
    ensures var st' := Issue(cfg, st, tail, flow, who).0;
            && SessionsFor(m, st.sessions, st'.sessions, tail.sessionDraw)
            && CodesFor(m, st.codes, st'.codes)
            && st'.operatorCode == st.operatorCode && st'.principals == st.principals
  {
    var st1 := StartSession(cfg, st, tail, flow, who);
    assert SessionsFor(m, st.sessions, st1.sessions, tail.sessionDraw);
    assert CodesFor(m, st.codes, Issue(cfg, st, tail, flow, who).0.codes);
  }

  lemma PostMembersOnly(cfg: Config, st: State, env: Env, post: Post) returns (out: Outcome)
    requires Serviceable(cfg)
    ensures out == AuthorizePost(cfg, st, env, post)
    ensures MembersOnly(st, out.st, env.tail) && out.st.principals == st.principals
    ensures out.st.operatorCode == st.operatorCode
              || out.st.operatorCode == CodeAfter(st.operatorCode, env.codeDraw, env.codeIo)
  {
    var flow;
    flow, out := PostShape(cfg, st, env, post);
    var st1 := AfterIdentity(st, env, post.get("pairing_code"));
    if PassedGates(cfg, st, env, post, flow) && DispatchShape(cfg, st1, env.tail, flow, out) {
      RecognizedIsCurrent(cfg, st, env, flow.pairingCode, post.cookie);
      ShapeMembersOnly(cfg, st, st1, env.tail, flow, out);
    }
  }

  lemma ShapeMembersOnly(cfg: Config, st: State, st1: State, tail: Tail, flow: Flow, out: Outcome)
    requires Serviceable(cfg) && DispatchShape(cfg, st1, tail, flow, out)
    requires st1 == st.(operatorCode := st1.operatorCode)
    requires flow.who.name == "" || flow.who.name in st.principals
    ensures MembersOnly(st, out.st, tail) && out.st.principals == st.principals
              && out.st.operatorCode == st1.operatorCode
  {
    if out.Done? && !(out.response.Show? && out.st == st1) {
      var who :| MayIssue(flow, who) && (out.st, out.response) == Issue(cfg, st1, tail, flow, who);
      IssueMembersOnly(cfg, st.principals, st1, tail, flow, who);
    }
  }

  lemma FinishMembersOnly(cfg: Config, st: State, tail: Tail, call: EnrollCall, result: EnrollResult)
    requires Serviceable(cfg)
    ensures MembersOnly(st, FinishEnroll(cfg, st, tail, call, result).0, tail)
    ensures FinishEnroll(cfg, st, tail, call, result).0.operatorCode == st.operatorCode
  {
    var name := call.flow.who.name;
    if result.EnrollResult? && result.choice.None? && result.binding != map[] && tail.mergeIo.Works?
        && name in st.principals {
      var merged := Merged(st.principals, name, result.binding);
      assert RecordsKept(st.principals, merged);
      IssueMembersOnly(cfg, st.principals, st.(principals := merged), tail, call.flow,
          Grant(name, merged[name].binding));
    }
  }

  ghost predicate SamePeople(w: World, w': World) {
    && w'.st.principals == w.st.principals && w'.st.operatorCode == w.st.operatorCode
    && w'.st.sessions == w.st.sessions
    && w'.printed == w.printed && w'.auths == w.auths && w.drawn <= w'.drawn
  }

  lemma TakeCodeLeavesPeople(
      cfg: Config, w: World, id: nat, code: string, clientID: string, redirectURI: string, verifier: string)
    ensures SamePeople(w, AfterTakeCode(cfg, w, id, code, clientID, redirectURI, verifier))
  {
    assert RedeemCode(cfg, w.st, w.now, code, clientID, redirectURI, verifier).0 == w.st.(codes := w.st.codes - {code});
  }

  lemma TakeRefreshLeavesPeople(w: World, id: nat, token: string, clientID: string, io: Io)
    ensures SamePeople(w, AfterTakeRefresh(w, id, token, clientID, io))
  {
    var st' := RedeemRefresh(w.st, token, clientID, io).0;
    assert st' == w.st.(refresh := st'.refresh);
  }

  lemma IssuingLeavesPeople(cfg: Config, w: World, id: nat, draw: Option<string>, io: Io)
    requires id in w.requests
    ensures SamePeople(w, AfterMint(cfg, w, id))
    ensures SamePeople(w, AfterRenew(w, id, draw, io))
  {
  }

  /** Registration, the token endpoint and time leave people alone. */
  lemma OthersLeavePeople(cfg: Config, w: World, e: Event)
    requires Serviceable(cfg) && Lawful(w, e)
    requires !e.Submit? && !e.CallbackReturns? && !IsAdmin(e)
    ensures SamePeople(w, Next(cfg, w, e))
  {
    match e {
      case TakeCode(id, code, clientID, redirectURI, verifier) =>
        TakeCodeLeavesPeople(cfg, w, id, code, clientID, redirectURI, verifier);
      case TakeRefresh(id, token, clientID, io) => TakeRefreshLeavesPeople(w, id, token, clientID, io);
      case Mint(id) => IssuingLeavesPeople(cfg, w, id, None, Works);
      case Renew(id, draw, io) => IssuingLeavesPeople(cfg, w, id, draw, io);
      case Register(_, _, _, _) =>
      case Abandon(_) =>
      case Tick(_) =>
    }
  }

  // ----- distinct codes --------------------------------------------------

  ghost predicate IsPrinted(s: string) { exists d: Draw :: s == Code(d) }

  /** Everything printed is a pairing code; the codes in use were printed and
      are pairwise different. */
  ghost predicate CodesKept(printed: set<string>, op: Option<string>, m: Records) {
    && (forall s :: s in printed ==> IsPrinted(s))
    && (op.Some? ==> op.value in printed)
    && (forall n :: n in m ==> m[n].code in printed)
    && (forall n, k :: n in m && k in m && n != k ==> m[n].code != m[k].code)
    && (op.Some? ==> forall n :: n in m ==> m[n].code != op.value)
  }

  ghost predicate CodesSound(w: World) { CodesKept(w.printed, w.st.operatorCode, w.st.principals) }

  /** Printed codes that normalise alike are the same code. */
  lemma PrintedDistinct(printed: set<string>, s: string, t: string)
    requires forall x :: x in printed ==> IsPrinted(x)
    requires s in printed && t in printed
    ensures Normalize(s) == Normalize(t) ==> s == t
    ensures Normalize(s) != ""
  {
    var a: Draw :| s == Code(a);
    var b: Draw :| t == Code(b);
    CodeDeterminesBits(a, b);
    NormalizeCode(a);
  }

  lemma SubmitCodes(cfg: Config, w: World, id: nat, env: Env, post: Post)
    requires Serviceable(cfg) && Lawful(w, Submit(id, env, post)) && CodesSound(w)
    ensures CodesSound(AfterSubmit(cfg, w, id, env, post))
  {
    var out := PostMembersOnly(cfg, w.st, env, post);
    FirstUseCodes(w.printed, w.st.operatorCode, w.st.principals, env.codeDraw, env.codeIo);
  }

  lemma FirstUseCodes(printed: set<string>, op: Option<string>, m: Records, random: Option<Draw>, io: Io)
    requires CodesKept(printed, op, m) && PrintedBy(random) !! printed
    ensures CodesKept(printed + PrintedBy(random), op, m)
    ensures CodesKept(printed + PrintedBy(random), CodeAfter(op, random, io), m)
  {
  }

  /** Records that keep their codes keep them distinct. */
  lemma SameCodes(printed: set<string>, op: Option<string>, m: Records, m': Records)
    requires CodesKept(printed, op, m)
    requires forall n :: n in m' ==> n in m && m'[n].code == m[n].code
    ensures CodesKept(printed, op, m')
  {
  }

  /** A record whose code was just printed. */
  lemma NewCode(printed: set<string>, op: Option<string>, m: Records, m': Records, name: string, random: Draw)
    requires CodesKept(printed, op, m) && Code(random) !in printed
    requires name in m' && m'[name].code == Code(random)
    requires forall n :: n in m' && n != name ==> n in m && m'[n].code == m[n].code
    ensures CodesKept(printed + {Code(random)}, op, m')
  {
  }

  lemma MorePrinted(printed: set<string>, op: Option<string>, m: Records, random: Option<Draw>)
    requires CodesKept(printed, op, m)
    ensures CodesKept(printed + PrintedBy(random), op, m)
  {
  }

  lemma OperatorCodes(printed: set<string>, st: State, e: Event)
    requires e.OperatorCode? && CodesKept(printed, st.operatorCode, st.principals) && PrintedBy(e.random) !! printed
    ensures CodesKept(printed + PrintedBy(e.random), AfterAdmin(st, e).operatorCode, st.principals)
    ensures AfterAdmin(st, e).principals == st.principals
  {
    FirstUseCodes(printed, st.operatorCode, st.principals, e.random, e.io);
  }

  lemma AddedRecord(st: State, e: Event)
    requires e.AddPrincipal? && e.random.Some? && e.io.Works?
    ensures var m, m' := st.principals, AfterAdmin(st, e).principals;
            && e.name in m' && m'[e.name].code == Code(e.random.value)
            && forall n :: n in m' && n != e.name ==> n in m && m'[n] == m[n]
  {
  }

  lemma AddingCodes(printed: set<string>, st: State, e: Event)
    requires e.AddPrincipal? && CodesKept(printed, st.operatorCode, st.principals) && PrintedBy(e.random) !! printed
    ensures CodesKept(printed + PrintedBy(e.random), st.operatorCode, AfterAdmin(st, e).principals)
  {
    MorePrinted(printed, st.operatorCode, st.principals, e.random);
    if e.random.Some? && e.io.Works? {
      AddedRecord(st, e);
      NewCode(printed, st.operatorCode, st.principals, AfterAdmin(st, e).principals, e.name, e.random.value);
    } else {
      assert AfterAdmin(st, e).principals == st.principals;
    }
  }

  lemma RotatingCodes(printed: set<string>, st: State, e: Event)
    requires e.RotatePrincipal? && CodesKept(printed, st.operatorCode, st.principals) && PrintedBy(e.random) !! printed
    ensures CodesKept(printed + PrintedBy(e.random), st.operatorCode, AfterAdmin(st, e).principals)
  {
    MorePrinted(printed, st.operatorCode, st.principals, e.random);
    if e.random.Some? && e.io.Works? && e.name in st.principals {
      NewCode(printed, st.operatorCode, st.principals, AfterAdmin(st, e).principals, e.name, e.random.value);
    }
  }

  lemma EditingCodes(printed: set<string>, st: State, e: Event)
    requires IsAdmin(e) && !e.OperatorCode? && !e.AddPrincipal? && !e.RotatePrincipal?
    requires CodesKept(printed, st.operatorCode, st.principals)
    ensures CodesKept(printed, st.operatorCode, AfterAdmin(st, e).principals)
  {
    SameCodes(printed, st.operatorCode, st.principals, AfterAdmin(st, e).principals);
  }

  lemma AdminCodes(printed: set<string>, st: State, e: Event)
    requires IsAdmin(e) && CodesKept(printed, st.operatorCode, st.principals) && AdminPrints(e) !! printed
    ensures CodesKept(printed + AdminPrints(e), AfterAdmin(st, e).operatorCode, AfterAdmin(st, e).principals)
  {
    if e.OperatorCode? {
      OperatorCodes(printed, st, e);
    } else {
      assert AfterAdmin(st, e).operatorCode == st.operatorCode;
      if e.AddPrincipal? {
        AddingCodes(printed, st, e);
      } else if e.RotatePrincipal? {
        RotatingCodes(printed, st, e);
      } else {
        EditingCodes(printed, st, e);
        assert printed + AdminPrints(e) == printed;
      }
    }
  }

  lemma CallbackCodes(cfg: Config, w: World, id: nat, tail: Tail, result: EnrollResult)
    requires Serviceable(cfg) && id in w.calling && CodesSound(w)
    ensures CodesSound(AfterCallback(cfg, w, id, tail, result))
  {
    FinishMembersOnly(cfg, w.st, tail, w.calling[id].call, result);
    var st' := FinishEnroll(cfg, w.st, tail, w.calling[id].call, result).0;
    SameCodes(w.printed, w.st.operatorCode, w.st.principals, st'.principals);
  }

  lemma NextCodes(cfg: Config, w: World, e: Event)
    requires Serviceable(cfg) && Lawful(w, e) && CodesSound(w)
    ensures CodesSound(Next(cfg, w, e))
  {
    if e.Submit? {
      SubmitCodes(cfg, w, e.id, e.env, e.post);
    } else if e.CallbackReturns? {
      CallbackCodes(cfg, w, e.id, e.tail, e.result);
    } else if IsAdmin(e) {
      AdminCodes(w.printed, w.st, e);
    } else {
      OthersLeavePeople(cfg, w, e);
    }
  }

  lemma {:induction false} AlwaysCodes(cfg: Config, w: World, events: seq<Event>)
    requires Serviceable(cfg) && CodesSound(w) && Runs(cfg, w, events)
    ensures CodesSound(After(cfg, w, events))
    decreases |events|
  {
    if events != [] {
      NextCodes(cfg, w, events[0]);
      AlwaysCodes(cfg, Next(cfg, w, events[0]), events[1..]);
    }
  }

  predicate InUse(op: Option<string>, m: Records, s: string) {
    op == Some(s) || exists n :: n in m && m[n].code == s
  }

  /** Printed once, and the code of nobody now. */
  predicate Retired(w: World, s: string) {
    s in w.printed && !InUse(w.st.operatorCode, w.st.principals, s)
  }

  // ----- retired codes ---------------------------------------------------

  /** Codes that come into use were not printed before. */
  ghost predicate NewlyPrinted(printed: set<string>, op: Option<string>, m: Records, op': Option<string>, m': Records) {
    forall s :: s in printed && InUse(op', m', s) ==> InUse(op, m, s)
  }

  lemma KeptCodes(printed: set<string>, op: Option<string>, m: Records, m': Records)
    requires forall n :: n in m' ==> n in m && m'[n].code == m[n].code
    ensures NewlyPrinted(printed, op, m, op, m')
  {
  }

  lemma OneNewCode(printed: set<string>, op: Option<string>, m: Records, m': Records, name: string, code: string)
    requires code !in printed && name in m' && m'[name].code == code
    requires forall n :: n in m' && n != name ==> n in m && m'[n].code == m[n].code
    ensures NewlyPrinted(printed, op, m, op, m')
  {
  }

  lemma FirstUseNew(printed: set<string>, op: Option<string>, m: Records, random: Option<Draw>, io: Io)
    requires PrintedBy(random) !! printed
    ensures NewlyPrinted(printed, op, m, CodeAfter(op, random, io), m)
  {
  }

  lemma AdminNewCodes(printed: set<string>, st: State, e: Event)
    requires IsAdmin(e) && AdminPrints(e) !! printed
    ensures NewlyPrinted(printed, st.operatorCode, st.principals, AfterAdmin(st, e).operatorCode,
              AfterAdmin(st, e).principals)
  {
    if e.OperatorCode? {
      OperatorNewCode(printed, st, e);
    } else if e.AddPrincipal? {
      AddingNewCode(printed, st, e);
    } else if e.RotatePrincipal? {
      RotatingNewCode(printed, st, e);
    } else {
      EditingNewCode(printed, st, e);
    }
  }

  lemma OperatorNewCode(printed: set<string>, st: State, e: Event)
    requires e.OperatorCode? && PrintedBy(e.random) !! printed
    ensures NewlyPrinted(printed, st.operatorCode, st.principals, AfterAdmin(st, e).operatorCode,
              AfterAdmin(st, e).principals)
  {
    FirstUseNew(printed, st.operatorCode, st.principals, e.random, e.io);
  }

  lemma AddingNewCode(printed: set<string>, st: State, e: Event)
    requires e.AddPrincipal? && PrintedBy(e.random) !! printed
    ensures AfterAdmin(st, e).operatorCode == st.operatorCode
    ensures NewlyPrinted(printed, st.operatorCode, st.principals, st.operatorCode, AfterAdmin(st, e).principals)
  {
    if e.random.Some? && e.io.Works? {
      OneNewCode(printed, st.operatorCode, st.principals, AfterAdmin(st, e).principals, e.name, Code(e.random.value));
    }
  }

  lemma RotatingNewCode(printed: set<string>, st: State, e: Event)
    requires e.RotatePrincipal? && PrintedBy(e.random) !! printed
    ensures AfterAdmin(st, e).operatorCode == st.operatorCode
    ensures NewlyPrinted(printed, st.operatorCode, st.principals, st.operatorCode, AfterAdmin(st, e).principals)
  {
    if e.random.Some? && e.io.Works? && e.name in st.principals {
      OneNewCode(printed, st.operatorCode, st.principals, AfterAdmin(st, e).principals, e.name, Code(e.random.value));
    }
  }

  lemma EditingNewCode(printed: set<string>, st: State, e: Event)
    requires IsAdmin(e) && !e.OperatorCode? && !e.AddPrincipal? && !e.RotatePrincipal?
    ensures AfterAdmin(st, e).operatorCode == st.operatorCode
    ensures NewlyPrinted(printed, st.operatorCode, st.principals, st.operatorCode, AfterAdmin(st, e).principals)
  {
    KeptCodes(printed, st.operatorCode, st.principals, AfterAdmin(st, e).principals);
  }

  lemma SubmitRetires(cfg: Config, w: World, id: nat, env: Env, post: Post, s: string)
    requires Serviceable(cfg) && PrintedBy(env.codeDraw) !! w.printed && Retired(w, s)
    ensures Retired(AfterSubmit(cfg, w, id, env, post), s)
  {
    var out := PostMembersOnly(cfg, w.st, env, post);
    FirstUseNew(w.printed, w.st.operatorCode, w.st.principals, env.codeDraw, env.codeIo);
  }

  lemma CallbackRetires(cfg: Config, w: World, id: nat, tail: Tail, result: EnrollResult, s: string)
    requires Serviceable(cfg) && id in w.calling && Retired(w, s)
    ensures Retired(AfterCallback(cfg, w, id, tail, result), s)
  {
    FinishMembersOnly(cfg, w.st, tail, w.calling[id].call, result);
    KeptCodes(w.printed, w.st.operatorCode, w.st.principals,
        FinishEnroll(cfg, w.st, tail, w.calling[id].call, result).0.principals);
  }

  lemma NextRetires(cfg: Config, w: World, e: Event, s: string)
    requires Serviceable(cfg) && Lawful(w, e) && Retired(w, s)
    ensures Retired(Next(cfg, w, e), s)
  {
    if e.Submit? {
      SubmitRetires(cfg, w, e.id, e.env, e.post, s);
    } else if e.CallbackReturns? {
      CallbackRetires(cfg, w, e.id, e.tail, e.result, s);
    } else if IsAdmin(e) {
      AdminNewCodes(w.printed, w.st, e);
    } else {
      OthersLeavePeople(cfg, w, e);
    }
  }

  /** Over every run a code once retired stays retired. */
  lemma {:induction false} RetiredForGood(cfg: Config, w: World, events: seq<Event>, s: string)
    requires Serviceable(cfg) && Runs(cfg, w, events) && Retired(w, s)
    ensures Retired(After(cfg, w, events), s)
    decreases |events|
  {
    if events != [] {
      NextRetires(cfg, w, events[0], s);
      RetiredForGood(cfg, Next(cfg, w, events[0]), events[1..], s);
    }
  }

  // ----- what codes establish --------------------------------------------

  /** An entered code that matches no acceptable one. */
  ghost predicate MatchesNone(shared: string, m: Records, entered: string) {
    Normalize(entered) != Normalize(shared) && forall n :: n in m ==> Normalize(entered) != Normalize(m[n].code)
  }

  /** What entering a code establishes, with shared as the operator code. */
  ghost predicate Identifies(w: World, shared: string, entered: string, r: Recognition) {
    var m := w.st.principals;
    && (Normalize(entered) == Normalize(shared) ==> r == Recognized(OPERATOR))
    && (forall n :: n in m && Normalize(entered) == Normalize(m[n].code) ==> r == Recognized(Grant(n, m[n].binding)))
    && (r == NotRecognized <==> MatchesNone(shared, m, entered))
    && (forall s :: Retired(w, s) && Normalize(entered) == Normalize(s) ==> r == NotRecognized)
    && (Normalize(entered) == "" ==> r == NotRecognized)
  }

  /** The operator code when somebody enters one: the stored code if there is one,
      else on first use the one that is drawn. */
  predicate OperatorCodeNow(st: State, env: Env, shared: string) {
    || st.operatorCode == Some(shared)
    || (st.operatorCode.None? && env.codeIo.Works? && env.codeDraw.Some? && shared == Code(env.codeDraw.value))
  }

  /** The stores cannot be read, or there is no operator code and none can be
      made. */
  predicate CannotTell(st: State, env: Env) {
    || env.codeIo.GetFails? || env.recordsIo.GetFails?
    || (st.operatorCode.None? && (env.codeDraw.None? || !env.codeIo.Works?))
  }

  /** In every run from an empty store, whether or not the operator code exists
      yet, the acceptable codes are pairwise distinct after normalisation when a
      submission enters one. Each, however typed, is recognized as its own
      identity; anything else, retired codes and blank input among it, as
      nobody; and only a failing store or draw keeps the answer back. */
  lemma CodesIdentify(cfg: Config, now: int, events: seq<Event>, env: Env, entered: string, cookie: string)
    requires Serviceable(cfg) && Runs(cfg, Start(now), events) && entered != ""
    requires PrintedBy(env.codeDraw) !! After(cfg, Start(now), events).printed
    ensures var w := After(cfg, Start(now), events);
            var r := VerifyIdentity(cfg, w.st, env, entered, cookie);
            && (r == CheckFailed <==> CannotTell(w.st, env))
            && (r != CheckFailed ==> exists shared :: OperatorCodeNow(w.st, env, shared))
            && (forall shared :: r != CheckFailed && OperatorCodeNow(w.st, env, shared) ==>
                  CodesDistinct(Some(shared), w.st.principals) && Identifies(w, shared, entered, r))
  {
    var w := After(cfg, Start(now), events);
    if !CannotTell(w.st, env) {
      assert OperatorCodeNow(w.st, env, CodeOf(w.st.operatorCode, env.codeDraw, env.codeIo).value);
    }
    AlwaysCodes(cfg, Start(now), events);
    CodesIdentifyIn(cfg, After(cfg, Start(now), events), env, entered, cookie);
  }

  lemma CodesIdentifyIn(cfg: Config, w: World, env: Env, entered: string, cookie: string)
    requires CodesSound(w) && PrintedBy(env.codeDraw) !! w.printed && entered != ""
    ensures var shared := CodeOf(w.st.operatorCode, env.codeDraw, env.codeIo);
            var r := VerifyIdentity(cfg, w.st, env, entered, cookie);
            && (r == CheckFailed <==> shared.Err? || env.recordsIo.GetFails?)
            && (r != CheckFailed ==>
                CodesDistinct(Some(shared.value), w.st.principals) && Identifies(w, shared.value, entered, r))
  {
    var shared := CodeOf(w.st.operatorCode, env.codeDraw, env.codeIo);
    if shared.Ok? && !env.recordsIo.GetFails? {
      FirstUseCodes(w.printed, w.st.operatorCode, w.st.principals, env.codeDraw, env.codeIo);
      assert CodeAfter(w.st.operatorCode, env.codeDraw, env.codeIo) == Some(shared.value);
      EstablishesIn(w, w.printed + PrintedBy(env.codeDraw), shared.value, entered);
    }
  }

  lemma EstablishesIn(w: World, printed: set<string>, shared: string, entered: string)
    requires CodesKept(printed, Some(shared), w.st.principals) && w.printed <= printed
    requires shared in w.printed ==> w.st.operatorCode == Some(shared)
    ensures CodesDistinct(Some(shared), w.st.principals)
    ensures Identifies(w, shared, entered, FromOption(EstablishedBy(shared, w.st.principals, entered)))
  {
    var m := w.st.principals;
    forall s, t | s in printed && t in printed
      ensures Normalize(s) == Normalize(t) ==> s == t
      ensures Normalize(s) != ""
    {
      PrintedDistinct(printed, s, t);
    }
    EachCodeItsOwnGrant(shared, m, entered);
    forall s | Retired(w, s) && Normalize(entered) == Normalize(s) ensures MatchesNone(shared, m, entered) {
      forall n | n in m ensures Normalize(m[n].code) != Normalize(entered) {
        assert InUse(w.st.operatorCode, m, m[n].code);
      }
    }
  }

  // ----- membership and bindings -----------------------------------------

  predicate Adds(e: Event, name: string) { e.AddPrincipal? && e.name == name }

  predicate NeverAdds(events: seq<Event>, name: string) {
    forall i :: 0 <= i < |events| ==> !Adds(events[i], name)
  }

  /** What may take a binding key away. */
  predicate Unbinds(e: Event, name: string) {
    (e.SetBinding? && e.name == name) || (e.RemoveRecord? && e.name == name)
    || (e.AddPrincipal? && e.name == name && e.binding.Some?)
  }

  /** One step, seen from one name. */
  ghost predicate MemberStep(m: Records, m': Records, e: Event, name: string) {
    && (name in m' && name !in m ==> Adds(e, name))
    && (name in m && !Unbinds(e, name) ==> name in m' && m[name].binding.Keys <= m'[name].binding.Keys)
    && (name in m && name in m' && !Adds(e, name) && !(e.RotatePrincipal? && e.name == name) ==>
        m'[name].code == m[name].code)
    && (name in m && e.RotatePrincipal? ==> name in m' && m'[name].binding == m[name].binding)
  }

  lemma AdminMembers(st: State, e: Event, name: string)
    requires IsAdmin(e)
    ensures MemberStep(st.principals, AfterAdmin(st, e).principals, e, name)
  {
    if e.AddPrincipal? {
      AddMembers(st, e, name);
    } else if e.OperatorCode? || e.PurgeRefreshOf? || e.PurgeSessionsOf? {
      assert AfterAdmin(st, e).principals == st.principals;
    } else {
      EditMembers(st, e, name);
    }
  }

  lemma AddMembers(st: State, e: Event, name: string)
    requires e.AddPrincipal?
    ensures MemberStep(st.principals, AfterAdmin(st, e).principals, e, name)
  {
  }

  lemma EditMembers(st: State, e: Event, name: string)
    requires e.SetBinding? || e.MergeBinding? || e.RotatePrincipal? || e.RemoveRecord?
    ensures MemberStep(st.principals, AfterAdmin(st, e).principals, e, name)
  {
  }

  /** In one step only AddPrincipal creates a name; a binding key goes only
      where the binding is set, or the record removed or added with one; a
      merge keeps the code and a rotation the binding. */
  lemma NextMembers(cfg: Config, w: World, e: Event, name: string)
    requires Serviceable(cfg) && Lawful(w, e)
    ensures MemberStep(w.st.principals, Next(cfg, w, e).st.principals, e, name)
  {
    if e.Submit? {
      var out := PostMembersOnly(cfg, w.st, e.env, e.post);
    } else if e.CallbackReturns? {
      FinishMembersOnly(cfg, w.st, e.tail, w.calling[e.id].call, e.result);
    } else if IsAdmin(e) {
      AdminMembers(w.st, e, name);
    } else {
      OthersLeavePeople(cfg, w, e);
    }
  }

  /** Over every run only AddPrincipal creates a name. */
  lemma {:induction false} OnlyAddCreates(cfg: Config, w: World, events: seq<Event>, name: string)
    requires Serviceable(cfg) && Runs(cfg, w, events)
    requires name !in w.st.principals && NeverAdds(events, name)
    ensures name !in After(cfg, w, events).st.principals
    decreases |events|
  {
    if events != [] {
      NextMembers(cfg, w, events[0], name);
      assert forall i :: 0 <= i < |events[1..]| ==> events[1..][i] == events[i + 1];
      OnlyAddCreates(cfg, Next(cfg, w, events[0]), events[1..], name);
    }
  }

  /** Over every run a name, and each key of its binding, stays until it is
      removed, its binding set, or it is added again with a binding. */
  lemma {:induction false} BindingKeysStay(cfg: Config, w: World, events: seq<Event>, name: string)
    requires Serviceable(cfg) && Runs(cfg, w, events)
    requires name in w.st.principals
    requires forall i :: 0 <= i < |events| ==> !Unbinds(events[i], name)
    ensures name in After(cfg, w, events).st.principals
    ensures w.st.principals[name].binding.Keys <= After(cfg, w, events).st.principals[name].binding.Keys
    decreases |events|
  {
    if events != [] {
      NextMembers(cfg, w, events[0], name);
      assert forall i :: 0 <= i < |events[1..]| ==> events[1..][i] == events[i + 1];
      BindingKeysStay(cfg, Next(cfg, w, events[0]), events[1..], name);
    }
  }
}
