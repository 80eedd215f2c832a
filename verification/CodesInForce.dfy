/** Which pairing codes are in force: what each administrative operation does to the
    stored records, which code entering establishes the operator, and that a code
    once replaced is dead at once and for good. */
module CodesInForce {
  import opened Wrappers
  import opened Identity
  import opened PairingCode
  import opened Principals
  import opened Stores
  import opened Authorize
  import opened Lifecycle
  import opened People

  // ----- the administrative operations -----------------------------------

  /** The records after the operation, spelled out. */
  function RecordsAfter(m: Records, e: Event): Records
    requires IsAdmin(e)
  {
    match e
    case AddPrincipal(name, binding, random, io) =>
      if random.None? || !io.Works? then m
      else
        var kept := if binding.Some? then binding.value else if name in m then m[name].binding else map[];
        m[name := PrincipalRecord(Code(random.value), kept)]
    case SetBinding(name, value, io) =>
      if name in m && io.Works? then m[name := PrincipalRecord(m[name].code, value)] else m
    case MergeBinding(name, patch, io) =>
      if name in m && io.Works? then m[name := PrincipalRecord(m[name].code, m[name].binding + patch)] else m
    case RotatePrincipal(name, random, io) =>
      if name in m && io.Works?
          && random.Some? then m[name := PrincipalRecord(Code(random.value), m[name].binding)] else m
    case RemoveRecord(name, io) => if io.Works? then m - {name} else m
    case _ => m
  }

  /** The operator code after the operation: a rotation that can draw and store
      replaces it, first use makes it, and a stored code is otherwise left. */
  function OperatorAfter(op: Option<string>, e: Event): Option<string>
    requires IsAdmin(e)
  {
    if e.OperatorCode? && e.random.Some? && e.io.Works?
        && (e.rotate || op.None?) then Some(Code(e.random.value)) else op
  }

  lemma RecordsExactly(st: State, e: Event)
    requires IsAdmin(e)
    ensures AfterAdmin(st, e).principals == RecordsAfter(st.principals, e)
  {
    if e.RemoveRecord? && e.name !in st.principals {
      assert st.principals - {e.name} == st.principals;
    }
  }

  lemma OperatorExactly(st: State, e: Event)
    requires IsAdmin(e)
    ensures AfterAdmin(st, e).operatorCode == OperatorAfter(st.operatorCode, e)
    ensures AfterAdmin(st, e).clients == st.clients && AfterAdmin(st, e).codes == st.codes
  {
  }

  /** A purge that works takes exactly the refresh tokens, or the sessions, of its
      name; nothing else touches either. */
  lemma PurgesExactly(st: State, e: Event)
    requires IsAdmin(e)
    ensures AfterAdmin(st, e).refresh
         == if e.PurgeRefreshOf? && e.name != "" && e.io.Works?
            then map t | t in st.refresh && st.refresh[t].principal.name != e.name :: st.refresh[t]
            else st.refresh
    ensures AfterAdmin(st, e).sessions
         == if e.PurgeSessionsOf? && e.name != "" && e.io.Works?
            then map t | t in st.sessions && st.sessions[t].principal != e.name :: st.sessions[t]
            else st.sessions
  {
  }

  /** Registration stores exactly the client it answers with. */
  lemma RegistersExactly(st: State, redirectURIs: seq<string>, name: string, draw: Option<string>, io: Io)
    ensures AfterRegister(st, redirectURIs, name, draw, io)
         == if draw.Some?
             && io.Works? then st.(clients := st.clients[draw.value := Client(draw.value, redirectURIs, name)]) else st
  {
  }

  // ----- the operator ----------------------------------------------------

  /** Whatever the state: the stored operator code, however typed, is recognized as
      the operator when the stores can be read, and entering a code never changes
      it. */
  lemma StoredCodeIsOperator(cfg: Config, st: State, env: Env, code: string, entered: string, cookie: string)
    requires st.operatorCode == Some(code)
    ensures AfterIdentity(st, env, entered) == st
    ensures entered != "" && Normalize(entered) == Normalize(code) && !env.codeIo.GetFails?
              && !env.recordsIo.GetFails? ==>
              VerifyIdentity(cfg, st, env, entered, cookie) == Recognized(OPERATOR)
  {
  }

  /** Without one, entering a code makes it, if it can be drawn and stored; else
      nobody can be recognized by a code, and nothing changes. */
  lemma FirstUse(cfg: Config, st: State, env: Env, entered: string, cookie: string)
    requires st.operatorCode.None?
    ensures AfterIdentity(st, env, entered)
         == if entered != "" && env.codeDraw.Some? && env.codeIo.Works?
            then st.(operatorCode := Some(Code(env.codeDraw.value))) else st
    ensures entered != "" && (env.codeDraw.None? || !env.codeIo.Works?) ==>
              VerifyIdentity(cfg, st, env, entered, cookie) == CheckFailed
    ensures entered != "" && env.codeDraw.Some? && env.codeIo.Works? && !env.recordsIo.GetFails?
            && Normalize(entered) == Normalize(Code(env.codeDraw.value)) ==>
              VerifyIdentity(cfg, st, env, entered, cookie) == Recognized(OPERATOR)
  {
  }

  predicate ReplacesOperator(e: Event) { e.OperatorCode? && e.rotate && e.random.Some? && e.io.Works? }

  lemma NextOperator(cfg: Config, w: World, e: Event)
    requires Serviceable(cfg) && Lawful(w, e) && w.st.operatorCode.Some? && !ReplacesOperator(e)
    ensures Next(cfg, w, e).st.operatorCode == w.st.operatorCode
  {
    if e.Submit? {
      var out := PostMembersOnly(cfg, w.st, e.env, e.post);
    } else if e.CallbackReturns? {
      FinishMembersOnly(cfg, w.st, e.tail, w.calling[e.id].call, e.result);
    } else if IsAdmin(e) {
      OperatorExactly(w.st, e);
    } else {
      OthersLeavePeople(cfg, w, e);
    }
  }

  /** Over every run the operator code stays until a rotation replaces it. */
  lemma {:induction false} OperatorCodeStays(cfg: Config, w: World, events: seq<Event>)
    requires Serviceable(cfg) && Runs(cfg, w, events) && w.st.operatorCode.Some?
    requires forall i :: 0 <= i < |events| ==> !ReplacesOperator(events[i])
    ensures After(cfg, w, events).st.operatorCode == w.st.operatorCode
    decreases |events|
  {
    if events != [] {
      NextOperator(cfg, w, events[0]);
      assert forall i :: 0 <= i < |events[1..]| ==> events[1..][i] == events[i + 1];
      OperatorCodeStays(cfg, Next(cfg, w, events[0]), events[1..]);
    }
  }

  // ----- replaced codes --------------------------------------------------

  /** The code that the operation, should it report success, takes out of force. */
  function Replaces(st: State, e: Event): Option<string>
    requires IsAdmin(e)
  {
    match e
    case OperatorCode(_, _, rotate) => if ReplacesOperator(e) then st.operatorCode else None
    case AddPrincipal(name, _, random, io) =>
      if name in st.principals && random.Some? && io.Works? then Some(st.principals[name].code) else None
    case RotatePrincipal(name, random, io) =>
      if name in st.principals && random.Some? && io.Works? then Some(st.principals[name].code) else None
    case RemoveRecord(name, io) => if name in st.principals && io.Works? then Some(st.principals[name].code) else None
    case _ => None
  }

  lemma ReplacedOut(w: World, e: Event)
    requires IsAdmin(e) && CodesSound(w) && AdminPrints(e) !! w.printed && Replaces(w.st, e).Some?
    ensures var w' := w.(st := AfterAdmin(w.st, e), printed := w.printed + AdminPrints(e));
            Retired(w', Replaces(w.st, e).value)
  {
    var st', was := AfterAdmin(w.st, e), Replaces(w.st, e).value;
    RecordsExactly(w.st, e);
    OperatorExactly(w.st, e);
    assert was in w.printed;
    forall n | n in st'.principals ensures st'.principals[n].code != was {
      if n in w.st.principals && st'.principals[n].code == w.st.principals[n].code {
        assert w.st.principals[n].code in w.printed;
      }
    }
  }

  /** In every run a code that a rotation, an addition over an existing name or a
      removal replaces is retired by that very step, and in every later world. */
  lemma ReplacedForGood(cfg: Config, now: int, past: seq<Event>, e: Event, events: seq<Event>)
    requires Serviceable(cfg) && Runs(cfg, Start(now), past) && IsAdmin(e)
    requires var w := After(cfg, Start(now), past);
             Lawful(w, e) && Runs(cfg, Next(cfg, w, e), events) && Replaces(w.st, e).Some?
    ensures var w := After(cfg, Start(now), past);
            && Retired(Next(cfg, w, e), Replaces(w.st, e).value)
            && Retired(After(cfg, Next(cfg, w, e), events), Replaces(w.st, e).value)
  {
    var w := After(cfg, Start(now), past);
    AlwaysCodes(cfg, Start(now), past);
    ReplacedOut(w, e);
    RetiredForGood(cfg, Next(cfg, w, e), events, Replaces(w.st, e).value);
  }
}
