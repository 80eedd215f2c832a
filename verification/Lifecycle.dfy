/** Whole runs of the server. Requests of any number of clients interleave: a
    token request is three separate steps (take the grant, mint, store the
    next refresh token), an enrollment callback may be under way across any
    other steps, and RemovePrincipal is its three store operations. Each
    store operation is one step, which linearizability of the map store
    justifies. */
module Lifecycle {
  import opened Wrappers
  import opened Identity
  import opened MapStore
  import opened PairingCode
  import opened Stores
  import opened Principals
  import opened Tokens
  import opened Authorize

  // ----- the world -------------------------------------------------------

  /** The authorize POST behind a code: the state it met, what it met outside,
      and whether an enrollment came in between. */
  datatype Origin = Origin(st: State, env: Env, post: Post, enrolled: bool)

  /** An issued code: its origin, the state just after, and the grant. */
  datatype Authorization = Authorization(from: Origin, into: State, grant: AuthGrant)

  /** A callback under way, with the POST that called it. */
  datatype Calling = Calling(call: EnrollCall, from: Origin)

  /** A token request between taking its grant and storing the next refresh
      token. */
  datatype TokenRequest = TokenRequest(held: Held, line: string, minted: bool)

  datatype Minted = Minted(token: Token, line: string)

  /** A code or refresh token that was handed in, and what the client said of
      itself. */
  datatype Redemption =
    | OfCode(token: string, line: string, clientID: string, redirectURI: string)
    | OfRefresh(token: string, line: string, clientID: string)

  /** The state of the server and the requests under way; the rest is
      bookkeeping about the run. A line is named by its authorization code. */
  datatype World = World(
    st: State,
    now: int,
    calling: map<nat, Calling>,
    requests: map<nat, TokenRequest>,
    drawn: set<string>,                 // random tokens drawn so far
    printed: set<string>,               // pairing codes printed so far
    auths: map<string, Authorization>,  // codes issued so far
    lines: map<string, string>,         // refresh tokens stored so far -> line
    proofs: map<string, string>,        // lines redeemed so far -> verifier shown
    tokens: seq<Minted>,                // access tokens minted so far
    redeemed: seq<Redemption>)          // codes and refresh tokens redeemed so far

  datatype Event =
    | Register(redirectURIs: seq<string>, name: string, draw: Option<string>, io: Io)
    | Submit(id: nat, env: Env, post: Post)
    | CallbackReturns(id: nat, tail: Tail, result: EnrollResult)
    | TakeCode(id: nat, code: string, clientID: string, redirectURI: string, verifier: string)
    | TakeRefresh(id: nat, token: string, clientID: string, io: Io)
    | Mint(id: nat)
    | Renew(id: nat, draw: Option<string>, io: Io)
    | Abandon(id: nat)
    | OperatorCode(random: Option<Draw>, io: Io, rotate: bool)
    | AddPrincipal(name: string, binding: Option<Binding>, random: Option<Draw>, io: Io)
    | SetBinding(name: string, value: Binding, io: Io)
    | MergeBinding(name: string, patch: Binding, io: Io)
    | RotatePrincipal(name: string, random: Option<Draw>, io: Io)
    | RemoveRecord(name: string, io: Io)
    | PurgeRefreshOf(name: string, io: Io)
    | PurgeSessionsOf(name: string, io: Io)
    | Tick(to: int)

  // ----- assumptions on draws and time -----------------------------------

  function Drawn(o: Option<string>): set<string> {
    if o.Some? then {o.value} else {}
  }

  function PrintedBy(o: Option<Draw>): set<string> {
    if o.Some? then {Code(o.value)} else {}
  }

  /** Draws never repeat an earlier value, the clock never goes back, and
      request identifiers are not reused while in use. */
  ghost predicate Lawful(w: World, e: Event) {
    match e
    case Register(_, _, draw, _) => Drawn(draw) !! w.drawn
    case Submit(id, env, _) =>
      && id !in w.calling && env.now == w.now && env.tail.now == w.now
      && PrintedBy(env.codeDraw) !! w.printed && FreshTail(w, env.tail)
    case CallbackReturns(id, tail, _) => id in w.calling && tail.now == w.now && FreshTail(w, tail)
    case TakeCode(id, _, _, _, _) => id !in w.requests
    case TakeRefresh(id, _, _, _) => id !in w.requests
    case Mint(id) => id in w.requests && !w.requests[id].minted
    case Renew(id, draw, _) => id in w.requests && w.requests[id].minted && Drawn(draw) !! w.drawn
    case Abandon(id) => id in w.requests
    case OperatorCode(random, _, _) => PrintedBy(random) !! w.printed
    case AddPrincipal(_, _, random, _) => PrintedBy(random) !! w.printed
    case RotatePrincipal(_, random, _) => PrintedBy(random) !! w.printed
    case Tick(to) => w.now <= to
    case _ => true
  }

  ghost predicate FreshTail(w: World, tail: Tail) {
    && Drawn(tail.sessionDraw) !! w.drawn && Drawn(tail.codeDraw) !! w.drawn
    && Drawn(tail.sessionDraw) !! Drawn(tail.codeDraw)
  }

  // ----- steps -----------------------------------------------------------

  /** Note the code a response hands out. */
  function Noted(
      auths: map<string, Authorization>, st: State, response: Response, from: Origin): map<string, Authorization> {
    if response.RedirectCode? && response.code in st.codes
    then auths[response.code := Authorization(from, st, st.codes[response.code])]
    else auths
  }

  ghost function AfterSubmit(cfg: Config, w: World, id: nat, env: Env, post: Post): World
    requires Serviceable(cfg)
  {
    Submitted(w, id, env, post, AuthorizePost(cfg, w.st, env, post))
  }

  function Submitted(w: World, id: nat, env: Env, post: Post, out: Outcome): World {
    var drawn := w.drawn + Drawn(env.tail.sessionDraw) + Drawn(env.tail.codeDraw);
    var printed := w.printed + PrintedBy(env.codeDraw);
    match out
    case Done(st, response) =>
      w.(st := st, drawn := drawn, printed := printed,
          auths := Noted(w.auths, st, response, Origin(w.st, env, post, false)))
    case Asks(st, call) =>
      w.(st := st, drawn := drawn, printed := printed,
          calling := w.calling[id := Calling(call, Origin(w.st, env, post, true))])
  }

  function AfterCallback(cfg: Config, w: World, id: nat, tail: Tail, result: EnrollResult): World
    requires Serviceable(cfg) && id in w.calling
  {
    var (st, response) := FinishEnroll(cfg, w.st, tail, w.calling[id].call, result);
    Returned(w, id, tail, st, response)
  }

  function Returned(w: World, id: nat, tail: Tail, st: State, response: Response): World
    requires id in w.calling
  {
    w.(st := st, drawn := w.drawn + Drawn(tail.sessionDraw) + Drawn(tail.codeDraw), calling := w.calling - {id},
       auths := Noted(w.auths, st, response, w.calling[id].from))
  }

  function AfterTakeCode(
      cfg: Config, w: World, id: nat, code: string, clientID: string, redirectURI: string, verifier: string): World {
    var (st, held) := RedeemCode(cfg, w.st, w.now, code, clientID, redirectURI, verifier);
    if held.None? then w.(st := st)
    else w.(st := st, requests := w.requests[id := TokenRequest(held.value, code, false)],
            proofs := w.proofs[code := verifier],
            redeemed := w.redeemed + [OfCode(code, code, clientID, redirectURI)])
  }

  function AfterTakeRefresh(w: World, id: nat, token: string, clientID: string, io: Io): World {
    var (st, held) := RedeemRefresh(w.st, token, clientID, io);
    if held.None? || token !in w.lines then w.(st := st)
    else w.(st := st, requests := w.requests[id := TokenRequest(held.value, w.lines[token], false)],
            redeemed := w.redeemed + [OfRefresh(token, w.lines[token], clientID)])
  }

  function AfterMint(cfg: Config, w: World, id: nat): World
    requires id in w.requests
  {
    var r := w.requests[id];
    match MintHeld(cfg, r.held, w.now)
    case Err => w.(requests := w.requests - {id})
    case Ok(token) => w.(requests := w.requests[id := r.(minted := true)], tokens := w.tokens + [Minted(token, r.line)])
  }

  function AfterRenew(w: World, id: nat, draw: Option<string>, io: Io): World
    requires id in w.requests
  {
    var r := w.requests[id];
    w.(st := StoreRefresh(w.st, r.held, draw, io), requests := w.requests - {id}, drawn := w.drawn + Drawn(draw),
       lines := if Stored(draw, io) then w.lines[draw.value := r.line] else w.lines)
  }

  function AfterRegister(st: State, redirectURIs: seq<string>, name: string, draw: Option<string>, io: Io): State {
    if Stored(draw, io) then st.(clients := st.clients[draw.value := Client(draw.value, redirectURIs, name)]) else st
  }

  function AfterOperatorCode(st: State, random: Option<Draw>, io: Io, rotate: bool): State {
    if rotate then (if random.Some? && io.Works? then st.(operatorCode := Some(Code(random.value))) else st)
    else st.(operatorCode := CodeAfter(st.operatorCode, random, io))
  }

  function WithRecords(st: State, fn: Update<PrincipalRecord>, io: Io): State {
    st.(principals := Mutated(st.principals, fn, io))
  }

  /** The administrative operations on the state. */
  predicate IsAdmin(e: Event) {
    e.OperatorCode? || e.AddPrincipal? || e.SetBinding? || e.MergeBinding? || e.RotatePrincipal?
    || e.RemoveRecord? || e.PurgeRefreshOf? || e.PurgeSessionsOf?
  }

  function AfterAdmin(st: State, e: Event): State
    requires IsAdmin(e)
  {
    match e
    case OperatorCode(random, io, rotate) => AfterOperatorCode(st, random, io, rotate)
    case AddPrincipal(name, binding, random, io) =>
      if random.Some? then WithRecords(st, Adding(name, binding, Code(random.value)), io) else st
    case SetBinding(name, value, io) => WithRecords(st, Editing(name, WithBinding(value)), io)
    case MergeBinding(name, patch, io) => WithRecords(st, Editing(name, Merging(patch)), io)
    case RotatePrincipal(name, random, io) =>
      if random.Some? then WithRecords(st, Editing(name, WithCode(Code(random.value))), io) else st
    case RemoveRecord(name, io) => WithRecords(st, Drop(name), io)
    case PurgeRefreshOf(name, io) =>
        if name == "" then st else st.(refresh := Mutated(st.refresh, PurgeRefresh(name), io))
    case PurgeSessionsOf(name, io) =>
        if name == "" then st else st.(sessions := Mutated(st.sessions, PurgeSessions(name), io))
  }

  function AdminPrints(e: Event): set<string> {
    match e
    case OperatorCode(random, _, _) => PrintedBy(random)
    case AddPrincipal(_, _, random, _) => PrintedBy(random)
    case RotatePrincipal(_, random, _) => PrintedBy(random)
    case _ => {}
  }

  ghost function Next(cfg: Config, w: World, e: Event): World
    requires Serviceable(cfg) && Lawful(w, e)
  {
    match e
    case Register(uris, name, draw, io) =>
        w.(st := AfterRegister(w.st, uris, name, draw, io), drawn := w.drawn + Drawn(draw))
    case Submit(id, env, post) => AfterSubmit(cfg, w, id, env, post)
    case CallbackReturns(id, tail, result) => AfterCallback(cfg, w, id, tail, result)
    case TakeCode(id, code, clientID, redirectURI, verifier) =>
        AfterTakeCode(cfg, w, id, code, clientID, redirectURI, verifier)
    case TakeRefresh(id, token, clientID, io) => AfterTakeRefresh(w, id, token, clientID, io)
    case Mint(id) => AfterMint(cfg, w, id)
    case Renew(id, draw, io) => AfterRenew(w, id, draw, io)
    case Abandon(id) => w.(requests := w.requests - {id})
    case Tick(to) => w.(now := to)
    case _ => w.(st := AfterAdmin(w.st, e), printed := w.printed + AdminPrints(e))
  }

  // ----- runs ------------------------------------------------------------

  const EMPTY := State(map[], None, map[], map[], map[], map[])

  function Start(now: int): World {
    World(EMPTY, now, map[], map[], {}, {}, map[], map[], map[], [], [])
  }

  ghost predicate Runs(cfg: Config, w: World, events: seq<Event>)
    requires Serviceable(cfg)
    decreases |events|
  {
    events == [] || (Lawful(w, events[0]) && Runs(cfg, Next(cfg, w, events[0]), events[1..]))
  }

  ghost function After(cfg: Config, w: World, events: seq<Event>): World
    requires Serviceable(cfg) && Runs(cfg, w, events)
    decreases |events|
  {
    if events == [] then w else After(cfg, Next(cfg, w, events[0]), events[1..])
  }
}
