/** clients.go, authcode.go, refresh.go and session.go: the four stores of the
    server beside the principals. Random draws, the clock and the behaviour of
    the secret store are parameters. */
module Stores {
  import opened Wrappers
  import opened Identity
  import opened MapStore

  datatype Client = Client(id: string, redirectURIs: seq<string>, name: string)

  predicate AllowsRedirect(c: Client, uri: string) { uri in c.redirectURIs }

  /** Every client is stored under its own id. */
  ghost predicate OwnIds(clients: map<string, Client>) {
    forall k :: k in clients ==> clients[k].id == k
  }

  /** What an authorization code stands for. */
  datatype AuthGrant = AuthGrant(
    clientID: string, redirectURI: string,
    codeChallenge: string, codeChallengeMethod: string,
    scope: string, resource: string, principal: Grant, expiresAt: int)

  datatype RefreshGrant = RefreshGrant(clientID: string, scope: string, resource: string, principal: Grant)

  datatype SessionRecord = SessionRecord(principal: string, anonymous: bool, expires: int)

  /** A random token is drawn and a write goes through. */
  predicate Stored(random: Option<string>, io: Io) { random.Some? && io.Works? }

  // ----- clients ---------------------------------------------------------

  class ClientRegistry {
    const clients: JsonMapStore<Client>

    constructor (entry: Entry<Client>)
      ensures clients.entry == entry && fresh(clients)
    {
      clients := new JsonMapStore(entry);
    }

    method Register(redirectURIs: seq<string>, name: string, random: Option<string>, io: Io) returns (r: Result<Client>)
      modifies clients.entry
      ensures r == if Stored(random, io) then Ok(Client(random.value, redirectURIs, name)) else Err
      ensures clients.Contents() == if r.Ok? then old(clients.Contents())[r.value.id := r.value]
                else old(clients.Contents())
    {
      if random.None? {
        return Err;
      }
      var c := Client(random.value, redirectURIs, name);
      var ok := clients.Mutate(Put(c.id, c), io);
      r := if ok then Ok(c) else Err;
    }

    method Get(id: string, io: Io) returns (r: Result<Option<Client>>)
      ensures r == if io.GetFails? then Err
                   else Ok(if id in clients.Contents() then Some(clients.Contents()[id]) else None)
    {
      r := clients.Get(id, io);
    }
  }

  // ----- authorization codes ---------------------------------------------

  /** The grant a code redeems for at a given time. */
  function Redeems(m: map<string, AuthGrant>, code: string, now: int): Option<AuthGrant> {
    if code in m && now <= m[code].expiresAt then Some(m[code]) else None
  }

  class AuthCodeStore {
    var m: map<string, AuthGrant>
    const ttl: int

    constructor (ttl: int)
      ensures m == map[] && this.ttl == ttl
    {
      m := map[];
      this.ttl := ttl;
    }

    method Issue(grant: AuthGrant, random: Option<string>, now: int) returns (r: Result<string>)
      modifies this
      ensures r == if random.Some? then Ok(random.value) else Err
      ensures m == if random.Some? then old(m)[random.value := grant.(expiresAt := now + ttl)] else old(m)
    {
      if random.None? {
        return Err;
      }
      m := m[random.value := grant.(expiresAt := now + ttl)];
      r := Ok(random.value);
    }

    /** Single use: the code is gone whether or not it was still valid. */
    method Consume(code: string, now: int) returns (r: Option<AuthGrant>)
      modifies this
      ensures r == Redeems(old(m), code, now)
      ensures m == old(m) - {code}
    {
      if code !in m {
        assert m - {code} == m;
        return None;
      }
      var grant := m[code];
      m := m - {code};
      r := if now > grant.expiresAt then None else Some(grant);
    }
  }

  // ----- refresh tokens --------------------------------------------------

  function WithoutRefresh(m: map<string, RefreshGrant>, name: string): map<string, RefreshGrant> {
    map t | t in m && m[t].principal.name != name :: m[t]
  }

  /** The closure removeForPrincipal hands to mutate. */
  function PurgeRefresh(name: string): Update<RefreshGrant> {
    (m: map<string, RefreshGrant>) => Change(WithoutRefresh(m, name), exists t :: t in m && m[t].principal.name == name)
  }

  class RefreshStore {
    const grants: JsonMapStore<RefreshGrant>

    constructor (entry: Entry<RefreshGrant>)
      ensures grants.entry == entry && fresh(grants)
    {
      grants := new JsonMapStore(entry);
    }

    method Issue(
        clientID: string, scope: string, resource: string, p: Grant, random: Option<string>, io: Io)
        returns (r: Result<string>)
      modifies grants.entry
      ensures r == if Stored(random, io) then Ok(random.value) else Err
      ensures grants.Contents() == if r.Ok?
                then old(grants.Contents())[r.value := RefreshGrant(clientID, scope, resource, p)]
                                   else old(grants.Contents())
    {
      if random.None? {
        return Err;
      }
      var ok := grants.Mutate(Put(random.value, RefreshGrant(clientID, scope, resource, p)), io);
      r := if ok then Ok(random.value) else Err;
    }

    /** Rotation: the token is taken out as it is read. A write that fails
        leaves it in place and hands nothing out. */
    method Exchange(token: string, io: Io) returns (r: Result<Option<RefreshGrant>>)
      modifies grants.entry
      ensures r == if !MutateOk(old(grants.Contents()), Drop(token), io) then Err
                   else Ok(if token in old(grants.Contents()) then Some(old(grants.Contents())[token]) else None)
      ensures grants.Contents() == Mutated(old(grants.Contents()), Drop(token), io)
    {
      var m := grants.Load(io);
      if m.Err? {
        return Err;
      }
      if token !in m.value {
        return Ok(None);
      }
      var ok := grants.Save(m.value - {token}, io);
      r := if ok then Ok(Some(m.value[token])) else Err;
    }

    /** The deleting loop over the loaded map, then one write if anything
        was deleted. The operator is not removable. */
    method RemoveForPrincipal(name: string, io: Io) returns (ok: bool)
      modifies grants.entry
      ensures ok == (name == "" || MutateOk(old(grants.Contents()), PurgeRefresh(name), io))
      ensures grants.Contents() == if name == "" then old(grants.Contents())
                                   else Mutated(old(grants.Contents()), PurgeRefresh(name), io)
    {
      if name == "" {
        return true;
      }
      var loaded := grants.Load(io);
      if loaded.Err? {
        return false;
      }
      var m, changed, rest := loaded.value, false, loaded.value.Keys;
      while rest != {}
        invariant rest <= loaded.value.Keys
        invariant m == map t | t in loaded.value
                  && (t in rest || loaded.value[t].principal.name != name) :: loaded.value[t]
        invariant changed <==> exists t :: t in loaded.value && t !in rest && loaded.value[t].principal.name == name
        decreases |rest|
      {
        var t :| t in rest;
        rest := rest - {t};
        if loaded.value[t].principal.name == name {
          m, changed := m - {t}, true;
        }
      }
      if !changed {
        return true;
      }
      ok := grants.Save(m, io);
    }
  }

  // ----- sessions --------------------------------------------------------

  predicate Expired(rec: SessionRecord, now: int) { now > rec.expires }

  function Unexpired(m: map<string, SessionRecord>, now: int): map<string, SessionRecord> {
    map t | t in m && !Expired(m[t], now) :: m[t]
  }

  /** The record a session token stands for at a given time. */
  function LiveSession(m: map<string, SessionRecord>, token: string, now: int): Option<SessionRecord> {
    if token in m && !Expired(m[token], now) then Some(m[token]) else None
  }

  function SessionFor(p: Grant, expires: int): SessionRecord {
    SessionRecord(p.name, p.name == "", expires)
  }

  function WithoutSessions(m: map<string, SessionRecord>, name: string): map<string, SessionRecord> {
    map t | t in m && m[t].principal != name :: m[t]
  }

  function PurgeSessions(name: string): Update<SessionRecord> {
    (m: map<string, SessionRecord>) => Change(WithoutSessions(m, name), exists t :: t in m && m[t].principal == name)
  }

  class SessionStore {
    const records: JsonMapStore<SessionRecord>
    const ttl: int

    constructor (entry: Entry<SessionRecord>, ttl: int)
      ensures records.entry == entry && this.ttl == ttl && fresh(records)
    {
      records := new JsonMapStore(entry);
      this.ttl := ttl;
    }

    /** Expired records are pruned, in any order, on the write that adds the
        new one. */
    method Issue(p: Grant, random: Option<string>, now: int, io: Io) returns (r: Result<string>)
      modifies records.entry
      ensures r == if Stored(random, io) then Ok(random.value) else Err
      ensures records.Contents() == if r.Ok?
                then Unexpired(old(records.Contents()), now)[r.value := SessionFor(p, now + ttl)]
                                    else old(records.Contents())
    {
      if random.None? {
        return Err;
      }
      var token := random.value;
      var loaded := records.Load(io);
      if loaded.Err? {
        return Err;
      }
      var m, rest := loaded.value, loaded.value.Keys;
      while rest != {}
        invariant rest <= loaded.value.Keys
        invariant m == map t | t in loaded.value && (t in rest || !Expired(loaded.value[t], now)) :: loaded.value[t]
        decreases |rest|
      {
        var t :| t in rest;
        rest := rest - {t};
        if Expired(loaded.value[t], now) {
          m := m - {t};
        }
      }
      assert m == Unexpired(loaded.value, now);
      var ok := records.Save(m[token := SessionFor(p, now + ttl)], io);
      r := if ok then Ok(token) else Err;
    }

    method Lookup(token: string, now: int, io: Io) returns (r: Result<Option<SessionRecord>>)
      ensures r == if io.GetFails? then Err else Ok(LiveSession(records.Contents(), token, now))
    {
      var rec := records.Get(token, io);
      if rec.Err? || rec.value.None? {
        return rec;
      }
      r := Ok(if Expired(rec.value.value, now) then None else rec.value);
    }

    method RemoveForPrincipal(name: string, io: Io) returns (ok: bool)
      modifies records.entry
      ensures ok == (name == "" || MutateOk(old(records.Contents()), PurgeSessions(name), io))
      ensures records.Contents() == if name == "" then old(records.Contents())
                                    else Mutated(old(records.Contents()), PurgeSessions(name), io)
    {
      if name == "" {
        return true;
      }
      var loaded := records.Load(io);
      if loaded.Err? {
        return false;
      }
      var m, changed, rest := loaded.value, false, loaded.value.Keys;
      while rest != {}
        invariant rest <= loaded.value.Keys
        invariant m == map t | t in loaded.value && (t in rest || loaded.value[t].principal != name) :: loaded.value[t]
        invariant changed <==> exists t :: t in loaded.value && t !in rest && loaded.value[t].principal == name
        decreases |rest|
      {
        var t :| t in rest;
        rest := rest - {t};
        if loaded.value[t].principal == name {
          m, changed := m - {t}, true;
        }
      }
      if !changed {
        return true;
      }
      ok := records.Save(m, io);
    }
  }

  // ----- pruning cannot be observed --------------------------------------

  /** One change of the session store. An issue also drops some records that
      are expired by then. */
  datatype SessionEvent =
    | Issued(token: string, rec: SessionRecord, dropped: set<string>, at: int)
    | Purged(name: string, at: int)

  predicate DropsExpired(m: map<string, SessionRecord>, e: SessionEvent) {
    e.Issued? ==> forall t :: t in e.dropped && t in m ==> Expired(m[t], e.at)
  }

  function AfterEvent(m: map<string, SessionRecord>, e: SessionEvent, pruning: bool): map<string, SessionRecord> {
    match e
    case Issued(token, rec, dropped, _) => (if pruning then m - dropped else m)[token := rec]
    case Purged(name, _) => WithoutSessions(m, name)
  }

  function AfterEvents(
      m: map<string, SessionRecord>, events: seq<SessionEvent>, pruning: bool): map<string, SessionRecord> {
    if events == [] then m
    else AfterEvent(AfterEvents(m, events[..|events| - 1], pruning), events[|events| - 1], pruning)
  }

  /** The events happen under a clock that never goes back, and each drops
      only what is expired when it happens. */
  ghost predicate LawfulEvents(m: map<string, SessionRecord>, events: seq<SessionEvent>) {
    && (forall i, j :: 0 <= i < j < |events| ==> events[i].at <= events[j].at)
    && (forall i :: 0 <= i < |events| ==> DropsExpired(AfterEvents(m, events[..i], true), events[i]))
  }

  /** pruned holds part of full; what it lacks is expired. */
  ghost predicate OnlyLacksExpired(pruned: map<string, SessionRecord>, full: map<string, SessionRecord>, now: int) {
    && (forall t :: t in pruned ==> t in full && pruned[t] == full[t])
    && (forall t :: t in full && t !in pruned ==> Expired(full[t], now))
  }

  lemma {:induction false} EventLoses(
      pruned: map<string, SessionRecord>, full: map<string, SessionRecord>, e: SessionEvent, now: int)
    requires OnlyLacksExpired(pruned, full, e.at) && DropsExpired(pruned, e) && e.at <= now
    ensures OnlyLacksExpired(AfterEvent(pruned, e, true), AfterEvent(full, e, false), now)
  {
  }

  lemma {:induction false} PruningLoses(m: map<string, SessionRecord>, events: seq<SessionEvent>, now: int)
    requires LawfulEvents(m, events)
    requires events != [] ==> events[|events| - 1].at <= now
    ensures OnlyLacksExpired(AfterEvents(m, events, true), AfterEvents(m, events, false), now)
  {
    if events != [] {
      var n := |events| - 1;
      var before, e := events[..n], events[n];
      assert forall i :: 0 <= i < n ==> before[i] == events[i] && before[..i] == events[..i];
      assert LawfulEvents(m, before);
      PruningLoses(m, before, e.at);
      assert DropsExpired(AfterEvents(m, events[..n], true), e);
      EventLoses(AfterEvents(m, before, true), AfterEvents(m, before, false), e, now);
    }
  }

  /** Over every run, a lookup answers exactly as if nothing were ever
      pruned. */
  lemma {:induction false} PruningUnobservable(
      m: map<string, SessionRecord>, events: seq<SessionEvent>, token: string, now: int)
    requires LawfulEvents(m, events)
    requires events != [] ==> events[|events| - 1].at <= now
    ensures LiveSession(AfterEvents(m, events, true), token, now)
         == LiveSession(AfterEvents(m, events, false), token, now)
  {
    PruningLoses(m, events, now);
  }

  /** The pruning of Issue is such an event. */
  lemma {:induction false} IssueIsLawful(m: map<string, SessionRecord>, token: string, rec: SessionRecord, now: int)
    ensures var dropped := set t | t in m && Expired(m[t], now);
            && DropsExpired(m, Issued(token, rec, dropped, now))
            && Unexpired(m, now)[token := rec] == AfterEvent(m, Issued(token, rec, dropped, now), true)
  {
    var dropped := set t | t in m && Expired(m[t], now);
    assert Unexpired(m, now) == m - dropped;
  }
}
