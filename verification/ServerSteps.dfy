/** A token request that nothing interrupts is the three steps of the world:
    the whole-run results about interleaved steps cover the handlers. */
module ServerSteps {
  import opened Wrappers
  import opened MapStore
  import opened Stores
  import opened Authorize
  import opened Lifecycle
  import opened Principals
  import opened Server

  /** Minting and storing, for a request that has taken its grant: the state
      and the answer of issueTokens, and afterwards no request is left. */
  ghost predicate FinishesAs(
      cfg: Config, w1: World, id: nat, random: Option<string>, io: Io, st: State, reply: TokenReply)
    requires id in w1.requests
  {
    var w2 := AfterMint(cfg, w1, id);
    if id !in w2.requests
    then st == w2.st && reply == TokenError(ServerError) && w2.tokens == w1.tokens
    else
      && st == AfterRenew(w2, id, random, io).st
      && (reply.TokenPair? <==> Stored(random, io))
      && (reply.TokenPair? ==> w2.tokens == w1.tokens + [Minted(reply.access, w1.requests[id].line)]
                               && AfterRenew(w2, id, random, io).lines
                                   == w1.lines[reply.refresh := w1.requests[id].line])
  }

  lemma IssueTokensIsTwoSteps(cfg: Config, w1: World, id: nat, random: Option<string>, io: Io)
    requires id in w1.requests && !w1.requests[id].minted
    ensures var (st, reply) := IssueTokens(cfg, w1.st, w1.requests[id].held, w1.now, random, io);
            FinishesAs(cfg, w1, id, random, io, st, reply)
  {
  }

  lemma CodeGrantIsThreeSteps(
      cfg: Config, w: World, id: nat, code: string, clientID: string, redirectURI: string, verifier: string,
      random: Option<string>, io: Io)
    requires id !in w.requests
    ensures var (st, reply) := TokensForCode(cfg, w.st, w.now, code, clientID, redirectURI, verifier, random, io);
            var w1 := AfterTakeCode(cfg, w, id, code, clientID, redirectURI, verifier);
            if id !in w1.requests then st == w1.st && reply == TokenError(InvalidGrant)
            else FinishesAs(cfg, w1, id, random, io, st, reply)
  {
    var w1 := AfterTakeCode(cfg, w, id, code, clientID, redirectURI, verifier);
    if id in w1.requests {
      IssueTokensIsTwoSteps(cfg, w1, id, random, io);
    }
  }

  lemma RefreshGrantIsThreeSteps(
      cfg: Config, w: World, id: nat, token: string, clientID: string, takeIo: Io, random: Option<string>, io: Io)
    requires id !in w.requests && w.st.refresh.Keys <= w.lines.Keys
    ensures var (st, reply) := TokensForRefresh(cfg, w.st, w.now, token, clientID, takeIo, random, io);
            var w1 := AfterTakeRefresh(w, id, token, clientID, takeIo);
            if id !in w1.requests then st == w1.st && reply.TokenError?
            else FinishesAs(cfg, w1, id, random, io, st, reply)
  {
    var w1 := AfterTakeRefresh(w, id, token, clientID, takeIo);
    if id in w1.requests {
      IssueTokensIsTwoSteps(cfg, w1, id, random, io);
    }
  }

  /** The operations of a removal as events of the world, up to the one that
      fails. */
  function RemovalEvents(st: State, name: string, ioRecord: Io, ioRefresh: Io, ioSessions: Io): seq<Event> {
    var e, e1, e2 := RemoveRecord(name, ioRecord), PurgeRefreshOf(name, ioRefresh), PurgeSessionsOf(name, ioSessions);
    if !MutateOk(st.principals, Drop(name), ioRecord) then [e]
    else if name != "" && !MutateOk(st.refresh, PurgeRefresh(name), ioRefresh) then [e, e1]
    else [e, e1, e2]
  }

  function AfterEach(st: State, events: seq<Event>): State
    requires forall i :: 0 <= i < |events| ==> IsAdmin(events[i])
    decreases |events|
  {
    if events == [] then st else AfterEach(AfterAdmin(st, events[0]), events[1..])
  }

  /** RemovePrincipal on the stores of a server is those events, and succeeds
      exactly when the last of all three does. */
  method RemoveFrom(
      s: Server, name: string, ioRecord: Io, ioRefresh: Io, ioSessions: Io) returns (removed: bool, ok: bool)
    requires s.Valid()
    modifies s.pairing.principals.entry, s.refresh.grants.entry, s.sessions.records.entry
    ensures s.St() == AfterEach(old(s.St()), RemovalEvents(old(s.St()), name, ioRecord, ioRefresh, ioSessions))
    ensures ok <==> |RemovalEvents(old(s.St()), name, ioRecord, ioRefresh, ioSessions)| == 3
                    && (name == "" || MutateOk(old(s.St()).sessions, PurgeSessions(name), ioSessions))
    ensures removed ==> name in old(s.St()).principals && name !in s.St().principals
  {
    ghost var st := s.St();
    EventsRemove(st, name, ioRecord, ioRefresh, ioSessions);
    RemovalCounts(st, name, ioRecord, ioRefresh, ioSessions);
    RemovingRemoves(Removal(st.principals, st.refresh, st.sessions), name, ioRecord, ioRefresh, ioSessions);
    removed, ok := s.pairing.RemovePrincipal(name, s.refresh.grants.entry, s.sessions.records.entry, ioRecord,
        ioRefresh, ioSessions);
  }

  lemma AfterOne(st: State, a: Event)
    requires IsAdmin(a)
    ensures AfterEach(st, [a]) == AfterAdmin(st, a)
  {
    assert [a][1..] == [];
  }

  lemma AfterTwo(st: State, a: Event, b: Event)
    requires IsAdmin(a) && IsAdmin(b)
    ensures AfterEach(st, [a, b]) == AfterAdmin(AfterAdmin(st, a), b)
  {
    assert [a, b][1..] == [b];
    AfterOne(AfterAdmin(st, a), b);
  }

  lemma AfterThree(st: State, a: Event, b: Event, c: Event)
    requires IsAdmin(a) && IsAdmin(b) && IsAdmin(c)
    ensures AfterEach(st, [a, b, c]) == AfterAdmin(AfterAdmin(AfterAdmin(st, a), b), c)
  {
    assert [a, b, c][1..] == [b, c];
    AfterTwo(AfterAdmin(st, a), b, c);
  }

  /** All went through exactly when the last of three events did. */
  lemma RemovalCounts(st: State, name: string, ioRecord: Io, ioRefresh: Io, ioSessions: Io)
    ensures Removing(Removal(st.principals, st.refresh, st.sessions), name, ioRecord, ioRefresh, ioSessions).2
            <==> |RemovalEvents(st, name, ioRecord, ioRefresh, ioSessions)| == 3
                 && (name == "" || MutateOk(st.sessions, PurgeSessions(name), ioSessions))
  {
  }

  lemma EventsRemove(st: State, name: string, ioRecord: Io, ioRefresh: Io, ioSessions: Io)
    ensures var r := Removing(Removal(st.principals, st.refresh, st.sessions), name, ioRecord, ioRefresh, ioSessions).0;
            AfterEach(st, RemovalEvents(st, name, ioRecord, ioRefresh, ioSessions))
            == st.(principals := r.records, refresh := r.refresh, sessions := r.sessions)
  {
    var e, e1, e2 := RemoveRecord(name, ioRecord), PurgeRefreshOf(name, ioRefresh), PurgeSessionsOf(name, ioSessions);
    var st1 := st.(principals := Mutated(st.principals, Drop(name), ioRecord));
    assert AfterAdmin(st, e) == st1;
    var (left, kept, through) := Purging(st.refresh, st.sessions, name, ioRefresh, ioSessions);
    if !MutateOk(st.principals, Drop(name), ioRecord) {
      AfterOne(st, e);
    } else if name != "" && !MutateOk(st.refresh, PurgeRefresh(name), ioRefresh) {
      AfterTwo(st, e, e1);
      assert AfterAdmin(st1, e1) == st1.(refresh := left);
    } else {
      AfterThree(st, e, e1, e2);
      PurgesAre(st1, name, ioRefresh, ioSessions);
    }
  }

  /** The two purges, when the first goes through. */
  lemma PurgesAre(st: State, name: string, ioRefresh: Io, ioSessions: Io)
    requires name == "" || MutateOk(st.refresh, PurgeRefresh(name), ioRefresh)
    ensures var (left, kept, _) := Purging(st.refresh, st.sessions, name, ioRefresh, ioSessions);
            AfterAdmin(AfterAdmin(st, PurgeRefreshOf(name, ioRefresh)), PurgeSessionsOf(name, ioSessions))
            == st.(refresh := left, sessions := kept)
  {
    var st1 := AfterAdmin(st, PurgeRefreshOf(name, ioRefresh));
    assert st1 == if name == "" then st else st.(refresh := Mutated(st.refresh, PurgeRefresh(name), ioRefresh));
  }
}
