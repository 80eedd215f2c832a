/** principal.go and the stateful half of pairing.go: the operator's code, the
    named principals, and the verification of an entered code. */
module Principals {
  import opened Wrappers
  import opened Text
  import opened Identity
  import opened MapStore
  import opened PairingCode
  import opened Stores

  datatype PrincipalRecord = PrincipalRecord(code: string, binding: Binding)

  type Records = map<string, PrincipalRecord>

  // ----- the writers, as update functions --------------------------------

  /** Adding or rotating: an absent binding keeps the stored one. */
  function Adding(name: string, binding: Option<Binding>, code: string): Update<PrincipalRecord> {
    (m: Records) =>
      var kept := if name in m then m[name].binding else map[];
      Change(m[name := PrincipalRecord(code, if binding.Some? then binding.value else kept)], true)
  }

  /** mutateExisting: an unknown name changes nothing. */
  function Editing(name: string, edit: PrincipalRecord -> PrincipalRecord): Update<PrincipalRecord> {
    (m: Records) => if name in m then Change(m[name := edit(m[name])], true) else Change(m, false)
  }

  function WithBinding(binding: Binding): PrincipalRecord -> PrincipalRecord {
    (rec: PrincipalRecord) => rec.(binding := binding)
  }

  function Merging(patch: Binding): PrincipalRecord -> PrincipalRecord {
    (rec: PrincipalRecord) => rec.(binding := rec.binding + patch)
  }

  function WithCode(code: string): PrincipalRecord -> PrincipalRecord {
    (rec: PrincipalRecord) => rec.(code := code)
  }

  // ----- verification ----------------------------------------------------

  /** The names whose stored code normalises to the given text. */
  function Matching(m: Records, got: string): set<string> {
    set n | n in m && Normalize(m[n].code) == got
  }

  /** The identity an entered code establishes: the operator if the shared
      code matches, else the first matching name in sorted order. */
  ghost function EstablishedBy(shared: string, m: Records, input: string): Option<Grant> {
    var got := Normalize(input);
    if Normalize(shared) == got then Some(OPERATOR)
    else if Matching(m, got) == {} then None
    else
      LeastExists(Matching(m, got));
      var n :| IsLeast(n, Matching(m, got));
      Some(Grant(n, m[n].binding))
  }

  /** It is the operator, or a name with the binding stored for it. */
  lemma {:induction false} EstablishedIsStored(shared: string, m: Records, input: string)
    ensures var r := EstablishedBy(shared, m, input);
            r.Some? ==> r.value == OPERATOR || (r.value.name in m && r.value.binding == m[r.value.name].binding)
  {
  }

  /** grantFor: the current grant of a name. */
  function GrantFor(m: Records, name: string): Option<Grant> {
    if name in m then Some(Grant(name, m[name].binding)) else None
  }

  // ----- removing ----------------------------------------------------------

  /** The three documents a removal works on. */
  datatype Removal = Removal(records: Records, refresh: map<string, RefreshGrant>, sessions: map<string, SessionRecord>)

  /** The three operations in order, each only if the one before went through;
      whether the record existed, and whether all went through. */
  function Removing(r: Removal, name: string, ioRecord: Io, ioRefresh: Io, ioSessions: Io): (Removal, bool, bool) {
    var r1 := r.(records := Mutated(r.records, Drop(name), ioRecord));
    if !MutateOk(r.records, Drop(name), ioRecord) then (r1, false, false)
    else
      var (refresh, sessions, through) := Purging(r.refresh, r.sessions, name, ioRefresh, ioSessions);
      (Removal(r1.records, refresh, sessions), name in r.records, through)
  }

  /** The refresh tokens, then the sessions; the operator has none to lose. */
  function Purging(
      refresh: map<string, RefreshGrant>, sessions: map<string, SessionRecord>, name: string, ioRefresh: Io,
      ioSessions: Io)
    : (map<string, RefreshGrant>, map<string, SessionRecord>, bool)
  {
    if name == "" then (refresh, sessions, true)
    else
      var left := Mutated(refresh, PurgeRefresh(name), ioRefresh);
      if !MutateOk(refresh, PurgeRefresh(name), ioRefresh) then (left, sessions, false)
      else (left, Mutated(sessions, PurgeSessions(name), ioSessions),
          MutateOk(sessions, PurgeSessions(name), ioSessions))
  }

  /** Once all went through, no record, no refresh token and no session of the
      name is left; whatever happened, those of other names are untouched. */
  lemma {:induction false} RemovingRemoves(r: Removal, name: string, ioRecord: Io, ioRefresh: Io, ioSessions: Io)
    ensures var (r', existed, through) := Removing(r, name, ioRecord, ioRefresh, ioSessions);
            && (existed ==> name in r.records && name !in r'.records)
            && (through ==> name !in r'.records && (existed <==> name in r.records))
            && (through && name != "" ==>
                r'.refresh == WithoutRefresh(r.refresh, name) && r'.sessions == WithoutSessions(r.sessions, name))
            && r'.records - {name} == r.records - {name}
            && WithoutRefresh(r'.refresh, name) == WithoutRefresh(r.refresh, name)
            && WithoutSessions(r'.sessions, name) == WithoutSessions(r.sessions, name)
  {
    PurgingPurges(r.refresh, r.sessions, name, ioRefresh, ioSessions);
  }

  lemma {:induction false} PurgingPurges(
      refresh: map<string, RefreshGrant>, sessions: map<string, SessionRecord>, name: string, ioRefresh: Io,
      ioSessions: Io)
    ensures var (left, kept, through) := Purging(refresh, sessions, name, ioRefresh, ioSessions);
            && (through && name != "" ==>
                left == WithoutRefresh(refresh, name) && kept == WithoutSessions(sessions, name))
            && WithoutRefresh(left, name) == WithoutRefresh(refresh, name)
            && WithoutSessions(kept, name) == WithoutSessions(sessions, name)
  {
    PurgedRefresh(refresh, name, ioRefresh);
    PurgedSessions(sessions, name, ioSessions);
  }

  lemma {:induction false} PurgedRefresh(m: map<string, RefreshGrant>, name: string, io: Io)
    ensures Mutated(m, PurgeRefresh(name), io) == if io.Works? then WithoutRefresh(m, name) else m
    ensures MutateOk(m, PurgeRefresh(name), io) ==> Mutated(m, PurgeRefresh(name), io) == WithoutRefresh(m, name)
    ensures WithoutRefresh(WithoutRefresh(m, name), name) == WithoutRefresh(m, name)
  {
    if !PurgeRefresh(name)(m).changed {
      assert WithoutRefresh(m, name) == m;
    }
  }

  lemma {:induction false} PurgedSessions(m: map<string, SessionRecord>, name: string, io: Io)
    ensures Mutated(m, PurgeSessions(name), io) == if io.Works? then WithoutSessions(m, name) else m
    ensures MutateOk(m, PurgeSessions(name), io) ==> Mutated(m, PurgeSessions(name), io) == WithoutSessions(m, name)
    ensures WithoutSessions(WithoutSessions(m, name), name) == WithoutSessions(m, name)
  {
    if !PurgeSessions(name)(m).changed {
      assert WithoutSessions(m, name) == m;
    }
  }

  // ----- the operator code -----------------------------------------------

  /** Code: the stored code, or on first use a fresh one that is stored. */
  function CodeOf(stored: Option<string>, random: Option<Draw>, io: Io): Result<string> {
    if io.GetFails? then Err
    else if stored.Some? then Ok(stored.value)
    else if random.Some? && io.Works? then Ok(Code(random.value))
    else Err
  }

  function CodeAfter(stored: Option<string>, random: Option<Draw>, io: Io): Option<string> {
    if stored.None? && CodeOf(stored, random, io).Ok? then Some(Code(random.value)) else stored
  }

  /** The secret-store key of the operator code. */
  class Secret {
    var value: Option<string>

    constructor ()
      ensures value == None
    {
      value := None;
    }
  }

  datatype Candidate = Candidate(code: string, grant: Grant)

  class Pairing {
    const secret: Secret
    const principals: JsonMapStore<PrincipalRecord>

    constructor (secret: Secret, entry: Entry<PrincipalRecord>)
      ensures this.secret == secret && principals.entry == entry && fresh(principals)
    {
      this.secret := secret;
      principals := new JsonMapStore(entry);
    }

    method GetCode(random: Option<Draw>, io: Io) returns (r: Result<string>)
      modifies secret
      ensures r == CodeOf(old(secret.value), random, io)
      ensures secret.value == CodeAfter(old(secret.value), random, io)
    {
      if io.GetFails? {
        return Err;
      }
      if secret.value.Some? {
        return Ok(secret.value.value);
      }
      r := Rotate(random, io);
    }

    method Rotate(random: Option<Draw>, io: Io) returns (r: Result<string>)
      modifies secret
      ensures r == if random.Some? && io.Works? then Ok(Code(random.value)) else Err
      ensures secret.value == if r.Ok? then Some(r.value) else old(secret.value)
    {
      var code := GeneratePairingCode(random);
      if code.Err? || !io.Works? {
        return Err;
      }
      secret.value := Some(code.value);
      r := code;
    }

    method AddPrincipal(
        name: string, binding: Option<Binding>, random: Option<Draw>, io: Io) returns (r: Result<string>)
      modifies principals.entry
      ensures r == if random.Some? && io.Works? then Ok(Code(random.value)) else Err
      ensures principals.Contents() == if random.Some?
                then Mutated(old(principals.Contents()), Adding(name, binding, Code(random.value)), io)
                                       else old(principals.Contents())
    {
      var code := GeneratePairingCode(random);
      if code.Err? {
        return Err;
      }
      var ok := principals.Mutate(Adding(name, binding, code.value), io);
      r := if ok then code else Err;
    }

    /** mutateExisting: reports whether the name existed, and the record as
        edited. */
    method MutateExisting(
        name: string, edit: PrincipalRecord -> PrincipalRecord, io: Io) returns (r: Result<Option<PrincipalRecord>>)
      modifies principals.entry
      ensures r == if !MutateOk(old(principals.Contents()), Editing(name, edit), io) then Err
                   else if name in old(principals.Contents()) then Ok(Some(edit(old(principals.Contents())[name])))
                   else Ok(None)
      ensures principals.Contents() == Mutated(old(principals.Contents()), Editing(name, edit), io)
    {
      var m := principals.Load(io);
      if m.Err? {
        return Err;
      }
      if name !in m.value {
        return Ok(None);
      }
      var rec := edit(m.value[name]);
      var ok := principals.Save(m.value[name := rec], io);
      r := if ok then Ok(Some(rec)) else Err;
    }

    method SetPrincipalBinding(name: string, binding: Binding, io: Io) returns (r: Result<bool>)
      modifies principals.entry
      ensures r == if !MutateOk(old(principals.Contents()), Editing(name, WithBinding(binding)), io) then Err
                   else Ok(name in old(principals.Contents()))
      ensures principals.Contents() == Mutated(old(principals.Contents()), Editing(name, WithBinding(binding)), io)
    {
      var found := MutateExisting(name, WithBinding(binding), io);
      r := if found.Err? then Err else Ok(found.value.Some?);
    }

    /** The enrollment write path: the merged binding, if the name exists. */
    method MergePrincipalBinding(name: string, patch: Binding, io: Io) returns (r: Result<Option<Binding>>)
      modifies principals.entry
      ensures r == if !MutateOk(old(principals.Contents()), Editing(name, Merging(patch)), io) then Err
                   else if name in old(principals.Contents())
                       then Ok(Some(old(principals.Contents())[name].binding + patch))
                   else Ok(None)
      ensures principals.Contents() == Mutated(old(principals.Contents()), Editing(name, Merging(patch)), io)
    {
      var found := MutateExisting(name, Merging(patch), io);
      r := if found.Err? then Err else if found.value.Some? then Ok(Some(found.value.value.binding)) else Ok(None);
    }

    method RotatePrincipal(name: string, random: Option<Draw>, io: Io) returns (r: Result<Option<string>>)
      modifies principals.entry
      ensures r == if random.None?
                || !MutateOk(old(principals.Contents()), Editing(name, WithCode(Code(random.value))), io) then Err
                   else if name in old(principals.Contents()) then Ok(Some(Code(random.value)))
                   else Ok(None)
      ensures principals.Contents() == if random.Some?
                then Mutated(old(principals.Contents()), Editing(name, WithCode(Code(random.value))), io)
                                       else old(principals.Contents())
    {
      var code := GeneratePairingCode(random);
      if code.Err? {
        return Err;
      }
      var found := MutateExisting(name, WithCode(code.value), io);
      r := if found.Err? then Err else if found.value.Some? then Ok(Some(code.value)) else Ok(None);
    }

    /** RemovePrincipal: the record first, then its refresh tokens and its
        sessions through store objects of its own. A failure stops it there;
        the result tells whether the record existed and whether all went
        through. */
    method RemovePrincipal(name: string, refresh: Entry<RefreshGrant>, sessions: Entry<SessionRecord>,
                           ioRecord: Io, ioRefresh: Io, ioSessions: Io)
        returns (removed: bool, ok: bool)
      requires refresh as object != principals.entry && sessions as object != principals.entry
                && refresh as object != sessions
      modifies principals.entry, refresh, sessions
      ensures var was := Removal(old(principals.Contents()), old(refresh.Contents()), old(sessions.Contents()));
              var (now, existed, through) := Removing(was, name, ioRecord, ioRefresh, ioSessions);
              && principals.Contents() == now.records && refresh.Contents() == now.refresh
              && sessions.Contents() == now.sessions
              && removed == existed && ok == through
    {
      var m := principals.Load(ioRecord);
      if m.Err? {
        return false, false;
      }
      if name in m.value {
        var saved := principals.Save(m.value - {name}, ioRecord);
        if !saved {
          return false, false;
        }
      }
      removed := name in m.value;
      ok := PurgeGrants(name, refresh, sessions, ioRefresh, ioSessions);
    }

    /** The second half: the refresh tokens, then the sessions. */
    method PurgeGrants(
        name: string, refresh: Entry<RefreshGrant>, sessions: Entry<SessionRecord>, ioRefresh: Io, ioSessions: Io)
        returns (ok: bool)
      requires refresh as object != sessions
      modifies refresh, sessions
      ensures var (left, kept, through) := Purging(old(refresh.Contents()), old(sessions.Contents()), name, ioRefresh,
                ioSessions);
              refresh.Contents() == left && sessions.Contents() == kept && ok == through
    {
      var refreshStore := new RefreshStore(refresh);
      ok := refreshStore.RemoveForPrincipal(name, ioRefresh);
      if !ok {
        return;
      }
      var sessionStore := new SessionStore(sessions, 0);
      ok := sessionStore.RemoveForPrincipal(name, ioSessions);
    }

    method GetGrant(name: string, io: Io) returns (r: Result<Option<Grant>>)
      ensures r == if io.GetFails? then Err else Ok(GrantFor(principals.Contents(), name))
    {
      var rec := principals.Get(name, io);
      if rec.Err? {
        return Err;
      }
      r := Ok(if rec.value.Some? then Some(Grant(name, rec.value.value.binding)) else None);
    }

    /** candidates: the shared code first, then the names in sorted order.
        The records are loaded without the lock. */
    method Candidates(random: Option<Draw>, ioCode: Io, ioRecords: Io) returns (r: Result<seq<Candidate>>)
      modifies secret
      ensures secret.value == CodeAfter(old(secret.value), random, ioCode)
      ensures r.Err? <==> CodeOf(old(secret.value), random, ioCode).Err? || ioRecords.GetFails?
      ensures r.Ok? ==> ListsAll(r.value, CodeOf(old(secret.value), random, ioCode).value, principals.Contents())
    {
      var shared := GetCode(random, ioCode);
      if shared.Err? {
        return Err;
      }
      var records := principals.Load(ioRecords);
      if records.Err? {
        return Err;
      }
      var names := SortedNames(records.value.Keys);
      assert forall j :: 0 <= j < |names| ==> names[j] in names;
      var out := [Candidate(shared.value, OPERATOR)];
      var i := 0;
      while i < |names|
        invariant 0 <= i <= |names| && ListsFirst(out, shared.value, records.value, names, i)
        invariant secret.value == CodeAfter(old(secret.value), random, ioCode)
      {
        OneMoreListed(out, shared.value, records.value, names, i);
        out := out + [CandidateFor(records.value, names[i])];
        i := i + 1;
      }
      assert Lists(out, shared.value, records.value, names);
      r := Ok(out);
    }

    /** VerifyPrincipal compares every candidate, without early exit, and
        keeps the first match. */
    method VerifyPrincipal(
        input: string, random: Option<Draw>, ioCode: Io, ioRecords: Io) returns (r: Result<Option<Grant>>)
      modifies secret
      ensures secret.value == CodeAfter(old(secret.value), random, ioCode)
      ensures r.Err? <==> CodeOf(old(secret.value), random, ioCode).Err? || ioRecords.GetFails?
      ensures r.Ok? ==>
                r.value == EstablishedBy(CodeOf(old(secret.value), random, ioCode).value, principals.Contents(), input)
    {
      var candidates := Candidates(random, ioCode, ioRecords);
      if candidates.Err? {
        return Err;
      }
      var got := Normalize(input);
      var matched: Option<Grant> := None;
      var i := 0;
      while i < |candidates.value|
        invariant 0 <= i <= |candidates.value|
        invariant matched == FirstMatch(candidates.value[..i], got)
        invariant secret.value == CodeAfter(old(secret.value), random, ioCode)
      {
        var c := candidates.value[i];
        FirstMatchAppend(candidates.value[..i], c, got);
        assert candidates.value[..i + 1] == candidates.value[..i] + [c];
        if Normalize(c.code) == got && matched.None? {
          matched := Some(c.grant);
        }
        i := i + 1;
      }
      assert candidates.value[..i] == candidates.value;
      FirstMatchEstablishes(candidates.value, CodeOf(old(secret.value), random, ioCode).value, principals.Contents(),
          input);
      r := Ok(matched);
    }
  }

  // ----- the candidate list ----------------------------------------------

  ghost predicate Lists(out: seq<Candidate>, shared: string, m: Records, names: seq<string>) {
    && Ascending(names) && (forall n :: n in names <==> n in m)
    && ListsFirst(out, shared, m, names, |names|)
  }

  /** The operator, then the first i names. */
  ghost predicate ListsFirst(out: seq<Candidate>, shared: string, m: Records, names: seq<string>, i: nat)
    requires i <= |names|
  {
    && |out| == i + 1 && out[0] == Candidate(shared, OPERATOR)
    && forall j :: 0 <= j < i ==> names[j] in m && out[j + 1] == CandidateFor(m, names[j])
  }

  /** One turn of the loop of candidates. */
  lemma {:induction false} OneMoreListed(out: seq<Candidate>, shared: string, m: Records, names: seq<string>, i: nat)
    requires i < |names| && names[i] in m && ListsFirst(out, shared, m, names, i)
    ensures ListsFirst(out + [CandidateFor(m, names[i])], shared, m, names, i + 1)
  {
  }

  function CandidateFor(m: Records, name: string): Candidate
    requires name in m
  {
    Candidate(m[name].code, Grant(name, m[name].binding))
  }

  ghost predicate ListsAll(out: seq<Candidate>, shared: string, m: Records) {
    exists names :: Lists(out, shared, m, names)
  }

  function FirstMatch(cs: seq<Candidate>, got: string): Option<Grant> {
    if cs == [] then None
    else if Normalize(cs[0].code) == got then Some(cs[0].grant)
    else FirstMatch(cs[1..], got)
  }

  lemma {:induction false} FirstMatchAppend(cs: seq<Candidate>, c: Candidate, got: string)
    ensures FirstMatch(cs + [c], got)
         == if FirstMatch(cs, got).Some? then FirstMatch(cs, got)
            else if Normalize(c.code) == got then Some(c.grant) else None
  {
    if cs == [] {
      assert (cs + [c])[1..] == [];
    } else {
      assert (cs + [c])[1..] == cs[1..] + [c];
      FirstMatchAppend(cs[1..], c, got);
    }
  }

  ghost predicate FirstAt(cs: seq<Candidate>, i: nat, got: string) {
    && i < |cs| && Normalize(cs[i].code) == got
    && forall j :: 0 <= j < i ==> Normalize(cs[j].code) != got
  }

  lemma {:induction false} FirstMatchIndex(cs: seq<Candidate>, got: string)
    ensures FirstMatch(cs, got).None? ==> forall i :: 0 <= i < |cs| ==> Normalize(cs[i].code) != got
    ensures FirstMatch(cs, got).Some? ==>
              exists i: nat :: FirstAt(cs, i, got) && FirstMatch(cs, got) == Some(cs[i].grant)
  {
    if cs != [] {
      if Normalize(cs[0].code) == got {
        assert FirstAt(cs, 0, got);
      } else {
        var rest := cs[1..];
        FirstMatchIndex(rest, got);
        assert forall i :: 1 <= i < |cs| ==> cs[i] == rest[i - 1];
        if FirstMatch(rest, got).Some? {
          var i: nat :| FirstAt(rest, i, got) && FirstMatch(rest, got) == Some(rest[i].grant);
          assert FirstAt(cs, i + 1, got);
        }
      }
    }
  }

  /** The first match of the list is the operator, else the least matching
      name: the outcome depends only on what is stored. */
  lemma {:induction false} FirstMatchEstablishes(cs: seq<Candidate>, shared: string, m: Records, input: string)
    requires ListsAll(cs, shared, m)
    ensures FirstMatch(cs, Normalize(input)) == EstablishedBy(shared, m, input)
  {
    var got := Normalize(input);
    var names :| Lists(cs, shared, m, names);
    FirstMatchIndex(cs, got);
    if Normalize(shared) == got {
      assert cs[0].code == shared;
    } else if FirstMatch(cs, got).None? {
      forall n | n in m ensures n !in Matching(m, got) {
        assert n in names;
        var j :| 0 <= j < |names| && names[j] == n;
        assert Normalize(cs[j + 1].code) != got;
      }
    } else {
      var i: nat :| FirstAt(cs, i, got) && FirstMatch(cs, got) == Some(cs[i].grant);
      assert i > 0;
      var n := names[i - 1];
      assert n in names && n in Matching(m, got);
      forall y | y in Matching(m, got) ensures LexLe(n, y) {
        assert y in names;
        var j :| 0 <= j < |names| && names[j] == y;
        assert Normalize(cs[j + 1].code) == got;
        LexTotal(n, n);
      }
      assert IsLeast(n, Matching(m, got));
      var chosen := EstablishedBy(shared, m, input).value.name;
      LeastUnique(n, chosen, Matching(m, got));
    }
  }

  // ----- distinct codes --------------------------------------------------

  /** Every acceptable code was printed from one of the given draws, and no
      two acceptable codes normalise alike. */
  ghost predicate CodesDistinct(shared: Option<string>, m: Records) {
    && (forall n, k :: n in m && k in m && n != k ==> Normalize(m[n].code) != Normalize(m[k].code))
    && (shared.Some? ==> forall n :: n in m ==> Normalize(m[n].code) != Normalize(shared.value))
  }

  /** With distinct codes each one, however typed, establishes its own
      identity, and the order of the candidates does not matter. */
  lemma {:induction false} EachCodeItsOwnGrant(shared: string, m: Records, input: string)
    requires CodesDistinct(Some(shared), m)
    ensures Normalize(input) == Normalize(shared) ==> EstablishedBy(shared, m, input) == Some(OPERATOR)
    ensures forall n :: n in m && Normalize(input) == Normalize(m[n].code)
                        ==> EstablishedBy(shared, m, input) == Some(Grant(n, m[n].binding))
    ensures EstablishedBy(shared, m, input).None? <==>
              Normalize(input) != Normalize(shared) && forall n :: n in m ==> Normalize(m[n].code) != Normalize(input)
  {
    var got := Normalize(input);
    forall n | n in m && got == Normalize(m[n].code)
      ensures EstablishedBy(shared, m, input) == Some(Grant(n, m[n].binding))
    {
      assert n in Matching(m, got);
      assert Matching(m, got) == {n};
    }
    if EstablishedBy(shared, m, input).None? {
      forall n | n in m ensures Normalize(m[n].code) != got {
        assert n !in Matching(m, got);
      }
    }
  }

  // ----- merging ---------------------------------------------------------

  /** The records after a merge that went through. */
  function Merged(m: Records, name: string, patch: Binding): Records {
    if name in m then m[name := m[name].(binding := m[name].binding + patch)] else m
  }

  lemma {:induction false} MergedIsMutated(m: Records, name: string, patch: Binding)
    ensures Merged(m, name, patch) == Mutated(m, Editing(name, Merging(patch)), Works)
  {
  }

  lemma {:induction false} OverlaysCommute(c: Binding, a: Binding, b: Binding)
    ensures (c + a) + b == (c + b) + a <==> forall k :: k in a && k in b ==> a[k] == b[k]
  {
    var ab, ba := (c + a) + b, (c + b) + a;
    if forall k :: k in a && k in b ==> a[k] == b[k] {
      assert ab.Keys == ba.Keys;
      assert forall k :: k in ab ==> ab[k] == ba[k];
    }
    if ab == ba {
      forall k | k in a && k in b ensures a[k] == b[k] {
        assert ab[k] == b[k] && ba[k] == a[k];
      }
    }
  }

  /** Merging twice changes nothing, and two merges into an existing record
      commute exactly when they agree on the keys they share: tools that write
      keys of their own cannot clobber each other. */
  lemma {:induction false} MergesCommute(m: Records, name: string, a: Binding, b: Binding)
    ensures Merged(Merged(m, name, a), name, b) == Merged(Merged(m, name, b), name, a)
            <==> name !in m || forall k :: k in a && k in b ==> a[k] == b[k]
    ensures Merged(Merged(m, name, a), name, a) == Merged(m, name, a)
  {
    if name in m {
      var c := m[name].binding;
      OverlaysCommute(c, a, b);
      assert Merged(Merged(m, name, a), name, b)[name].binding == (c + a) + b;
      assert Merged(Merged(m, name, b), name, a)[name].binding == (c + b) + a;
      assert (c + a) + a == c + a;
    }
  }
}
