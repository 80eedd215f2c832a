/** authparams.go and authorize_step.go: the authorization request, the hidden
    inputs it travels in, and the decoder of the flow's state. */
module AuthorizeForm {
  import opened Text

  // ----- posted forms ----------------------------------------------------

  /** A posted form: names and values in document order. */
  type Form = seq<(string, string)>

  /** url.Values.Get: the first value posted under a name, or nothing. */
  function FormGet(form: Form, name: string): string {
    if form == [] then ""
    else if form[0].0 == name then form[0].1
    else FormGet(form[1..], name)
  }

  predicate Names(form: Form, name: string) {
    exists i :: 0 <= i < |form| && form[i].0 == name
  }

  lemma {:induction false} FormGetAppend(a: Form, b: Form, name: string)
    ensures FormGet(a + b, name) == if Names(a, name) then FormGet(a, name) else FormGet(b, name)
    ensures !Names(a, name) ==> FormGet(a, name) == ""
  {
    if a == [] {
      assert a + b == b;
    } else {
      assert (a + b)[0] == a[0] && (a + b)[1..] == a[1..] + b;
      FormGetAppend(a[1..], b, name);
      if Names(a[1..], name) {
        var i :| 0 <= i < |a[1..]| && a[1..][i].0 == name;
        assert a[i + 1].0 == name;
      }
      if Names(a, name) && a[0].0 != name {
        var i :| 0 <= i < |a| && a[i].0 == name;
        assert a[1..][i - 1].0 == name;
      }
    }
  }

  /** The reading side of a posted form. */
  function Reading(form: Form): string -> string {
    name => FormGet(form, name)
  }

  type Hidden = map<string, string>

  function Lookup(hidden: Hidden, name: string): string {
    if name in hidden then hidden[name] else ""
  }

  /** What the server reads from a page the person filled in: the visible
      inputs come first in the document, the hidden ones last. */
  function Posted(inputs: Form, hidden: Hidden): string -> string {
    name => if Names(inputs, name) then FormGet(inputs, name) else Lookup(hidden, name)
  }

  /** The template ranges over the hidden inputs in key order. */
  method RenderHidden(inputs: Form, hidden: Hidden) returns (form: Form)
    ensures forall name :: FormGet(form, name) == Posted(inputs, hidden)(name)
  {
    var keys := SortedNames(hidden.Keys);
    var pairs: Form := [];
    var i := 0;
    while i < |keys|
      invariant 0 <= i <= |keys|
      invariant |pairs| == i && forall j :: 0 <= j < i ==> pairs[j] == (keys[j], hidden[keys[j]])
    {
      assert keys[i] in keys;
      pairs := pairs + [(keys[i], hidden[keys[i]])];
      i := i + 1;
    }
    form := inputs + pairs;
    forall name ensures FormGet(form, name) == Posted(inputs, hidden)(name) {
      ReadsPairs(inputs, pairs, hidden, keys, name);
    }
  }

  lemma {:induction false} ReadsPairs(inputs: Form, pairs: Form, hidden: Hidden, keys: seq<string>, name: string)
    requires forall k :: k in keys <==> k in hidden
    requires |pairs| == |keys| && forall j :: 0 <= j < |pairs| ==>
              keys[j] in hidden && pairs[j] == (keys[j], hidden[keys[j]])
    ensures FormGet(inputs + pairs, name) == Posted(inputs, hidden)(name)
  {
    FormGetAppend(inputs, pairs, name);
    ReadsBack(pairs, hidden, name);
    if name in hidden {
      assert name in keys;
      var j :| 0 <= j < |keys| && keys[j] == name;
      assert pairs[j].0 == name;
    } else {
      FormGetAppend(pairs, [], name);
      assert pairs + [] == pairs;
    }
  }

  lemma {:induction false} ReadsBack(pairs: Form, hidden: Hidden, name: string)
    requires forall j :: 0 <= j < |pairs| ==> pairs[j].0 in hidden && pairs[j].1 == hidden[pairs[j].0]
    ensures Names(pairs, name) ==> name in hidden && FormGet(pairs, name) == hidden[name]
  {
    if pairs != [] && pairs[0].0 != name {
      ReadsBack(pairs[1..], hidden, name);
      if Names(pairs, name) {
        var i :| 0 <= i < |pairs| && pairs[i].0 == name;
        assert pairs[1..][i - 1].0 == name;
      }
    }
  }

  // ----- the authorization request ---------------------------------------

  datatype AuthParams = AuthParams(
    clientID: string,
    redirectURI: string,
    state: string,
    scope: string,
    resource: string,
    codeChallenge: string,
    codeChallengeMethod: string,
    responseType: string)

  function Parse(get: string -> string): AuthParams {
    AuthParams(
      get("client_id"),
      get("redirect_uri"),
      get("state"),
      get("scope"),
      get("resource"),
      get("code_challenge"),
      get("code_challenge_method"),
      get("response_type"))
  }

  function HiddenFields(p: AuthParams): Hidden {
    map[
      "client_id" := p.clientID,
      "redirect_uri" := p.redirectURI,
      "response_type" := p.responseType,
      "code_challenge" := p.codeChallenge,
      "code_challenge_method" := p.codeChallengeMethod,
      "state" := p.state,
      "scope" := p.scope,
      "resource" := p.resource
    ]
  }

  function HiddenFieldsWithCode(p: AuthParams, pairingCode: string): Hidden {
    HiddenFields(p)["pairing_code" := pairingCode]
  }

  /** hidden carries the request p, whatever else it holds. */
  ghost predicate Carries(hidden: Hidden, p: AuthParams) {
    forall name :: name in HiddenFields(p) ==> name in hidden && hidden[name] == HiddenFields(p)[name]
  }

  lemma {:induction false} HiddenFieldsHold(p: AuthParams)
    ensures var h := HiddenFields(p);
            && "client_id" in h && h["client_id"] == p.clientID
            && "redirect_uri" in h && h["redirect_uri"] == p.redirectURI
            && "response_type" in h && h["response_type"] == p.responseType
            && "code_challenge" in h && h["code_challenge"] == p.codeChallenge
            && "code_challenge_method" in h && h["code_challenge_method"] == p.codeChallengeMethod
            && "state" in h && h["state"] == p.state
            && "scope" in h && h["scope"] == p.scope
            && "resource" in h && h["resource"] == p.resource
  {
  }

  /** The request survives any page that carries it, whatever else the page
      hides and whatever the person fills in under other names. */
  lemma {:induction false} RequestRoundTrip(p: AuthParams, hidden: Hidden, inputs: Form)
    requires Carries(hidden, p)
    requires forall name :: name in HiddenFields(p) ==> !Names(inputs, name)
    ensures Parse(Posted(inputs, hidden)) == p
  {
    HiddenFieldsHold(p);
  }

  // ----- the state decoder -----------------------------------------------

  datatype Step = InitialApproval | EnrollFields | EnrollChoice | BindingChoice

  function Classify(get: string -> string): Step {
    if get("enroll") == "1" && get("enroll_choice_round") == "1" then EnrollChoice
    else if get("enroll") == "1" then EnrollFields
    else if get("choose") == "1" then BindingChoice
    else InitialApproval
  }
}
