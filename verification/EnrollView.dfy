/** enroll_view.go: the two mirrored halves of the enrollment form, rendering
    the inputs and collecting what was posted. */
module EnrollView {
  import opened Text
  import opened Enrollment
  import opened AuthorizeForm

  type Values = map<string, string>

  datatype FieldView = FieldView(name: string, caption: string, help: string, snippet: string, value: string,
      secret: bool, optional: bool)
  datatype ModeView = ModeView(key: string, caption: string, selected: bool, fields: seq<FieldView>)

  const FIELD_PREFIX := "field_"

  function FieldInputName(modeKey: string, fieldKey: string): string {
    FIELD_PREFIX + modeKey + "_" + fieldKey
  }

  // ----- rendering -------------------------------------------------------

  function ViewOfField(modeKey: string, f: Field, values: Values): FieldView {
    FieldView(FieldInputName(modeKey, f.key), f.caption, f.help, f.snippet,
              if f.secret then "" else Lookup(values, f.key), f.secret, f.optional)
  }

  function ViewOfMode(m: Mode, selected: string, values: Values): ModeView {
    ModeView(m.key, m.caption, m.key == selected,
             seq(|m.fields|, j requires 0 <= j < |m.fields| => ViewOfField(m.key, m.fields[j], values)))
  }

  function ModeViews(d: Descriptor, selected: string, values: Values): seq<ModeView> {
    seq(|d.modes|, i requires 0 <= i < |d.modes| => ViewOfMode(d.modes[i], selected, values))
  }

  /** enrollModeViews builds the views in two nested loops. */
  method EnrollModeViews(d: Descriptor, selected: string, values: Values) returns (modes: seq<ModeView>)
    ensures modes == ModeViews(d, selected, values)
  {
    modes := [];
    var i := 0;
    while i < |d.modes|
      invariant 0 <= i <= |d.modes|
      invariant |modes| == i && forall k :: 0 <= k < i ==> modes[k] == ViewOfMode(d.modes[k], selected, values)
    {
      var m := d.modes[i];
      var fields: seq<FieldView> := [];
      var j := 0;
      while j < |m.fields|
        invariant 0 <= j <= |m.fields|
        invariant |fields| == j && forall k :: 0 <= k < j ==> fields[k] == ViewOfField(m.key, m.fields[k], values)
      {
        var f := m.fields[j];
        var fv := FieldView(FieldInputName(m.key, f.key), f.caption, f.help, f.snippet, "", f.secret, f.optional);
        if !f.secret {
          fv := fv.(value := Lookup(values, f.key));
        }
        fields := fields + [fv];
        j := j + 1;
      }
      assert fields == ViewOfMode(m, selected, values).fields;
      modes := modes + [ModeView(m.key, m.caption, m.key == selected, fields)];
      i := i + 1;
    }
  }

  // ----- collecting ------------------------------------------------------

  function Submitted(modeKey: string, f: Field, get: string -> string): string {
    TrimSpace(get(FieldInputName(modeKey, f.key)))
  }

  /** Every submitted value by field key. */
  function AllValues(modeKey: string, fields: seq<Field>, get: string -> string): Values {
    if fields == [] then map[]
    else
      var f := fields[|fields| - 1];
      AllValues(modeKey, fields[..|fields| - 1], get)[f.key := Submitted(modeKey, f, get)]
  }

  /** The part that may be shown again. */
  function NonSecret(modeKey: string, fields: seq<Field>, get: string -> string): Values {
    if fields == [] then map[]
    else
      var f := fields[|fields| - 1];
      var rest := NonSecret(modeKey, fields[..|fields| - 1], get);
      if f.secret then rest else rest[f.key := Submitted(modeKey, f, get)]
  }

  /** Both maps read as one expects: a key holds the submitted value of the
      fields with that key. */
  lemma {:induction false} ValuesExactly(modeKey: string, fields: seq<Field>, get: string -> string, key: string)
    ensures key in AllValues(modeKey, fields, get) <==> exists j :: 0 <= j < |fields| && fields[j].key == key
    ensures key in AllValues(modeKey, fields, get)
            ==> AllValues(modeKey, fields, get)[key] == TrimSpace(get(FieldInputName(modeKey, key)))
    ensures key in NonSecret(modeKey, fields, get) <==>
              exists j :: 0 <= j < |fields| && fields[j].key == key && !fields[j].secret
    ensures key in NonSecret(modeKey, fields, get)
            ==> NonSecret(modeKey, fields, get)[key] == TrimSpace(get(FieldInputName(modeKey, key)))
  {
    if fields != [] {
      var rest := fields[..|fields| - 1];
      ValuesExactly(modeKey, rest, get, key);
      assert forall j :: 0 <= j < |rest| ==> rest[j] == fields[j];
    }
  }

  predicate Missing(modeKey: string, f: Field, get: string -> string) {
    Submitted(modeKey, f, get) == "" && !f.optional
  }

  /** The labels of the required fields left blank, in order. */
  function MissingLabels(modeKey: string, fields: seq<Field>, get: string -> string): seq<string> {
    if fields == [] then []
    else (if Missing(modeKey, fields[0], get) then [fields[0].caption] else [])
         + MissingLabels(modeKey, fields[1..], get)
  }

  /** collectModeFields, one loop over the mode's fields. */
  method CollectModeFields(mode: Mode, get: string -> string)
      returns (values: Values, nonSecret: Values, missing: seq<string>)
    ensures values == AllValues(mode.key, mode.fields, get)
    ensures nonSecret == NonSecret(mode.key, mode.fields, get)
    ensures missing == MissingLabels(mode.key, mode.fields, get)
  {
    values, nonSecret, missing := map[], map[], [];
    var i := 0;
    while i < |mode.fields|
      invariant 0 <= i <= |mode.fields|
      invariant values == AllValues(mode.key, mode.fields[..i], get)
      invariant nonSecret == NonSecret(mode.key, mode.fields[..i], get)
      invariant missing == MissingLabels(mode.key, mode.fields[..i], get)
    {
      var f := mode.fields[i];
      var v := Submitted(mode.key, f, get);
      assert mode.fields[..i + 1] == mode.fields[..i] + [f];
      OneMoreLabel(mode.key, mode.fields[..i], f, get);
      values := values[f.key := v];
      if !f.secret {
        nonSecret := nonSecret[f.key := v];
      }
      if v == "" && !f.optional {
        missing := missing + [f.caption];
      }
      i := i + 1;
    }
    assert mode.fields[..i] == mode.fields;
  }

  lemma {:induction false} OneMoreLabel(modeKey: string, fields: seq<Field>, f: Field, get: string -> string)
    ensures MissingLabels(modeKey, fields + [f], get)
         == MissingLabels(modeKey, fields, get) + if Missing(modeKey, f, get) then [f.caption] else []
  {
    if fields == [] {
      assert (fields + [f])[1..] == [];
    } else {
      assert (fields + [f])[1..] == fields[1..] + [f];
      OneMoreLabel(modeKey, fields[1..], f, get);
    }
  }

  // ----- input names -----------------------------------------------------

  /** One (mode, field) pair reads as another: the longer mode key swallows
      the start of the shorter pair's field key across an underscore. */
  ghost predicate Swallows(longMode: string, field: string, mode: string, longField: string) {
    exists x :: longMode == mode + "_" + x && longField == x + "_" + field
  }

  /** Two pairs share an input name exactly when they are the same pair or one
      swallows the other. */
  lemma {:induction false} CollisionExactly(m1: string, f1: string, m2: string, f2: string)
    ensures FieldInputName(m1, f1) == FieldInputName(m2, f2)
            <==> (m1 == m2 && f1 == f2) || Swallows(m1, f1, m2, f2) || Swallows(m2, f2, m1, f1)
  {
    var n1, n2 := FieldInputName(m1, f1), FieldInputName(m2, f2);
    if n1 == n2 {
      if |m1| <= |m2| { CollisionSplits(m1, f1, m2, f2); } else { CollisionSplits(m2, f2, m1, f1); }
    }
    if Swallows(m1, f1, m2, f2) {
      var x :| m1 == m2 + "_" + x && f2 == x + "_" + f1;
      assert n1 == FIELD_PREFIX + m2 + "_" + x + "_" + f1 == n2;
    }
    if Swallows(m2, f2, m1, f1) {
      var x :| m2 == m1 + "_" + x && f1 == x + "_" + f2;
      assert n2 == FIELD_PREFIX + m1 + "_" + x + "_" + f2 == n1;
    }
  }

  lemma {:induction false} CollisionSplits(m1: string, f1: string, m2: string, f2: string)
    requires FieldInputName(m1, f1) == FieldInputName(m2, f2) && |m1| <= |m2|
    ensures (m1 == m2 && f1 == f2) || Swallows(m2, f2, m1, f1)
  {
    var n := FieldInputName(m1, f1);
    assert n[6..] == m1 + "_" + f1 == m2 + "_" + f2;
    var t := n[6..];
    assert t[..|m1|] == m1 && t[..|m2|] == m2 && t[|m1| + 1..] == f1 && t[|m2| + 1..] == f2;
    if |m1| < |m2| {
      assert m2[|m1|] == t[|m1|] == '_';
      var x := m2[|m1| + 1..];
      assert m2 == m1 + "_" + x;
      assert f1 == x + "_" + f2;
    }
  }

  predicate NoUnderscore(s: string) { '_' !in s }

  /** All input names over all modes are distinct. */
  ghost predicate NamesDistinct(d: Descriptor) {
    forall i, j, k, l | 0 <= i < |d.modes| && 0 <= j < |d.modes[i].fields|
                     && 0 <= k < |d.modes| && 0 <= l < |d.modes[k].fields| && (i, j) != (k, l) ::
      FieldInputName(d.modes[i].key, d.modes[i].fields[j].key)
      != FieldInputName(d.modes[k].key, d.modes[k].fields[l].key)
  }

  /** No field of one mode is swallowed by another mode's key. */
  ghost predicate NothingSwallowed(d: Descriptor) {
    forall i, j, k, l | 0 <= i < |d.modes| && 0 <= j < |d.modes[i].fields|
                     && 0 <= k < |d.modes| && 0 <= l < |d.modes[k].fields| ::
      !Swallows(d.modes[i].key, d.modes[i].fields[j].key, d.modes[k].key, d.modes[k].fields[l].key)
  }

  /** For a validated descriptor the names are distinct exactly when nothing
      is swallowed; mode keys without underscores are enough. */
  lemma {:induction false} NamesDistinctExactly(d: Descriptor)
    requires WellFormed(d)
    ensures NamesDistinct(d) <==> NothingSwallowed(d)
    ensures (forall i :: 0 <= i < |d.modes| ==> NoUnderscore(d.modes[i].key)) ==> NamesDistinct(d)
  {
    forall i, j, k, l | 0 <= i < |d.modes| && 0 <= j < |d.modes[i].fields|
                     && 0 <= k < |d.modes| && 0 <= l < |d.modes[k].fields|
      ensures FieldInputName(d.modes[i].key, d.modes[i].fields[j].key)
           == FieldInputName(d.modes[k].key, d.modes[k].fields[l].key)
           <==> (i == k && j == l)
                || Swallows(d.modes[i].key, d.modes[i].fields[j].key, d.modes[k].key, d.modes[k].fields[l].key)
                || Swallows(d.modes[k].key, d.modes[k].fields[l].key, d.modes[i].key, d.modes[i].fields[j].key)
      ensures Swallows(d.modes[i].key, d.modes[i].fields[j].key, d.modes[k].key, d.modes[k].fields[l].key)
              ==> (i, j) != (k, l) && !NoUnderscore(d.modes[i].key)
    {
      var m1, f1 := d.modes[i].key, d.modes[i].fields[j].key;
      var m2, f2 := d.modes[k].key, d.modes[k].fields[l].key;
      CollisionExactly(m1, f1, m2, f2);
      if m1 == m2 && f1 == f2 {
        assert i == k;
        assert j == l;
      }
      if Swallows(m1, f1, m2, f2) {
        var x :| m1 == m2 + "_" + x && f2 == x + "_" + f1;
        assert m1[|m2|] == '_';
      }
    }
  }

  /** A validated descriptor whose names do collide: the condition on mode
      keys is needed. */
  lemma {:induction false} UnderscoresCollide()
    ensures exists d :: WellFormed(d) && !NamesDistinct(d)
  {
    var f1 := Field("b_c", "", "", "", false, false);
    var f2 := Field("c", "", "", "", false, false);
    var d := Descriptor("", "", [Mode("a", "", [f1]), Mode("a_b", "", [f2])]);
    assert WellFormed(d);
    assert "a" + "_" + "b_c" == "a_b" + "_" + "c";
    assert FieldInputName("a", "b_c") == FIELD_PREFIX + ("a" + "_" + "b_c");
    assert FieldInputName("a_b", "c") == FIELD_PREFIX + ("a_b" + "_" + "c");
    assert d.modes[0].key == "a" && d.modes[0].fields[0].key == "b_c";
    assert d.modes[1].key == "a_b" && d.modes[1].fields[0].key == "c";
    assert (0, 0) != (1, 0);
  }

  // ----- render, fill in, post, collect ----------------------------------

  function PostedFields(fields: seq<FieldView>): Form {
    seq(|fields|, j requires 0 <= j < |fields| => (fields[j].name, fields[j].value))
  }

  /** Everything a browser posts for the rendered modes, in document order. */
  function PostedModes(modes: seq<ModeView>): Form {
    if modes == [] then [] else PostedFields(modes[0].fields) + PostedModes(modes[1..])
  }

  /** The rendered form of d after the person filled it in: the same inputs,
      any values. */
  ghost predicate SameInputs(d: Descriptor, modes: seq<ModeView>) {
    && |modes| == |d.modes|
    && forall i :: 0 <= i < |modes| ==>
         && |modes[i].fields| == |d.modes[i].fields|
         && forall j :: 0 <= j < |modes[i].fields| ==>
              modes[i].fields[j].name == FieldInputName(d.modes[i].key, d.modes[i].fields[j].key)
  }

  lemma {:induction false} FieldReadBack(fields: seq<FieldView>, j: nat)
    requires j < |fields|
    requires forall l :: 0 <= l < j ==> fields[l].name != fields[j].name
    ensures FormGet(PostedFields(fields), fields[j].name) == fields[j].value
    ensures Names(PostedFields(fields), fields[j].name)
  {
    var form := PostedFields(fields);
    assert form[j].0 == fields[j].name;
    if j > 0 {
      assert form[1..] == PostedFields(fields[1..]);
      assert forall l :: 0 <= l < j - 1 ==> fields[1..][l] == fields[l + 1];
      FieldReadBack(fields[1..], j - 1);
    }
  }

  lemma {:induction false} ModeReadBack(modes: seq<ModeView>, i: nat, j: nat)
    requires i < |modes| && j < |modes[i].fields|
    requires forall k, l :: 0 <= k < |modes| && 0 <= l < |modes[k].fields| && (k, l) != (i, j)
                            ==> modes[k].fields[l].name != modes[i].fields[j].name
    ensures FormGet(PostedModes(modes), modes[i].fields[j].name) == modes[i].fields[j].value
  {
    var name := modes[i].fields[j].name;
    var head, rest := PostedFields(modes[0].fields), modes[1..];
    FormGetAppend(head, PostedModes(rest), name);
    if i == 0 {
      assert forall l :: 0 <= l < j ==> (0, l) != (i, j);
      FieldReadBack(modes[0].fields, j);
    } else {
      assert forall n :: 0 <= n < |head| ==> head[n].0 == modes[0].fields[n].name && (0, n) != (i, j);
      forall k, l | 0 <= k < |rest| && 0 <= l < |rest[k].fields| && (k, l) != (i - 1, j)
        ensures rest[k].fields[l].name != rest[i - 1].fields[j].name
      {
        assert rest[k] == modes[k + 1] && (k + 1, l) != (i, j);
      }
      ModeReadBack(rest, i - 1, j);
    }
  }

  /** What the collector gets for field f of mode m when the person typed
      the given text: the trimmed text, kept for re-display only when the
      field is not secret, and missing only when blank and required. */
  ghost predicate CollectedAs(m: Mode, f: Field, get: string -> string, typed: string) {
    && f.key in AllValues(m.key, m.fields, get)
    && AllValues(m.key, m.fields, get)[f.key] == TrimSpace(typed)
    && (f.key in NonSecret(m.key, m.fields, get) <==> !f.secret)
    && (!f.secret ==> NonSecret(m.key, m.fields, get)[f.key] == TrimSpace(typed))
    && (Missing(m.key, f, get) <==> TrimSpace(typed) == "" && !f.optional)
  }

  /** Rendering and collecting are inverse: for a descriptor with distinct
      names, whatever the person typed into the rendered form comes back
      under the right field key of the right mode. */
  lemma {:induction false} CollectReadsBack(d: Descriptor, modes: seq<ModeView>, i: nat, j: nat)
    requires WellFormed(d) && NamesDistinct(d) && SameInputs(d, modes)
    requires i < |modes| && j < |modes[i].fields|
    ensures CollectedAs(d.modes[i], d.modes[i].fields[j], Reading(PostedModes(modes)), modes[i].fields[j].value)
  {
    var m, f := d.modes[i], d.modes[i].fields[j];
    forall k, l | 0 <= k < |modes| && 0 <= l < |modes[k].fields| && (k, l) != (i, j)
      ensures modes[k].fields[l].name != modes[i].fields[j].name
    {
      assert modes[k].fields[l].name == FieldInputName(d.modes[k].key, d.modes[k].fields[l].key);
    }
    ModeReadBack(modes, i, j);
    assert f in m.fields;
    var get := Reading(PostedModes(modes));
    ValuesExactly(m.key, m.fields, get, f.key);
  }

  /** Posting the untouched page back: non-secret values return trimmed,
      secret inputs return blank. */
  lemma {:induction false} RenderedReadsBack(d: Descriptor, selected: string, shown: Values, i: nat, j: nat)
    requires WellFormed(d) && NamesDistinct(d)
    requires i < |d.modes| && j < |d.modes[i].fields|
    ensures CollectedAs(d.modes[i], d.modes[i].fields[j], Reading(PostedModes(ModeViews(d, selected, shown))),
                        if d.modes[i].fields[j].secret then "" else Lookup(shown, d.modes[i].fields[j].key))
  {
    var modes := ModeViews(d, selected, shown);
    assert SameInputs(d, modes);
    CollectReadsBack(d, modes, i, j);
  }

  /** The missing list names exactly the missing fields, in order. */
  lemma {:induction false} MissingLabelsExactly(modeKey: string, fields: seq<Field>, get: string -> string)
    ensures forall s :: s in MissingLabels(modeKey, fields, get)
                        <==> exists j :: 0 <= j < |fields| && Missing(modeKey, fields[j], get) && fields[j].caption == s
    ensures MissingLabels(modeKey, fields, get) == [] <==> forall j :: 0 <= j < |fields| ==>
              !Missing(modeKey, fields[j], get)
  {
    if fields != [] {
      var rest := fields[1..];
      MissingLabelsExactly(modeKey, rest, get);
      assert forall j :: 0 <= j < |rest| ==> rest[j] == fields[j + 1];
      forall s
        ensures s in MissingLabels(modeKey, fields, get)
                <==> exists j :: 0 <= j < |fields| && Missing(modeKey, fields[j], get) && fields[j].caption == s
      {
        if s in MissingLabels(modeKey, rest, get) {
          var j :| 0 <= j < |rest| && Missing(modeKey, rest[j], get) && rest[j].caption == s;
          assert fields[j + 1] == rest[j];
        }
        if j :| 0 <= j < |fields| && Missing(modeKey, fields[j], get) && fields[j].caption == s {
          if j > 0 { assert rest[j - 1] == fields[j]; }
        }
      }
      if MissingLabels(modeKey, fields, get) == [] {
        forall j | 0 <= j < |fields| ensures !Missing(modeKey, fields[j], get) {
          if j > 0 { assert !Missing(modeKey, rest[j - 1], get); }
        }
      } else if Missing(modeKey, fields[0], get) {
      } else {
        assert MissingLabels(modeKey, rest, get) != [];
        var j :| 0 <= j < |rest| && Missing(modeKey, rest[j], get);
        assert fields[j + 1] == rest[j];
      }
    }
  }

  // ----- secrets ---------------------------------------------------------

  /** Two submissions of one mode that agree on every non-secret input and on
      which required secrets are blank. */
  ghost predicate SameButSecrets(m: Mode, a: string -> string, b: string -> string) {
    forall j :: 0 <= j < |m.fields| ==>
      var f := m.fields[j];
      if f.secret then Missing(m.key, f, a) <==> Missing(m.key, f, b)
      else a(FieldInputName(m.key, f.key)) == b(FieldInputName(m.key, f.key))
  }

  lemma {:induction false} SameMissing(modeKey: string, fields: seq<Field>, a: string -> string, b: string -> string)
    requires forall j :: 0 <= j < |fields| ==> (Missing(modeKey, fields[j], a) <==> Missing(modeKey, fields[j], b))
    ensures MissingLabels(modeKey, fields, a) == MissingLabels(modeKey, fields, b)
  {
    if fields != [] {
      assert forall j :: 0 <= j < |fields[1..]| ==> fields[1..][j] == fields[j + 1];
      SameMissing(modeKey, fields[1..], a, b);
    }
  }

  lemma {:induction false} SameNonSecret(modeKey: string, fields: seq<Field>, a: string -> string, b: string -> string)
    requires forall j :: 0 <= j < |fields| && !fields[j].secret
                         ==> Submitted(modeKey, fields[j], a) == Submitted(modeKey, fields[j], b)
    ensures NonSecret(modeKey, fields, a) == NonSecret(modeKey, fields, b)
  {
    if fields != [] {
      SameNonSecret(modeKey, fields[..|fields| - 1], a, b);
    }
  }

  /** What is shown again, and what is reported missing, does not depend on
      the secret values. */
  lemma {:induction false} SecretsStayHidden(m: Mode, a: string -> string, b: string -> string)
    requires SameButSecrets(m, a, b)
    ensures NonSecret(m.key, m.fields, a) == NonSecret(m.key, m.fields, b)
    ensures MissingLabels(m.key, m.fields, a) == MissingLabels(m.key, m.fields, b)
  {
    SameNonSecret(m.key, m.fields, a, b);
    SameMissing(m.key, m.fields, a, b);
  }
}
