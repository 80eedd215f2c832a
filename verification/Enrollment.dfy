/** enrollment.go: the descriptor an enrollment form is rendered from, its
    validation and the lookup of a mode. */
module Enrollment {
  import opened Wrappers

  datatype Field = Field(key: string, caption: string, help: string, snippet: string, secret: bool, optional: bool)
  datatype Mode = Mode(key: string, caption: string, fields: seq<Field>)
  datatype Descriptor = Descriptor(title: string, intro: string, modes: seq<Mode>)

  /** Why Validate refuses a descriptor. */
  datatype Problem =
    | NoCallback
    | NoModes
    | EmptyModeKey
    | DuplicateModeKey(mode: string)
    | NoFields(mode: string)
    | EmptyFieldKey(mode: string)
    | DuplicateFieldKey(mode: string, field: string)

  /** The first defect of a field list, given the keys seen before it. */
  function FieldProblem(mode: string, fields: seq<Field>, seen: set<string>): Option<Problem> {
    if fields == [] then None
    else if fields[0].key == "" then Some(EmptyFieldKey(mode))
    else if fields[0].key in seen then Some(DuplicateFieldKey(mode, fields[0].key))
    else FieldProblem(mode, fields[1..], seen + {fields[0].key})
  }

  function ModeProblem(modes: seq<Mode>, seen: set<string>): Option<Problem> {
    if modes == [] then None
    else
      var m := modes[0];
      if m.key == "" then Some(EmptyModeKey)
      else if m.key in seen then Some(DuplicateModeKey(m.key))
      else if m.fields == [] then Some(NoFields(m.key))
      else
        var p := FieldProblem(m.key, m.fields, {});
        if p.Some? then p else ModeProblem(modes[1..], seen + {m.key})
  }

  /** The first defect in reading order. */
  function FirstProblem(hasCallback: bool, d: Descriptor): Option<Problem> {
    if !hasCallback then Some(NoCallback)
    else if d.modes == [] then Some(NoModes)
    else ModeProblem(d.modes, {})
  }

  /** Enrollment.Validate, with its two seen-key sets. */
  method Validate(hasCallback: bool, d: Descriptor) returns (r: Option<Problem>)
    ensures r == FirstProblem(hasCallback, d)
  {
    if !hasCallback { return Some(NoCallback); }
    if |d.modes| == 0 { return Some(NoModes); }
    var modeKeys: set<string> := {};
    var i := 0;
    while i < |d.modes|
      invariant 0 <= i <= |d.modes|
      invariant ModeProblem(d.modes[i..], modeKeys) == ModeProblem(d.modes, {})
    {
      var m := d.modes[i];
      assert d.modes[i..][0] == m && d.modes[i..][1..] == d.modes[i + 1..];
      if m.key == "" { return Some(EmptyModeKey); }
      if m.key in modeKeys { return Some(DuplicateModeKey(m.key)); }
      modeKeys := modeKeys + {m.key};
      if |m.fields| == 0 { return Some(NoFields(m.key)); }
      var fieldKeys: set<string> := {};
      var j := 0;
      while j < |m.fields|
        invariant 0 <= j <= |m.fields|
        invariant FieldProblem(m.key, m.fields[j..], fieldKeys) == FieldProblem(m.key, m.fields, {})
      {
        var f := m.fields[j];
        assert m.fields[j..][0] == f && m.fields[j..][1..] == m.fields[j + 1..];
        if f.key == "" { return Some(EmptyFieldKey(m.key)); }
        if f.key in fieldKeys { return Some(DuplicateFieldKey(m.key, f.key)); }
        fieldKeys := fieldKeys + {f.key};
        j := j + 1;
      }
      i := i + 1;
    }
    r := None;
  }

  predicate FieldsWellFormed(fields: seq<Field>) {
    && (forall j :: 0 <= j < |fields| ==> fields[j].key != "")
    && (forall j, k :: 0 <= j < k < |fields| ==> fields[j].key != fields[k].key)
  }

  /** A renderable descriptor: at least one mode, non-empty unique mode keys,
      and in each mode at least one field with non-empty unique keys. */
  predicate WellFormed(d: Descriptor) {
    && d.modes != []
    && (forall i :: 0 <= i < |d.modes| ==> d.modes[i].key != "")
    && (forall i, k :: 0 <= i < k < |d.modes| ==> d.modes[i].key != d.modes[k].key)
    && (forall i :: 0 <= i < |d.modes| ==> d.modes[i].fields != [] && FieldsWellFormed(d.modes[i].fields))
  }

  lemma {:induction false} FieldProblemExactly(mode: string, fields: seq<Field>, seen: set<string>)
    ensures FieldProblem(mode, fields, seen).None?
            <==> FieldsWellFormed(fields) && forall j :: 0 <= j < |fields| ==> fields[j].key !in seen
  {
    if fields != [] {
      var rest := fields[1..];
      FieldProblemExactly(mode, rest, seen + {fields[0].key});
      assert forall j :: 0 <= j < |rest| ==> rest[j] == fields[j + 1];
      if FieldProblem(mode, fields, seen).None? {
        forall j | 0 <= j < |fields| ensures fields[j].key != "" && fields[j].key !in seen {
          if j > 0 { assert rest[j - 1].key !in seen + {fields[0].key}; }
        }
        forall j, k | 0 <= j < k < |fields| ensures fields[j].key != fields[k].key {
          assert rest[k - 1].key !in seen + {fields[0].key};
          if j > 0 { assert rest[j - 1].key != rest[k - 1].key; }
        }
      }
    }
  }

  lemma {:induction false} ModeProblemExactly(modes: seq<Mode>, seen: set<string>)
    ensures ModeProblem(modes, seen).None? <==>
            && (forall i :: 0 <= i < |modes| ==> modes[i].key != "" && modes[i].key !in seen)
            && (forall i, k :: 0 <= i < k < |modes| ==> modes[i].key != modes[k].key)
            && (forall i :: 0 <= i < |modes| ==> modes[i].fields != [] && FieldsWellFormed(modes[i].fields))
  {
    if modes != [] {
      var rest := modes[1..];
      ModeProblemExactly(rest, seen + {modes[0].key});
      FieldProblemExactly(modes[0].key, modes[0].fields, {});
      assert forall j :: 0 <= j < |rest| ==> rest[j] == modes[j + 1];
      if ModeProblem(modes, seen).None? {
        forall i | 0 <= i < |modes|
          ensures modes[i].key != "" && modes[i].key !in seen
          ensures modes[i].fields != [] && FieldsWellFormed(modes[i].fields)
        {
          if i > 0 { assert rest[i - 1].key !in seen + {modes[0].key}; }
        }
        forall i, k | 0 <= i < k < |modes| ensures modes[i].key != modes[k].key {
          assert rest[k - 1].key !in seen + {modes[0].key};
          if i > 0 { assert rest[i - 1].key != rest[k - 1].key; }
        }
      }
    }
  }

  /** Validate accepts exactly the well-formed descriptors with a callback. */
  lemma {:induction false} ValidateExactly(hasCallback: bool, d: Descriptor)
    ensures FirstProblem(hasCallback, d).None? <==> hasCallback && WellFormed(d)
  {
    ModeProblemExactly(d.modes, {});
  }

  /** The first mode with the key. */
  function FirstMode(modes: seq<Mode>, key: string): Option<Mode> {
    if modes == [] then None
    else if modes[0].key == key then Some(modes[0])
    else FirstMode(modes[1..], key)
  }

  /** Which mode a submitted key addresses: an empty key selects the only mode. */
  function ModeFor(d: Descriptor, key: string): Option<Mode> {
    if key == "" && |d.modes| == 1 then Some(d.modes[0]) else FirstMode(d.modes, key)
  }

  /** Enrollment.mode, a search loop. */
  method FindMode(d: Descriptor, key: string) returns (r: Option<Mode>)
    ensures r == ModeFor(d, key)
  {
    if key == "" && |d.modes| == 1 {
      return Some(d.modes[0]);
    }
    var i := 0;
    while i < |d.modes|
      invariant 0 <= i <= |d.modes|
      invariant FirstMode(d.modes[i..], key) == FirstMode(d.modes, key)
    {
      if d.modes[i].key == key {
        return Some(d.modes[i]);
      }
      assert d.modes[i..][1..] == d.modes[i + 1..];
      i := i + 1;
    }
    r := None;
  }

  lemma {:induction false} FirstModeFinds(modes: seq<Mode>, key: string)
    ensures FirstMode(modes, key).Some? ==>
              FirstMode(modes, key).value in modes && FirstMode(modes, key).value.key == key
    ensures FirstMode(modes, key).None? <==> forall i :: 0 <= i < |modes| ==> modes[i].key != key
  {
    if modes != [] {
      FirstModeFinds(modes[1..], key);
      assert forall j :: 0 <= j < |modes[1..]| ==> modes[1..][j] == modes[j + 1];
      if FirstMode(modes, key).None? {
        forall i | 0 <= i < |modes| ensures modes[i].key != key {
          if i > 0 { assert modes[1..][i - 1].key != key; }
        }
      }
    }
  }

  /** In a well-formed descriptor the key rendered with a mode leads back to
      exactly that mode, and a foreign key to none. */
  lemma {:induction false} ModeLookupInverse(d: Descriptor, key: string)
    requires WellFormed(d)
    ensures forall i :: 0 <= i < |d.modes| ==> ModeFor(d, d.modes[i].key) == Some(d.modes[i])
    ensures ModeFor(d, key).Some? ==> ModeFor(d, key).value in d.modes
    ensures ModeFor(d, key).None? <==>
            (forall i :: 0 <= i < |d.modes| ==> d.modes[i].key != key) && (key != "" || |d.modes| != 1)
  {
    FirstModeFinds(d.modes, key);
    forall i | 0 <= i < |d.modes| ensures ModeFor(d, d.modes[i].key) == Some(d.modes[i]) {
      FirstModeFinds(d.modes, d.modes[i].key);
    }
  }

  /** A reported problem is one the descriptor has. */
  ghost predicate HasProblem(hasCallback: bool, d: Descriptor, p: Problem) {
    match p
    case NoCallback => !hasCallback
    case NoModes => d.modes == []
    case EmptyModeKey => exists i :: 0 <= i < |d.modes| && d.modes[i].key == ""
    case DuplicateModeKey(k) => exists i, j :: 0 <= i < j < |d.modes| && d.modes[i].key == k && d.modes[j].key == k
    case NoFields(k) => exists i :: 0 <= i < |d.modes| && d.modes[i].key == k && d.modes[i].fields == []
    case EmptyFieldKey(k) => exists i :: 0 <= i < |d.modes| && d.modes[i].key == k && EmptyField(d.modes[i].fields)
    case DuplicateFieldKey(k, f) =>
      exists i :: 0 <= i < |d.modes| && d.modes[i].key == k && RepeatedField(d.modes[i].fields, f)
  }

  ghost predicate EmptyField(fields: seq<Field>) { exists j :: 0 <= j < |fields| && fields[j].key == "" }

  ghost predicate RepeatedField(fields: seq<Field>, key: string) {
    exists i, j :: 0 <= i < j < |fields| && fields[i].key == key && fields[j].key == key
  }

  lemma {:induction false} FieldProblemReal(mode: string, all: seq<Field>, i: nat, seen: set<string>)
    requires i <= |all| && forall k :: k in seen ==> exists j :: 0 <= j < i && all[j].key == k
    ensures var p := FieldProblem(mode, all[i..], seen);
            p.Some? ==> || (p.value == EmptyFieldKey(mode) && EmptyField(all))
                        || (p.value.DuplicateFieldKey? && p.value.mode == mode && RepeatedField(all, p.value.field))
    decreases |all| - i
  {
    if i < |all| {
      assert all[i..][1..] == all[i + 1..];
      if all[i].key != "" && all[i].key !in seen {
        FieldProblemReal(mode, all, i + 1, seen + {all[i].key});
      }
    }
  }

  lemma {:induction false} ModeProblemReal(hasCallback: bool, d: Descriptor, i: nat, seen: set<string>)
    requires i <= |d.modes| && forall k :: k in seen ==> exists j :: 0 <= j < i && d.modes[j].key == k
    ensures var p := ModeProblem(d.modes[i..], seen); p.Some? ==> HasProblem(hasCallback, d, p.value)
    decreases |d.modes| - i
  {
    if i < |d.modes| {
      var m := d.modes[i];
      assert d.modes[i..][1..] == d.modes[i + 1..] && m.fields[0..] == m.fields;
      FieldProblemReal(m.key, m.fields, 0, {});
      if m.key != "" && m.key !in seen && m.fields != [] && FieldProblem(m.key, m.fields, {}).None? {
        ModeProblemReal(hasCallback, d, i + 1, seen + {m.key});
      }
    }
  }

  /** What Validate reports is true of the descriptor. */
  lemma {:induction false} ReportsTruly(hasCallback: bool, d: Descriptor)
    ensures FirstProblem(hasCallback, d).Some? ==> HasProblem(hasCallback, d, FirstProblem(hasCallback, d).value)
  {
    assert d.modes[0..] == d.modes;
    ModeProblemReal(hasCallback, d, 0, {});
  }
}
