/** The shared form component: the rule-based validator run on submit, the submit gate,
    the value a control shows and the update a control makes. */
module Form {
  import opened Wrappers
  import opened Text
  import opened Js

  type FormData = map<string, Value>

  /** A control's `validation` object. A `minLength` of 0 is absent (it is falsy); a missing
      `message` is `None`. The pattern's regular expression is a supplied predicate. */
  datatype Rules = Rules(required: bool, minLength: nat, pattern: Option<string -> bool>, message: Option<string>)

  datatype Control = Control(name: string, labelText: string, validation: Option<Rules>)

  /** What is recorded against a control's name: a message, possibly `undefined`. */
  type Error = Option<string>

  /** `formData[name]`, `undefined` when the key is missing. */
  function Lookup(f: FormData, name: string): (v: Value)
    ensures name in f ==> v == f[name]
    ensures name !in f ==> v == Null
  {
    if name in f then f[name] else Null
  }

  /** The value the rules see: strings are trimmed, anything else is left alone. */
  function Checked(f: FormData, name: string): (v: Value)
    ensures Lookup(f, name).Str? ==> v == Str(Trim(Lookup(f, name).s))
    ensures !Lookup(f, name).Str? ==> v == Lookup(f, name)
  {
    match Lookup(f, name)
    case Str(s) => Str(Trim(s))
    case other => other
  }

  function RequiredMessage(c: Control): string
  {
    c.labelText + " is required"
  }

  predicate FailsRequired(r: Rules, v: Value)
  {
    r.required && !Truthy(v)
  }

  predicate FailsMinLength(r: Rules, v: Value)
  {
    r.minLength > 0 && v.Str? && Utf16Length(v.s) < r.minLength
  }

  predicate FailsPattern(r: Rules, v: Value)
  {
    r.pattern.Some? && v.Str? && !r.pattern.value(v.s)
  }

  /** The error one control gets, if any: at most one, with `required` checked first,
      then `minLength`, then `pattern`. */
  function ControlError(c: Control, f: FormData): (e: Option<Error>)
    ensures c.validation.None? ==> e.None?
    ensures c.validation.Some? && FailsRequired(c.validation.value, Checked(f, c.name))
            ==> e == Some(Some(RequiredMessage(c)))
    ensures (c.validation.Some? && !FailsRequired(c.validation.value, Checked(f, c.name))
             && FailsMinLength(c.validation.value, Checked(f, c.name)))
            ==> e == Some(c.validation.value.message)
    ensures (c.validation.Some? && !FailsRequired(c.validation.value, Checked(f, c.name))
             && !FailsMinLength(c.validation.value, Checked(f, c.name))
             && FailsPattern(c.validation.value, Checked(f, c.name)))
            ==> e == Some(c.validation.value.message)
    ensures e.Some? <==> (c.validation.Some?
                          && (FailsRequired(c.validation.value, Checked(f, c.name))
                              || FailsMinLength(c.validation.value, Checked(f, c.name))
                              || FailsPattern(c.validation.value, Checked(f, c.name))))
  {
    if c.validation.None? then None
    else
      var r := c.validation.value;
      var v := Checked(f, c.name);
      if FailsRequired(r, v) then Some(Some(RequiredMessage(c)))
      else if FailsMinLength(r, v) then Some(r.message)
      else if FailsPattern(r, v) then Some(r.message)
      else None
  }

  /** The `newErrors` object after visiting the controls in order: a later failing
      control with the same name overwrites an earlier one's message. */
  function ErrorsOf(controls: seq<Control>, f: FormData): map<string, Error>
  {
    if |controls| == 0 then map[]
    else
      var before := ErrorsOf(controls[..|controls| - 1], f);
      var c := controls[|controls| - 1];
      var e := ControlError(c, f);
      if e.Some? then before[c.name := e.value] else before
  }

  /** A name has an entry exactly when some control of that name fails. */
  lemma {:induction false} ErrorKeys(controls: seq<Control>, f: FormData, name: string)
    ensures name in ErrorsOf(controls, f)
            <==> exists i :: 0 <= i < |controls| && controls[i].name == name && ControlError(controls[i], f).Some?
    decreases |controls|
  {
    if |controls| > 0 {
      var init := controls[..|controls| - 1];
      ErrorKeys(init, f, name);
      assert forall i :: 0 <= i < |init| ==> init[i] == controls[i];
      if name in ErrorsOf(init, f) {
        var i :| 0 <= i < |init| && init[i].name == name && ControlError(init[i], f).Some?;
        assert controls[i] == init[i];
      }
    }
  }

  /** The form is valid exactly when no control fails; a control without rules never
      stops it. */
  lemma ValidIffNoControlFails(controls: seq<Control>, f: FormData)
    ensures |ErrorsOf(controls, f)| == 0
            <==> forall i :: 0 <= i < |controls| ==> ControlError(controls[i], f).None?
  {
    if |ErrorsOf(controls, f)| == 0 {
      forall i | 0 <= i < |controls|
        ensures ControlError(controls[i], f).None?
      {
        ErrorKeys(controls, f, controls[i].name);
      }
    } else {
      var name :| name in ErrorsOf(controls, f);
      ErrorKeys(controls, f, name);
    }
  }

  /** A required text field holding only spaces fails as missing: it is trimmed first. */
  lemma WhitespaceIsMissing(c: Control, f: FormData)
    requires c.validation.Some? && c.validation.value.required
    requires c.name in f && f[c.name].Str? && AllSpace(f[c.name].s)
    ensures ControlError(c, f) == Some(Some(RequiredMessage(c)))
  {
    TrimEmptyIffAllSpace(f[c.name].s);
  }

  /** `minLength` counts the trimmed text: padding does not help a short value. */
  lemma MinLengthIgnoresPadding(c: Control, f: FormData, core: string)
    requires c.validation.Some? && !c.validation.value.required
    requires 0 < |core| && Utf16Length(core) < c.validation.value.minLength
    requires !IsSpace(core[0]) && !IsSpace(core[|core| - 1])
    requires c.name in f && f[c.name] == Str(" " + core + " ")
    ensures ControlError(c, f) == Some(c.validation.value.message)
  {
    PaddedTrim(core);
  }

  /** `minLength` counts UTF-16 code units: two emoji meet a minimum length of 4. */
  lemma TwoEmojiMeetMinLength(r: Rules)
    requires r.minLength == 4
    ensures !FailsMinLength(r, Str("\U{1F600}\U{1F600}"))
  {
    AstralCountsTwice();
  }

  lemma PaddedTrim(core: string)
    requires |core| > 0 && !IsSpace(core[0]) && !IsSpace(core[|core| - 1])
    ensures Trim(" " + core + " ") == core
  {
    var s := " " + core + " ";
    assert s[1] == core[0];
    assert s[|s| - 2] == core[|core| - 1];
    assert LeadingSpaces(s) == 1;
    assert TrailingSpaces(s) == 1;
    assert s[1..|s| - 1] == core;
  }

  /** A failing rule without a message still leaves a key behind, so the form is
      blocked with nothing to show. */
  lemma SilentErrorBlocks(c: Control, f: FormData)
    requires c.validation.Some? && c.validation.value.message.None?
    requires !FailsRequired(c.validation.value, Checked(f, c.name))
    requires FailsMinLength(c.validation.value, Checked(f, c.name))
    ensures ErrorsOf([c], f) == map[c.name := None]
    ensures |ErrorsOf([c], f)| != 0
  {
    assert [c][..0] == [];
  }

  /** `validateForm`'s `forEach`, filling the error object one control at a time. */
  method ValidateForm(controls: seq<Control>, f: FormData) returns (errors: map<string, Error>, ok: bool)
    ensures errors == ErrorsOf(controls, f)
    ensures ok <==> |errors| == 0
    ensures ok <==> forall i :: 0 <= i < |controls| ==> ControlError(controls[i], f).None?
  {
    errors := map[];
    var i := 0;
    while i < |controls|
      invariant 0 <= i <= |controls|
      invariant errors == ErrorsOf(controls[..i], f)
    {
      assert controls[..i + 1][..i] == controls[..i];
      var c := controls[i];
      var e := ControlError(c, f);
      if e.Some? {
        errors := errors[c.name := e.value];
      }
      i := i + 1;
    }
    assert controls[..|controls|] == controls;
    ok := |errors| == 0;
    ValidIffNoControlFails(controls, f);
  }

  /** What a control displays: `formData[name] || ""`, so every falsy value, a numeric 0
      included, shows as empty. */
  function DisplayValue(f: FormData, name: string): (v: Value)
    ensures Truthy(Lookup(f, name)) ==> v == Lookup(f, name)
    ensures !Truthy(Lookup(f, name)) ==> v == Str("")
  {
    Or(Lookup(f, name), Str(""))
  }

  /** `{ ...formData, [name]: value }`: one key set, every other key untouched. */
  function SetField(f: FormData, name: string, text: string): (g: FormData)
    ensures g.Keys == f.Keys + {name}
    ensures g[name] == Str(text)
    ensures forall k :: k in f && k != name ==> g[k] == f[k]
  {
    f[name := Str(text)]
  }

  /** The component's state: the last errors, and the parent's form data it edits. */
  class CommonForm {
    var errors: map<string, Error>
    var formData: FormData

    constructor (formData: FormData)
      ensures errors == map[] && this.formData == formData
    {
      errors := map[];
      this.formData := formData;
    }

    /** An input, select or textarea changed. */
    method Change(name: string, text: string)
      modifies this`formData
      ensures formData == SetField(old(formData), name, text)
    {
      formData := formData[name := Str(text)];
    }

    /** `handleSubmit`: records the errors and reports whether `onSubmit` runs. */
    method HandleSubmit(controls: seq<Control>) returns (submitted: bool)
      modifies this`errors
      ensures errors == ErrorsOf(controls, formData)
      ensures submitted <==> forall i :: 0 <= i < |controls| ==> ControlError(controls[i], formData).None?
    {
      errors, submitted := ValidateForm(controls, formData);
    }
  }
}
