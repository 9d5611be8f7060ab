/**
 * The artist onboarding form: field updates that clear a field's error,
 * check-box lists, the six-rule validator, and the submit step that appends
 * the form's payload to the stored submissions and resets the form.
 */
module Onboarding {
  import opened Wrappers
  import opened Sequences
  import opened Submissions

  /** A file chosen in the file input; only its name is used. */
  datatype FileRef = FileRef(name: string)

  /** The form's state record. */
  datatype FormData = FormData(
    name: string,
    bio: string,
    category: seq<string>,
    languages: seq<string>,
    feeRange: string,
    location: string,
    profileImage: Option<FileRef>)

  /** The record the form starts from and is reset to. */
  const EmptyForm := FormData("", "", [], [], "", "", None)

  /** The choices offered by the category check boxes. */
  const CategoryChoices: seq<string> := ["Singer", "Comedian", "DJ", "Dancer", "Speaker", "Actor"]

  /** The form's fields, one per key of the form object. */
  datatype Field = Name | Bio | Category | Languages | FeeRange | Location | ProfileImage

  /** The key of a field in the form and error objects, which is also its input's `name`. */
  function FieldKey(f: Field): string {
    match f
    case Name => "name"
    case Bio => "bio"
    case Category => "category"
    case Languages => "languages"
    case FeeRange => "feeRange"
    case Location => "location"
    case ProfileImage => "profileImage"
  }

  /** The field an input's `name` attribute refers to, if any. */
  function FieldNamed(key: string): (r: Option<Field>)
    ensures r.Some? ==> FieldKey(r.value) == key
    ensures forall f :: FieldKey(f) == key ==> r == Some(f)
  {
    if key == "name" then Some(Name)
    else if key == "bio" then Some(Bio)
    else if key == "category" then Some(Category)
    else if key == "languages" then Some(Languages)
    else if key == "feeRange" then Some(FeeRange)
    else if key == "location" then Some(Location)
    else if key == "profileImage" then Some(ProfileImage)
    else None
  }

  /** The fields edited through text inputs, the text area and the select. */
  predicate IsTextField(f: Field) {
    f.Name? || f.Bio? || f.FeeRange? || f.Location?
  }

  /** The fields edited through check boxes. */
  predicate IsListField(f: Field) {
    f.Category? || f.Languages?
  }

  function TextOf(form: FormData, f: Field): string
    requires IsTextField(f)
  {
    match f
    case Name => form.name
    case Bio => form.bio
    case FeeRange => form.feeRange
    case Location => form.location
  }

  /** The form with one text field replaced and every other field kept. */
  function WithText(form: FormData, f: Field, value: string): (r: FormData)
    requires IsTextField(f)
    ensures TextOf(r, f) == value
    ensures forall g :: IsTextField(g) && g != f ==> TextOf(r, g) == TextOf(form, g)
    ensures r.category == form.category && r.languages == form.languages
    ensures r.profileImage == form.profileImage
  {
    match f
    case Name => form.(name := value)
    case Bio => form.(bio := value)
    case FeeRange => form.(feeRange := value)
    case Location => form.(location := value)
  }

  function ListOf(form: FormData, f: Field): seq<string>
    requires IsListField(f)
  {
    match f
    case Category => form.category
    case Languages => form.languages
  }

  /** The form with one check-box list replaced and every other field kept. */
  function WithList(form: FormData, f: Field, xs: seq<string>): (r: FormData)
    requires IsListField(f)
    ensures ListOf(r, f) == xs
    ensures forall g :: IsListField(g) && g != f ==> ListOf(r, g) == ListOf(form, g)
    ensures r.name == form.name && r.bio == form.bio
    ensures r.feeRange == form.feeRange && r.location == form.location
    ensures r.profileImage == form.profileImage
  {
    match f
    case Category => form.(category := xs)
    case Languages => form.(languages := xs)
  }

  // ---------------------------------------------------------------------
  // Check-box lists
  // ---------------------------------------------------------------------

  /** The list with every occurrence of `value` dropped. */
  function Without(xs: seq<string>, value: string): (r: seq<string>)
    ensures value !in r
    ensures IsSubsequence(r, xs)
    ensures forall x :: x in r <==> x in xs && x != value
    ensures forall x :: multiset(r)[x] == if x == value then 0 else multiset(xs)[x]
    decreases |xs|
  {
    if xs == [] then []
    else
      assert xs == [xs[0]] + xs[1..];
      if xs[0] == value then Without(xs[1..], value)
      else [xs[0]] + Without(xs[1..], value)
  }

  /** A check box click: remove `value` if it is ticked, append it otherwise. */
  function Toggle(xs: seq<string>, value: string): (r: seq<string>)
    ensures value in r <==> value !in xs
    ensures forall x :: x != value ==> (x in r <==> x in xs)
  {
    if value in xs then Without(xs, value) else xs + [value]
  }

  /** Ticking an unticked value appends it at the end. */
  lemma ToggleAbsentAppends(xs: seq<string>, value: string)
    requires value !in xs
    ensures Toggle(xs, value) == xs + [value]
    ensures Toggle(xs, value)[|xs|] == value
  {
  }

  /** Unticking removes every occurrence and keeps the other values in order. */
  lemma TogglePresentRemoves(xs: seq<string>, value: string)
    requires value in xs
    ensures value !in Toggle(xs, value)
    ensures IsSubsequence(Toggle(xs, value), xs)
    ensures forall x :: x != value ==> (x in Toggle(xs, value) <==> x in xs)
  {
  }

  lemma {:induction false} WithoutAppended(xs: seq<string>, value: string)
    requires value !in xs
    ensures Without(xs + [value], value) == xs
    decreases |xs|
  {
    if xs == [] {
      assert [value][1..] == [];
    } else {
      assert (xs + [value])[1..] == xs[1..] + [value];
      WithoutAppended(xs[1..], value);
    }
  }

  /** Ticking an unticked value and then unticking it restores the list. */
  lemma ToggleTwiceRestores(xs: seq<string>, value: string)
    requires value !in xs
    ensures Toggle(Toggle(xs, value), value) == xs
  {
    WithoutAppended(xs, value);
  }

  // ---------------------------------------------------------------------
  // Errors and validation
  // ---------------------------------------------------------------------

  /**
   * The form's error object, keyed by field. Clearing an error stores `null`
   * under its key (`None` here) rather than removing the key.
   */
  type Errors = map<Field, Option<string>>

  /** The error under `f` is truthy, so the field shows it. */
  predicate HasError(errors: Errors, f: Field) {
    f in errors && Truthy(errors[f])
  }

  /** Clear the error under `f` by writing `null` there, but only if it is set. */
  function Cleared(errors: Errors, f: Field): (r: Errors)
    ensures !HasError(r, f)
    ensures !HasError(errors, f) ==> r == errors
    ensures HasError(errors, f) ==> f in r && r[f] == None
    ensures r.Keys == errors.Keys
    ensures forall g :: g in errors && g != f ==> r[g] == errors[g]
  {
    if HasError(errors, f) then errors[f := None] else errors
  }

  /** The six fields that the validator checks. */
  const RequiredFields: set<Field> := {Name, Bio, Category, Languages, FeeRange, Location}

  /** `f` is one of the six required fields and is empty. */
  predicate MissingField(form: FormData, f: Field) {
    match f
    case Name => form.name == ""
    case Bio => form.bio == ""
    case Category => |form.category| == 0
    case Languages => |form.languages| == 0
    case FeeRange => form.feeRange == ""
    case Location => form.location == ""
    case ProfileImage => false
  }

  /** All six required fields are filled in. */
  predicate Complete(form: FormData) {
    && form.name != ""
    && form.bio != ""
    && |form.category| > 0
    && |form.languages| > 0
    && form.feeRange != ""
    && form.location != ""
  }

  /** The message the validator stores for a missing required field. */
  function Message(f: Field): (m: string)
    requires f != ProfileImage
    ensures m != ""
  {
    match f
    case Name => "Name is required"
    case Bio => "Bio is required"
    case Category => "Select at least one category"
    case Languages => "Select at least one language"
    case FeeRange => "Fee range is required"
    case Location => "Location is required"
  }

  /**
   * The validator's error object: its keys are exactly the missing required
   * fields, each with its non-empty message, so the optional image never fails.
   */
  function ValidationErrors(form: FormData): (errs: map<Field, string>)
    ensures forall f :: f in errs <==> MissingField(form, f)
    ensures errs.Keys <= RequiredFields
    ensures ProfileImage !in errs
    ensures forall f :: f in errs ==> errs[f] == Message(f) && errs[f] != ""
  {
    map f | f in RequiredFields && MissingField(form, f) :: Message(f)
  }

  /** `validate` succeeds, the error object being empty, exactly when the form is complete. */
  lemma NoErrorsIffComplete(form: FormData)
    ensures ValidationErrors(form) == map[] <==> Complete(form)
  {
    var errs := ValidationErrors(form);
    if !Complete(form) {
      var f := if form.name == "" then Name
        else if form.bio == "" then Bio
        else if |form.category| == 0 then Category
        else if |form.languages| == 0 then Languages
        else if form.feeRange == "" then FeeRange
        else Location;
      assert MissingField(form, f);
      assert f in errs;
    }
  }

  /** The error object as the form stores it after validation. */
  function AsErrors(errs: map<Field, string>): (r: Errors)
    ensures r.Keys == errs.Keys
    ensures forall f :: f in errs ==> r[f] == Some(errs[f])
  {
    map f | f in errs :: Some(errs[f])
  }

  /** An empty form fails all six rules. */
  lemma EmptyFormFailsEveryRule()
    ensures ValidationErrors(EmptyForm).Keys == RequiredFields
  {
    var errs := ValidationErrors(EmptyForm);
    forall f | f in RequiredFields ensures f in errs {
      assert MissingField(EmptyForm, f);
    }
  }

  /** A form whose only empty field is the name fails exactly on "name". */
  lemma OnlyNameMissing(form: FormData)
    requires form.name == "" && form.bio != ""
    requires |form.category| > 0 && |form.languages| > 0
    requires form.feeRange != "" && form.location != ""
    ensures ValidationErrors(form).Keys == {Name}
  {
    var errs := ValidationErrors(form);
    assert Name in errs;
  }

  // ---------------------------------------------------------------------
  // Payload
  // ---------------------------------------------------------------------

  /** The stored image name: the chosen file's name when it is non-empty, "N/A" otherwise. */
  function ImageName(image: Option<FileRef>): (r: string)
    ensures r != ""
    ensures image.Some? && image.value.name != "" ==> r == image.value.name
    ensures image.None? || image.value.name == "" ==> r == "N/A"
  {
    if image.Some? && image.value.name != "" then image.value.name else "N/A"
  }

  /**
   * The stored record: every form field copied, the image replaced by its
   * name. A form that passes validation gives a submission with every
   * required field filled in, and only such a form does.
   */
  function Payload(form: FormData): (p: Submission)
    ensures p.profileImage != ""
    ensures Complete(form) <==> WellFormed(p)
  {
    Submission(form.name, form.bio, form.category, form.languages,
               form.feeRange, form.location, ImageName(form.profileImage))
  }

  /** What a submission keeps of the form: everything but the image file, which it keeps by name. */
  lemma PayloadSpec(form: FormData)
    ensures var p := Payload(form);
      && p.name == form.name && p.bio == form.bio
      && p.category == form.category && p.languages == form.languages
      && p.feeRange == form.feeRange && p.location == form.location
      && p.profileImage == ImageName(form.profileImage)
  {
  }

  // ---------------------------------------------------------------------
  // The form component's state
  // ---------------------------------------------------------------------

  /** The onboarding component together with the local storage it writes. */
  class OnboardForm {
    var formData: FormData
    var errors: Errors
    var submitted: bool
    var store: Storage

    constructor (store: Storage)
      ensures formData == EmptyForm && errors == map[] && !submitted
      ensures this.store == store
    {
      formData := EmptyForm;
      errors := map[];
      submitted := false;
      this.store := store;
    }

    /**
     * `handleInputChange`: a file input sets only the image; any other input
     * sets only the field it names. Only that field's error is cleared.
     */
    method HandleInputChange(name: string, value: string, inputType: string, file: Option<FileRef>)
      requires FieldNamed(name).Some?
      requires inputType == "file" || IsTextField(FieldNamed(name).value)
      modifies this
      ensures inputType == "file" ==> formData == old(formData).(profileImage := file)
      ensures inputType != "file" ==> formData == WithText(old(formData), FieldNamed(name).value, value)
      ensures errors == Cleared(old(errors), FieldNamed(name).value)
      ensures store == old(store) && submitted == old(submitted)
    {
      var field := FieldNamed(name).value;
      if inputType == "file" {
        formData := formData.(profileImage := file);
      } else {
        formData := WithText(formData, field, value);
      }
      if HasError(errors, field) {
        errors := errors[field := None];
      }
    }

    /**
     * `handleCheckboxChange`: toggle `value` in the named list only, and
     * clear that list's error if it was set.
     */
    method HandleCheckboxChange(field: Field, value: string)
      requires IsListField(field)
      modifies this
      ensures formData == WithList(old(formData), field, Toggle(ListOf(old(formData), field), value))
      ensures errors == Cleared(old(errors), field)
      ensures store == old(store) && submitted == old(submitted)
    {
      var current := ListOf(formData, field);
      var updated := if value in current then Without(current, value) else current + [value];
      formData := WithList(formData, field, updated);
      if HasError(errors, field) {
        errors := errors[field := None];
      }
    }

    /** `validate`: replace the errors by the validator's, and report whether there are none. */
    method Validate() returns (ok: bool)
      modifies this
      ensures errors == AsErrors(ValidationErrors(formData))
      ensures ok <==> ValidationErrors(formData) == map[]
      ensures ok <==> Complete(formData)
      ensures formData == old(formData) && store == old(store) && submitted == old(submitted)
    {
      var newErrors := ValidationErrors(formData);
      NoErrorsIffComplete(formData);
      errors := AsErrors(newErrors);
      ok := |newErrors| == 0;
    }

    /**
     * `handleSubmit`: when validation fails nothing but the errors changes;
     * otherwise the payload is appended to the stored list, the form is reset
     * and the thank-you message is shown.
     */
    method HandleSubmit()
      modifies this
      ensures errors == AsErrors(ValidationErrors(old(formData)))
      ensures !Complete(old(formData)) ==>
                formData == old(formData) && store == old(store) && submitted == old(submitted)
      ensures Complete(old(formData)) ==>
                && store == Appended(old(store), Payload(old(formData)))
                && Stored(store) == Stored(old(store)) + [Payload(old(formData))]
                && WellFormed(Payload(old(formData)))
                && formData == EmptyForm
                && submitted
    {
      var ok := Validate();
      if !ok {
        return;
      }
      var payload := Payload(formData);
      var existing := Stored(store);
      store := store[SubmissionsKey := existing + [payload]];
      AppendedThenStored(old(store), payload);
      submitted := true;
      formData := EmptyForm;
    }
  }

  /**
   * Pressing submit again right after a successful submission stores
   * nothing more: the reset form fails validation.
   */
  method SubmitAgainAfterReset(f: OnboardForm)
    requires Complete(f.formData)
    modifies f
    ensures Stored(f.store) == Stored(old(f.store)) + [Payload(old(f.formData))]
    ensures f.formData == EmptyForm
  {
    f.HandleSubmit();
    f.HandleSubmit();
    EmptyFormFailsEveryRule();
  }
}
