/**
 * The employee self-registration form: a five-field draft and a "photo
 * captured" flag, edited one change at a time, and the validity expression
 * that enables the submit button.
 */
module EmployeeRegistration {
  import opened Optional
  import opened JsValues

  /** The five fields of the draft. */
  datatype Field = FullName | EmployeeId | Department | Location | MobileNumber

  /** The form's text values. */
  datatype FormData = FormData(
    fullName: string,
    employeeId: string,
    department: string,
    location: string,
    mobileNumber: string)

  /** The draft as the screen first shows it: every field empty. */
  const EmptyForm := FormData("", "", "", "", "")

  /** The key under which the form's inputs report a field. */
  function Name(f: Field): string {
    match f
    case FullName => "fullName"
    case EmployeeId => "employeeId"
    case Department => "department"
    case Location => "location"
    case MobileNumber => "mobileNumber"
  }

  /** The field a key names, if any. */
  function FieldNamed(name: string): (r: Option<Field>)
    ensures r.Some? ==> Name(r.value) == name
    ensures forall f :: Name(f) == name ==> r == Some(f)
  {
    if name == "fullName" then Some(FullName)
    else if name == "employeeId" then Some(EmployeeId)
    else if name == "department" then Some(Department)
    else if name == "location" then Some(Location)
    else if name == "mobileNumber" then Some(MobileNumber)
    else None
  }

  /** The text of one field. */
  function Get(d: FormData, f: Field): string {
    match f
    case FullName => d.fullName
    case EmployeeId => d.employeeId
    case Department => d.department
    case Location => d.location
    case MobileNumber => d.mobileNumber
  }

  /**
   * The draft after the input reporting key `name` changes to `value`: the
   * field with that key takes the value and every other field keeps its text.
   */
  function WithInput(d: FormData, name: string, value: string): (r: FormData)
    ensures forall g :: Get(r, g) == if Name(g) == name then value else Get(d, g)
  {
    match FieldNamed(name)
    case None => d
    case Some(FullName) => d.(fullName := value)
    case Some(EmployeeId) => d.(employeeId := value)
    case Some(Department) => d.(department := value)
    case Some(Location) => d.(location := value)
    case Some(MobileNumber) => d.(mobileNumber := value)
  }

  /** The fields marked with a star in the form; the mobile number is optional. */
  predicate Required(f: Field) {
    f != MobileNumber
  }

  /**
   * The value of the form's validity expression, the `&&` chain of the four
   * required fields followed by the photo flag. It is truthy exactly when the
   * four required fields are non-empty and a photo was captured.
   */
  function IsFormValid(d: FormData, photoCaptured: bool): (v: JsValue)
    ensures Truthy(v) <==>
      d.fullName != "" && d.employeeId != "" && d.department != "" && d.location != "" && photoCaptured
  {
    var operands := [JsString(d.fullName), JsString(d.employeeId), JsString(d.department),
                     JsString(d.location), JsBool(photoCaptured)];
    var v := JsAndChain(operands);
    assert Truthy(v) ==> Truthy(operands[0]) && Truthy(operands[1]) && Truthy(operands[2])
                         && Truthy(operands[3]) && Truthy(operands[4]);
    v
  }

  /** The submit button's `disabled` attribute. */
  predicate SubmitDisabled(d: FormData, photoCaptured: bool)
    ensures SubmitDisabled(d, photoCaptured) <==>
      d.fullName == "" || d.employeeId == "" || d.department == "" || d.location == "" || !photoCaptured
  {
    !Truthy(IsFormValid(d, photoCaptured))
  }

  /** Validity, stated field by field: every required field is filled and a photo was captured. */
  lemma ValidIffRequiredFilled(d: FormData, photoCaptured: bool)
    ensures Truthy(IsFormValid(d, photoCaptured)) <==>
      photoCaptured && forall f :: Required(f) ==> Get(d, f) != ""
  {
    if photoCaptured && forall f :: Required(f) ==> Get(d, f) != "" {
      assert Get(d, FullName) != "" && Get(d, EmployeeId) != "";
      assert Get(d, Department) != "" && Get(d, Location) != "";
    }
  }

  /** Editing the mobile number never changes the validity expression. */
  lemma MobileNumberIrrelevant(d: FormData, photoCaptured: bool, value: string)
    ensures IsFormValid(WithInput(d, Name(MobileNumber), value), photoCaptured) == IsFormValid(d, photoCaptured)
  {
  }

  /** Capturing a photo never turns a valid form invalid. */
  lemma CaptureKeepsValid(d: FormData, photoCaptured: bool)
    requires Truthy(IsFormValid(d, photoCaptured))
    ensures Truthy(IsFormValid(d, true))
  {
  }

  /**
   * On a valid form, an edit makes the form invalid exactly when it empties a
   * required field.
   */
  lemma InvalidatedOnlyByEmptyingRequired(d: FormData, photoCaptured: bool, name: string, value: string)
    requires Truthy(IsFormValid(d, photoCaptured))
    ensures !Truthy(IsFormValid(WithInput(d, name, value), photoCaptured)) <==>
      value == "" && FieldNamed(name).Some? && Required(FieldNamed(name).value)
  {
  }

  /** The draft as a value: the form data and the photo flag. */
  datatype Draft = Draft(formData: FormData, photoCaptured: bool)

  /** The draft the screen starts with. */
  const EmptyDraft := Draft(EmptyForm, false)

  /** The two kinds of edit the screen performs on its draft. */
  datatype DraftEvent = Input(name: string, value: string) | CapturePhoto

  /** The draft after one edit. */
  function Apply(d: Draft, e: DraftEvent): (r: Draft)
    ensures r.photoCaptured == (d.photoCaptured || e == CapturePhoto)
    ensures forall g :: Get(r.formData, g) == if e.Input? && Name(g) == e.name then e.value else Get(d.formData, g)
  {
    match e
    case Input(name, value) => d.(formData := WithInput(d.formData, name, value))
    case CapturePhoto => d.(photoCaptured := true)
  }

  /** The draft after the edits `es`, in order. */
  function Replay(d: Draft, es: seq<DraftEvent>): Draft
    decreases |es|
  {
    if es == [] then d else Apply(Replay(d, es[..|es| - 1]), es[|es| - 1])
  }

  /** The value of the last input event in `es` that reports key `name`. */
  function LastInput(es: seq<DraftEvent>, name: string): Option<string>
    decreases |es|
  {
    if es == [] then None
    else if es[|es| - 1].Input? && es[|es| - 1].name == name then Some(es[|es| - 1].value)
    else LastInput(es[..|es| - 1], name)
  }

  /** No edit resets the photo flag: it is set exactly when it was set before or a capture happened. */
  lemma {:induction false} PhotoCapturedIffEverCaptured(d: Draft, es: seq<DraftEvent>)
    ensures Replay(d, es).photoCaptured <==> d.photoCaptured || CapturePhoto in es
    decreases |es|
  {
    if es != [] {
      var prefix := es[..|es| - 1];
      assert es == prefix + [es[|es| - 1]];
      PhotoCapturedIffEverCaptured(d, prefix);
    }
  }

  /** Each field holds the value of its last input, or its starting text when it had none. */
  lemma {:induction false} FieldIsLastInput(d: Draft, es: seq<DraftEvent>, f: Field)
    ensures Get(Replay(d, es).formData, f) == LastInput(es, Name(f)).GetOr(Get(d.formData, f))
    decreases |es|
  {
    if es != [] {
      FieldIsLastInput(d, es[..|es| - 1], f);
    }
  }

  /**
   * From the starting draft, submit becomes enabled exactly when a photo was
   * captured at some point and the last input to every required field was non-empty.
   */
  lemma SubmitEnabledAfterEdits(es: seq<DraftEvent>)
    ensures !SubmitDisabled(Replay(EmptyDraft, es).formData, Replay(EmptyDraft, es).photoCaptured) <==>
      CapturePhoto in es && forall f :: Required(f) ==> LastInput(es, Name(f)).GetOr("") != ""
  {
    var r := Replay(EmptyDraft, es);
    PhotoCapturedIffEverCaptured(EmptyDraft, es);
    ValidIffRequiredFilled(r.formData, r.photoCaptured);
    forall f | Required(f)
      ensures Get(r.formData, f) == LastInput(es, Name(f)).GetOr("")
    {
      FieldIsLastInput(EmptyDraft, es, f);
    }
  }

  /** The parent callbacks the screen can invoke. */
  datatype Callback = OnSubmit | OnCancel

  /** The two controls that cancel registration. */
  datatype CancelControl = BackArrow | CancelButton

  /** The registration screen's local state. */
  class EmployeeRegistrationScreen {
    var formData: FormData
    var photoCaptured: bool

    /** The current draft as a value. */
    function Current(): Draft
      reads this
    {
      Draft(formData, photoCaptured)
    }

    constructor ()
      ensures formData == EmptyForm && !photoCaptured
      ensures Current() == EmptyDraft
    {
      formData := EmptyForm;
      photoCaptured := false;
    }

    /** An input's change event: replaces the field keyed `field` and nothing else. */
    method HandleInputChange(field: string, value: string)
      modifies this
      ensures forall g :: Get(formData, g) == if Name(g) == field then value else Get(old(formData), g)
      ensures photoCaptured == old(photoCaptured)
      ensures Current() == Apply(old(Current()), Input(field, value))
    {
      formData := WithInput(formData, field, value);
    }

    /** The capture (and retake) button: sets the photo flag, touches no field. */
    method HandleCapturePhoto()
      modifies this
      ensures photoCaptured
      ensures formData == old(formData)
      ensures Current() == Apply(old(Current()), CapturePhoto)
    {
      photoCaptured := true;
    }

    /**
     * The form's submit handler, reachable only through the submit button,
     * which is enabled only on a valid form; it calls the parent's submit once.
     */
    method HandleSubmit() returns (calls: seq<Callback>)
      requires !SubmitDisabled(formData, photoCaptured)
      ensures calls == [OnSubmit]
    {
      calls := [OnSubmit];
    }

    /**
     * Either cancel control calls the parent's cancel once, and never its
     * submit; `control` only names which of the two controls was used.
     */
    method Cancel(control: CancelControl) returns (calls: seq<Callback>)
      ensures calls == [OnCancel]
    {
      calls := [OnCancel];
    }
  }
}
