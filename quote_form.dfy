/** The quote request form of src/app/features/ModalForm/ModalForm.tsx:
    the form record, the room-type checkbox group that keeps at most one
    option, the text fields updated by name, and a submit gated on the
    privacy-policy checkbox. The 3-second tooltip timer is an explicit
    "timer fired" event and `onClose` is counted. */
module QuoteForm {

  /** The form record: field name to value, as the component's object. */
  type FormData = map<string, string>

  const FieldNames: set<string> := {"type", "area", "name", "email", "phone"}

  /** The `value`s of the three room-type checkboxes. */
  const RoomTypes: set<string> := {"house", "apartment", "other"}

  /** The `name`s of the text, email and phone inputs. */
  const TextFieldNames: set<string> := {"area", "name", "email", "phone"}

  /** Every field present and empty. */
  function InitialFormData(): (d: FormData)
    ensures d.Keys == FieldNames
    ensures forall k :: k in d ==> d[k] == ""
  {
    map["type" := "", "area" := "", "name" := "", "email" := "", "phone" := ""]
  }

  /** The functional update inside `handleChange`: a checkbox toggles
      `type` between its value and empty; any other input sets the field
      it names. */
  function ChangedFormData(data: FormData, name: string, value: string, inputType: string): (r: FormData)
    ensures inputType == "checkbox" ==>
      r.Keys == data.Keys + {"type"} &&
      r["type"] == (if "type" in data && data["type"] == value then "" else value) &&
      forall k :: k in data && k != "type" ==> r[k] == data[k]
    ensures inputType != "checkbox" ==>
      r.Keys == data.Keys + {name} && r[name] == value &&
      forall k :: k in data && k != name ==> r[k] == data[k]
  {
    if inputType == "checkbox" then
      data["type" := if "type" in data && data["type"] == value then "" else value]
    else data[name := value]
  }

  /** The room type is unset or one of the three options. */
  predicate TypeValid(data: FormData) {
    "type" in data && (data["type"] == "" || data["type"] in RoomTypes)
  }

  /** A change as the rendered inputs can produce it: a room-type checkbox,
      or a text, email or phone input. */
  predicate Rendered(name: string, value: string, inputType: string) {
    (inputType == "checkbox" && name == "type" && value in RoomTypes) ||
    (inputType != "checkbox" && name in TextFieldNames)
  }

  /** Every change the inputs can produce keeps the record's fields and
      keeps the room type unset or one of the three options. */
  lemma RenderedChangeKeepsForm(data: FormData, name: string, value: string, inputType: string)
    requires data.Keys == FieldNames && TypeValid(data)
    requires Rendered(name, value, inputType)
    ensures ChangedFormData(data, name, value, inputType).Keys == FieldNames
    ensures TypeValid(ChangedFormData(data, name, value, inputType))
  {
  }

  /** Clicking the same option twice gives back the record exactly when
      the room type was unset or already that option: from another option
      the second click leaves the type unset. */
  lemma {:induction false} ToggleTwice(data: FormData, value: string)
    requires "type" in data
    ensures ChangedFormData(ChangedFormData(data, "type", value, "checkbox"), "type", value, "checkbox") == data <==>
      data["type"] == "" || data["type"] == value
    ensures ChangedFormData(ChangedFormData(data, "type", value, "checkbox"), "type", value, "checkbox")["type"] ==
      (if data["type"] == "" || data["type"] == value then data["type"] else "")
  {
    var once := ChangedFormData(data, "type", value, "checkbox");
    var twice := ChangedFormData(once, "type", value, "checkbox");
    if data["type"] == "" || data["type"] == value {
      assert twice["type"] == data["type"];
      assert twice.Keys == data.Keys;
      assert twice == data;
    } else {
      assert twice["type"] == "";
      assert twice["type"] != data["type"];
    }
  }

  /** A change the inputs can produce. */
  datatype Change = Change(name: string, value: string, inputType: string)

  function ApplyChanges(data: FormData, changes: seq<Change>): FormData
    decreases |changes|
  {
    if changes == [] then data
    else ApplyChanges(ChangedFormData(data, changes[0].name, changes[0].value, changes[0].inputType), changes[1..])
  }

  /** From the initial record, any sequence of changes from the rendered
      inputs keeps exactly the five fields and a valid room type. */
  lemma {:induction false} RenderedChangesKeepForm(data: FormData, changes: seq<Change>)
    requires data.Keys == FieldNames && TypeValid(data)
    requires forall k :: 0 <= k < |changes| ==> Rendered(changes[k].name, changes[k].value, changes[k].inputType)
    ensures ApplyChanges(data, changes).Keys == FieldNames
    ensures TypeValid(ApplyChanges(data, changes))
    decreases |changes|
  {
    if changes != [] {
      var c := changes[0];
      assert Rendered(c.name, c.value, c.inputType);
      RenderedChangeKeepsForm(data, c.name, c.value, c.inputType);
      RenderedChangesKeepForm(ChangedFormData(data, c.name, c.value, c.inputType), changes[1..]);
    }
  }

  /** The form component's state, the tooltip timers it has scheduled and
      the number of times it has called `onClose`. */
  class Form {
    var isOpen: bool
    var formData: FormData
    var isPolicyChecked: bool
    var showPolicyError: bool
    var isTooltipVisible: bool
    var tooltipTimersPending: nat
    var closeRequests: nat

    /** The record keeps its five fields and a valid room type. */
    ghost predicate Valid()
      reads this
    {
      formData.Keys == FieldNames && TypeValid(formData)
    }

    constructor (isOpen: bool)
      ensures Valid()
      ensures this.isOpen == isOpen && formData == InitialFormData()
      ensures !isPolicyChecked && !showPolicyError && !isTooltipVisible
      ensures tooltipTimersPending == 0 && closeRequests == 0
    {
      this.isOpen := isOpen;
      formData := InitialFormData();
      isPolicyChecked := false;
      showPolicyError := false;
      isTooltipVisible := false;
      tooltipTimersPending := 0;
      closeRequests := 0;
    }

    /** The host opens or closes the form. */
    method SetOpen(open: bool)
      modifies this
      ensures isOpen == open && formData == old(formData)
      ensures isPolicyChecked == old(isPolicyChecked) && showPolicyError == old(showPolicyError)
      ensures isTooltipVisible == old(isTooltipVisible)
      ensures tooltipTimersPending == old(tooltipTimersPending) && closeRequests == old(closeRequests)
    {
      isOpen := open;
    }

    /** `handleChange`: only the record changes. */
    method HandleChange(name: string, value: string, inputType: string)
      modifies this
      ensures old(Valid()) && Rendered(name, value, inputType) ==> Valid()
      ensures formData == ChangedFormData(old(formData), name, value, inputType)
      ensures isOpen == old(isOpen) && isPolicyChecked == old(isPolicyChecked)
      ensures showPolicyError == old(showPolicyError) && isTooltipVisible == old(isTooltipVisible)
      ensures tooltipTimersPending == old(tooltipTimersPending) && closeRequests == old(closeRequests)
    {
      if Valid() && Rendered(name, value, inputType) {
        RenderedChangeKeepsForm(formData, name, value, inputType);
      }
      if inputType == "checkbox" {
        var prev := formData;
        formData := prev["type" := if "type" in prev && prev["type"] == value then "" else value];
      } else {
        formData := formData[name := value];
      }
    }

    /** `handlePolicyChange`: the new value, and neither error nor
      tooltip. */
    method HandlePolicyChange(checked: bool)
      modifies this
      ensures isPolicyChecked == checked && !showPolicyError && !isTooltipVisible
      ensures isOpen == old(isOpen) && formData == old(formData)
      ensures tooltipTimersPending == old(tooltipTimersPending) && closeRequests == old(closeRequests)
    {
      isPolicyChecked := checked;
      showPolicyError := false;
      isTooltipVisible := false;
    }

    /** `handleSubmit`: without consent, show the error and the tooltip
      and schedule the tooltip's timer; with consent, close. The record
      is never changed. */
    method HandleSubmit()
      modifies this
      ensures formData == old(formData) && isOpen == old(isOpen) && isPolicyChecked == old(isPolicyChecked)
      ensures !old(isPolicyChecked) ==>
        showPolicyError && isTooltipVisible &&
        tooltipTimersPending == old(tooltipTimersPending) + 1 && closeRequests == old(closeRequests)
      ensures old(isPolicyChecked) ==>
        closeRequests == old(closeRequests) + 1 && showPolicyError == old(showPolicyError) &&
        isTooltipVisible == old(isTooltipVisible) && tooltipTimersPending == old(tooltipTimersPending)
    {
      if !isPolicyChecked {
        showPolicyError := true;
        isTooltipVisible := true;
        tooltipTimersPending := tooltipTimersPending + 1;
        return;
      }
      closeRequests := closeRequests + 1;
    }

    /** The 3-second timer of an unconsented submit: it hides the tooltip
      and nothing else, the error message stays. */
    method TooltipTimerFires()
      requires tooltipTimersPending > 0
      modifies this
      ensures !isTooltipVisible && tooltipTimersPending == old(tooltipTimersPending) - 1
      ensures isOpen == old(isOpen) && formData == old(formData) && isPolicyChecked == old(isPolicyChecked)
      ensures showPolicyError == old(showPolicyError) && closeRequests == old(closeRequests)
    {
      isTooltipVisible := false;
      tooltipTimersPending := tooltipTimersPending - 1;
    }

    /** The Escape listener, registered only while the form is open. */
    method HandleKeyDown(key: string)
      modifies this
      ensures closeRequests == old(closeRequests) + (if old(isOpen) && key == "Escape" then 1 else 0)
      ensures isOpen == old(isOpen) && formData == old(formData) && isPolicyChecked == old(isPolicyChecked)
      ensures showPolicyError == old(showPolicyError) && isTooltipVisible == old(isTooltipVisible)
      ensures tooltipTimersPending == old(tooltipTimersPending)
    {
      if isOpen && key == "Escape" {
        closeRequests := closeRequests + 1;
      }
    }

    /** `handleOverlayClick`: only a click on the overlay itself closes. */
    method HandleOverlayClick(targetIsOverlay: bool)
      modifies this
      ensures closeRequests == old(closeRequests) + (if targetIsOverlay then 1 else 0)
      ensures isOpen == old(isOpen) && formData == old(formData) && isPolicyChecked == old(isPolicyChecked)
      ensures showPolicyError == old(showPolicyError) && isTooltipVisible == old(isTooltipVisible)
      ensures tooltipTimersPending == old(tooltipTimersPending)
    {
      if targetIsOverlay {
        closeRequests := closeRequests + 1;
      }
    }

    /** The close button. */
    method CloseButton()
      modifies this
      ensures closeRequests == old(closeRequests) + 1
      ensures isOpen == old(isOpen) && formData == old(formData) && isPolicyChecked == old(isPolicyChecked)
      ensures showPolicyError == old(showPolicyError) && isTooltipVisible == old(isTooltipVisible)
      ensures tooltipTimersPending == old(tooltipTimersPending)
    {
      closeRequests := closeRequests + 1;
    }
  }

  /** Submitting without consent shows the error; giving consent clears
      it, and the next submit closes the form. */
  method ConsentScenario()
  {
    var form := new Form(true);
    form.HandleChange("type", "house", "checkbox");
    assert form.formData["type"] == "house";
    form.HandleSubmit();
    assert form.showPolicyError && form.isTooltipVisible && form.closeRequests == 0;
    form.HandlePolicyChange(true);
    assert !form.showPolicyError;
    form.HandleSubmit();
    assert form.closeRequests == 1 && form.formData["type"] == "house";
    form.TooltipTimerFires();
    assert !form.isTooltipVisible && form.tooltipTimersPending == 0;
  }
}
