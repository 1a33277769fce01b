/**
 The save dialog (components/save-place-modal.tsx): a name field that is cleared
 whenever the dialog opens, and a submit that hands the trimmed name on only when
 it is not blank.
 */
module SavePlaceModal {

  import opened Wrappers
  import opened JsString

  /** What submitting `placeName` hands to `onSave`: the trimmed name, or nothing when it is blank. */
  function Submission(placeName: string): (r: Option<string>)
    ensures r.None? <==> IsBlank(placeName)
    ensures r.Some? ==> r.value == Trim(placeName) && r.value != []
    ensures r.Some? ==> !IsWhitespace(r.value[0]) && !IsWhitespace(r.value[|r.value| - 1])
  {
    TrimEmptyIffBlank(placeName);
    TrimHasNoOuterWhitespace(placeName);
    var trimmed := Trim(placeName);
    if trimmed != [] then Some(trimmed) else None
  }

  /** The Save button is disabled exactly when the name is blank. */
  function SubmitDisabled(placeName: string): (disabled: bool)
    ensures disabled <==> IsBlank(placeName)
    ensures disabled <==> Submission(placeName).None?
  {
    TrimEmptyIffBlank(placeName);
    Trim(placeName) == []
  }

  /** What the dialog renders: nothing when closed, otherwise the field and the Save button's state. */
  datatype ModalView = ModalView(placeName: string, submitDisabled: bool)

  function Render(isOpen: bool, placeName: string): (v: Option<ModalView>)
    ensures v.None? <==> !isOpen
    ensures v.Some? ==> v.value.placeName == placeName && (v.value.submitDisabled <==> IsBlank(placeName))
  {
    if isOpen then Some(ModalView(placeName, SubmitDisabled(placeName))) else None
  }

  /** A submitted name is already trimmed, so the page stores it exactly as handed on. */
  lemma SubmissionIsTrimmed(placeName: string)
    requires Submission(placeName).Some?
    ensures Trim(Submission(placeName).value) == Submission(placeName).value
  {
    TrimIdempotent(placeName);
  }

  /** The dialog's own state: the text in the name field. */
  class Modal {
    var placeName: string

    constructor ()
      ensures placeName == ""
    {
      placeName := "";
    }

    /** The effect on `isOpen`: opening clears the field, closing leaves it. */
    method OnIsOpenChanged(isOpen: bool)
      modifies this
      ensures placeName == if isOpen then "" else old(placeName)
    {
      if isOpen {
        placeName := "";
      }
    }

    /** The field's `onChange`. */
    method Edit(text: string)
      modifies this
      ensures placeName == text
    {
      placeName := text;
    }

    /**
     `handleSubmit`: `saved` is what `onSave` receives, if it is called. A blank
     name calls nothing and keeps the field; otherwise the trimmed name is passed
     and the field is cleared.
     */
    method HandleSubmit() returns (saved: Option<string>)
      modifies this
      ensures saved == Submission(old(placeName))
      ensures placeName == if saved.Some? then "" else old(placeName)
    {
      saved := Submission(placeName);
      if saved.Some? {
        placeName := "";
      }
    }
  }
}
