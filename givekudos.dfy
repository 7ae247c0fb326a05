/**
 * The give-kudos form (components/GiveKudosModal.tsx): the selected
 * recipient, the message truncated to 500 code units, the submit guard,
 * the request it sends, the error notice and the reset after success.
 */
module GiveKudos {
  import opened Wrappers
  import opened KudosTypes
  import opened JsText
  import Auth

  const MaxLength: int := 500
  const FallbackErrorMessage: string := "Failed to give kudos. Please try again."

  /** The message as stored after an edit: `value.slice(0, 500)`. */
  function Truncate(input: string): (m: string)
    ensures |m| <= MaxLength && |m| <= |input|
    ensures m == input[..|m|]
    ensures |input| <= MaxLength ==> m == input
    ensures |input| > MaxLength ==> |m| == MaxLength
  {
    if |input| <= MaxLength then input else input[..MaxLength]
  }

  /** Truncating a stored message again leaves it as it is. */
  lemma TruncateIdempotent(input: string)
    ensures Truncate(Truncate(input)) == Truncate(input)
  {
  }

  /** The character counter under the text area. */
  function RemainingChars(message: string): (r: int)
    ensures r + |message| == MaxLength
    ensures |message| <= MaxLength ==> 0 <= r <= MaxLength
  {
    MaxLength - |message|
  }

  /** A recipient is selected when the id is set and truthy (not 0). */
  predicate HasRecipient(selected: Option<int>)
    ensures HasRecipient(selected) <==> selected != None && selected != Some(0)
  {
    selected.Some? && selected.value != 0
  }

  /** The guard at the top of the submit handler: it blocks exactly a missing recipient or a blank message. */
  predicate CanSubmit(selected: Option<int>, message: string)
    ensures CanSubmit(selected, message) <==> HasRecipient(selected) && !Blank(message)
  {
    TrimEmptyIffBlank(message);
    HasRecipient(selected) && Truthy(Trim(message))
  }

  /** Whitespace around the message never changes the guard's answer. */
  lemma GuardIgnoresPadding(selected: Option<int>, message: string)
    ensures CanSubmit(selected, message) <==> CanSubmit(selected, Trim(message))
  {
    TrimIdempotent(message);
    TrimEmptyIffBlank(Trim(message));
  }

  /** The submit button's enable rule. */
  function SubmitEnabled(loading: bool, selected: Option<int>, message: string): (enabled: bool)
    ensures enabled <==> !loading && HasRecipient(selected) && !Blank(message)
    ensures enabled ==> CanSubmit(selected, message)
  {
    TrimEmptyIffBlank(message);
    !(loading || !HasRecipient(selected) || !Truthy(Trim(message)))
  }

  /** The body posted on submit. */
  function BuildRequest(selected: Option<int>, message: string): (req: GiveKudosRequest)
    requires CanSubmit(selected, message)
    ensures req.toUserId == selected.value && req.toUserId != 0
    ensures req.message == Trim(message) && req.message != ""
    ensures !IsTrimmable(req.message[0]) && !IsTrimmable(req.message[|req.message| - 1])
  {
    GiveKudosRequest(selected.value, Trim(message))
  }

  /** `non_field_errors?.[0]`, missing when the list is absent or empty. */
  function FirstNonFieldError(e: ApiError): Option<string> {
    var errors := NonFieldErrors(e);
    if errors.Some? && |errors.value| > 0 then Some(errors.value[0]) else None
  }

  /** The error notice after a failed send: the first truthy of the two fields, then the fallback. */
  function GiveErrorMessage(e: ApiError): (m: string)
    ensures Truthy(m)
    ensures Present(FirstNonFieldError(e)) ==> m == FirstNonFieldError(e).value
    ensures !Present(FirstNonFieldError(e)) && Present(Detail(e)) ==> m == Detail(e).value
    ensures !Present(FirstNonFieldError(e)) && !Present(Detail(e)) ==> m == FallbackErrorMessage
  {
    if Present(FirstNonFieldError(e)) then FirstNonFieldError(e).value
    else if Present(Detail(e)) then Detail(e).value
    else FallbackErrorMessage
  }

  /**
   * The form's precedence is the reverse of the login's: when a body has
   * both a `detail` and a `non_field_errors` entry, login shows the detail
   * and the form shows the field error.
   */
  lemma PrecedenceReversed(detail: string, fieldError: string, status: int, message: string)
    requires Truthy(detail) && Truthy(fieldError)
    ensures var e := ApiError(Some(ErrorResponse(status, ErrorData(Some(detail), Some([fieldError])))), message);
      Auth.LoginErrorMessage(e) == Some(detail) && GiveErrorMessage(e) == fieldError
  {
  }

  /** An empty `non_field_errors` list leaves the login notice undefined but not the form's. */
  lemma EmptyFieldErrors(status: int, message: string)
    ensures var e := ApiError(Some(ErrorResponse(status, ErrorData(None, Some([])))), message);
      Auth.LoginErrorMessage(e) == None && GiveErrorMessage(e) == FallbackErrorMessage
  {
  }

  class GiveKudosForm {
    var selectedUserId: Option<int>
    var message: string
    var loading: bool
    /** The dialog's open state, which the form changes through `onOpenChange`. */
    var open: bool

    /** The stored message never exceeds the limit. */
    ghost predicate Valid()
      reads this
    {
      |message| <= MaxLength
    }

    constructor (open: bool)
      ensures Valid() && selectedUserId == None && message == "" && !loading && this.open == open
    {
      selectedUserId, message, loading := None, "", false;
      this.open := open;
    }

    /** A click on a teammate. */
    method SelectUser(id: int)
      requires Valid()
      modifies this
      ensures Valid() && selectedUserId == Some(id)
      ensures message == old(message) && loading == old(loading) && open == old(open)
    {
      selectedUserId := Some(id);
    }

    /** An edit of the text area. */
    method ChangeMessage(input: string)
      requires Valid()
      modifies this
      ensures Valid() && message == Truncate(input)
      ensures 0 <= RemainingChars(message) <= MaxLength
      ensures selectedUserId == old(selectedUserId) && loading == old(loading) && open == old(open)
    {
      message := Truncate(input);
    }

    /**
     * The submit handler up to its network call: `request` is the body
     * posted, and nothing happens when the guard rejects the form.
     */
    method BeginSubmit() returns (request: Option<GiveKudosRequest>)
      requires Valid()
      modifies this
      ensures Valid()
      ensures request.Some? <==> CanSubmit(old(selectedUserId), old(message))
      ensures request.Some? ==> request.value == BuildRequest(old(selectedUserId), old(message)) && loading
      ensures request.None? ==> loading == old(loading)
      ensures selectedUserId == old(selectedUserId) && message == old(message) && open == old(open)
    {
      if !HasRecipient(selectedUserId) || !Truthy(Trim(message)) {
        return None;
      }
      loading := true;
      request := Some(BuildRequest(selectedUserId, message));
    }

    /**
     * The rest of the submit handler once the call settles with `result`:
     * `succeeded` says whether the parent's `onSuccess` was called, and
     * `errorNotice` is the error notice's text.
     */
    method CompleteSubmit(result: Result<Kudo, ApiError>) returns (succeeded: bool, errorNotice: Option<string>)
      requires Valid()
      modifies this
      ensures Valid() && !loading
      ensures succeeded <==> result.Success?
      ensures result.Success? ==> selectedUserId == None && message == "" && !open && errorNotice == None
      ensures result.Failure? ==>
        && selectedUserId == old(selectedUserId) && message == old(message) && open == old(open)
        && errorNotice == Some(GiveErrorMessage(result.error))
    {
      if result.Success? {
        selectedUserId := None;
        message := "";
        open := false;
        succeeded, errorNotice := true, None;
      } else {
        succeeded, errorNotice := false, Some(GiveErrorMessage(result.error));
      }
      loading := false;
    }
  }

  /** Without a recipient, or with a blank message, a submit sends nothing. */
  method GuardedSubmitSendsNothing(id: int, text: string)
  {
    var form := new GiveKudosForm(true);
    form.ChangeMessage(text);
    var request := form.BeginSubmit();
    assert request == None && !form.loading;
    form.SelectUser(id);
    form.ChangeMessage(" \n\t ");
    assert Blank(form.message);
    request := form.BeginSubmit();
    assert request == None && !form.loading;
  }
}
