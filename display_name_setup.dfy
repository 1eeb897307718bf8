/**
 * The profile dialog's display-name form: a guard chain on the trimmed name, then a call to the
 * caller's `onComplete` while the form shows a loading state, clearing the field on success.
 */
module DisplayNameSetup {
  import opened Wrappers
  import opened Strings

  const MinLength: nat := 2
  const MaxLength: nat := 50

  /** The three refusals, one per error message of the form. */
  datatype NameError = EmptyName | TooShort | TooLong

  /** The guard chain of the submit handler: the trimmed name is refused when empty, shorter than
      2 or longer than 50, in that order, and is otherwise what gets submitted. Lengths are
      JavaScript's `length`, in UTF-16 code units. */
  function ValidateDisplayName(displayName: string): (r: Result<string, NameError>)
    ensures r.Success? <==> MinLength <= Utf16Length(Trim(displayName)) <= MaxLength
    ensures r.Success? ==> r.value == Trim(displayName)
    ensures r == Failure(EmptyName) <==> AllWhitespace(displayName)
    ensures r == Failure(TooShort) <==> Utf16Length(Trim(displayName)) == 1
    ensures r == Failure(TooLong) <==> Utf16Length(Trim(displayName)) > MaxLength
  {
    var trimmed := Trim(displayName);
    if trimmed == [] then Failure(EmptyName)
    else if Utf16Length(trimmed) < MinLength then Failure(TooShort)
    else if Utf16Length(trimmed) > MaxLength then Failure(TooLong)
    else Success(trimmed)
  }

  /** A name the form accepts is accepted again, unchanged, when submitted a second time. */
  lemma AcceptedNameIsStable(displayName: string)
    requires ValidateDisplayName(displayName).Success?
    ensures ValidateDisplayName(ValidateDisplayName(displayName).value) == ValidateDisplayName(displayName)
  {
    TrimIdempotent(displayName);
  }

  /** A name made only of characters outside the Basic Multilingual Plane, such as emoji, counts
      two code units per character: it is accepted, unchanged, exactly when it has at most 25
      characters, so a single emoji passes the guard against names shorter than 2. */
  lemma SupplementaryNames(s: string)
    requires s != [] && forall i :: 0 <= i < |s| ==> IsSupplementary(s[i])
    ensures ValidateDisplayName(s).Success? <==> |s| <= 25
    ensures ValidateDisplayName(s).Success? ==> ValidateDisplayName(s).value == s
  {
    assert !IsJsWhitespace(s[0]) && !IsJsWhitespace(s[|s| - 1]);
    assert TrimStart(s) == s;
    assert TrimEnd(s) == s;
    Utf16LengthOfSupplementary(s);
  }

  /** How the promise returned by `onComplete` settles. */
  datatype Completion = Resolved(success: bool) | Rejected

  /** The state of the form: the text field and the loading flag. */
  class DisplayNameForm {
    var displayName: string
    var loading: bool

    constructor ()
      ensures displayName == [] && !loading
    {
      displayName := [];
      loading := false;
    }

    /** The submit button is disabled while loading and while the trimmed name is empty. */
    function SubmitDisabled(): (disabled: bool)
      reads this
      ensures disabled <==> loading || AllWhitespace(displayName)
    {
      loading || Trim(displayName) == []
    }

    /** Typing into the field; the field is disabled while loading. */
    method Edit(value: string)
      requires !loading
      modifies this
      ensures displayName == value && !loading
    {
      displayName := value;
    }

    /** The submit handler. `outcome` is how the caller's `onComplete` settles; the result is the
        name `onComplete` was called with, or `None` when the guard chain refused the name and
        `onComplete` was not called. The field is cleared only when `onComplete` resolves to
        success. Nothing catches a rejection, so a rejected `onComplete` leaves the form loading,
        with its button disabled and its field locked. */
    method HandleSubmit(outcome: Completion) returns (submitted: Option<string>)
      requires !loading
      modifies this
      ensures submitted.Some? <==> MinLength <= Utf16Length(Trim(old(displayName))) <= MaxLength
      ensures submitted.Some? ==> submitted.value == Trim(old(displayName))
      ensures displayName == if submitted.Some? && outcome == Resolved(true) then [] else old(displayName)
      ensures loading <==> submitted.Some? && outcome.Rejected?
      ensures submitted.Some? && outcome.Rejected? ==> SubmitDisabled()
    {
      var checked := ValidateDisplayName(displayName);
      if checked.Failure? {
        return None;
      }
      loading := true;
      submitted := Some(checked.value);
      if outcome.Rejected? {
        return;
      }
      if outcome.success {
        displayName := [];
      }
      loading := false;
    }
  }
}
