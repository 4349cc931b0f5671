/**
 * The feedback form's submit handler: validation, the payload handed to the
 * feedback store, and the form reset. The form fields are the state of a
 * `ReportForm`; the store's answer is a parameter of the step that awaits it.
 */
module Report {
  import opened Wrappers
  import opened Js
  import opened Text
  import opened Types
  import Feedback

  /** An alert the handler raises: a title and a message. */
  datatype Notice = Notice(title: string, message: Json)

  /** The first validation message that applies, in the order subject, description, email; None when the form passes. */
  function Validate(subject: string, description: string, email: string): (r: Option<string>)
    ensures Trim(subject) == "" ==> r == Some("Please enter a subject")
    ensures Trim(subject) != "" && Trim(description) == "" ==> r == Some("Please enter a description")
    ensures r.None? <==> Trim(subject) != "" && Trim(description) != "" && (email == "" || '@' in email)
  {
    ContainsChar(email, '@');
    if Trim(subject) == "" then Some("Please enter a subject")
    else if Trim(description) == "" then Some("Please enter a description")
    else if email != "" && !Contains(email, "@") then Some("Please enter a valid email address")
    else None
  }

  /** `s.includes(c)` for a one-character pattern is membership. */
  lemma ContainsChar(s: string, c: char)
    ensures Contains(s, [c]) <==> c in s
  {
    if c in s {
      var j :| 0 <= j < |s| && s[j] == c;
      assert OccursAt(s, [c], j);
    }
    if Contains(s, [c]) {
      var j :| OccursAt(s, [c], j);
      assert s[j] == s[j..j + 1][0];
    }
  }

  /** The payload: trimmed subject and description, the rating only above 0, the trimmed email or nothing. */
  function Payload(category: string, subject: string, description: string, rating: int, email: string): (d: Feedback.FeedbackData)
    ensures d.category == category && d.subject == Trim(subject) && d.description == Trim(description)
    ensures d.rating.Some? <==> rating > 0
    ensures d.rating.Some? ==> d.rating.value == rating
    ensures d.email.None? <==> Trim(email) == ""
  {
    Feedback.FeedbackData(
      category, Trim(subject), Trim(description),
      if rating > 0 then Some(rating) else None,
      if Trim(email) == "" then None else Some(Trim(email)))
  }

  /** A form that passes validation sends a non-blank subject and description, and an email only if it has an '@'. */
  lemma ValidPayload(category: string, subject: string, description: string, rating: int, email: string)
    requires Validate(subject, description, email).None?
    ensures var d := Payload(category, subject, description, rating, email);
      d.subject != "" && d.description != "" && (d.email.Some? ==> '@' in d.email.value)
  {
    var d := Payload(category, subject, description, rating, email);
    if d.email.Some? {
      var j :| 0 <= j < |email| && email[j] == '@';
      TrimKeepsAt(email, j);
    }
  }

  const SUCCESS_MESSAGE: string := "Thank you for your feedback! We will review it and get back to you soon."
  const FAILURE_MESSAGE: string := "Failed to submit feedback. Please try again."
  const FALLBACK_MESSAGE: string := "An unexpected error occurred. Please try again."

  class ReportForm {
    var category: string
    var subject: string
    var description: string
    var rating: int
    var email: string
    var isSubmitting: bool

    /** A fresh form: category 'improvement', everything else blank. */
    constructor ()
      ensures category == "improvement" && subject == "" && description == "" && rating == 0 && email == ""
      ensures !isSubmitting
    {
      category, subject, description, rating, email := "improvement", "", "", 0, "";
      isSubmitting := false;
    }

    /**
     * The synchronous half of `handleSubmit`: a form that fails validation
     * raises the matching alert and changes nothing; a valid one starts
     * submitting and yields the payload for the store.
     */
    method BeginSubmit() returns (alert: Option<Notice>, payload: Option<Feedback.FeedbackData>)
      modifies this
      ensures var v := Validate(old(subject), old(description), old(email));
        (v.Some? ==> alert == Some(Notice("Error", Str(v.value))) && payload.None? && isSubmitting == old(isSubmitting))
        && (v.None? ==>
              alert.None? && isSubmitting && payload == Some(Payload(category, subject, description, rating, email)))
      ensures category == old(category) && subject == old(subject) && description == old(description)
      ensures rating == old(rating) && email == old(email)
    {
      var v := Validate(subject, description, email);
      if v.Some? {
        return Some(Notice("Error", Str(v.value))), None;
      }
      isSubmitting := true;
      alert := None;
      payload := Some(Payload(category, subject, description, rating, email));
    }

    /**
     * The rest of `handleSubmit`, once the store answered (or threw): on
     * success the subject, description, rating and email are reset, the
     * category is kept; on failure the store's error (or a fallback) is
     * shown and the form is kept. Submitting ends on every path.
     */
    method FinishSubmit(answer: Completion<ApiResponse<Json>>) returns (alert: Notice)
      modifies this
      ensures !isSubmitting && category == old(category)
      ensures answer.Returned? && answer.value.success ==>
        subject == "" && description == "" && rating == 0 && email == ""
        && alert == Notice("Success", Str(SUCCESS_MESSAGE))
      ensures !(answer.Returned? && answer.value.success) ==>
        subject == old(subject) && description == old(description) && rating == old(rating) && email == old(email)
      ensures answer.Returned? && !answer.value.success ==>
        alert == Notice("Error", if Present(answer.value.error) then answer.value.error.value else Str(FAILURE_MESSAGE))
      ensures answer.Threw? ==> alert == Notice("Error", Str(FALLBACK_MESSAGE))
    {
      if answer.Threw? {
        alert := Notice("Error", Str(FALLBACK_MESSAGE));
      } else if answer.value.success {
        alert := Notice("Success", Str(SUCCESS_MESSAGE));
        subject, description, rating, email := "", "", 0, "";
      } else {
        var error := answer.value.error;
        alert := Notice("Error", if Present(error) then error.value else Str(FAILURE_MESSAGE));
      }
      isSubmitting := false;
    }
  }
}
