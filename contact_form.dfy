/**
  The validation step of the contact form's submit handler: the three field
  values decide whether the "all fields are required" error, the "enter a
  valid email" error or the simulated submission follows.
 */
module ContactForm {
  import opened Text
  import opened Email

  /** What the submit handler does next. */
  datatype Outcome =
    | FieldsRequired   // 'Tous les champs sont requis !'
    | InvalidEmail     // 'Veuillez entrer un email valide'
    | Submitted        // the simulated sending starts

  /** The handler's two guards, in their order: a field whose trimmed value is
      empty first, the email pattern second. */
  function Validate(name: string, email: string, message: string): Outcome {
    if Trim(name) == "" || Trim(email) == "" || Trim(message) == "" then
      FieldsRequired
    else if !IsValidEmail(email) then
      InvalidEmail
    else
      Submitted
  }

  /** The blank check wins over the email check; the email error is reported
      exactly for non-blank fields with an email the pattern rejects; every
      other input is submitted. */
  lemma ValidateOutcomes(name: string, email: string, message: string)
    ensures Validate(name, email, message) == FieldsRequired
            <==> IsBlank(name) || IsBlank(email) || IsBlank(message)
    ensures Validate(name, email, message) == InvalidEmail
            <==> !IsBlank(name) && !IsBlank(email) && !IsBlank(message) && !IsValidEmail(email)
    ensures Validate(name, email, message) == Submitted
            <==> !IsBlank(name) && !IsBlank(message) && IsValidEmail(email)
  {
    TrimEmptyIffBlank(name);
    TrimEmptyIffBlank(email);
    TrimEmptyIffBlank(message);
    if IsValidEmail(email) {
      ValidEmailIsNotBlank(email);
    }
  }

  /** An address the pattern accepts is never blank, so a submitted email is
      one the pattern accepts and nothing more. */
  lemma ValidEmailIsNotBlank(email: string)
    requires IsValidEmail(email)
    ensures !IsBlank(email)
  {
    var a, d :| 0 <= a < d < |email| && email[a] == '@' && email[d] == '.'
      && IsAtom(email[..a]) && IsAtom(email[a + 1..d]) && IsAtom(email[d + 1..]);
    assert !IsWhitespace(email[a]);
  }

  /** What a submitted form's email looks like: no whitespace, one `@` with
      text before it, and an interior dot after it. */
  lemma SubmittedEmailIsWellFormed(name: string, email: string, message: string)
    requires Validate(name, email, message) == Submitted
    ensures IsWellFormedAddress(email)
  {
    IsValidEmailIff(email);
  }
}
