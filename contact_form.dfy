/**
 * The contact form (`Contact`).
 *
 * Four inputs (name, e-mail, subject, message). On submit every field is
 * checked at once: name and subject must not be blank, the e-mail must match
 * the anchored contact-page pattern, and the trimmed message must be at least
 * ten characters long. Typing into a field blanks that field's message; a
 * successful submission empties the form once it completes.
 */
module ContactForm {
  import opened Wrappers
  import opened Text
  import opened EmailPatterns

  datatype ContactField = Name | Email | Subject | Message

  datatype ContactMessage = ContactMessage(name: string, email: string, subject: string, message: string)
  {
    function Get(f: ContactField): string {
      match f
      case Name => name
      case Email => email
      case Subject => subject
      case Message => message
    }

    /** `{ ...prev, [name]: value }` */
    function Set(f: ContactField, v: string): (r: ContactMessage)
      ensures r.Get(f) == v
      ensures forall g :: g != f ==> r.Get(g) == Get(g)
    {
      match f
      case Name => this.(name := v)
      case Email => this.(email := v)
      case Subject => this.(subject := v)
      case Message => this.(message := v)
    }
  }

  const EmptyMessage := ContactMessage("", "", "", "")

  /** The minimum length of the trimmed message, in UTF-16 code units as `length` counts them. */
  const MinMessageLength := 10

  /** The messages `validate()` can report. */
  datatype ContactError =
    | NameRequired | EmailRequired | EmailInvalid | SubjectRequired | MessageRequired | MessageTooShort
  {
    function Text(): string {
      match this
      case NameRequired => "Name is required"
      case EmailRequired => "Email is required"
      case EmailInvalid => "Invalid email address"
      case SubjectRequired => "Subject is required"
      case MessageRequired => "Message is required"
      case MessageTooShort => "Message must be at least 10 characters"
    }

    /** The input the message is shown under. */
    function Field(): ContactField {
      match this
      case NameRequired => Name
      case EmailRequired | EmailInvalid => Email
      case SubjectRequired => Subject
      case MessageRequired | MessageTooShort => Message
    }
  }

  type ContactErrorMap = map<ContactField, ContactError>

  /** The check of one field: `None` when it passes. */
  function FieldError(m: ContactMessage, f: ContactField): (r: Option<ContactError>)
    ensures r.Some? ==> r.value.Field() == f
  {
    match f
    case Name => if Trim(m.name) == "" then Some(NameRequired) else None
    case Email =>
      if Trim(m.email) == "" then Some(EmailRequired)
      else if !StrictEmail(m.email) then Some(EmailInvalid)
      else None
    case Subject => if Trim(m.subject) == "" then Some(SubjectRequired) else None
    case Message =>
      if Trim(m.message) == "" then Some(MessageRequired)
      else if Utf16Length(Trim(m.message)) < MinMessageLength then Some(MessageTooShort)
      else None
  }

  /** `validate()`'s `newErrors`: one message per field that fails its check. */
  function ContactErrors(m: ContactMessage): (errors: ContactErrorMap)
    ensures forall f :: f in errors ==> errors[f].Field() == f
  {
    map f | f in {Name, Email, Subject, Message} && FieldError(m, f).Some? :: FieldError(m, f).value
  }

  /** Name and subject are reported exactly when they are blank. */
  lemma RequiredFieldsChecked(m: ContactMessage)
    ensures Name in ContactErrors(m) <==> AllSpace(m.name)
    ensures Subject in ContactErrors(m) <==> AllSpace(m.subject)
    ensures Name in ContactErrors(m) ==> ContactErrors(m)[Name] == NameRequired
    ensures Subject in ContactErrors(m) ==> ContactErrors(m)[Subject] == SubjectRequired
  {
    TrimBlank(m.name);
    TrimBlank(m.subject);
  }

  /**
   * The e-mail is reported as required when blank, and otherwise as invalid
   * unless the whole of it matches the contact pattern.
   */
  lemma EmailChecked(m: ContactMessage)
    ensures Email in ContactErrors(m) <==> AllSpace(m.email) || !StrictEmail(m.email)
    ensures Email in ContactErrors(m) ==>
              ContactErrors(m)[Email] == if AllSpace(m.email) then EmailRequired else EmailInvalid
  {
    TrimBlank(m.email);
  }

  /**
   * The message is reported when fewer than ten UTF-16 code units remain
   * after trimming: as required when nothing remains, as too short otherwise.
   */
  lemma MessageChecked(m: ContactMessage)
    ensures Message in ContactErrors(m) <==> Utf16Length(Trim(m.message)) < MinMessageLength
    ensures Message in ContactErrors(m) ==>
              ContactErrors(m)[Message] == if AllSpace(m.message) then MessageRequired else MessageTooShort
  {
    TrimBlank(m.message);
  }

  /**
   * Five emoji outside the Basic Multilingual Plane make a message of length
   * 10, so the message check lets them through although they are five
   * characters.
   */
  lemma EmojiMessageAccepted(m: ContactMessage)
    requires m.message == "\U{1F600}\U{1F600}\U{1F600}\U{1F600}\U{1F600}"
    ensures Message !in ContactErrors(m)
  {
    var s := m.message;
    assert Trim(s) == s by {
      assert TrimStart(s) == s;
      assert TrimEnd(s) == s;
    }
    assert Utf16Length(s[..1]) == 2;
    assert s[..2][..1] == s[..1];
    assert Utf16Length(s[..2]) == 4;
    assert s[..3][..2] == s[..2];
    assert Utf16Length(s[..3]) == 6;
    assert s[..4][..3] == s[..3];
    assert Utf16Length(s[..4]) == 8;
    assert s[..4] == s[..|s| - 1];
    assert Utf16Length(s) == 10;
    MessageChecked(m);
  }

  /** `setErrors(newErrors)`: the texts the page shows. */
  function Shown(e: ContactErrorMap): map<ContactField, string> {
    map f | f in e :: e[f].Text()
  }

  /** The form is acceptable: the four checks, stated on their own. */
  predicate Acceptable(m: ContactMessage) {
    && !AllSpace(m.name) && !AllSpace(m.subject)
    && StrictEmail(m.email)
    && Utf16Length(Trim(m.message)) >= MinMessageLength
  }

  /** No error is reported exactly when the form is acceptable. */
  lemma NoErrorsIffAcceptable(m: ContactMessage)
    ensures ContactErrors(m) == map[] <==> Acceptable(m)
  {
    var e := ContactErrors(m);
    RequiredFieldsChecked(m);
    EmailChecked(m);
    MessageChecked(m);
    if StrictEmail(m.email) {
      StrictNotBlank(m.email);
    }
    if Acceptable(m) {
      assert forall f :: f !in e;
    }
  }

  /** An address the contact pattern accepts is never blank. */
  lemma StrictNotBlank(s: string)
    requires StrictEmail(s)
    ensures !AllSpace(s)
  {
    var a, d :| 0 <= a < d < |s| && StrictMatch(s, a, d);
    assert s[a] == '@';
  }

  /** Padding the address with a space makes the anchored pattern refuse it. */
  lemma PaddedEmailRefused(m: ContactMessage)
    requires |m.email| >= 1 && m.email[0] == ' '
    ensures Email in ContactErrors(m)
  {
    EmailChecked(m);
    assert !IsLocalChar(m.email[0]);
  }

  /** The contact page: the four inputs, the shown messages, and the sending flag. */
  class ContactPage {
    var formData: ContactMessage
    /** A message cleared by typing is kept as "" rather than removed. */
    var errors: map<ContactField, string>
    var isSubmitting: bool

    constructor ()
      ensures formData == EmptyMessage && errors == map[] && !isSubmitting
    {
      formData := EmptyMessage;
      errors := map[];
      isSubmitting := false;
    }

    /** `errors[name]` is truthy. */
    predicate HasError(f: ContactField)
      reads this
    {
      f in errors && errors[f] != ""
    }

    /** `handleChange`: typing into input `f`. */
    method HandleChange(f: ContactField, value: string)
      modifies this
      ensures formData == old(formData).Set(f, value)
      ensures errors == if old(HasError(f)) then old(errors)[f := ""] else old(errors)
      ensures isSubmitting == old(isSubmitting)
    {
      formData := formData.Set(f, value);
      if HasError(f) {
        errors := errors[f := ""];
      }
    }

    /** `validate()`: stores the fresh error map and reports whether it is empty. */
    method Validate() returns (ok: bool)
      modifies this
      ensures errors == Shown(ContactErrors(formData))
      ensures ok <==> Acceptable(formData)
      ensures formData == old(formData) && isSubmitting == old(isSubmitting)
    {
      var newErrors := ContactErrors(formData);
      NoErrorsIffAcceptable(formData);
      errors := Shown(newErrors);
      ok := newErrors == map[];
    }

    /** `handleSubmit`: the sending starts only when the form is acceptable. */
    method HandleSubmit()
      modifies this
      ensures errors == Shown(ContactErrors(old(formData))) && formData == old(formData)
      ensures isSubmitting == (old(isSubmitting) || Acceptable(old(formData)))
    {
      var ok := Validate();
      if ok {
        isSubmitting := true;
      }
    }

    /** The end of the simulated sending: the form is emptied. */
    method CompleteSubmission()
      modifies this
      ensures formData == EmptyMessage && !isSubmitting
      ensures errors == old(errors)
    {
      formData := EmptyMessage;
      isSubmitting := false;
    }
  }

}
