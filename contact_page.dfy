/**
 * The contact page (components/pages/ContactPage.tsx): its validator, which collects every
 * failing field into a field-to-message map, the input handler, and the simulated submit.
 */
module Contact {
  import opened Wrappers
  import opened Text
  import opened EmailRules

  datatype ContactForm = ContactForm(name: string, email: string, subject: string, message: string)

  /** The form's fields, which are also the keys of its error map. */
  datatype Field = NameField | EmailField | SubjectField | MessageField

  function FieldName(k: Field): string {
    match k
    case NameField => "name"
    case EmailField => "email"
    case SubjectField => "subject"
    case MessageField => "message"
  }

  const NameRequired := "Name is required"
  const EmailRequired := "Email is required"
  const EmailInvalid := "Email is invalid"
  const SubjectRequired := "Subject is required"
  const MessageRequired := "Message is required"
  const MessageTooShort := "Message must be at least 10 characters"

  /** The shortest message, counted after trimming, that the validator accepts. */
  const MinMessageLength := 10

  /** The message the rule for `k` gives the form, or None when that rule passes. */
  function RuleFor(f: ContactForm, k: Field): Option<string> {
    match k
    case NameField => if IsBlank(f.name) then Some(NameRequired) else None
    case EmailField =>
      if IsBlank(f.email) then Some(EmailRequired)
      else if !ClientEmailOk(f.email) then Some(EmailInvalid)
      else None
    case SubjectField => if f.subject == "" then Some(SubjectRequired) else None
    case MessageField =>
      if IsBlank(f.message) then Some(MessageRequired)
      else if |Trim(f.message)| < MinMessageLength then Some(MessageTooShort)
      else None
  }

  /** The entries of the error map for the rules of the fields in `keys`. */
  function ViolationsAmong(f: ContactForm, keys: set<Field>): map<Field, string> {
    map k | k in keys && RuleFor(f, k).Some? :: RuleFor(f, k).value
  }

  /** Reference definition of the error map: one entry per failing rule, nothing else. */
  function Violations(f: ContactForm): map<Field, string> {
    ViolationsAmong(f, {NameField, EmailField, SubjectField, MessageField})
  }

  /** Checking one more rule adds its entry when it fails and nothing otherwise. */
  lemma AddRule(f: ContactForm, keys: set<Field>, k: Field)
    ensures ViolationsAmong(f, keys + {k}) ==
      if RuleFor(f, k).Some? then ViolationsAmong(f, keys)[k := RuleFor(f, k).value]
      else ViolationsAmong(f, keys)
  {
  }

  /** The validator checks the fields in this order, and they are all of them. */
  lemma RulesInOrder()
    ensures {} + {NameField} + {EmailField} + {SubjectField} + {MessageField} == {NameField, EmailField, SubjectField, MessageField}
  {
  }

  /**
   * `validateForm`: checks the four rules one after another, recording each failure, and
   * reports whether none failed.
   */
  method ValidateForm(f: ContactForm) returns (errors: map<Field, string>, valid: bool)
    ensures errors == Violations(f)
    ensures valid <==> errors == map[]
  {
    errors := map[];
    ghost var checked: set<Field> := {};
    assert errors == ViolationsAmong(f, checked);
    if IsBlank(f.name) {
      errors := errors[NameField := NameRequired];
    }
    AddRule(f, checked, NameField);
    checked := checked + {NameField};
    assert errors == ViolationsAmong(f, checked);
    if IsBlank(f.email) {
      errors := errors[EmailField := EmailRequired];
    } else if !ClientEmailOk(f.email) {
      errors := errors[EmailField := EmailInvalid];
    }
    AddRule(f, checked, EmailField);
    checked := checked + {EmailField};
    assert errors == ViolationsAmong(f, checked);
    if f.subject == "" {
      errors := errors[SubjectField := SubjectRequired];
    }
    AddRule(f, checked, SubjectField);
    checked := checked + {SubjectField};
    assert errors == ViolationsAmong(f, checked);
    if IsBlank(f.message) {
      errors := errors[MessageField := MessageRequired];
    } else if |Trim(f.message)| < MinMessageLength {
      errors := errors[MessageField := MessageTooShort];
    }
    AddRule(f, checked, MessageField);
    checked := checked + {MessageField};
    RulesInOrder();
    valid := errors == map[];
  }

  /** An error map built by the validator is empty exactly when no rule fails. */
  lemma ValidIffAllRulesPass(f: ContactForm)
    ensures Violations(f) == map[] <==> forall k :: RuleFor(f, k).None?
  {
    var v := Violations(f);
    if v == map[] {
      forall k ensures RuleFor(f, k).None? {
        assert k !in v;
      }
    }
  }

  /** The four rules pass exactly when these conditions hold. */
  lemma AllRulesPassIff(f: ContactForm)
    ensures (forall k :: RuleFor(f, k).None?) <==>
      && !IsBlank(f.name) && !IsBlank(f.email) && ClientEmailOk(f.email)
      && f.subject != "" && |Trim(f.message)| >= MinMessageLength
  {
    if forall k :: RuleFor(f, k).None? {
      assert RuleFor(f, NameField).None? && RuleFor(f, EmailField).None?;
      assert RuleFor(f, SubjectField).None? && RuleFor(f, MessageField).None?;
    } else {
      var k :| RuleFor(f, k).Some?;
      match k
      case NameField =>
      case EmailField =>
      case SubjectField =>
      case MessageField =>
    }
  }

  /**
   * The message rule by trimmed length: blank is 'required', 1 to 9 characters is 'too
   * short', 10 or more passes.
   */
  lemma MessageRuleByLength(f: ContactForm)
    ensures |Trim(f.message)| == 0 ==> Violations(f)[MessageField] == MessageRequired
    ensures 0 < |Trim(f.message)| < MinMessageLength ==> Violations(f)[MessageField] == MessageTooShort
    ensures |Trim(f.message)| >= MinMessageLength ==> MessageField !in Violations(f)
  {
  }

  /** The subject is not trimmed: a subject of one space passes. */
  lemma SubjectNotTrimmed(f: ContactForm)
    requires f.subject == " "
    ensures SubjectField !in Violations(f)
  {
  }

  /** The length the page's counter shows: the untrimmed message length. */
  function CounterLength(f: ContactForm): nat {
    |f.message|
  }

  /**
   * The counter and the rule disagree on padded messages: "a" followed by nine spaces shows
   * 10 on the counter and is still refused as too short.
   */
  lemma PaddedMessageRefused(f: ContactForm)
    requires f.message == "a         "
    ensures CounterLength(f) == MinMessageLength
    ensures MessageField in Violations(f) && Violations(f)[MessageField] == MessageTooShort
  {
    TrimLeadingWord(f.message);
  }

  /** The field an edit of `field` writes, if it is one of the form's four. */
  function KeyNamed(field: string): (r: Option<Field>)
    ensures r.Some? ==> FieldName(r.value) == field
    ensures r.None? ==> forall k :: FieldName(k) != field
  {
    if field == "name" then Some(NameField)
    else if field == "email" then Some(EmailField)
    else if field == "subject" then Some(SubjectField)
    else if field == "message" then Some(MessageField)
    else None
  }

  /** The form after `handleInputChange(field, value)`. */
  function WithField(f: ContactForm, field: string, value: string): ContactForm {
    match KeyNamed(field)
    case Some(NameField) => f.(name := value)
    case Some(EmailField) => f.(email := value)
    case Some(SubjectField) => f.(subject := value)
    case Some(MessageField) => f.(message := value)
    case None => f
  }

  /** The error map after an edit of `field`: its entry, if set, becomes "". */
  function ClearedOnInput(errors: map<Field, string>, field: string): (r: map<Field, string>)
    ensures r.Keys == errors.Keys
    ensures forall k :: k in errors && FieldName(k) != field ==> r[k] == errors[k]
    ensures forall k :: k in errors && FieldName(k) == field ==> r[k] == ""
  {
    match KeyNamed(field)
    case Some(k) => if k in errors && errors[k] != "" then errors[k := ""] else errors
    case None => errors
  }

  /** An edit sets the edited field and leaves the other three as they were. */
  lemma EditSetsOnlyItsField(f: ContactForm, k: Field, value: string)
    ensures var g := WithField(f, FieldName(k), value);
      && (g.name == if k == NameField then value else f.name)
      && (g.email == if k == EmailField then value else f.email)
      && (g.subject == if k == SubjectField then value else f.subject)
      && (g.message == if k == MessageField then value else f.message)
  {
    assert KeyNamed(FieldName(k)) == Some(k);
  }

  const EmptyForm := ContactForm("", "", "", "")

  class ContactPage {
    var form: ContactForm
    var errors: map<Field, string>
    var isSubmitting: bool
    var isSubmitted: bool

    constructor ()
      ensures form == EmptyForm && errors == map[] && !isSubmitting && !isSubmitted
    {
      form := EmptyForm;
      errors := map[];
      isSubmitting := false;
      isSubmitted := false;
    }

    /** `handleInputChange`: sets the field and resets its error to "". */
    method HandleInputChange(field: string, value: string)
      modifies this
      ensures form == WithField(old(form), field, value)
      ensures errors == ClearedOnInput(old(errors), field)
      ensures isSubmitting == old(isSubmitting) && isSubmitted == old(isSubmitted)
    {
      form := WithField(form, field, value);
      match KeyNamed(field) {
        case Some(k) =>
          if k in errors && errors[k] != "" {
            errors := errors[k := ""];
          }
        case None =>
      }
    }

    /**
     * `handleSubmit`. An invalid form shows its errors and changes nothing else. A valid
     * form is accepted (the submission is simulated and cannot fail): the page shows its
     * thank-you state and the four fields are reset to "".
     */
    method HandleSubmit() returns (accepted: bool)
      modifies this
      ensures errors == Violations(old(form))
      ensures accepted <==> Violations(old(form)) == map[]
      ensures !accepted ==> form == old(form) && isSubmitted == old(isSubmitted) && isSubmitting == old(isSubmitting)
      ensures accepted ==> form == EmptyForm && isSubmitted && !isSubmitting
    {
      var newErrors, valid := ValidateForm(form);
      errors := newErrors;
      if !valid {
        return false;
      }
      isSubmitting := true;
      isSubmitted := true;
      form := EmptyForm;
      isSubmitting := false;
      accepted := true;
    }
  }
}
