/** The profile screen's form: its validator and the edit controller that
    moves between viewing and editing over the buffer, the error map and the
    editing flag. */
module Profile {
  import opened Records
  import opened TextRules

  const NameRequired := "Name is required"
  const PhoneInvalid := "Phone number is invalid"

  /** Field name to message. A field whose message is "" shows no error. */
  type ErrorMap = map<Field, string>

  /** The fields the validator checks; bio and location are never checked. */
  const CheckedFields: set<Field> := {Name, Email, Phone}

  /** The name rule: required once surrounding whitespace is trimmed. */
  function NameRule(name: string): (message: Option<string>)
    ensures message.Some? ==> message.value == NameRequired
  {
    if Trim(name) == "" then Some(NameRequired) else None
  }

  /** The email rule: required once trimmed, then the `\S+@\S+\.\S+`
      search must succeed. */
  function EmailRule(email: string): (message: Option<string>)
    ensures message.Some? ==> message.value == EmailRequired || message.value == EmailInvalid
  {
    if Trim(email) == "" then Some(EmailRequired)
    else if !EmailTest(email) then Some(EmailInvalid)
    else None
  }

  /** The phone rule: optional, but a given phone must pass the anchored
      character-class test. */
  function PhoneRule(phone: string): (message: Option<string>)
    ensures message.Some? ==> message.value == PhoneInvalid
  {
    if phone != "" && !PhoneTest(phone) then Some(PhoneInvalid) else None
  }

  /** The rule the validator applies to the value of field `f`; bio and
      location have none. */
  function RuleFor(f: Field, v: string): Option<string> {
    match f
    case Name => NameRule(v)
    case Email => EmailRule(v)
    case Phone => PhoneRule(v)
    case Bio => None
    case Location => None
  }

  /** `errors` with `f` set to the rule's message, when there is one. */
  function Record(errors: ErrorMap, f: Field, message: Option<string>): (r: ErrorMap)
    ensures Verdict(r, f) == if message.Some? then message else Verdict(errors, f)
    ensures forall g :: g != f ==> Verdict(r, g) == Verdict(errors, g)
  {
    if message.Some? then errors[f := message.value] else errors
  }

  /** The validator: every rule applied, each to its own field's value
      alone, so the map holds exactly the failing fields with their
      messages, and bio and location never appear. */
  function Validate(d: FormData): (errors: ErrorMap)
    ensures forall f :: Verdict(errors, f) == RuleFor(f, d.Get(f))
    ensures errors.Keys <= CheckedFields
    ensures forall f | f in errors :: errors[f] != ""
  {
    var errors := Record(Record(Record(map[], Name, NameRule(d.name)), Email, EmailRule(d.email)), Phone, PhoneRule(d.phone));
    assert forall f :: Verdict(errors, f) == RuleFor(f, d.Get(f)) by {
      EveryFieldListed();
    }
    errors
  }

  /** The name rule fires exactly on an empty or all-whitespace name. */
  lemma NameRuleMeaning(name: string)
    ensures NameRule(name) == if Blank(name) then Some(NameRequired) else None
  {
    TrimEmptyIffBlank(name);
  }

  /** The email rule: a blank email is missing, a non-blank one the
      pattern rejects is invalid, and the two messages exclude each other. */
  lemma EmailRuleMeaning(email: string)
    ensures EmailRule(email) ==
      if Blank(email) then Some(EmailRequired)
      else if !EmailRegexFinds(email) then Some(EmailInvalid)
      else None
  {
    TrimEmptyIffBlank(email);
    EmailTestIsRegexSearch(email);
  }

  /** The phone rule: an empty phone never errors; a given one errors
      exactly when one of its characters lies outside digits, whitespace
      and `- + ( )`. */
  lemma PhoneRuleMeaning(phone: string)
    ensures PhoneRule(phone) ==
      if phone != "" && exists i | 0 <= i < |phone| :: !IsPhoneChar(phone[i])
      then Some(PhoneInvalid) else None
  {
  }

  /** The validator's verdict on each checked field, in terms of that
      field's value: the rules above, with nothing else in the map. */
  lemma ValidateMeaning(d: FormData)
    ensures Verdict(Validate(d), Name) == if Blank(d.name) then Some(NameRequired) else None
    ensures Verdict(Validate(d), Email) ==
      if Blank(d.email) then Some(EmailRequired)
      else if !EmailRegexFinds(d.email) then Some(EmailInvalid)
      else None
    ensures Verdict(Validate(d), Phone) ==
      if d.phone != "" && exists i | 0 <= i < |d.phone| :: !IsPhoneChar(d.phone[i])
      then Some(PhoneInvalid) else None
    ensures Bio !in Validate(d) && Location !in Validate(d)
  {
    NameRuleMeaning(d.name);
    EmailRuleMeaning(d.email);
    PhoneRuleMeaning(d.phone);
  }

  /** The validator returns no errors exactly when the name is not blank,
      the email is not blank and matches the pattern, and the phone is
      empty or passes its test. */
  lemma ValidatePassesIff(d: FormData)
    ensures Validate(d) == map[] <==>
      && !Blank(d.name)
      && !Blank(d.email) && EmailRegexFinds(d.email)
      && (d.phone == "" || PhoneTest(d.phone))
  {
    ValidateMeaning(d);
    if !Blank(d.name) && !Blank(d.email) && EmailRegexFinds(d.email) && (d.phone == "" || PhoneTest(d.phone)) {
      SameVerdictsSameMap(Validate(d), map[]);
    } else {
      assert Verdict(map[], Name) == None;
    }
  }

  /** Each field's verdict depends on that field's value alone. */
  lemma ValidateIsFieldwise(a: FormData, b: FormData, f: Field)
    requires a.Get(f) == b.Get(f)
    ensures Verdict(Validate(a), f) == Verdict(Validate(b), f)
  {
  }

  /** Two error maps with the same verdict on every field are equal. */
  lemma SameVerdictsSameMap(a: ErrorMap, b: ErrorMap)
    requires forall f :: Verdict(a, f) == Verdict(b, f)
    ensures a == b
  {
    EveryFieldListed();
    assert forall f :: f in a <==> Verdict(a, f).Some?;
    assert a.Keys == b.Keys;
  }

  /** The complete profile of the stock test user passes validation. */
  lemma ValidateAcceptsCompleteProfile()
    ensures Validate(FormData("John Doe", "john@example.com", "123-456-7890", "Software developer", "New York")) == map[]
  {
    var d := FormData("John Doe", "john@example.com", "123-456-7890", "Software developer", "New York");
    assert !Blank(d.name) by { assert !IsWs(d.name[0]); }
    assert !Blank(d.email) by { assert !IsWs(d.email[0]); }
    NameRuleMeaning(d.name);
    EmailExamples();
    TrimEmptyIffBlank(d.email);
    PhoneExamples();
    SameVerdictsSameMap(Validate(d), map[]);
  }

  /** An all-empty buffer fails on exactly the name and the email, both as
      missing; an empty phone is not an error. */
  lemma ValidateRejectsEmptyProfile()
    ensures Validate(EmptyForm) == map[Name := NameRequired, Email := EmailRequired]
  {
    NameRuleMeaning("");
    EmailRuleMeaning("");
    SameVerdictsSameMap(Validate(EmptyForm), map[Name := NameRequired, Email := EmailRequired]);
  }

  /** The stock test user with the name and the email cleared fails on
      exactly those two, both as missing; the kept phone passes. */
  lemma ValidateRejectsClearedNameAndEmail()
    ensures Validate(FormData("", "", "123-456-7890", "Software developer", "New York"))
      == map[Name := NameRequired, Email := EmailRequired]
  {
    var d := FormData("", "", "123-456-7890", "Software developer", "New York");
    NameRuleMeaning("");
    EmailRuleMeaning("");
    PhoneExamples();
    SameVerdictsSameMap(Validate(d), map[Name := NameRequired, Email := EmailRequired]);
  }

  /** The stock test user with letters typed into the phone fails on the
      phone alone. */
  lemma ValidateRejectsLetteredPhone()
    ensures Validate(FormData("John Doe", "john@example.com", "invalid-phone-123abc", "Software developer", "New York"))
      == map[Phone := PhoneInvalid]
  {
    var d := FormData("John Doe", "john@example.com", "invalid-phone-123abc", "Software developer", "New York");
    assert !Blank(d.name) by { assert !IsWs(d.name[0]); }
    assert !Blank(d.email) by { assert !IsWs(d.email[0]); }
    NameRuleMeaning(d.name);
    EmailExamples();
    TrimEmptyIffBlank(d.email);
    PhoneExamples();
    SameVerdictsSameMap(Validate(d), map[Phone := PhoneInvalid]);
  }

  /** A malformed address is reported as invalid, not as missing. */
  lemma ValidateRejectsMalformedEmail(d: FormData)
    requires d.email == "invalid-email"
    ensures Verdict(Validate(d), Email) == Some(EmailInvalid)
  {
    assert !Blank(d.email) by { assert !IsWs(d.email[0]); }
    EmailExamples();
    TrimEmptyIffBlank(d.email);
  }

  /** The profile screen's state: the buffer, the error map, the editing
      flag and the `user` property the buffer is seeded from. */
  class ProfileEditor {
    var user: Option<UserRecord>
    var formData: FormData
    var errors: ErrorMap
    var isEditing: bool

    /** Only checked fields ever carry a message, and nothing is flagged
        while viewing. */
    ghost predicate Valid()
      reads this
    {
      errors.Keys <= CheckedFields && (!isEditing ==> errors == map[])
    }

    /** The field's input is drawn as erroneous (a non-empty message). */
    predicate ShowsError(f: Field)
      reads this
    {
      f in errors && errors[f] != ""
    }

    /** Every message on screen is the validator's current verdict on the
        buffer: a message never outlives the value it was given for. */
    ghost predicate ErrorsCurrent()
      reads this
    {
      forall f | ShowsError(f) :: Verdict(Validate(formData), f) == Some(errors[f])
    }

    /** Mounting: the empty buffer, no errors, viewing; then the effect on
        `user` seeds the buffer when a user is present. */
    constructor (u: Option<UserRecord>)
      ensures user == u && !isEditing && errors == map[]
      ensures formData == if u.Some? then Seed(u.value) else EmptyForm
      ensures Valid() && ErrorsCurrent()
    {
      user := u;
      formData := EmptyForm;
      errors := map[];
      isEditing := false;
      if u.Some? {
        formData := Seed(u.value);
      }
    }

    /** The effect run when the `user` property changes: a present user
        re-seeds the buffer, an absent one leaves it alone. */
    method ReceiveUser(u: Option<UserRecord>)
      requires Valid()
      modifies this
      ensures user == u && isEditing == old(isEditing) && errors == old(errors)
      ensures formData == if u.Some? then Seed(u.value) else old(formData)
      ensures Valid() && (!isEditing ==> ErrorsCurrent())
    {
      user := u;
      if u.Some? {
        formData := Seed(u.value);
      }
    }

    /** The Edit button, shown only while viewing. */
    method StartEdit()
      requires Valid() && !isEditing
      modifies this`isEditing
      ensures isEditing
      ensures Valid() && (old(ErrorsCurrent()) ==> ErrorsCurrent())
    {
      isEditing := true;
    }

    /** Typing into input `f` (inputs are enabled only while editing): the
        input takes `v`, and a message shown on `f` is blanked to "" rather
        than removed; every other input and message is kept. */
    method HandleInputChange(f: Field, v: string)
      requires Valid() && isEditing
      modifies this`formData, this`errors
      ensures formData == old(formData).Set(f, v)
      ensures errors == if old(ShowsError(f)) then old(errors)[f := ""] else old(errors)
      ensures !ShowsError(f)
      ensures Valid() && (old(ErrorsCurrent()) ==> ErrorsCurrent())
    {
      var before := formData;
      formData := formData.Set(f, v);
      if f in errors && errors[f] != "" {
        errors := errors[f := ""];
      }
      forall g | g != f
        ensures Verdict(Validate(formData), g) == Verdict(Validate(before), g)
      {
        ValidateIsFieldwise(formData, before, g);
      }
    }

    /** Save: a buffer the validator passes is handed to the save callback
        once, whole, and editing ends with no errors; otherwise the callback
        is not called, editing goes on, and the error map becomes exactly the
        validator's output. The buffer is never touched. */
    method HandleSave() returns (saved: Option<UserRecord>)
      requires Valid() && isEditing
      modifies this`isEditing, this`errors
      ensures Validate(formData) == map[] ==> saved == Some(ToRecord(formData)) && !isEditing && errors == map[]
      ensures Validate(formData) != map[] ==> saved == None && isEditing && errors == Validate(formData)
      ensures Valid() && ErrorsCurrent()
    {
      var validationErrors := Validate(formData);
      if validationErrors == map[] {
        saved := Some(ToRecord(formData));
        isEditing := false;
        errors := map[];
      } else {
        saved := None;
        errors := validationErrors;
      }
    }

    /** Cancel: the buffer is re-seeded from the user when there is one
        (and left alone otherwise), editing ends and the errors are cleared. */
    method HandleCancel()
      requires Valid() && isEditing
      modifies this`formData, this`isEditing, this`errors
      ensures formData == if user.Some? then Seed(user.value) else old(formData)
      ensures !isEditing && errors == map[]
      ensures Valid() && ErrorsCurrent()
    {
      if user.Some? {
        formData := Seed(user.value);
      }
      isEditing := false;
      errors := map[];
    }
  }
}
