/** The RSVP dialog (components/wedding/rsvp-modal.tsx): form validation, the guest-count
    stepper, appending the answer to the stored list, and the reset for a second answer.
    The stored list is the object `RsvpStore` (an absent key reads as the empty list). The
    submission awaits 1500 ms between its check and its write; the model splits it into
    `BeginSubmit` and `FinishSubmit`. */
module RsvpModal {
  import opened Wrappers
  import opened TextUtil

  datatype FormData = FormData(
    name: string, phone: string, attendStatus: string, guestCount: int,
    dietaryPreference: string, message: string)

  /** One stored answer: the form as submitted, with its submission time. */
  datatype RsvpRecord = RsvpRecord(
    name: string, phone: string, attendStatus: string, guestCount: int,
    dietaryPreference: string, message: string, submittedAt: int)

  datatype Status = Idle | Submitting | Submitted | Error

  const DefaultForm := FormData("", "", "undecided", 1, "none", "")

  const NameKey := "name"
  const PhoneKey := "phone"
  const NameMissing := "请输入姓名"
  const PhoneMissing := "请输入手机号"
  const PhoneInvalid := "请输入有效的手机号"

  /** `/^1[3-9]\d{9}$/`: eleven ASCII digits, the first 1 and the second from 3 to 9. */
  predicate PhonePattern(p: string) {
    && |p| == 11 && p[0] == '1' && '3' <= p[1] <= '9'
    && forall i :: 2 <= i < 11 ==> IsAsciiDigit(p[i])
  }

  /** `validate`: fills the error record field by field. */
  method Validate(form: FormData) returns (errors: map<string, string>, ok: bool)
    ensures errors.Keys <= {NameKey, PhoneKey}
    ensures NameKey in errors <==> Trim(form.name) == ""
    ensures NameKey in errors ==> errors[NameKey] == NameMissing
    ensures PhoneKey in errors <==> !PhonePattern(form.phone)
    ensures PhoneKey in errors ==> errors[PhoneKey] == if Trim(form.phone) == "" then PhoneMissing else PhoneInvalid
    ensures ok <==> Trim(form.name) != "" && PhonePattern(form.phone)
  {
    errors := map[];
    if Trim(form.name) == "" {
      errors := errors[NameKey := NameMissing];
    }
    if Trim(form.phone) == "" {
      errors := errors[PhoneKey := PhoneMissing];
      BlankIsNotPhone(form.phone);
    } else if !PhonePattern(form.phone) {
      errors := errors[PhoneKey := PhoneInvalid];
    }
    ok := |errors.Keys| == 0;
    assert NameKey != PhoneKey;
    if !ok {
      assert NameKey in errors || PhoneKey in errors;
    }
  }

  /** A blank phone never matches the pattern. */
  lemma BlankIsNotPhone(p: string)
    requires Trim(p) == ""
    ensures !PhonePattern(p)
  {
    TrimEmptyIffBlank(p);
    if |p| > 0 {
      assert IsJsWhitespace(p[0]);
    }
  }

  /** The pattern sees the phone as typed: surrounding spaces make a number invalid, with the
      "invalid" message rather than the "missing" one. */
  lemma PaddedPhoneIsInvalid(p: string)
    requires PhonePattern(p)
    ensures !PhonePattern(" " + p)
    ensures Trim(" " + p) != ""
  {
    TrimEmptyIffBlank(" " + p);
    assert (" " + p)[1] == p[0] && !IsJsWhitespace(p[0]);
  }

  /** The guest-count stepper buttons. */
  function StepDown(c: int): int {
    if 1 > c - 1 then 1 else c - 1
  }

  function StepUp(c: int): int {
    if 10 < c + 1 then 10 else c + 1
  }

  /** Starting from a count in 1..10 the stepper never leaves that range, and from inside
      the range one step each way returns to the start. */
  lemma StepperStaysInRange(c: int)
    requires 1 <= c <= 10
    ensures 1 <= StepDown(c) <= 10 && 1 <= StepUp(c) <= 10
    ensures StepDown(c) == (if c == 1 then 1 else c - 1) && StepUp(c) == (if c == 10 then 10 else c + 1)
    ensures c > 1 ==> StepUp(StepDown(c)) == c
    ensures c < 10 ==> StepDown(StepUp(c)) == c
  {
  }

  /** `{ ...formData, submittedAt: Date.now() }`. */
  function ToRecord(f: FormData, now: int): RsvpRecord {
    RsvpRecord(f.name, f.phone, f.attendStatus, f.guestCount, f.dietaryPreference, f.message, now)
  }

  /** The `wedding_rsvp` key. */
  class RsvpStore {
    var records: seq<RsvpRecord>

    constructor(records: seq<RsvpRecord>)
      ensures this.records == records
    {
      this.records := records;
    }
  }

  class Modal {
    const store: RsvpStore
    var form: FormData
    var status: Status
    var errors: map<string, string>
    /** The form captured by a submission waiting out its delay. */
    var pending: Option<FormData>

    ghost predicate Valid()
      reads this
    {
      status == Submitting <==> pending.Some?
    }

    constructor(store: RsvpStore)
      ensures Valid() && this.store == store
      ensures form == DefaultForm && status == Idle && errors == map[] && pending == None
    {
      this.store := store;
      form := DefaultForm;
      status := Idle;
      errors := map[];
      pending := None;
    }

    /** Any of the form's inputs. */
    method Edit(f: FormData)
      requires Valid()
      modifies this
      ensures Valid()
      ensures form == f && status == old(status) && errors == old(errors) && pending == old(pending)
    {
      form := f;
    }

    method DecrementGuests()
      requires Valid()
      modifies this
      ensures Valid()
      ensures form == old(form).(guestCount := StepDown(old(form).guestCount))
      ensures status == old(status) && errors == old(errors) && pending == old(pending)
    {
      form := form.(guestCount := StepDown(form.guestCount));
    }

    method IncrementGuests()
      requires Valid()
      modifies this
      ensures Valid()
      ensures form == old(form).(guestCount := StepUp(old(form).guestCount))
      ensures status == old(status) && errors == old(errors) && pending == old(pending)
    {
      form := form.(guestCount := StepUp(form.guestCount));
    }

    /** `handleSubmit` up to its delay. The submit button is disabled while submitting; an
        invalid form only shows its errors. */
    method BeginSubmit()
      requires Valid()
      modifies this
      ensures Valid()
      ensures form == old(form)
      ensures old(status) == Submitting ==> status == old(status) && errors == old(errors) && pending == old(pending)
      ensures old(status) != Submitting && !(Trim(form.name) != "" && PhonePattern(form.phone)) ==>
                status == old(status) && pending == old(pending) && errors != map[]
      ensures old(status) != Submitting && Trim(form.name) != "" && PhonePattern(form.phone) ==>
                status == Submitting && pending == Some(form) && errors == map[]
    {
      if status == Submitting {
        return;
      }
      var errs, ok := Validate(form);
      errors := errs;
      if !ok {
        assert NameKey in errs || PhoneKey in errs;
        return;
      }
      status := Submitting;
      pending := Some(form);
    }

    /** `handleSubmit` after its delay: one record is appended to the stored list. */
    method FinishSubmit(now: int)
      requires Valid() && pending.Some?
      modifies this, store
      ensures Valid()
      ensures store.records == old(store.records) + [ToRecord(old(pending).value, now)]
      ensures status == Submitted && pending == None
      ensures form == old(form) && errors == old(errors)
    {
      store.records := store.records + [ToRecord(pending.value, now)];
      status := Submitted;
      pending := None;
    }

    /** "Submit another": back to the empty form; the last errors stay as they were. */
    method SubmitAnother()
      requires Valid() && status == Submitted
      modifies this
      ensures Valid()
      ensures form == DefaultForm && status == Idle && errors == old(errors) && pending == None
    {
      status := Idle;
      form := DefaultForm;
    }
  }

  /** Appending keeps every earlier record where it was. */
  lemma AppendKeepsEarlier(records: seq<RsvpRecord>, f: FormData, now: int)
    ensures var r := records + [ToRecord(f, now)];
            |r| == |records| + 1 && r[..|records|] == records && r[|records|].submittedAt == now
            && r[|records|].name == f.name && r[|records|].phone == f.phone
  {
    assert (records + [ToRecord(f, now)])[..|records|] == records;
  }
}
