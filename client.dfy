/** The browser side of the waiting-list forms (script.js): the field
    validators, the two submit handlers with their collect-all policy, the
    on-blur dispatch and the postal-code formatter that runs as the user types. */
module Client {
  import opened Common
  import opened Text
  import opened Patterns

  /** `{isValid, message}`; a valid verdict carries the empty message. */
  datatype Verdict = Valid | Invalid(message: string)

  const NameTooShort := "Name must be at least 2 characters long"
  const NameTooLong := "Name must be less than 50 characters"
  const NameBadChars := "Name can only contain letters, spaces, hyphens, and apostrophes"
  const EmailRequired := "Email is required"
  const EmailBadFormat := "Please enter a valid email address"
  const EmailTooLong := "Email must be less than 100 characters"
  const PostalRequired := "Postal code is required"
  const PostalBadFormat := "Please enter a valid Canadian postal code (e.g., A1A 1A1)"
  const DetailsRequired := "Please describe what you would like cleaned"
  const DetailsTooShort := "Please provide more details (at least 10 characters)"
  const DetailsTooLong := "Details must be less than 500 characters"
  const WorkAuthRequired := "Please select whether you can work in Canada"
  const ExperienceRequired := "Please describe your cleaning experience"
  const ExperienceTooShort := "Please provide more details about your experience (at least 10 characters)"
  const ExperienceTooLong := "Experience description must be less than 500 characters"

  /** `validateName`: the trimmed name has 2 to 50 characters, all letters,
      whitespace, hyphens or apostrophes. Length is judged before characters. */
  function ValidateName(name: Option<string>): (v: Verdict)
    ensures v.Valid? <==> name.Some? && 2 <= |Trim(name.value)| <= 50 && NameShape(Trim(name.value))
    ensures Falsy(name) || |Trim(name.value)| < 2 ==> v == Invalid(NameTooShort)
    ensures name.Some? && |Trim(name.value)| > 50 ==> v == Invalid(NameTooLong)
    ensures name.Some? && 2 <= |Trim(name.value)| <= 50 && !NameShape(Trim(name.value)) ==> v == Invalid(NameBadChars)
    ensures v.Invalid? ==> v.message in {NameTooShort, NameTooLong, NameBadChars}
  {
    if Falsy(name) || |Trim(name.value)| < 2 then Invalid(NameTooShort)
    else if |Trim(name.value)| > 50 then Invalid(NameTooLong)
    else if !NameShape(Trim(name.value)) then Invalid(NameBadChars)
    else Valid
  }

  /** `validateEmail`: the trimmed address follows the email rule and has at
      most 100 characters. The format is judged before the length, so an
      over-long malformed address gets the format message. */
  function ValidateEmail(email: Option<string>): (v: Verdict)
    ensures v.Valid? <==> email.Some? && EmailRule(Trim(email.value)) && |Trim(email.value)| <= 100
    ensures Falsy(email) || Trim(email.value) == [] ==> v == Invalid(EmailRequired)
    ensures email.Some? && Trim(email.value) != [] && !EmailShape(Trim(email.value)) ==> v == Invalid(EmailBadFormat)
    ensures email.Some? && EmailShape(Trim(email.value)) && |Trim(email.value)| > 100 ==> v == Invalid(EmailTooLong)
    ensures v.Invalid? ==> v.message in {EmailRequired, EmailBadFormat, EmailTooLong}
  {
    if Falsy(email) || |Trim(email.value)| == 0 then Invalid(EmailRequired)
    else
      EmailShapeIsRule(Trim(email.value));
      if !EmailShape(Trim(email.value)) then Invalid(EmailBadFormat)
      else if |Trim(email.value)| > 100 then Invalid(EmailTooLong)
      else Valid
  }

  /** `validatePostalCode`: the trimmed code is letter, digit, letter, an
      optional single space, digit, letter, digit, in either case. */
  function ValidatePostalCode(postalCode: Option<string>): (v: Verdict)
    ensures v.Valid? <==> postalCode.Some? && PostalShape(Trim(postalCode.value))
    ensures Falsy(postalCode) || Trim(postalCode.value) == [] ==> v == Invalid(PostalRequired)
    ensures postalCode.Some? && Trim(postalCode.value) != [] && !PostalShape(Trim(postalCode.value)) ==>
      v == Invalid(PostalBadFormat)
    ensures v.Invalid? ==> v.message in {PostalRequired, PostalBadFormat}
  {
    if Falsy(postalCode) || |Trim(postalCode.value)| == 0 then Invalid(PostalRequired)
    else if !PostalShape(Trim(postalCode.value)) then Invalid(PostalBadFormat)
    else Valid
  }

  /** `validateCleaningDetails`: only a `'client'` form is checked (10 to 500
      trimmed characters); for any other type the verdict is always valid. */
  function ValidateCleaningDetails(details: Option<string>, formType: string): (v: Verdict)
    ensures formType != "client" ==> v == Valid
    ensures formType == "client" ==>
      (v.Valid? <==> details.Some? && 10 <= |Trim(details.value)| <= 500)
    ensures formType == "client" && (Falsy(details) || Trim(details.value) == []) ==> v == Invalid(DetailsRequired)
    ensures formType == "client" && details.Some? && 0 < |Trim(details.value)| < 10 ==> v == Invalid(DetailsTooShort)
    ensures formType == "client" && details.Some? && |Trim(details.value)| > 500 ==> v == Invalid(DetailsTooLong)
  {
    if formType == "client" then
      if Falsy(details) || |Trim(details.value)| == 0 then Invalid(DetailsRequired)
      else if |Trim(details.value)| < 10 then Invalid(DetailsTooShort)
      else if |Trim(details.value)| > 500 then Invalid(DetailsTooLong)
      else Valid
    else Valid
  }

  /** `validateContractorFields`: a contractor must answer the work question and
      describe 10 to 500 trimmed characters of experience; other types pass. */
  function ValidateContractorFields(data: Body): (v: Verdict)
    ensures data.formType != Some("contractor") ==> v == Valid
    ensures data.formType == Some("contractor") ==>
      (v.Valid? <==> !Falsy(data.canWorkInCanada) && data.cleaningExperience.Some?
                     && 10 <= |Trim(data.cleaningExperience.value)| <= 500)
    ensures data.formType == Some("contractor") && Falsy(data.canWorkInCanada) ==> v == Invalid(WorkAuthRequired)
    ensures data.formType == Some("contractor") && !Falsy(data.canWorkInCanada) ==>
      && (Falsy(data.cleaningExperience) || Trim(data.cleaningExperience.value) == [] ==> v == Invalid(ExperienceRequired))
      && (data.cleaningExperience.Some? && 0 < |Trim(data.cleaningExperience.value)| < 10 ==> v == Invalid(ExperienceTooShort))
      && (data.cleaningExperience.Some? && |Trim(data.cleaningExperience.value)| > 500 ==> v == Invalid(ExperienceTooLong))
  {
    if data.formType == Some("contractor") then
      if Falsy(data.canWorkInCanada) then Invalid(WorkAuthRequired)
      else if Falsy(data.cleaningExperience) || |Trim(data.cleaningExperience.value)| == 0 then Invalid(ExperienceRequired)
      else if |Trim(data.cleaningExperience.value)| < 10 then Invalid(ExperienceTooShort)
      else if |Trim(data.cleaningExperience.value)| > 500 then Invalid(ExperienceTooLong)
      else Valid
    else Valid
  }

  /** The message shown under a field, if any. */
  datatype FieldError = FieldError(fieldId: string, message: string)

  /** The errors a collect-all pass over `checks` shows, in check order. */
  function Failures(checks: seq<(string, Verdict)>): seq<FieldError> {
    if checks == [] then []
    else Failures(checks[..|checks| - 1]) + Reported(checks[|checks| - 1])
  }

  function Reported(check: (string, Verdict)): seq<FieldError> {
    if check.1.Invalid? then [FieldError(check.0, check.1.message)] else []
  }

  /** One more check adds its own report at the end. */
  lemma FailuresAppend(checks: seq<(string, Verdict)>, check: (string, Verdict))
    ensures Failures(checks + [check]) == Failures(checks) + Reported(check)
  {
    assert (checks + [check])[..|checks|] == checks;
  }

  /** Nothing is shown exactly when every check passed. */
  lemma {:induction false} FailuresEmpty(checks: seq<(string, Verdict)>)
    ensures Failures(checks) == [] <==> forall k | 0 <= k < |checks| :: checks[k].1.Valid?
  {
    if checks != [] {
      var init := checks[..|checks| - 1];
      FailuresEmpty(init);
      assert forall k | 0 <= k < |init| :: init[k] == checks[k];
    }
  }

  /** Every failing check is reported, whatever the other checks found. */
  lemma {:induction false} FailuresComplete(checks: seq<(string, Verdict)>, k: nat)
    requires k < |checks| && checks[k].1.Invalid?
    ensures FieldError(checks[k].0, checks[k].1.message) in Failures(checks)
  {
    if k < |checks| - 1 {
      var init := checks[..|checks| - 1];
      assert init[k] == checks[k];
      FailuresComplete(init, k);
    }
  }

  /** Every reported error comes from a failing check. */
  lemma {:induction false} FailuresSound(checks: seq<(string, Verdict)>, e: FieldError)
    requires e in Failures(checks)
    ensures exists k | 0 <= k < |checks| :: checks[k].1.Invalid? && e == FieldError(checks[k].0, checks[k].1.message)
  {
    var init := checks[..|checks| - 1];
    if e in Failures(init) {
      FailuresSound(init, e);
      var k :| 0 <= k < |init| && init[k].1.Invalid? && e == FieldError(init[k].0, init[k].1.message);
      assert init[k] == checks[k];
    } else {
      assert e in Reported(checks[|checks| - 1]);
    }
  }

  /** The form fields as `FormData.get` returns them (`None` for a missing field). */
  datatype ClientForm = ClientForm(
    name: Option<string>, email: Option<string>, postalCode: Option<string>,
    cleaningDetails: Option<string>)

  datatype ContractorForm = ContractorForm(
    name: Option<string>, email: Option<string>, postalCode: Option<string>,
    canWorkInCanada: Option<string>, cleaningExperience: Option<string>)

  /** What a submit handler does: annotate fields and stop, hand the data to
      `submitToWaitingList`, or throw (a `.trim()` on a missing field). */
  datatype Decision = ShowErrors(errors: seq<FieldError>) | Send(data: Body) | Throws

  /** Every check the client form's submit handler runs, in order. */
  function ClientChecks(form: ClientForm): seq<(string, Verdict)> {
    [ ("clientName", ValidateName(form.name)),
      ("clientEmail", ValidateEmail(form.email)),
      ("clientPostalCode", ValidatePostalCode(form.postalCode)),
      ("cleaningDetails", ValidateCleaningDetails(form.cleaningDetails, "client")) ]
  }

  /** The work question is checked inline; the experience goes through
      `validateCleaningDetails` with type `'contractor'`, which never fails. */
  function ContractorChecks(form: ContractorForm): seq<(string, Verdict)> {
    [ ("contractorName", ValidateName(form.name)),
      ("contractorEmail", ValidateEmail(form.email)),
      ("contractorPostalCode", ValidatePostalCode(form.postalCode)),
      ("canWorkInCanada", if Falsy(form.canWorkInCanada) then Invalid(WorkAuthRequired) else Valid),
      ("cleaningExperience", ValidateCleaningDetails(form.cleaningExperience, "contractor")) ]
  }

  function TrimField(x: Option<string>): Option<string> {
    if x.None? then None else Some(Trim(x.value))
  }

  /** A pass over four checks reports each failure in turn. */
  lemma FailuresOfFour(c0: (string, Verdict), c1: (string, Verdict), c2: (string, Verdict), c3: (string, Verdict))
    ensures Failures([c0, c1, c2, c3]) == Reported(c0) + Reported(c1) + Reported(c2) + Reported(c3)
  {
    FailuresAppend([], c0);
    assert [] + [c0] == [c0];
    FailuresAppend([c0], c1);
    assert [c0] + [c1] == [c0, c1];
    FailuresAppend([c0, c1], c2);
    assert [c0, c1] + [c2] == [c0, c1, c2];
    FailuresAppend([c0, c1, c2], c3);
    assert [c0, c1, c2] + [c3] == [c0, c1, c2, c3];
  }

  /** A pass over five checks reports each failure in turn. */
  lemma FailuresOfFive(c0: (string, Verdict), c1: (string, Verdict), c2: (string, Verdict), c3: (string, Verdict),
                       c4: (string, Verdict))
    ensures Failures([c0, c1, c2, c3, c4]) == Reported(c0) + Reported(c1) + Reported(c2) + Reported(c3) + Reported(c4)
  {
    FailuresOfFour(c0, c1, c2, c3);
    FailuresAppend([c0, c1, c2, c3], c4);
    assert [c0, c1, c2, c3] + [c4] == [c0, c1, c2, c3, c4];
  }

  /** The client handler's four `if (!v.isValid) { showFieldError(...);
      hasErrors = true; }` blocks, given the four verdicts in order. */
  method ReportClientChecks(nameValidation: Verdict, emailValidation: Verdict,
                            postalCodeValidation: Verdict, cleaningDetailsValidation: Verdict)
    returns (errors: seq<FieldError>, hasErrors: bool)
    ensures errors == Reported(("clientName", nameValidation)) + Reported(("clientEmail", emailValidation))
                      + Reported(("clientPostalCode", postalCodeValidation))
                      + Reported(("cleaningDetails", cleaningDetailsValidation))
    ensures hasErrors <==> errors != []
  {
    errors := [];
    hasErrors := false;
    if nameValidation.Invalid? {
      errors := errors + [FieldError("clientName", nameValidation.message)];
      hasErrors := true;
    }
    assert errors == Reported(("clientName", nameValidation));
    ghost var before := errors;
    if emailValidation.Invalid? {
      errors := errors + [FieldError("clientEmail", emailValidation.message)];
      hasErrors := true;
    }
    assert errors == before + Reported(("clientEmail", emailValidation));
    before := errors;
    if postalCodeValidation.Invalid? {
      errors := errors + [FieldError("clientPostalCode", postalCodeValidation.message)];
      hasErrors := true;
    }
    assert errors == before + Reported(("clientPostalCode", postalCodeValidation));
    before := errors;
    if cleaningDetailsValidation.Invalid? {
      errors := errors + [FieldError("cleaningDetails", cleaningDetailsValidation.message)];
      hasErrors := true;
    }
    assert errors == before + Reported(("cleaningDetails", cleaningDetailsValidation));
  }

  /** The client form's submit handler: every field is checked even after one
      fails, and the form is sent, trimmed, only when none failed. */
  method SubmitClientForm(form: ClientForm) returns (d: Decision)
    ensures !d.Throws?
    ensures d.ShowErrors? <==> Failures(ClientChecks(form)) != []
    ensures d.ShowErrors? ==> d.errors == Failures(ClientChecks(form))
    ensures d.Send? ==> d.data == Body(Some("client"), TrimField(form.name), TrimField(form.email),
                                       TrimField(form.postalCode), TrimField(form.cleaningDetails), None, None)
    ensures d.Send? ==> form.name.Some? && form.email.Some? && form.postalCode.Some? && form.cleaningDetails.Some?
  {
    var nameValidation := ValidateName(form.name);
    var emailValidation := ValidateEmail(form.email);
    var postalCodeValidation := ValidatePostalCode(form.postalCode);
    var cleaningDetailsValidation := ValidateCleaningDetails(form.cleaningDetails, "client");
    var errors, hasErrors := ReportClientChecks(nameValidation, emailValidation,
                                                postalCodeValidation, cleaningDetailsValidation);
    FailuresOfFour(("clientName", nameValidation), ("clientEmail", emailValidation),
                   ("clientPostalCode", postalCodeValidation), ("cleaningDetails", cleaningDetailsValidation));
    if hasErrors {
      return ShowErrors(errors);
    }
    ClientFieldsPresent(form);
    d := Send(Body(Some("client"), Some(Trim(form.name.value)), Some(Trim(form.email.value)),
                   Some(Trim(form.postalCode.value)), Some(Trim(form.cleaningDetails.value)), None, None));
  }

  /** A client form whose four checks pass has all four fields. */
  lemma ClientFieldsPresent(form: ClientForm)
    requires Failures(ClientChecks(form)) == []
    ensures form.name.Some? && form.email.Some? && form.postalCode.Some? && form.cleaningDetails.Some?
  {
    var checks := ClientChecks(form);
    FailuresEmpty(checks);
    assert checks[0].1.Valid? && checks[1].1.Valid? && checks[2].1.Valid? && checks[3].1.Valid?;
  }

  /** The contractor handler's five checks, given the three validator
      verdicts, the work answer (checked inline) and the experience verdict. */
  method ReportContractorChecks(nameValidation: Verdict, emailValidation: Verdict,
                                postalCodeValidation: Verdict, canWorkInCanada: Option<string>,
                                experienceValidation: Verdict)
    returns (errors: seq<FieldError>, hasErrors: bool)
    ensures errors == Reported(("contractorName", nameValidation)) + Reported(("contractorEmail", emailValidation))
                      + Reported(("contractorPostalCode", postalCodeValidation))
                      + Reported(("canWorkInCanada", if Falsy(canWorkInCanada) then Invalid(WorkAuthRequired) else Valid))
                      + Reported(("cleaningExperience", experienceValidation))
    ensures hasErrors <==> errors != []
  {
    ghost var work := ("canWorkInCanada", if Falsy(canWorkInCanada) then Invalid(WorkAuthRequired) else Valid);
    errors := [];
    hasErrors := false;
    if nameValidation.Invalid? {
      errors := errors + [FieldError("contractorName", nameValidation.message)];
      hasErrors := true;
    }
    assert errors == Reported(("contractorName", nameValidation));
    ghost var before := errors;
    if emailValidation.Invalid? {
      errors := errors + [FieldError("contractorEmail", emailValidation.message)];
      hasErrors := true;
    }
    assert errors == before + Reported(("contractorEmail", emailValidation));
    before := errors;
    if postalCodeValidation.Invalid? {
      errors := errors + [FieldError("contractorPostalCode", postalCodeValidation.message)];
      hasErrors := true;
    }
    assert errors == before + Reported(("contractorPostalCode", postalCodeValidation));
    before := errors;
    if Falsy(canWorkInCanada) {
      errors := errors + [FieldError("canWorkInCanada", WorkAuthRequired)];
      hasErrors := true;
    }
    assert errors == before + Reported(work);
    // validateCleaningDetails(..., 'contractor') never fails in the handler, but
    // the verdict is reported like the others
    before := errors;
    if experienceValidation.Invalid? {
      errors := errors + [FieldError("cleaningExperience", experienceValidation.message)];
      hasErrors := true;
    }
    assert errors == before + Reported(("cleaningExperience", experienceValidation));
  }

  /** The contractor form's submit handler: the same collect-all pass; the
      work answer is sent as given, and a missing experience field makes the
      final `.trim()` throw. */
  method SubmitContractorForm(form: ContractorForm) returns (d: Decision)
    ensures d.ShowErrors? <==> Failures(ContractorChecks(form)) != []
    ensures d.ShowErrors? ==> d.errors == Failures(ContractorChecks(form))
    ensures d.Throws? <==> Failures(ContractorChecks(form)) == [] && form.cleaningExperience.None?
    ensures d.Send? ==> d.data == Body(Some("contractor"), TrimField(form.name), TrimField(form.email),
                                       TrimField(form.postalCode), None, form.canWorkInCanada,
                                       TrimField(form.cleaningExperience))
    ensures d.Send? ==> form.name.Some? && form.email.Some? && form.postalCode.Some?
                        && !Falsy(form.canWorkInCanada) && form.cleaningExperience.Some?
  {
    var nameValidation := ValidateName(form.name);
    var emailValidation := ValidateEmail(form.email);
    var postalCodeValidation := ValidatePostalCode(form.postalCode);
    var experienceValidation := ValidateCleaningDetails(form.cleaningExperience, "contractor");
    var errors, hasErrors := ReportContractorChecks(nameValidation, emailValidation, postalCodeValidation,
                                                    form.canWorkInCanada, experienceValidation);
    FailuresOfFive(("contractorName", nameValidation), ("contractorEmail", emailValidation),
                   ("contractorPostalCode", postalCodeValidation),
                   ("canWorkInCanada", if Falsy(form.canWorkInCanada) then Invalid(WorkAuthRequired) else Valid),
                   ("cleaningExperience", experienceValidation));
    if hasErrors {
      return ShowErrors(errors);
    }
    if form.cleaningExperience.None? {
      return Throws;
    }
    ContractorFieldsPresent(form);
    d := Send(Body(Some("contractor"), Some(Trim(form.name.value)), Some(Trim(form.email.value)),
                   Some(Trim(form.postalCode.value)), None, form.canWorkInCanada,
                   Some(Trim(form.cleaningExperience.value))));
  }

  /** A contractor form whose five checks pass has its name, email, postal
      code and a truthy work answer. */
  lemma ContractorFieldsPresent(form: ContractorForm)
    requires Failures(ContractorChecks(form)) == []
    ensures form.name.Some? && form.email.Some? && form.postalCode.Some? && !Falsy(form.canWorkInCanada)
  {
    var checks := ContractorChecks(form);
    FailuresEmpty(checks);
    assert checks[0].1.Valid? && checks[1].1.Valid? && checks[2].1.Valid? && checks[3].1.Valid?;
  }

  predicate DistinctIds(checks: seq<(string, Verdict)>) {
    forall i, j | 0 <= i < j < |checks| :: checks[i].0 != checks[j].0
  }

  /** When field ids are distinct, message `m` is shown under check `k`'s field
      exactly when check `k` failed with `m`. */
  lemma ReportedUnder(checks: seq<(string, Verdict)>, k: nat, m: string)
    requires k < |checks| && DistinctIds(checks)
    ensures FieldError(checks[k].0, m) in Failures(checks) <==> checks[k].1 == Invalid(m)
  {
    if checks[k].1 == Invalid(m) {
      FailuresComplete(checks, k);
    }
    if FieldError(checks[k].0, m) in Failures(checks) {
      FailuresSound(checks, FieldError(checks[k].0, m));
      var j :| 0 <= j < |checks| && checks[j].1.Invalid? && FieldError(checks[k].0, m) == FieldError(checks[j].0, checks[j].1.message);
      assert j == k;
    }
  }

  /** Collect-all on the client form: each field shows its own validator's
      message exactly when that validator fails, whatever the other fields hold. */
  lemma ClientCollectAll(form: ClientForm)
    ensures forall k, m | 0 <= k < |ClientChecks(form)| ::
      FieldError(ClientChecks(form)[k].0, m) in Failures(ClientChecks(form)) <==> ClientChecks(form)[k].1 == Invalid(m)
  {
    var checks := ClientChecks(form);
    forall k, m | 0 <= k < |checks| ensures FieldError(checks[k].0, m) in Failures(checks) <==> checks[k].1 == Invalid(m) {
      ReportedUnder(checks, k, m);
    }
  }

  /** Collect-all on the contractor form. */
  lemma ContractorCollectAll(form: ContractorForm)
    ensures forall k, m | 0 <= k < |ContractorChecks(form)| ::
      FieldError(ContractorChecks(form)[k].0, m) in Failures(ContractorChecks(form)) <==> ContractorChecks(form)[k].1 == Invalid(m)
  {
    var checks := ContractorChecks(form);
    forall k, m | 0 <= k < |checks| ensures FieldError(checks[k].0, m) in Failures(checks) <==> checks[k].1 == Invalid(m) {
      ReportedUnder(checks, k, m);
    }
  }

  /** The contractor's experience is never flagged on submit: whatever the form
      holds, no error is shown under that field. */
  lemma ContractorExperienceNeverFlagged(form: ContractorForm)
    ensures forall e | e in Failures(ContractorChecks(form)) :: e.fieldId != "cleaningExperience"
  {
    var checks := ContractorChecks(form);
    forall e | e in Failures(checks) ensures e.fieldId != "cleaningExperience" {
      FailuresSound(checks, e);
      var k :| 0 <= k < |checks| && checks[k].1.Invalid? && e == FieldError(checks[k].0, checks[k].1.message);
      assert k != 4;
    }
  }

  /** `validateField`: the on-blur check. Returns the message shown under the
      field, if any; unknown field ids show nothing. */
  function ValidateField(fieldId: string, value: string): (shown: Option<string>)
    ensures fieldId == "cleaningExperience" ==> shown == None
    ensures fieldId in {"clientName", "contractorName"} ==> shown == Shown(ValidateName(Some(value)))
    ensures fieldId in {"clientEmail", "contractorEmail"} ==> shown == Shown(ValidateEmail(Some(value)))
    ensures fieldId in {"clientPostalCode", "contractorPostalCode"} ==> shown == Shown(ValidatePostalCode(Some(value)))
    ensures fieldId == "cleaningDetails" ==> shown == Shown(ValidateCleaningDetails(Some(value), "client"))
    ensures fieldId in {"clientName", "contractorName"} ==>
      (shown == None <==> ValidateName(Some(value)).Valid?)
    ensures fieldId in {"clientEmail", "contractorEmail"} ==>
      (shown == None <==> ValidateEmail(Some(value)).Valid?)
    ensures fieldId in {"clientPostalCode", "contractorPostalCode"} ==>
      (shown == None <==> ValidatePostalCode(Some(value)).Valid?)
    ensures fieldId == "cleaningDetails" ==>
      (shown == None <==> 10 <= |Trim(value)| <= 500)
    ensures shown.Some? ==> fieldId in {"clientName", "contractorName", "clientEmail", "contractorEmail",
                                        "clientPostalCode", "contractorPostalCode", "cleaningDetails"}
  {
    if fieldId == "clientName" || fieldId == "contractorName" then Shown(ValidateName(Some(value)))
    else if fieldId == "clientEmail" || fieldId == "contractorEmail" then Shown(ValidateEmail(Some(value)))
    else if fieldId == "clientPostalCode" || fieldId == "contractorPostalCode" then Shown(ValidatePostalCode(Some(value)))
    else if fieldId == "cleaningDetails" then Shown(ValidateCleaningDetails(Some(value), "client"))
    else if fieldId == "cleaningExperience" then Shown(ValidateCleaningDetails(Some(value), "contractor"))
    else None
  }

  /** The message a verdict puts under its field, if any. */
  function Shown(v: Verdict): (shown: Option<string>)
    ensures shown.None? <==> v.Valid?
    ensures shown.Some? ==> v == Invalid(shown.value)
  {
    if v.Invalid? then Some(v.message) else None
  }

  /** On blur a client field shows message `m` exactly when the submit handler
      would show `m` under it for the same form. */
  lemma BlurAgreesWithSubmit(form: ClientForm, m: string)
    requires form.name.Some? && form.email.Some? && form.postalCode.Some? && form.cleaningDetails.Some?
    ensures ValidateField("clientName", form.name.value) == Some(m)
            <==> FieldError("clientName", m) in Failures(ClientChecks(form))
    ensures ValidateField("clientEmail", form.email.value) == Some(m)
            <==> FieldError("clientEmail", m) in Failures(ClientChecks(form))
    ensures ValidateField("clientPostalCode", form.postalCode.value) == Some(m)
            <==> FieldError("clientPostalCode", m) in Failures(ClientChecks(form))
    ensures ValidateField("cleaningDetails", form.cleaningDetails.value) == Some(m)
            <==> FieldError("cleaningDetails", m) in Failures(ClientChecks(form))
  {
    var checks := ClientChecks(form);
    ReportedUnder(checks, 0, m);
    ReportedUnder(checks, 1, m);
    ReportedUnder(checks, 2, m);
    ReportedUnder(checks, 3, m);
    BlurName(form.name.value);
    BlurEmail(form.email.value);
    BlurPostalCode(form.postalCode.value);
    BlurDetails(form.cleaningDetails.value);
  }

  lemma BlurName(v: string) ensures ValidateField("clientName", v) == Shown(ValidateName(Some(v))) {}
  lemma BlurEmail(v: string) ensures ValidateField("clientEmail", v) == Shown(ValidateEmail(Some(v))) {}
  lemma BlurPostalCode(v: string) ensures ValidateField("clientPostalCode", v) == Shown(ValidatePostalCode(Some(v))) {}
  lemma BlurDetails(v: string)
    ensures ValidateField("cleaningDetails", v) == Shown(ValidateCleaningDetails(Some(v), "client"))
  {}

  /** `[A-Z0-9]` */
  predicate IsUpperAlnum(c: char) {
    'A' <= c <= 'Z' || IsDigit(c)
  }

  /** `value.replace(/[^A-Z0-9]/g, '')`: only `A`-`Z` and `0`-`9` remain;
      StripCounts, StripOne and StripConcat show that each of them is kept, as
      often as it occurs and in order. */
  function StripNonAlnum(s: string): (r: string)
    ensures |r| <= |s|
    ensures forall i | 0 <= i < |r| :: IsUpperAlnum(r[i])
  {
    if s == [] then []
    else (if IsUpperAlnum(s[0]) then [s[0]] else []) + StripNonAlnum(s[1..])
  }

  /** Every upper-case letter and digit survives as often as it occurs. */
  lemma {:induction false} StripCounts(s: string, c: char)
    requires IsUpperAlnum(c)
    ensures Occurrences(StripNonAlnum(s), c) == Occurrences(s, c)
  {
    if s != [] {
      var head := if IsUpperAlnum(s[0]) then [s[0]] else [];
      StripCounts(s[1..], c);
      OccurrencesConcat(head, StripNonAlnum(s[1..]), c);
    }
  }

  /** One character is kept exactly when it is an upper-case letter or a digit. */
  lemma StripOne(c: char)
    ensures StripNonAlnum([c]) == if IsUpperAlnum(c) then [c] else []
  {
    assert [c][1..] == [];
  }

  /** The postal-code field's input handler as a function of the field's text:
      uppercase, keep `A`-`Z` and `0`-`9`, put a space after the third
      character, and keep at most seven characters. The result holds upper-case
      letters and digits, with a space at index 3 and nowhere else. */
  function FormatPostalCode(value: string): (r: string)
    ensures |r| <= 7
    ensures forall i | 0 <= i < |r| :: if i == 3 then r[i] == ' ' else IsUpperAlnum(r[i])
  {
    var stripped := StripNonAlnum(Upper(value));
    var spaced := if |stripped| >= 3 then stripped[..3] + " " + stripped[3..] else stripped;
    if |spaced| >= 7 then spaced[..7] else spaced
  }

  lemma {:induction false} StripConcat(a: string, b: string)
    ensures StripNonAlnum(a + b) == StripNonAlnum(a) + StripNonAlnum(b)
  {
    if a == [] {
      assert a + b == b;
    } else {
      assert (a + b)[1..] == a[1..] + b;
      StripConcat(a[1..], b);
    }
  }

  lemma {:induction false} StripKeepsAlnum(s: string)
    requires forall i | 0 <= i < |s| :: IsUpperAlnum(s[i])
    ensures StripNonAlnum(s) == s
  {
    if s != [] {
      StripKeepsAlnum(s[1..]);
    }
  }

  lemma {:induction false} StripDropsSpace(s: string)
    requires AllSpace(s)
    ensures StripNonAlnum(Upper(s)) == []
  {
    if s != [] {
      assert Upper(s)[1..] == Upper(s[1..]);
      StripDropsSpace(s[1..]);
    }
  }

  /** Reformatting a formatted code changes nothing. */
  lemma FormatIdempotent(x: string)
    ensures FormatPostalCode(FormatPostalCode(x)) == FormatPostalCode(x)
  {
    var v := StripNonAlnum(Upper(x));
    var r := FormatPostalCode(x);
    assert Upper(r) == r;
    if |v| < 3 {
      StripKeepsAlnum(v);
    } else {
      var m := if |v| < 6 then |v| else 6;
      assert r == v[..3] + " " + v[3..m];
      StripConcat(v[..3] + " ", v[3..m]);
      StripConcat(v[..3], " ");
      StripKeepsAlnum(v[..3]);
      StripKeepsAlnum(v[3..m]);
      assert StripNonAlnum(" ") == [];
      assert StripNonAlnum(r) == v[..3] + v[3..m];
      assert (v[..3] + v[3..m])[..3] == v[..3];
      assert (v[..3] + v[3..m])[3..] == v[3..m];
    }
  }

  /** The formatted value is made of what was typed: its letters and digits
      are the first (at most six) upper-cased letters and digits of the input,
      in order, with the space added once there are three of them. */
  lemma FormatKeepsInput(x: string)
    ensures var v := StripNonAlnum(Upper(x));
      var n := if |v| < 6 then |v| else 6;
      && StripNonAlnum(FormatPostalCode(x)) == v[..n]
      && |FormatPostalCode(x)| == (if n >= 3 then n + 1 else n)
  {
    var v := StripNonAlnum(Upper(x));
    var r := FormatPostalCode(x);
    if |v| < 3 {
      StripKeepsAlnum(v);
      assert v[..|v|] == v;
    } else {
      var m := if |v| < 6 then |v| else 6;
      assert r == v[..3] + " " + v[3..m];
      SpacedKeepsInput(v, m);
    }
  }

  lemma SpacedKeepsInput(v: string, m: nat)
    requires 3 <= m <= |v| && forall i | 0 <= i < |v| :: IsUpperAlnum(v[i])
    ensures StripNonAlnum(v[..3] + " " + v[3..m]) == v[..m]
  {
    var front, back := v[..3], v[3..m];
    assert forall i | 0 <= i < |back| :: back[i] == v[3 + i];
    StripKeepsAlnum(front);
    StripKeepsAlnum(back);
    calc {
      StripNonAlnum(front + " " + back);
    == { StripConcat(front + " ", back); }
      StripNonAlnum(front + " ") + StripNonAlnum(back);
    == { StripConcat(front, " "); }
      StripNonAlnum(front) + StripNonAlnum(" ") + StripNonAlnum(back);
    == { assert StripNonAlnum(" ") == []; }
      front + back;
    == { assert front + back == v[..m]; }
      v[..m];
    }
  }

  /** Six letters and digits in alternation, wherever they sit in the typed
      text, format to a code the postal-code validator accepts. */
  lemma FormatAlternatingIsValid(x: string)
    requires var v := StripNonAlnum(Upper(x));
      |v| >= 6 && ForwardSortationArea(v[..3]) && LocalDeliveryUnit(v[3..6])
    ensures var v := StripNonAlnum(Upper(x));
      FormatPostalCode(x) == v[..3] + " " + v[3..6]
    ensures ValidatePostalCode(Some(FormatPostalCode(x))).Valid?
  {
    var v := StripNonAlnum(Upper(x));
    var r := FormatPostalCode(x);
    assert r == v[..3] + " " + v[3..6];
    assert Trim(r) == r by {
      assert TrimStart(r) == r;
      assert TrimEnd(r) == r;
    }
    assert r[..3] == v[..3];
    assert r[|r| - 3..] == v[3..6];
  }

  lemma FormatExample()
    ensures FormatPostalCode("k1a0b1") == "K1A 0B1"
  {
    assert Upper("k1a0b1") == "K1A0B1";
    assert StripNonAlnum("K1A0B1") == "K1A0B1" by {
      StripKeepsAlnum("K1A0B1");
    }
  }

  /** Formatting a code the validator accepts (padded, lower-case, with or
      without the space) yields an accepted code in the canonical `A1A 1A1` form. */
  lemma FormatKeepsValidCodes(x: string)
    requires ValidatePostalCode(Some(x)).Valid?
    ensures ValidatePostalCode(Some(FormatPostalCode(x))).Valid?
    ensures |FormatPostalCode(x)| == 7
  {
    StripIgnoresPadding(x);
    StripOfPostalShape(Trim(x));
    FormatAlternatingIsValid(x);
  }

  lemma StripIgnoresPadding(x: string)
    ensures StripNonAlnum(Upper(x)) == StripNonAlnum(Upper(Trim(x)))
  {
    var lo, hi := TrimWithin(x);
    var t := Trim(x);
    assert x == x[..lo] + t + x[hi..];
    UpperConcat(x[..lo] + t, x[hi..]);
    UpperConcat(x[..lo], t);
    StripConcat(Upper(x[..lo]) + Upper(t), Upper(x[hi..]));
    StripConcat(Upper(x[..lo]), Upper(t));
    StripDropsSpace(x[..lo]);
    StripDropsSpace(x[hi..]);
  }

  lemma StripOfPostalShape(t: string)
    requires PostalShape(t)
    ensures var v := StripNonAlnum(Upper(t));
      |v| == 6 && ForwardSortationArea(v[..3]) && LocalDeliveryUnit(v[3..6])
  {
    var n := |t|;
    var u := Upper(t);
    UpperSlice(t, 0, 3);
    UpperSlice(t, n - 3, n);
    var front, back := t[..3], t[n - 3..];
    assert u[..3] == Upper(front) && u[n - 3..] == Upper(back);
    UpperHalf(front);
    UpperHalf(back);
    StripAroundSpace(u);
    var v := Upper(front) + Upper(back);
    assert StripNonAlnum(u) == v;
    assert v[..3] == Upper(front) && v[3..6] == Upper(back);
  }

  /** One half of a postal code, upper-cased, keeps its shape and survives stripping. */
  lemma UpperHalf(h: string)
    requires ForwardSortationArea(h) || LocalDeliveryUnit(h)
    ensures StripNonAlnum(Upper(h)) == Upper(h)
    ensures ForwardSortationArea(h) ==> ForwardSortationArea(Upper(h))
    ensures LocalDeliveryUnit(h) ==> LocalDeliveryUnit(Upper(h))
  {
    var u := Upper(h);
    forall i | 0 <= i < 3 ensures IsUpperAlnum(u[i]) && (IsAsciiLetter(h[i]) ==> IsAsciiLetter(u[i])) && (IsDigit(h[i]) ==> IsDigit(u[i])) {
      if 'a' <= h[i] <= 'z' {
        assert 'A' <= u[i] <= 'Z';
      }
    }
    StripKeepsAlnum(u);
  }

  /** Stripping a six- or seven-character code keeps its two outer halves. */
  lemma StripAroundSpace(u: string)
    requires |u| == 6 || (|u| == 7 && u[3] == ' ')
    ensures StripNonAlnum(u) == StripNonAlnum(u[..3]) + StripNonAlnum(u[|u| - 3..])
  {
    if |u| == 7 {
      assert u == u[..3] + ([u[3]] + u[4..]);
      StripConcat(u[..3], [u[3]] + u[4..]);
      StripConcat([u[3]], u[4..]);
      assert StripNonAlnum([u[3]]) == [];
    } else {
      assert u == u[..3] + u[3..];
      StripConcat(u[..3], u[3..]);
    }
  }
}
