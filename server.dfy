/** The Express endpoint `POST /api/submit-form` (server.js): boolean copies of
    the field validators, a fail-fast validation chain, the sanitised record
    that is relayed to the spreadsheet script, and the mapping of the relay's
    outcome to the response. The clock (`new Date().toISOString()`), the caller's
    address (`req.ip`), the configured script URL and the outcome of `fetch` are
    parameters. */
module Server {
  import opened Common
  import opened Text
  import opened Patterns
  import opened Chain

  /** `validateName`: 2 to 50 trimmed characters, all of them letters,
      whitespace, `-` or `'`; so an accepted name holds no digit and no `@`. */
  function ValidateName(name: Option<string>): (ok: bool)
    ensures ok ==> name.Some? && 2 <= |Trim(name.value)| <= 50
    ensures ok ==> forall i | 0 <= i < |Trim(name.value)| :: !IsDigit(Trim(name.value)[i]) && Trim(name.value)[i] != '@'
    ensures name.Some? && 2 <= |Trim(name.value)| <= 50 && NameShape(Trim(name.value)) ==> ok
  {
    if Falsy(name) || |Trim(name.value)| < 2 || |Trim(name.value)| > 50 then false
    else NameShape(Trim(name.value))
  }

  /** `validateEmail`: the trimmed address follows the email rule and has at
      most 100 characters. */
  function ValidateEmail(email: Option<string>): (ok: bool)
    ensures ok <==> email.Some? && |Trim(email.value)| <= 100 && EmailRule(Trim(email.value))
  {
    if Falsy(email) || |Trim(email.value)| == 0 || |Trim(email.value)| > 100 then false
    else EmailShapeIsRule(Trim(email.value)); EmailShape(Trim(email.value))
  }

  /** `validatePostalCode`: the trimmed code is a forward sortation area and a
      local delivery unit, with or without one space between them. */
  function ValidatePostalCode(postalCode: Option<string>): (ok: bool)
    ensures ok <==> postalCode.Some? && PostalShape(Trim(postalCode.value))
    ensures ok ==> |Trim(postalCode.value)| in {6, 7}
  {
    if Falsy(postalCode) || |Trim(postalCode.value)| == 0 then false
    else PostalShape(Trim(postalCode.value))
  }

  /** Only a client's text is checked; for any other type this passes. */
  function ValidateCleaningDetails(details: Option<string>, formType: Option<string>): (ok: bool)
    ensures formType != Some("client") ==> ok
  {
    if formType == Some("client") then
      !(Falsy(details) || |Trim(details.value)| < 10 || |Trim(details.value)| > 500)
    else true
  }

  /** A contractor needs some non-empty work answer (any value, not only
      yes/no) and 10 to 500 trimmed characters of experience. */
  function ValidateContractorFields(data: Body): (ok: bool)
    ensures data.formType != Some("contractor") ==> ok
    ensures data.formType == Some("contractor") && data.cleaningExperience.Some?
            && 10 <= |Trim(data.cleaningExperience.value)| <= 500
            ==> (ok <==> data.canWorkInCanada.Some? && data.canWorkInCanada.value != [])
  {
    if data.formType == Some("contractor") then
      if Falsy(data.canWorkInCanada) then false
      else !(Falsy(data.cleaningExperience) || |Trim(data.cleaningExperience.value)| < 10
             || |Trim(data.cleaningExperience.value)| > 500)
    else true
  }

  predicate KnownType(formType: Option<string>) {
    !Falsy(formType) && formType.value in ["client", "contractor"]
  }

  const InvalidType := "Invalid form type"
  const InvalidName := "Invalid name"
  const InvalidEmail := "Invalid email"
  const InvalidPostalCode := "Invalid postal code"
  const InvalidDetails := "Invalid cleaning details/experience"
  const InvalidContractorFields := "Invalid contractor fields"
  const Submitted := "Form submitted successfully"
  const InternalError := "Internal server error. Please try again later."

  const Rejections := {InvalidType, InvalidName, InvalidEmail, InvalidPostalCode, InvalidDetails, InvalidContractorFields}

  const NoFields := Body(None, None, None, None, None, None, None)

  /** The endpoint's checks in the order it runs them; every failure is a 400. */
  function Checks(body: Option<Body>): (checks: seq<Check>)
    ensures |checks| == 6
    ensures forall k | 0 <= k < |checks| :: checks[k].status == 400 && checks[k].message in Rejections
    ensures checks[0].passes <==> body.Some? && KnownType(body.value.formType)
  {
    var data := if body.Some? then body.value else NoFields;
    [ Check(body.Some? && KnownType(data.formType), 400, InvalidType),
      Check(ValidateName(data.name), 400, InvalidName),
      Check(ValidateEmail(data.email), 400, InvalidEmail),
      Check(ValidatePostalCode(data.postalCode), 400, InvalidPostalCode),
      Check(ValidateCleaningDetails(Or(data.cleaningDetails, data.cleaningExperience), data.formType), 400, InvalidDetails),
      Check(ValidateContractorFields(data), 400, InvalidContractorFields) ]
  }

  /** The JSON response: status code, `success` and `message`. */
  datatype Response = Response(status: nat, success: bool, message: string)

  /** `sanitizedData`: the record relayed to the spreadsheet script. Fields of
      the other form type are absent. */
  datatype Record = Record(
    formType: string, name: string, email: string, postalCode: string,
    timestamp: string, ip: string,
    cleaningDetails: Option<string>, canWorkInCanada: Option<string>, cleaningExperience: Option<string>)

  /** The response, and the record sent upstream if a request was made. */
  datatype Exchange = Exchange(response: Response, relayed: Option<Record>)

  predicate NoUpperCase(s: string) {
    forall i | 0 <= i < |s| :: !('A' <= s[i] <= 'Z')
  }

  predicate NoLowerCase(s: string) {
    forall i | 0 <= i < |s| :: !('a' <= s[i] <= 'z')
  }

  /** Builds `sanitizedData` and adds the type-specific fields; `None` when a
      `.trim()` meets a missing field and throws. The email is lower-cased and
      the postal code only upper-cased: both keep their trimmed length, so no
      space is inserted. */
  function Sanitize(data: Body, timestamp: string, ip: string): (r: Option<Record>)
    requires data.formType.Some?
    ensures r.Some? ==> data.name.Some? && data.email.Some? && data.postalCode.Some?
    ensures r.Some? ==> r.value.name == Trim(data.name.value)
    ensures r.Some? ==> r.value.email == Lower(Trim(data.email.value))
    ensures r.Some? ==> r.value.postalCode == Upper(Trim(data.postalCode.value))
    ensures r.Some? && data.formType == Some("client") ==>
      && data.cleaningDetails.Some? && r.value.cleaningDetails == Some(Trim(data.cleaningDetails.value))
      && r.value.canWorkInCanada.None? && r.value.cleaningExperience.None?
    ensures r.Some? && data.formType == Some("contractor") ==>
      && data.cleaningExperience.Some? && r.value.cleaningExperience == Some(Trim(data.cleaningExperience.value))
      && r.value.cleaningDetails.None? && r.value.canWorkInCanada == data.canWorkInCanada
    ensures r.Some? && data.formType !in {Some("client"), Some("contractor")} ==>
      r.value.cleaningDetails.None? && r.value.canWorkInCanada.None? && r.value.cleaningExperience.None?
    ensures r.Some? ==> r.value.formType == data.formType.value && r.value.timestamp == timestamp && r.value.ip == ip
    ensures r.Some? ==> |r.value.email| == |Trim(data.email.value)| && NoUpperCase(r.value.email)
    ensures r.Some? ==> |r.value.postalCode| == |Trim(data.postalCode.value)| && NoLowerCase(r.value.postalCode)
    ensures r.None? <==>
      || data.name.None? || data.email.None? || data.postalCode.None?
      || (data.formType == Some("client") && data.cleaningDetails.None?)
      || (data.formType == Some("contractor") && data.cleaningExperience.None?)
  {
    if data.name.None? || data.email.None? || data.postalCode.None? then None
    else
      var sanitized := Record(data.formType.value, Trim(data.name.value), Lower(Trim(data.email.value)),
                              Upper(Trim(data.postalCode.value)), timestamp, ip, None, None, None);
      if data.formType == Some("client") then
        if data.cleaningDetails.None? then None
        else Some(sanitized.(cleaningDetails := Some(Trim(data.cleaningDetails.value))))
      else if data.formType == Some("contractor") then
        if data.cleaningExperience.None? then None
        else Some(sanitized.(canWorkInCanada := data.canWorkInCanada,
                             cleaningExperience := Some(Trim(data.cleaningExperience.value))))
      else Some(sanitized)
  }

  /** The validation half of the handler: the message of the first check that
      fails, in the order the handler runs them, or `None` when all pass. */
  function Validate(body: Option<Body>): (failure: Option<string>)
    ensures failure.Some? ==> failure.value in Rejections
    ensures failure.None? ==> body.Some? && KnownType(body.value.formType)
    ensures failure.None? ==> ValidateName(body.value.name) && ValidateEmail(body.value.email)
                              && ValidatePostalCode(body.value.postalCode)
  {
    if body.None? || Falsy(body.value.formType) || body.value.formType.value !in ["client", "contractor"] then
      Some(InvalidType)
    else
      var data := body.value;
      if !ValidateName(data.name) then Some(InvalidName)
      else if !ValidateEmail(data.email) then Some(InvalidEmail)
      else if !ValidatePostalCode(data.postalCode) then Some(InvalidPostalCode)
      else if !ValidateCleaningDetails(Or(data.cleaningDetails, data.cleaningExperience), data.formType) then
        Some(InvalidDetails)
      else if !ValidateContractorFields(data) then Some(InvalidContractorFields)
      else None
  }

  /** The handler stops at the first failing check and answers with its message. */
  lemma ValidateIsFailFast(body: Option<Body>)
    ensures Validate(body).None? <==> FirstFailure(Checks(body)).None?
    ensures Validate(body).Some? ==> Validate(body).value == Checks(body)[FirstFailure(Checks(body)).value].message
  {
    var c := Checks(body);
    var r := FirstFailure(c);
    if r.Some? {
      var k := r.value;
      assert forall j | 0 <= j < k :: c[j].passes;
      assert Validate(body) == Some(c[k].message) by {
        if k == 0 {
        } else if k == 1 {
          assert c[0].passes;
        } else if k == 2 {
          assert c[0].passes && c[1].passes;
        } else if k == 3 {
          assert c[0].passes && c[1].passes && c[2].passes;
        } else if k == 4 {
          assert c[0].passes && c[1].passes && c[2].passes && c[3].passes;
        } else {
          assert c[0].passes && c[1].passes && c[2].passes && c[3].passes && c[4].passes;
        }
      }
    } else {
      assert c[0].passes && c[1].passes && c[2].passes && c[3].passes && c[4].passes && c[5].passes;
    }
  }

  const Failed := Response(500, false, InternalError)

  /** The `/api/submit-form` handler. The first failing check decides the 400
      message; a thrown error or a non-2xx upstream reply gives one fixed 500
      that carries nothing of the upstream reply; 200 comes only after the
      upstream script answered 2xx. */
  function SubmitForm(body: Option<Body>, timestamp: string, ip: string,
                      scriptUrl: Option<string>, upstream: Outcome): (x: Exchange)
    ensures x.response.status in {200, 400, 500}
    ensures x.response.success <==> x.response.status == 200
    ensures x.response.status == 400 <==> Validate(body).Some?
    ensures x.response.status == 400 ==> x.response.message in Rejections
    ensures x.response.status == 500 ==> x.response == Failed
    ensures x.relayed.Some? ==>
      && Validate(body).None? && !Falsy(scriptUrl)
      && Some(x.relayed.value) == Sanitize(body.value, timestamp, ip)
    ensures x.response.status == 200 <==> x.relayed.Some? && upstream == Ok
  {
    match Validate(body)
    case Some(message) => Exchange(Response(400, false, message), None)
    case None =>
      match Sanitize(body.value, timestamp, ip)
      case None => Exchange(Failed, None)
      case Some(record) =>
        // fetch(undefined) and fetch('') reject before any request is made
        if Falsy(scriptUrl) then Exchange(Failed, None)
        else if upstream.Ok? then Exchange(Response(200, true, Submitted), Some(record))
        else Exchange(Failed, Some(record))
  }

  /** The response to a request, in terms of the check list: a 400 carries the
      message of the first failing check; everything that passes every check
      and is sanitised without error is relayed once a script URL is set. */
  lemma SubmitFormResponds(body: Option<Body>, timestamp: string, ip: string,
                           scriptUrl: Option<string>, upstream: Outcome)
    ensures var x := SubmitForm(body, timestamp, ip, scriptUrl, upstream);
      && (x.response.status == 400 <==> FirstFailure(Checks(body)).Some?)
      && (x.response.status == 400 ==> x.response.message == Checks(body)[FirstFailure(Checks(body)).value].message)
      && (x.relayed.Some? <==>
            FirstFailure(Checks(body)).None? && !Falsy(scriptUrl) && Sanitize(body.value, timestamp, ip).Some?)
  {
    ValidateIsFailFast(body);
    if Validate(body).None? {
      assert body.Some? && body.value.formType.Some?;
    }
  }

  /** Any form type other than exactly 'client' or 'contractor' is refused
      before a single field is looked at. */
  lemma UnknownTypeRejectedFirst(body: Option<Body>, timestamp: string, ip: string,
                                 scriptUrl: Option<string>, upstream: Outcome)
    requires body.None? || body.value.formType !in {Some("client"), Some("contractor")}
    ensures SubmitForm(body, timestamp, ip, scriptUrl, upstream).response == Response(400, false, InvalidType)
  {
    assert !Checks(body)[0].passes;
  }

  /** A client that sends `cleaningExperience` instead of `cleaningDetails`
      passes validation (the details check reads `cleaningDetails ||
      cleaningExperience`), then the `.trim()` on the missing details throws:
      500, and nothing is relayed. */
  lemma ClientWithoutDetailsFailsLate(data: Body, timestamp: string, ip: string,
                                      scriptUrl: Option<string>, upstream: Outcome)
    requires data.formType == Some("client")
    requires ValidateName(data.name) && ValidateEmail(data.email) && ValidatePostalCode(data.postalCode)
    requires data.cleaningDetails.None?
    requires data.cleaningExperience.Some? && 10 <= |Trim(data.cleaningExperience.value)| <= 500
    ensures FirstFailure(Checks(Some(data))).None?
    ensures SubmitForm(Some(data), timestamp, ip, scriptUrl, upstream) == Exchange(Response(500, false, InternalError), None)
  {
    assert Or(data.cleaningDetails, data.cleaningExperience) == data.cleaningExperience;
    assert ValidateCleaningDetails(data.cleaningExperience, data.formType);
    PassesEveryCheck(data);
    ValidateIsFailFast(Some(data));
  }

  /** A client whose `cleaningDetails` is the empty string but who sends a
      valid `cleaningExperience` is relayed with empty details. */
  lemma ClientWithEmptyDetailsIsRelayed(data: Body, timestamp: string, ip: string, scriptUrl: Option<string>)
    requires data.formType == Some("client")
    requires ValidateName(data.name) && ValidateEmail(data.email) && ValidatePostalCode(data.postalCode)
    requires data.cleaningDetails == Some("")
    requires data.cleaningExperience.Some? && 10 <= |Trim(data.cleaningExperience.value)| <= 500
    requires !Falsy(scriptUrl)
    ensures var x := SubmitForm(Some(data), timestamp, ip, scriptUrl, Ok);
      x.response.status == 200 && x.relayed.Some? && x.relayed.value.cleaningDetails == Some("")
  {
    assert Or(data.cleaningDetails, data.cleaningExperience) == data.cleaningExperience;
    assert Trim("") == "";
  }

  /** The record as a request body, to send it through the handler again. */
  function AsBody(r: Record): Body {
    Body(Some(r.formType), Some(r.name), Some(r.email), Some(r.postalCode),
         r.cleaningDetails, r.canWorkInCanada, r.cleaningExperience)
  }

  /** Sanitising is idempotent: a sanitised record, sent again, comes out unchanged. */
  lemma SanitizeIdempotent(data: Body, timestamp: string, ip: string)
    requires data.formType.Some? && Sanitize(data, timestamp, ip).Some?
    ensures Sanitize(AsBody(Sanitize(data, timestamp, ip).value), timestamp, ip) == Sanitize(data, timestamp, ip)
  {
    var r := Sanitize(data, timestamp, ip).value;
    TrimIdempotent(data.name.value);
    LowerTrimStable(data.email.value);
    UpperTrimStable(data.postalCode.value);
    var again := Record(r.formType, Trim(r.name), Lower(Trim(r.email)), Upper(Trim(r.postalCode)),
                        timestamp, ip, None, None, None);
    assert again == r.(cleaningDetails := None, canWorkInCanada := None, cleaningExperience := None);
    if data.cleaningDetails.Some? {
      TrimIdempotent(data.cleaningDetails.value);
    }
    if data.cleaningExperience.Some? {
      TrimIdempotent(data.cleaningExperience.value);
    }
  }

  lemma LowerTrimStable(s: string)
    ensures Lower(Trim(Lower(Trim(s)))) == Lower(Trim(s))
  {
    TrimLower(Trim(s));
    TrimIdempotent(s);
    LowerIdempotent(Trim(s));
  }

  lemma UpperTrimStable(s: string)
    ensures Upper(Trim(Upper(Trim(s)))) == Upper(Trim(s))
  {
    TrimUpper(Trim(s));
    TrimIdempotent(s);
    UpperIdempotent(Trim(s));
  }

  /** A relayed record passes the endpoint's own checks again, provided a
      client sent non-empty `cleaningDetails` (ClientWithEmptyDetailsIsRelayed
      shows a relayed record that does not). */
  lemma SanitizedRecordRevalidates(data: Body, timestamp: string, ip: string)
    requires Validate(Some(data)).None?
    requires Sanitize(data, timestamp, ip).Some?
    requires data.formType == Some("client") ==> !Falsy(data.cleaningDetails)
    ensures Validate(Some(AsBody(Sanitize(data, timestamp, ip).value))).None?
  {
    var b := AsBody(Sanitize(data, timestamp, ip).value);
    PassedEveryCheck(data);
    NameRevalidates(data.name.value);
    EmailRevalidates(data.email.value);
    PostalCodeRevalidates(data.postalCode.value);
    TypeFieldsRevalidate(data, b);
    PassesEveryCheck(b);
  }

  /** The details and contractor checks pass on the trimmed type-specific fields. */
  lemma TypeFieldsRevalidate(data: Body, b: Body)
    requires KnownType(data.formType) && b.formType == data.formType
    requires ValidateCleaningDetails(Or(data.cleaningDetails, data.cleaningExperience), data.formType)
    requires ValidateContractorFields(data)
    requires data.formType == Some("client") ==>
      && !Falsy(data.cleaningDetails) && b.cleaningDetails == Some(Trim(data.cleaningDetails.value))
      && b.cleaningExperience.None?
    requires data.formType == Some("contractor") ==>
      && data.cleaningExperience.Some? && b.cleaningExperience == Some(Trim(data.cleaningExperience.value))
      && b.canWorkInCanada == data.canWorkInCanada
    ensures ValidateCleaningDetails(Or(b.cleaningDetails, b.cleaningExperience), b.formType)
    ensures ValidateContractorFields(b)
  {
    if data.formType == Some("client") {
      TrimIdempotent(data.cleaningDetails.value);
      assert Or(data.cleaningDetails, data.cleaningExperience) == data.cleaningDetails;
    } else {
      TrimIdempotent(data.cleaningExperience.value);
    }
  }

  /** A body that passed the chain passed each check of it. */
  lemma PassedEveryCheck(b: Body)
    requires Validate(Some(b)).None?
    ensures KnownType(b.formType)
    ensures ValidateName(b.name) && ValidateEmail(b.email) && ValidatePostalCode(b.postalCode)
    ensures ValidateCleaningDetails(Or(b.cleaningDetails, b.cleaningExperience), b.formType)
    ensures ValidateContractorFields(b)
  {
  }

  /** The chain passes once the type is known and each field check passes. */
  lemma PassesEveryCheck(b: Body)
    requires KnownType(b.formType)
    requires ValidateName(b.name) && ValidateEmail(b.email) && ValidatePostalCode(b.postalCode)
    requires ValidateCleaningDetails(Or(b.cleaningDetails, b.cleaningExperience), b.formType)
    requires ValidateContractorFields(b)
    ensures Validate(Some(b)).None?
  {
  }

  lemma NameRevalidates(name: string)
    requires ValidateName(Some(name))
    ensures ValidateName(Some(Trim(name)))
  {
    TrimIdempotent(name);
  }

  lemma EmailRevalidates(email: string)
    requires ValidateEmail(Some(email))
    ensures ValidateEmail(Some(Lower(Trim(email))))
  {
    var e := Trim(email);
    TrimLower(e);
    TrimIdempotent(email);
    EmailShapeLower(e);
  }

  lemma PostalCodeRevalidates(postalCode: string)
    requires ValidatePostalCode(Some(postalCode))
    ensures ValidatePostalCode(Some(Upper(Trim(postalCode))))
  {
    var p := Trim(postalCode);
    TrimUpper(p);
    TrimIdempotent(postalCode);
    PostalShapeUpper(p);
  }

  /** The sample sign-up of a client goes through. */
  lemma ClientSignupScenario(timestamp: string, ip: string, scriptUrl: string)
    requires scriptUrl != []
    ensures var body := Body(Some("client"), Some("Jane Doe"), Some("jane@example.com"), Some("K1A0B1"),
                             Some("Need full apartment deep clean"), None, None);
      SubmitForm(Some(body), timestamp, ip, Some(scriptUrl), Ok).response == Response(200, true, Submitted)
  {
    var body := Body(Some("client"), Some("Jane Doe"), Some("jane@example.com"), Some("K1A0B1"),
                     Some("Need full apartment deep clean"), None, None);
    SampleName();
    SampleEmail();
    SamplePostalCode();
    SampleDetails();
    assert Or(body.cleaningDetails, body.cleaningExperience) == body.cleaningDetails;
    PassesEveryCheck(body);
  }

  lemma SampleName()
    ensures ValidateName(Some("Jane Doe"))
  {
    assert TrimStart("Jane Doe") == "Jane Doe";
    assert TrimEnd("Jane Doe") == "Jane Doe";
    assert NameShape("Jane Doe");
  }

  lemma SampleEmail()
    ensures ValidateEmail(Some("jane@example.com"))
  {
    var email := "jane@example.com";
    assert TrimStart(email) == email;
    assert TrimEnd(email) == email;
    assert email[4] == '@' && email[12] == '.';
    assert email[..4] == "jane" && AllPlain("jane");
    assert email[5..12] == "example" && AllPlain("example");
    assert email[13..] == "com" && AllPlain("com");
  }

  lemma SamplePostalCode()
    ensures ValidatePostalCode(Some("K1A0B1"))
  {
    assert TrimStart("K1A0B1") == "K1A0B1";
    assert TrimEnd("K1A0B1") == "K1A0B1";
  }

  lemma SampleDetails()
    ensures ValidateCleaningDetails(Some("Need full apartment deep clean"), Some("client"))
  {
    var details := "Need full apartment deep clean";
    assert TrimStart(details) == details;
    assert TrimEnd(details) == details;
  }

  /** The sample contractor sign-up with every field wrong is refused with
      the name message: the first failing check decides. */
  lemma BadContractorScenario(timestamp: string, ip: string, scriptUrl: Option<string>, upstream: Outcome)
    ensures var body := Body(Some("contractor"), Some("A"), Some("bad"), Some("000"), None, Some(""), Some(""));
      SubmitForm(Some(body), timestamp, ip, scriptUrl, upstream).response == Response(400, false, InvalidName)
  {
    assert Trim("A") == "A" by {
      assert TrimStart("A") == "A";
      assert TrimEnd("A") == "A";
    }
  }
}
