/** How the three copies of the rules relate: the browser's validators and
    the Express server's accept the same values; what the browser sends is
    what the server accepts, except for a contractor's experience; and the
    Netlify function judges the address differently from both. */
module Agreement {
  import opened Common
  import opened Text
  import opened Patterns
  import Client
  import Server
  import Netlify

  lemma NameAgrees(name: Option<string>)
    ensures Server.ValidateName(name) <==> Client.ValidateName(name).Valid?
  {
  }

  /** The server's regex test and the browser's verdict accept the same addresses. */
  lemma EmailAgrees(email: Option<string>)
    ensures Server.ValidateEmail(email) <==> Client.ValidateEmail(email).Valid?
  {
    if email.Some? {
      EmailShapeIsRule(Trim(email.value));
    }
  }

  lemma PostalCodeAgrees(postalCode: Option<string>)
    ensures Server.ValidatePostalCode(postalCode) <==> Client.ValidatePostalCode(postalCode).Valid?
  {
  }

  lemma CleaningDetailsAgree(details: Option<string>, formType: string)
    ensures Server.ValidateCleaningDetails(details, Some(formType)) <==>
            Client.ValidateCleaningDetails(details, formType).Valid?
  {
  }

  lemma ContractorFieldsAgree(data: Body)
    ensures Server.ValidateContractorFields(data) <==> Client.ValidateContractorFields(data).Valid?
  {
  }

  /** A client form as the server would receive it untrimmed. */
  function ClientBody(form: Client.ClientForm): Body {
    Body(Some("client"), form.name, form.email, form.postalCode, form.cleaningDetails, None, None)
  }

  /** The browser finds nothing wrong with a client form exactly when the
      server's checks pass on the same fields. */
  lemma ClientFormAgrees(form: Client.ClientForm)
    ensures Client.Failures(Client.ClientChecks(form)) == [] <==> Server.Validate(Some(ClientBody(form))).None?
  {
    ClientChecksPass(form);
    ServerClientChain(ClientBody(form));
    NameAgrees(form.name);
    EmailAgrees(form.email);
    PostalCodeAgrees(form.postalCode);
    CleaningDetailsAgree(form.cleaningDetails, "client");
    assert Or(form.cleaningDetails, None) == form.cleaningDetails || Falsy(form.cleaningDetails);
  }

  lemma ClientChecksPass(form: Client.ClientForm)
    ensures Client.Failures(Client.ClientChecks(form)) == [] <==>
      && Client.ValidateName(form.name).Valid? && Client.ValidateEmail(form.email).Valid?
      && Client.ValidatePostalCode(form.postalCode).Valid?
      && Client.ValidateCleaningDetails(form.cleaningDetails, "client").Valid?
  {
    FourChecksPass(Client.ClientChecks(form));
  }

  /** No failures among four checks means each of the four passed, and conversely. */
  lemma FourChecksPass(checks: seq<(string, Client.Verdict)>)
    requires |checks| == 4
    ensures Client.Failures(checks) == [] <==> checks[0].1.Valid? && checks[1].1.Valid? && checks[2].1.Valid? && checks[3].1.Valid?
  {
    Client.FailuresEmpty(checks);
  }

  /** No failures means the first four checks passed. */
  lemma FirstFourPass(checks: seq<(string, Client.Verdict)>)
    requires 4 <= |checks| && Client.Failures(checks) == []
    ensures checks[0].1.Valid? && checks[1].1.Valid? && checks[2].1.Valid? && checks[3].1.Valid?
  {
    Client.FailuresEmpty(checks);
  }

  lemma ContractorChecksPass(form: Client.ContractorForm)
    requires Client.Failures(Client.ContractorChecks(form)) == []
    ensures Client.ValidateName(form.name).Valid? && Client.ValidateEmail(form.email).Valid?
    ensures Client.ValidatePostalCode(form.postalCode).Valid? && !Falsy(form.canWorkInCanada)
  {
    var checks := Client.ContractorChecks(form);
    FirstFourPass(checks);
  }

  /** The server's chain on a client body, with the type check passed. */
  lemma ServerClientChain(b: Body)
    requires b.formType == Some("client")
    ensures Server.Validate(Some(b)).None? <==>
      && Server.ValidateName(b.name) && Server.ValidateEmail(b.email) && Server.ValidatePostalCode(b.postalCode)
      && Server.ValidateCleaningDetails(Or(b.cleaningDetails, b.cleaningExperience), Some("client"))
  {
  }

  /** The server's chain on a contractor body, with the type check passed:
      the details check always passes, so with the first three fields valid
      only the contractor check can fail. */
  lemma ServerContractorChain(b: Body)
    requires b.formType == Some("contractor")
    requires Server.ValidateName(b.name) && Server.ValidateEmail(b.email) && Server.ValidatePostalCode(b.postalCode)
    ensures Server.Validate(Some(b)) == if Server.ValidateContractorFields(b) then None else Some(Server.InvalidContractorFields)
  {
  }

  /** Trimming a field the server accepts keeps it accepted. */
  lemma TrimmedFieldsStayValid(name: string, email: string, postalCode: string)
    requires Server.ValidateName(Some(name)) && Server.ValidateEmail(Some(email))
    requires Server.ValidatePostalCode(Some(postalCode))
    ensures Server.ValidateName(Some(Trim(name))) && Server.ValidateEmail(Some(Trim(email)))
    ensures Server.ValidatePostalCode(Some(Trim(postalCode)))
  {
    TrimIdempotent(name);
    TrimIdempotent(email);
    TrimIdempotent(postalCode);
  }

  /** What the client form sends once the browser is satisfied passes the
      server's checks and is sanitised without error. */
  lemma ClientPayloadAccepted(form: Client.ClientForm)
    requires Client.Failures(Client.ClientChecks(form)) == []
    ensures var data := Body(Some("client"), Client.TrimField(form.name), Client.TrimField(form.email),
                             Client.TrimField(form.postalCode), Client.TrimField(form.cleaningDetails), None, None);
      Server.Validate(Some(data)).None? && forall t, ip :: Server.Sanitize(data, t, ip).Some?
  {
    ClientChecksPass(form);
    NameAgrees(form.name);
    EmailAgrees(form.email);
    PostalCodeAgrees(form.postalCode);
    var data := Body(Some("client"), Client.TrimField(form.name), Client.TrimField(form.email),
                     Client.TrimField(form.postalCode), Client.TrimField(form.cleaningDetails), None, None);
    TrimmedFieldsStayValid(form.name.value, form.email.value, form.postalCode.value);
    TrimIdempotent(form.cleaningDetails.value);
    assert Server.ValidateCleaningDetails(Or(data.cleaningDetails, None), Some("client"));
    ServerClientChain(data);
  }

  /** What the contractor form sends once the browser is satisfied: the server
      accepts it exactly when the experience has 10 to 500 trimmed characters,
      which the browser never checks; otherwise it answers "Invalid contractor
      fields". */
  lemma ContractorPayloadJudgedOnExperience(form: Client.ContractorForm)
    requires Client.Failures(Client.ContractorChecks(form)) == [] && form.cleaningExperience.Some?
    ensures var data := Body(Some("contractor"), Client.TrimField(form.name), Client.TrimField(form.email),
                             Client.TrimField(form.postalCode), None, form.canWorkInCanada,
                             Client.TrimField(form.cleaningExperience));
      && (Server.Validate(Some(data)).None? <==> 10 <= |Trim(form.cleaningExperience.value)| <= 500)
      && (Server.Validate(Some(data)).Some? ==> Server.Validate(Some(data)) == Some(Server.InvalidContractorFields))
  {
    ContractorChecksPass(form);
    NameAgrees(form.name);
    EmailAgrees(form.email);
    PostalCodeAgrees(form.postalCode);
    var data := Body(Some("contractor"), Client.TrimField(form.name), Client.TrimField(form.email),
                     Client.TrimField(form.postalCode), None, form.canWorkInCanada,
                     Client.TrimField(form.cleaningExperience));
    TrimmedFieldsStayValid(form.name.value, form.email.value, form.postalCode.value);
    TrimIdempotent(form.cleaningExperience.value);
    ServerContractorChain(data);
  }

  /** An address the browser and the server accept can end with the Netlify
      function refusing it once it carries a leading space, because the
      function tests the raw value where the other two trim first. */
  lemma NetlifyDoesNotTrim(email: string, formType: string, scriptUrl: Option<string>,
                           timestamp: string, upstream: Outcome)
    requires EmailShape(email) && |email| <= 100 && formType != []
    ensures Server.ValidateEmail(Some(" " + email))
    ensures Netlify.Handler("POST", Netlify.Parsed(Some(" " + email), Some(formType)), scriptUrl, timestamp, upstream).response
            == Netlify.Response(400, false, Netlify.MessagePayload(false, Netlify.InvalidEmailFormat))
  {
    var padded := " " + email;
    TrimOfShape(email);
    assert padded[1..] == email;
    assert TrimStart(padded) == TrimStart(email);
    assert Trim(padded) == email;
    assert forall at | 0 < at <= |padded| :: padded[..at][0] == ' ';
  }

  /** An address longer than 100 characters that matches the regex is relayed
      by the Netlify function and refused by the server. */
  lemma NetlifyHasNoLengthCap(email: string, formType: string, scriptUrl: string, timestamp: string)
    requires EmailShape(email) && |email| > 100 && formType != [] && scriptUrl != []
    ensures !Server.ValidateEmail(Some(email))
    ensures Netlify.Handler("POST", Netlify.Parsed(Some(email), Some(formType)), Some(scriptUrl), timestamp, Ok)
              .response.statusCode == 200
  {
    TrimOfShape(email);
  }

  /** A string matching the email regex has no whitespace at either end, so
      trimming leaves it alone. */
  lemma TrimOfShape(email: string)
    requires EmailShape(email)
    ensures TrimStart(email) == email && Trim(email) == email
  {
    var at, dot :| 0 < at && at + 1 < dot && dot + 1 < |email|
      && email[at] == '@' && email[dot] == '.'
      && AllPlain(email[..at]) && AllPlain(email[at + 1..dot]) && AllPlain(email[dot + 1..]);
    assert email[..at][0] == email[0];
    var top := email[dot + 1..];
    assert top[|top| - 1] == email[|email| - 1];
  }

  /** The server stores a code typed without its space as it came, upper-cased
      (six characters), whereas the browser's formatter would have inserted
      the space (seven characters). */
  lemma ServerKeepsUnspacedPostalCode(data: Body, timestamp: string, ip: string)
    requires data.formType == Some("client") && data.postalCode.Some?
    requires PostalShape(data.postalCode.value) && |data.postalCode.value| == 6
    requires Server.Sanitize(data, timestamp, ip).Some?
    ensures |Server.Sanitize(data, timestamp, ip).value.postalCode| == 6
    ensures |Client.FormatPostalCode(data.postalCode.value)| == 7
    ensures Client.FormatPostalCode(data.postalCode.value)[3] == ' '
  {
    var p := data.postalCode.value;
    assert !IsSpace(p[0]) && !IsSpace(p[|p| - 1]);
    assert TrimStart(p) == p && TrimEnd(p) == p;
    Client.FormatKeepsValidCodes(p);
  }
}
