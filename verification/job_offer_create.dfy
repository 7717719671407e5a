/** The job-offer creation page: the recruiter guard of its mount effect,
    the fetch of the companies a recruiter may post for, the ordered chain
    of checks run before an offer is sent, and the payload built from the
    form. */
module JobOfferCreate {
  import opened Domain

  /** The form. `companyId` is what the company select holds: `None` until a
      company is picked, then the picked company's numeric id, which
      `parseInt(…, 10)` reads back unchanged. */
  datatype OfferForm = OfferForm(
    title: string,
    description: string,
    salary: string,
    location: string,
    employmentType: string,
    companyId: Option<int>)

  const InitialForm := OfferForm("", "", "", "", "FULL_TIME", None)

  /** What is sent: the form with `companyId` as a number. */
  datatype OfferPayload = OfferPayload(
    title: string,
    description: string,
    salary: string,
    location: string,
    employmentType: string,
    companyId: int)

  /** The checks of `handleSubmit`, in the order they run. */
  datatype OfferError = MissingRequired | BadTitle | BadDescription | BadEmploymentType | BadCompany

  function Rank(e: OfferError): nat {
    match e
    case MissingRequired => 0
    case BadTitle => 1
    case BadDescription => 2
    case BadEmploymentType => 3
    case BadCompany => 4
  }

  predicate EmploymentType(t: string) {
    t == "FULL_TIME" || t == "PART_TIME" || t == "FREELANCE"
  }

  /** Some fetched company has id `id`. */
  predicate Listed(companies: seq<Company>, id: int) {
    exists i :: 0 <= i < |companies| && companies[i].id == id
  }

  /** Whether the form fails check `e` against the fetched companies. A
      company id of 0 is falsy and so counts as missing. */
  predicate Violates(f: OfferForm, companies: seq<Company>, e: OfferError) {
    match e
    case MissingRequired =>
      || f.title == "" || f.description == "" || f.salary == "" || f.location == ""
      || f.employmentType == "" || f.companyId.None? || f.companyId == Some(0)
    case BadTitle => !(2 <= |f.title| <= 100)
    case BadDescription => !(10 <= |f.description| <= 2000)
    case BadEmploymentType => !EmploymentType(f.employmentType)
    case BadCompany => f.companyId.None? || !Listed(companies, f.companyId.value)
  }

  function Message(e: OfferError): string {
    match e
    case MissingRequired => "❌ Title, description, salary, location, employment type, and company ID are required"
    case BadTitle => "❌ Title must be 2-100 characters"
    case BadDescription => "❌ Description must be 10-2000 characters"
    case BadEmploymentType => "❌ Invalid employment type"
    case BadCompany => "❌ Invalid company ID"
  }

  datatype Checked = Invalid(error: OfferError) | Valid(payload: OfferPayload)

  /** The validation chain of `handleSubmit` and the payload it builds: a
      payload exactly when every check passes, carrying the form's fields
      and a company id some fetched company has; otherwise a failed check
      such that every earlier check passed. */
  function CheckOffer(f: OfferForm, companies: seq<Company>): (r: Checked)
    ensures r.Valid? <==> forall e :: !Violates(f, companies, e)
    ensures r.Invalid? ==>
      Violates(f, companies, r.error) && forall e :: Rank(e) < Rank(r.error) ==> !Violates(f, companies, e)
    ensures r.Valid? ==>
      && f.companyId == Some(r.payload.companyId)
      && r.payload.title == f.title && r.payload.description == f.description
      && r.payload.salary == f.salary && r.payload.location == f.location
      && r.payload.employmentType == f.employmentType
      && Listed(companies, r.payload.companyId)
  {
    if Violates(f, companies, MissingRequired) then Invalid(MissingRequired)
    else if Violates(f, companies, BadTitle) then Invalid(BadTitle)
    else if Violates(f, companies, BadDescription) then Invalid(BadDescription)
    else if Violates(f, companies, BadEmploymentType) then Invalid(BadEmploymentType)
    else if Violates(f, companies, BadCompany) then Invalid(BadCompany)
    else Valid(OfferPayload(f.title, f.description, f.salary, f.location, f.employmentType, f.companyId.value))
  }

  /** The form a payload was built from. */
  function FormOf(p: OfferPayload): OfferForm {
    OfferForm(p.title, p.description, p.salary, p.location, p.employmentType, Some(p.companyId))
  }

  /** The payload is the form with only the company id's type changed:
      reading it back as a form gives the form that was checked. */
  lemma PayloadIsForm(f: OfferForm, companies: seq<Company>)
    requires CheckOffer(f, companies).Valid?
    ensures FormOf(CheckOffer(f, companies).payload) == f
  {
  }

  /** An offer passes exactly when all fields are filled in, the title has 2
      to 100 characters, the description 10 to 2000, the employment type is
      one of the three, and the company is one of the fetched ones. */
  lemma AcceptedExactly(f: OfferForm, companies: seq<Company>)
    ensures CheckOffer(f, companies).Valid? <==>
      && f.salary != "" && f.location != ""
      && 2 <= |f.title| <= 100 && 10 <= |f.description| <= 2000
      && f.employmentType in {"FULL_TIME", "PART_TIME", "FREELANCE"}
      && f.companyId.Some? && f.companyId.value != 0 && Listed(companies, f.companyId.value)
  {
    if CheckOffer(f, companies).Valid? {
      assert !Violates(f, companies, MissingRequired) && !Violates(f, companies, BadTitle);
      assert !Violates(f, companies, BadDescription) && !Violates(f, companies, BadEmploymentType);
      assert !Violates(f, companies, BadCompany);
    }
  }

  /** Before the companies arrive (or when the fetch failed) no offer can be
      sent: every complete form ends at the company check. */
  lemma NoCompaniesNoOffer(f: OfferForm)
    ensures CheckOffer(f, []).Invalid?
  {
    if f.companyId.Some? {
      assert !Listed([], f.companyId.value);
    }
    assert Violates(f, [], BadCompany);
  }

  /** The requests this page sends. */
  datatype Request = FetchCompanies | CreateJobOffer(payload: OfferPayload)

  /** The inputs that each write one text field of the form. */
  datatype Field = Title | Description | Salary | Location | Employment

  const NotRecruiter := "❌ You must be a recruiter to create a job offer."
  const NoToken := "❌ No authentication token found. Please log in again."
  const InvalidToken := "❌ Invalid token. Please log in again."
  const CompaniesFallback := "❌ Failed to fetch company IDs"
  const CreateFallback := "❌ Job offer creation failed"

  class JobOfferCreatePage {
    var formData: OfferForm
    var error: Option<string>
    /** The fetched companies the select offers. */
    var companies: seq<Company>
    var route: Option<string>
    var sent: seq<Request>

    constructor ()
      ensures formData == InitialForm && error == None && companies == []
      ensures route == None && sent == []
    {
      formData, error, companies := InitialForm, None, [];
      route, sent := None, [];
    }

    /** The mount effect. Anyone but a signed-in RECRUITER, and a recruiter
        without a token, is sent to the sign-in page and nothing is fetched;
        otherwise the companies are fetched, and a 401 also leads to the
        sign-in page. */
    method Mount(user: Option<User>, token: Option<string>, fetched: Response<Option<seq<Company>>>)
      modifies this`error, this`companies, this`route, this`sent
      ensures !IsRole(user, Recruiter) ==>
        error == Some(NotRecruiter) && route == Some("/signin") && sent == old(sent) && companies == old(companies)
      ensures IsRole(user, Recruiter) && (token.None? || token == Some("")) ==>
        error == Some(NoToken) && route == Some("/signin") && sent == old(sent) && companies == old(companies)
      ensures IsRole(user, Recruiter) && token.Some? && token != Some("") ==>
        && sent == old(sent) + [FetchCompanies]
        && (fetched.Ok? ==> companies == Collection(fetched.value) && error == old(error) && route == old(route))
        && (Unauthorized(fetched) ==>
              companies == old(companies) && error == Some(InvalidToken) && route == Some("/signin"))
        && (fetched.Err? && !Unauthorized(fetched) ==>
              companies == old(companies) && error == Some(CompaniesFallback) && route == old(route))
    {
      if !IsRole(user, Recruiter) {
        error := Some(NotRecruiter);
        route := Some("/signin");
        return;
      }
      if token.None? || token.value == "" {
        error := Some(NoToken);
        route := Some("/signin");
        return;
      }
      sent := sent + [FetchCompanies];
      if fetched.Ok? {
        companies := Collection(fetched.value);
      } else {
        error := Some(if Unauthorized(fetched) then InvalidToken else CompaniesFallback);
        if Unauthorized(fetched) {
          route := Some("/signin");
        }
      }
    }

    /** A text input's `onChange`. */
    method Change(field: Field, value: string)
      modifies this`formData
      ensures formData == match field
        case Title => old(formData).(title := value)
        case Description => old(formData).(description := value)
        case Salary => old(formData).(salary := value)
        case Location => old(formData).(location := value)
        case Employment => old(formData).(employmentType := value)
    {
      match field
      case Title => formData := formData.(title := value);
      case Description => formData := formData.(description := value);
      case Salary => formData := formData.(salary := value);
      case Location => formData := formData.(location := value);
      case Employment => formData := formData.(employmentType := value);
    }

    /** The company select's `onChange`: the picked company's id. */
    method SelectCompany(id: int)
      modifies this`formData
      ensures formData == old(formData).(companyId := Some(id))
    {
      formData := formData.(companyId := Some(id));
    }

    /** `handleSubmit`: the first failed check sets its message and nothing
        is sent; otherwise the payload is sent, and on success the page goes
        home. */
    method Submit(created: Response<()>)
      modifies this`error, this`route, this`sent
      ensures CheckOffer(formData, companies).Invalid? ==>
        && error == Some(Message(CheckOffer(formData, companies).error))
        && sent == old(sent) && route == old(route)
      ensures CheckOffer(formData, companies).Valid? ==>
        && sent == old(sent) + [CreateJobOffer(CheckOffer(formData, companies).payload)]
        && (created.Ok? ==> route == Some("/") && error == old(error))
        && (created.Err? ==> route == old(route) && error == Some(ThrownText(created, CreateFallback)))
    {
      var checked := CheckOffer(formData, companies);
      if checked.Invalid? {
        error := Some(Message(checked.error));
        return;
      }
      sent := sent + [CreateJobOffer(checked.payload)];
      if created.Ok? {
        route := Some("/");
      } else {
        error := Some(ThrownText(created, CreateFallback));
      }
    }
  }
}
