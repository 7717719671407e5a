/** Entities shared by every page of the recruiting front end: the roles a
    signed-in user can have, the six application statuses, job offers,
    applications, companies, the user record kept in the session, and the
    outcome of a call to the backend. */
module Domain {

  datatype Option<+T> = None | Some(value: T) {
    function GetOr(default: T): T {
      match this
      case Some(v) => v
      case None => default
    }
  }

  datatype Role = Candidate | Recruiter | Admin

  /** The six values of an application's `status` field. */
  datatype Status = Pending | UnderReview | Interview | Accepted | Rejected | Withdrawn

  datatype JobOffer = JobOffer(
    id: int,
    title: string,
    description: string,
    salary: string,
    location: string,
    employmentType: string,
    companyId: int)

  datatype Application = Application(
    id: int,
    jobOfferId: int,
    status: Status,
    coverLetter: string,
    appliedAt: string)

  datatype Company = Company(id: int, name: string)

  /** The record handed to the session's `login`; `companyId` is absent when
      the caller builds it without one (registration). */
  datatype User = User(email: string, role: Role, companyId: Option<seq<int>>)

  /** The body of a failed response: plain text, or a JSON object, given by
      its `message` field (when that is a string) and by its
      `JSON.stringify` text. */
  datatype Body = Text(text: string) | Json(message: Option<string>, serialized: string)

  /** What an awaited HTTP call produced: a value, or a rejection carrying the
      HTTP status and the response body, both absent for a failure without a
      response. */
  datatype Response<+T> = Ok(value: T) | Err(status: Option<int>, body: Option<Body>)

  function OfferId(o: JobOffer): int { o.id }

  function ApplicationId(a: Application): int { a.id }

  /** True of the rejection of a protected call whose status is 401. */
  predicate Unauthorized<T>(r: Response<T>) {
    r.Err? && r.status == Some(401)
  }

  /** `error.response?.data || fallback`, what the pages that call the
      backend directly show: a non-empty text body as it is, an object body
      as its JSON text, and the page's fallback otherwise. */
  function ErrorText<T>(r: Response<T>, fallback: string): (t: string)
    requires r.Err?
    ensures r.body.Some? && r.body.value.Text? && r.body.value.text != "" ==> t == r.body.value.text
    ensures r.body.Some? && r.body.value.Json? ==> t == r.body.value.serialized
    ensures r.body.None? || r.body == Some(Text("")) ==> t == fallback
  {
    match r.body
    case None => fallback
    case Some(Text(text)) => if text != "" then text else fallback
    case Some(Json(_, serialized)) => serialized
  }

  /** `error.message || fallback` on a page whose service wrapper rethrows
      `error.response?.data || "…"`: the thrown value has a `message` only
      when the body is an object with a non-empty string `message`; a text
      body, or no body at all, is thrown as a string and the page shows its
      own fallback. */
  function ThrownText<T>(r: Response<T>, fallback: string): (t: string)
    requires r.Err?
    ensures t == fallback || (r.body.Some? && r.body.value.Json? && r.body.value.message == Some(t) && t != "")
    ensures (r.body.None? || r.body.value.Text?) ==> t == fallback
    ensures r.body.Some? && r.body.value.Json? && r.body.value.message.Some? && r.body.value.message.value != "" ==>
      t == r.body.value.message.value
  {
    match r.body
    case Some(Json(Some(message), _)) => if message != "" then message else fallback
    case _ => fallback
  }

  /** The two readings disagree on a non-empty text body: a page that shows
      the response data shows the text, a page behind a rethrowing service
      wrapper shows its fallback. */
  lemma TextBodyShownOnlyAsData<T>(r: Response<T>, fallback: string)
    requires r.Err? && r.body.Some? && r.body.value.Text? && r.body.value.text != ""
    ensures ErrorText(r, fallback) == r.body.value.text
    ensures ThrownText(r, fallback) == fallback
  {
  }

  /** `response.data || []`: a missing collection is read as an empty one. */
  function Collection<T>(data: Option<seq<T>>): (c: seq<T>)
    ensures data.Some? ==> c == data.value
    ensures data.None? ==> c == []
  {
    data.GetOr([])
  }

  predicate IsRole(user: Option<User>, role: Role) {
    user.Some? && user.value.role == role
  }

  /** The two job-offer collections a page can fetch. */
  datatype OffersEndpoint = MyJobOffers | AllJobOffers

  /** The three application collections a page can fetch. */
  datatype ApplicationsEndpoint = CandidateApplications | AllApplications | RecruiterApplications

  /** A request the job-offer and application views send to the backend;
      URLs and headers are not part of the model. */
  datatype Call =
    | FetchJobOffers(offers: OffersEndpoint)
    | FetchApplications(applications: ApplicationsEndpoint)
    | PostApplication(jobOfferId: int, coverLetter: string)
    | WithdrawApplication(applicationId: int)
    | UpdateStatus(applicationId: int, status: Status)
    | DeleteJobOffer(jobOfferId: int)
}
