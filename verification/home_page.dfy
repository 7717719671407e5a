/** The home page's component state and its handlers. Each handler takes
    the outcomes of the requests it awaits as parameters, records the
    requests it sends in `calls`, and records the route it navigates to in
    `route`. */
module HomePage {
  import opened Domain
  import opened Lists
  import opened Applications

  const MustBeCandidate := "❌ You must be a candidate to apply for a job offer"
  const UnauthorizedMessage := "❌ Unauthorized: Please log in again"
  const OffersFallback := "❌ Failed to fetch job offers"
  const ApplicationsFallback := "❌ Failed to fetch candidate applications"
  const ApplyFallback := "❌ Failed to apply to job offer"
  const WithdrawFallback := "❌ Failed to withdraw application"
  const StatusFallback := "❌ Failed to update application status"
  const DeleteFallback := "❌ Failed to delete job offer - Cannot delete job offer with active applications"

  class HomePage {
    var jobOffers: seq<JobOffer>
    var applications: seq<Application>
    var error: Option<string>
    var applyModalOpen: bool
    var selectedJobOfferId: Option<int>
    var coverLetter: string
    var route: Option<string>
    var calls: seq<Call>

    constructor ()
      ensures jobOffers == [] && applications == [] && error == None
      ensures !applyModalOpen && selectedJobOfferId == None && coverLetter == ""
      ensures route == None && calls == []
    {
      jobOffers, applications, error := [], [], None;
      applyModalOpen, selectedJobOfferId, coverLetter := false, None, "";
      route, calls := None, [];
    }

    /** The mount effect: fetch the offers the viewer's role may see, then,
        for a signed-in viewer, the applications their role may see. The
        two fetches are taken to settle in that order. */
    method Load(user: Option<User>, offers: Response<Option<seq<JobOffer>>>,
                apps: Response<Option<seq<Application>>>)
      modifies this`jobOffers, this`applications, this`error, this`route, this`calls
      ensures calls == old(calls) + [FetchJobOffers(HomeOffersEndpoint(user))] +
        (if user.Some? then [FetchApplications(HomeApplicationsEndpoint(user).value)] else [])
      ensures jobOffers == if offers.Ok? then Collection(offers.value) else old(jobOffers)
      ensures applications == if user.Some? && apps.Ok? then Collection(apps.value) else old(applications)
      ensures route == if Unauthorized(offers) then Some("/login") else old(route)
      ensures error ==
        if user.Some? && apps.Err? then Some(ErrorText(apps, ApplicationsFallback))
        else if Unauthorized(offers) then Some(UnauthorizedMessage)
        else if offers.Err? then Some(ErrorText(offers, OffersFallback))
        else old(error)
    {
      calls := calls + [FetchJobOffers(HomeOffersEndpoint(user))];
      if offers.Ok? {
        jobOffers := Collection(offers.value);
      } else if Unauthorized(offers) {
        error := Some(UnauthorizedMessage);
        route := Some("/login");
      } else {
        error := Some(ErrorText(offers, OffersFallback));
      }
      var endpoint := HomeApplicationsEndpoint(user);
      if endpoint.Some? {
        calls := calls + [FetchApplications(endpoint.value)];
        if apps.Ok? {
          applications := Collection(apps.value);
        } else {
          error := Some(ErrorText(apps, ApplicationsFallback));
        }
      }
    }

    /** `handleDeleteJobOffer`: on success the offers with that id leave the
        list; on failure the list stays and the error is shown, and a 401
        also sends the viewer to the login page. */
    method DeleteJobOffer(jobOfferId: int, outcome: Response<()>)
      modifies this`jobOffers, this`error, this`route, this`calls
      ensures calls == old(calls) + [Call.DeleteJobOffer(jobOfferId)]
      ensures outcome.Ok? ==> jobOffers == RemoveKey(old(jobOffers), OfferId, jobOfferId) && error == None
      ensures outcome.Ok? ==> route == old(route)
      ensures outcome.Err? ==> jobOffers == old(jobOffers) && error == Some(ErrorText(outcome, DeleteFallback))
      ensures outcome.Err? ==> route == if Unauthorized(outcome) then Some("/login") else old(route)
    {
      calls := calls + [Call.DeleteJobOffer(jobOfferId)];
      if outcome.Ok? {
        error := None;
        jobOffers := RemoveKey(jobOffers, OfferId, jobOfferId);
      } else {
        error := Some(ErrorText(outcome, DeleteFallback));
        if Unauthorized(outcome) {
          route := Some("/login");
        }
      }
    }

    /** `handleApply`: anyone but a signed-in CANDIDATE gets an error and is
        sent to the login page without any request. A candidate's
        application is posted with the current cover letter; on success the
        candidate's applications are fetched again (the client cannot know
        the new application's id) and the modal closes. */
    method Apply(user: Option<User>, jobOfferId: int, posted: Response<()>,
                 refetched: Response<Option<seq<Application>>>)
      modifies this`applications, this`error, this`applyModalOpen, this`coverLetter, this`route, this`calls
      ensures !IsRole(user, Candidate) ==>
        && error == Some(MustBeCandidate) && route == Some("/login") && calls == old(calls)
        && applications == old(applications)
        && applyModalOpen == old(applyModalOpen) && coverLetter == old(coverLetter)
      ensures IsRole(user, Candidate) ==>
        && route == old(route)
        && calls == old(calls) + [PostApplication(jobOfferId, old(coverLetter))] +
             (if posted.Ok? then [FetchApplications(CandidateApplications)] else [])
      ensures IsRole(user, Candidate) && posted.Ok? && refetched.Ok? ==>
        && applications == Collection(refetched.value) && error == None
        && !applyModalOpen && coverLetter == ""
      ensures IsRole(user, Candidate) && posted.Ok? && refetched.Err? ==>
        && applications == old(applications) && error == Some(ErrorText(refetched, ApplyFallback))
        && applyModalOpen == old(applyModalOpen) && coverLetter == old(coverLetter)
      ensures IsRole(user, Candidate) && posted.Err? ==>
        && applications == old(applications) && error == Some(ErrorText(posted, ApplyFallback))
        && applyModalOpen == old(applyModalOpen) && coverLetter == old(coverLetter)
    {
      if !IsRole(user, Candidate) {
        error := Some(MustBeCandidate);
        route := Some("/login");
        return;
      }
      calls := calls + [PostApplication(jobOfferId, coverLetter)];
      if posted.Err? {
        error := Some(ErrorText(posted, ApplyFallback));
        return;
      }
      error := None;
      calls := calls + [FetchApplications(CandidateApplications)];
      if refetched.Err? {
        error := Some(ErrorText(refetched, ApplyFallback));
        return;
      }
      applications := Collection(refetched.value);
      applyModalOpen := false;
      coverLetter := "";
    }

    /** `handleWithdraw` on the home page: the withdrawal is sent, and on
        success the candidate's applications are fetched again rather than
        patched locally. */
    method Withdraw(applicationId: int, withdrawn: Response<()>,
                    refetched: Response<Option<seq<Application>>>)
      modifies this`applications, this`error, this`calls
      ensures calls == old(calls) + [WithdrawApplication(applicationId)] +
        (if withdrawn.Ok? then [FetchApplications(CandidateApplications)] else [])
      ensures withdrawn.Ok? && refetched.Ok? ==>
        applications == Collection(refetched.value) && error == None
      ensures withdrawn.Ok? && refetched.Err? ==>
        applications == old(applications) && error == Some(ErrorText(refetched, WithdrawFallback))
      ensures withdrawn.Err? ==>
        applications == old(applications) && error == Some(ErrorText(withdrawn, WithdrawFallback))
    {
      calls := calls + [WithdrawApplication(applicationId)];
      if withdrawn.Err? {
        error := Some(ErrorText(withdrawn, WithdrawFallback));
        return;
      }
      error := None;
      calls := calls + [FetchApplications(CandidateApplications)];
      if refetched.Err? {
        error := Some(ErrorText(refetched, WithdrawFallback));
        return;
      }
      applications := Collection(refetched.value);
    }

    /** `handleStatusChange`: on success only the status of the entries with
        that id changes; on failure the list stays and the error is shown. */
    method StatusChange(applicationId: int, newStatus: Status, outcome: Response<()>)
      modifies this`applications, this`error, this`calls
      ensures calls == old(calls) + [UpdateStatus(applicationId, newStatus)]
      ensures outcome.Ok? ==> applications == SetStatus(old(applications), applicationId, newStatus) && error == None
      ensures outcome.Err? ==> applications == old(applications) && error == Some(ErrorText(outcome, StatusFallback))
    {
      calls := calls + [UpdateStatus(applicationId, newStatus)];
      if outcome.Ok? {
        error := None;
        applications := SetStatus(applications, applicationId, newStatus);
      } else {
        error := Some(ErrorText(outcome, StatusFallback));
      }
    }

    /** The status select's `onChange`, rendered only for a RECRUITER or an
        ADMIN: with an application on the card it changes that application's
        status; without one it calls `handleApply`, whose role guard turns
        the viewer away, so no application is ever created this way. */
    method SelectStatus(user: Option<User>, offer: JobOffer, newStatus: Status, outcome: Response<()>,
                        posted: Response<()>, refetched: Response<Option<seq<Application>>>)
      requires IsRole(user, Recruiter) || IsRole(user, Admin)
      modifies this`applications, this`error, this`applyModalOpen, this`coverLetter, this`route, this`calls
      ensures applyModalOpen == old(applyModalOpen) && coverLetter == old(coverLetter)
      ensures match FindApplication(old(applications), offer.id)
        case None =>
          && error == Some(MustBeCandidate) && route == Some("/login")
          && calls == old(calls) && applications == old(applications)
        case Some(a) =>
          && route == old(route)
          && calls == old(calls) + [UpdateStatus(a.id, newStatus)]
          && (outcome.Ok? ==> applications == SetStatus(old(applications), a.id, newStatus) && error == None)
          && (outcome.Err? ==> applications == old(applications) && error == Some(ErrorText(outcome, StatusFallback)))
    {
      var m := FindApplication(applications, offer.id);
      if m.None? {
        Apply(user, offer.id, posted, refetched);
      } else {
        StatusChange(m.value.id, newStatus, outcome);
      }
    }

    /** `handleOpenApplyModal`. */
    method OpenApplyModal(jobOfferId: int)
      modifies this`applyModalOpen, this`selectedJobOfferId
      ensures applyModalOpen && selectedJobOfferId == Some(jobOfferId)
    {
      selectedJobOfferId := Some(jobOfferId);
      applyModalOpen := true;
    }

    /** `handleCloseApplyModal`: the modal closes and forgets the offer and
        the cover letter. */
    method CloseApplyModal()
      modifies this`applyModalOpen, this`selectedJobOfferId, this`coverLetter
      ensures !applyModalOpen && selectedJobOfferId == None && coverLetter == ""
    {
      applyModalOpen := false;
      coverLetter := "";
      selectedJobOfferId := None;
    }

    /** The cover-letter text field's `onChange`. */
    method EditCoverLetter(text: string)
      modifies this`coverLetter
      ensures coverLetter == text
    {
      coverLetter := text;
    }
  }
}
