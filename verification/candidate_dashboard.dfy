/** The candidate dashboard: the role guard of its fetch, the local removal
    that follows a withdrawal, and the enablement of each card's Withdraw
    button. */
module CandidateDashboard {
  import opened Domain
  import opened Lists
  import opened Applications

  const NotCandidate := "❌ You must be a candidate to view this dashboard"
  const FetchFallback := "❌ Failed to fetch applications"
  const WithdrawFallback := "❌ Failed to withdraw application"

  /** A card's Withdraw button is enabled only for a PENDING application,
      the same test the home page's Withdraw button applies to the
      application it found. */
  predicate CanWithdraw(a: Application): (b: bool)
    ensures b <==> !WithdrawDisabled(Some(a))
  {
    a.status == Pending
  }

  /** The dashboard and the home page agree on withdrawal: for the
      application a home-page card is linked to, the dashboard's button is
      enabled exactly when the home page's is. */
  lemma CanWithdrawAgreesWithHome(user: Option<User>, apps: seq<Application>, offer: JobOffer, i: int)
    requires FirstMatchAt(apps, offer.id, i)
    ensures CanWithdraw(apps[i]) <==> !CardControls(user, apps, offer).withdrawDisabled
  {
    FindApplicationAt(apps, offer.id, i);
  }

  /** Withdrawing removes exactly the entries with that id: none is left,
      every other entry stays, and removing again changes nothing. */
  lemma WithdrawRemovesExactly(apps: seq<Application>, id: int)
    ensures forall i :: 0 <= i < |RemoveKey(apps, ApplicationId, id)| ==> RemoveKey(apps, ApplicationId, id)[i].id != id
    ensures forall i :: 0 <= i < |apps| && apps[i].id != id ==> apps[i] in RemoveKey(apps, ApplicationId, id)
    ensures RemoveKey(RemoveKey(apps, ApplicationId, id), ApplicationId, id) == RemoveKey(apps, ApplicationId, id)
  {
    RemoveKeyIdempotent(apps, ApplicationId, id);
  }

  class CandidateDashboard {
    var applications: seq<Application>
    var error: Option<string>
    var route: Option<string>
    var calls: seq<Call>

    constructor ()
      ensures applications == [] && error == None && route == None && calls == []
    {
      applications, error, route, calls := [], None, None, [];
    }

    /** The fetch effect: anyone but a signed-in CANDIDATE is sent to the
        login page without a request; a candidate's applications are
        fetched, a 401 sends them to the login page with the same message,
        and any other failure only shows an error. */
    method Load(user: Option<User>, fetched: Response<Option<seq<Application>>>)
      modifies this`applications, this`error, this`route, this`calls
      ensures !IsRole(user, Candidate) ==>
        error == Some(NotCandidate) && route == Some("/login") && calls == old(calls)
        && applications == old(applications)
      ensures IsRole(user, Candidate) ==>
        && calls == old(calls) + [FetchApplications(CandidateApplications)]
        && (fetched.Ok? ==> applications == Collection(fetched.value) && error == old(error) && route == old(route))
        && (Unauthorized(fetched) ==>
              applications == old(applications) && error == Some(NotCandidate) && route == Some("/login"))
        && (fetched.Err? && !Unauthorized(fetched) ==>
              applications == old(applications) && error == Some(ErrorText(fetched, FetchFallback))
              && route == old(route))
    {
      if !IsRole(user, Candidate) {
        error := Some(NotCandidate);
        route := Some("/login");
        return;
      }
      calls := calls + [FetchApplications(CandidateApplications)];
      if fetched.Ok? {
        applications := Collection(fetched.value);
      } else if Unauthorized(fetched) {
        error := Some(NotCandidate);
        route := Some("/login");
      } else {
        error := Some(ErrorText(fetched, FetchFallback));
      }
    }

    /** `handleWithdraw`: on success the error clears and the entries with
        that id leave the list, the rest staying in order; on failure the
        list stays and the error is shown. */
    method Withdraw(applicationId: int, withdrawn: Response<()>)
      modifies this`applications, this`error, this`calls
      ensures calls == old(calls) + [WithdrawApplication(applicationId)]
      ensures withdrawn.Ok? ==>
        applications == RemoveKey(old(applications), ApplicationId, applicationId) && error == None
      ensures withdrawn.Err? ==>
        applications == old(applications) && error == Some(ErrorText(withdrawn, WithdrawFallback))
    {
      calls := calls + [WithdrawApplication(applicationId)];
      if withdrawn.Ok? {
        error := None;
        applications := RemoveKey(applications, ApplicationId, applicationId);
      } else {
        error := Some(ErrorText(withdrawn, WithdrawFallback));
      }
    }
  }
}
