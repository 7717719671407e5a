/** The recruiter dashboard: the role-gated fetch of the applications to
    the recruiter's offers, the local rewrite that follows a status change,
    and the enablement of each card's status select. */
module RecruiterDashboard {
  import opened Domain
  import opened Applications

  const FetchFallback := "❌ Failed to fetch applications"
  const StatusFallback := "❌ Failed to update application status"

  /** A card's status select is locked once the application is WITHDRAWN:
      exactly when a home-page card linked to it would disable both Apply
      and Withdraw. */
  predicate SelectDisabled(a: Application): (b: bool)
    ensures b <==> ApplyDisabled(Some(a)) && WithdrawDisabled(Some(a))
  {
    a.status == Withdrawn
  }

  /** The dashboard and the home page lock the select for different
      reasons: on the home page a recruiter's select is locked only for an
      offer with no application, so an application the dashboard locks,
      being WITHDRAWN, leaves the home page's select for its offer
      enabled. */
  lemma SelectLockDiffersFromHome(user: Option<User>, apps: seq<Application>, offer: JobOffer, i: int)
    requires FirstMatchAt(apps, offer.id, i)
    ensures !CardControls(user, apps, offer).selectDisabled
    ensures SelectDisabled(apps[i]) <==> CardControls(user, apps, offer).selectValue == Withdrawn
  {
    FindApplicationAt(apps, offer.id, i);
  }

  /** Setting an application to WITHDRAWN locks its select on the dashboard
      and leaves every other card's lock as it was. */
  lemma {:induction false} WithdrawnLocks(apps: seq<Application>, id: int)
    ensures forall i :: 0 <= i < |apps| && apps[i].id == id ==> SelectDisabled(SetStatus(apps, id, Withdrawn)[i])
    ensures forall i :: 0 <= i < |apps| && apps[i].id != id ==>
      (SelectDisabled(SetStatus(apps, id, Withdrawn)[i]) <==> SelectDisabled(apps[i]))
  {
    var r := SetStatus(apps, id, Withdrawn);
    forall i | 0 <= i < |apps| && apps[i].id == id ensures SelectDisabled(r[i]) {
      assert r[i] == apps[i].(status := Withdrawn);
    }
  }

  class RecruiterDashboard {
    var applications: seq<Application>
    var error: Option<string>
    var calls: seq<Call>

    constructor ()
      ensures applications == [] && error == None && calls == []
    {
      applications, error, calls := [], None, [];
    }

    /** The fetch effect: only a RECRUITER or an ADMIN fetches, and both
        fetch the recruiters' collection; for anyone else nothing happens,
        not even an error. A failure shows an error and leaves the list. */
    method Load(user: Option<User>, fetched: Response<Option<seq<Application>>>)
      modifies this`applications, this`error, this`calls
      ensures !(IsRole(user, Recruiter) || IsRole(user, Admin)) ==>
        calls == old(calls) && applications == old(applications) && error == old(error)
      ensures IsRole(user, Recruiter) || IsRole(user, Admin) ==>
        && calls == old(calls) + [FetchApplications(RecruiterApplications)]
        && (fetched.Ok? ==> applications == Collection(fetched.value) && error == old(error))
        && (fetched.Err? ==> applications == old(applications) && error == Some(ErrorText(fetched, FetchFallback)))
    {
      if IsRole(user, Recruiter) || IsRole(user, Admin) {
        calls := calls + [FetchApplications(RecruiterApplications)];
        if fetched.Ok? {
          applications := Collection(fetched.value);
        } else {
          error := Some(ErrorText(fetched, FetchFallback));
        }
      }
    }

    /** `handleStatusChange`: on success the error clears and only the
        status of the entries with that id changes; on failure the list
        stays and the error is shown. */
    method StatusChange(applicationId: int, newStatus: Status, outcome: Response<()>)
      modifies this`applications, this`error, this`calls
      ensures calls == old(calls) + [UpdateStatus(applicationId, newStatus)]
      ensures outcome.Ok? ==> applications == SetStatus(old(applications), applicationId, newStatus) && error == None
      ensures outcome.Err? ==> applications == old(applications) && error == Some(ErrorText(outcome, StatusFallback))
    {
      calls := calls + [UpdateStatus(applicationId, newStatus)];
      if outcome.Ok? {
        error := None;
        applications := SetStatus(applications, applicationId, newStatus);
      } else {
        error := Some(ErrorText(outcome, StatusFallback));
      }
    }
  }
}
