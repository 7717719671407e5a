/** The pure part of the home page: linking each job offer to the viewer's
    application for it, the enablement of the card's controls, and the list
    rewrite that follows a status change. */
module Applications {
  import opened Domain

  /** Position `i` holds an application for offer `offerId` and no earlier
      position does. */
  ghost predicate FirstMatchAt(apps: seq<Application>, offerId: int, i: int) {
    && 0 <= i < |apps|
    && apps[i].jobOfferId == offerId
    && forall j :: 0 <= j < i ==> apps[j].jobOfferId != offerId
  }

  ghost predicate HasMatch(apps: seq<Application>, offerId: int) {
    exists i :: 0 <= i < |apps| && apps[i].jobOfferId == offerId
  }

  /** At most one position is the first match. */
  lemma FirstMatchUnique(apps: seq<Application>, offerId: int, i: int, k: int)
    requires FirstMatchAt(apps, offerId, i) && FirstMatchAt(apps, offerId, k)
    ensures i == k
  {
  }

  /** `applications.find(app => app.jobOfferId === job.id)`: the first
      application in list order that belongs to the offer, or none. */
  function FindApplication(apps: seq<Application>, offerId: int): (r: Option<Application>)
    ensures r.None? <==> !HasMatch(apps, offerId)
    ensures r.Some? ==> exists i :: FirstMatchAt(apps, offerId, i) && apps[i] == r.value
  {
    if apps == [] then None
    else if apps[0].jobOfferId == offerId then
      assert FirstMatchAt(apps, offerId, 0);
      Some(apps[0])
    else
      var r := FindApplication(apps[1..], offerId);
      FirstMatchShift(apps, offerId);
      r
  }

  lemma FirstMatchShift(apps: seq<Application>, offerId: int)
    requires apps != [] && apps[0].jobOfferId != offerId
    ensures forall i :: FirstMatchAt(apps[1..], offerId, i) ==> FirstMatchAt(apps, offerId, i + 1)
    ensures HasMatch(apps, offerId) <==> HasMatch(apps[1..], offerId)
  {
    if HasMatch(apps, offerId) {
      var i :| 0 <= i < |apps| && apps[i].jobOfferId == offerId;
      assert apps[1..][i - 1].jobOfferId == offerId;
    }
    if HasMatch(apps[1..], offerId) {
      var i :| 0 <= i < |apps[1..]| && apps[1..][i].jobOfferId == offerId;
      assert apps[i + 1].jobOfferId == offerId;
    }
  }

  /** Conversely, whatever application sits at the first matching position
      is the one found. */
  lemma FindApplicationAt(apps: seq<Application>, offerId: int, i: int)
    requires FirstMatchAt(apps, offerId, i)
    ensures FindApplication(apps, offerId) == Some(apps[i])
  {
    var r := FindApplication(apps, offerId);
    var k :| FirstMatchAt(apps, offerId, k) && apps[k] == r.value;
    FirstMatchUnique(apps, offerId, i, k);
  }

  // The `disabled=` and `value=` expressions of a job-offer card, over the
  // application found for it.

  predicate ApplyDisabled(m: Option<Application>) {
    m.Some? && (m.value.status == Pending || m.value.status == Withdrawn)
  }

  predicate WithdrawDisabled(m: Option<Application>) {
    m.None? || m.value.status != Pending
  }

  function SelectValue(m: Option<Application>): Status {
    if m.Some? then m.value.status else Pending
  }

  predicate SelectDisabled(m: Option<Application>, user: Option<User>) {
    m.None? && IsRole(user, Recruiter)
  }

  predicate DeleteDisabled(m: Option<Application>) {
    m.Some?
  }

  /** What a job-offer card shows the viewer: which controls are rendered
      and which of them are disabled. */
  datatype Controls = Controls(
    applyShown: bool, applyDisabled: bool,
    withdrawShown: bool, withdrawDisabled: bool,
    selectShown: bool, selectValue: Status, selectDisabled: bool,
    deleteShown: bool, deleteDisabled: bool)

  function CardControls(user: Option<User>, apps: seq<Application>, offer: JobOffer): Controls {
    var m := FindApplication(apps, offer.id);
    Controls(
      IsRole(user, Candidate), ApplyDisabled(m),
      IsRole(user, Candidate), WithdrawDisabled(m),
      IsRole(user, Recruiter) || IsRole(user, Admin), SelectValue(m), SelectDisabled(m, user),
      IsRole(user, Recruiter), DeleteDisabled(m))
  }

  /** Apply is disabled exactly when the offer's first application is
      PENDING or WITHDRAWN; it is enabled when there is none. */
  lemma ApplyDisabledExactly(user: Option<User>, apps: seq<Application>, offer: JobOffer)
    ensures CardControls(user, apps, offer).applyDisabled <==>
      exists i :: FirstMatchAt(apps, offer.id, i) && apps[i].status in {Pending, Withdrawn}
  {
    if CardControls(user, apps, offer).applyDisabled {
      var k :| FirstMatchAt(apps, offer.id, k) && apps[k] == FindApplication(apps, offer.id).value;
    }
    if i :| FirstMatchAt(apps, offer.id, i) && apps[i].status in {Pending, Withdrawn} {
      FindApplicationAt(apps, offer.id, i);
    }
  }

  /** Withdraw is disabled exactly when no application belongs to the offer
      or the first one is not PENDING. */
  lemma WithdrawDisabledExactly(user: Option<User>, apps: seq<Application>, offer: JobOffer)
    ensures CardControls(user, apps, offer).withdrawDisabled <==>
      !HasMatch(apps, offer.id) || forall i :: FirstMatchAt(apps, offer.id, i) ==> apps[i].status != Pending
  {
    forall i | FirstMatchAt(apps, offer.id, i) ensures FindApplication(apps, offer.id) == Some(apps[i]) {
      FindApplicationAt(apps, offer.id, i);
    }
    if HasMatch(apps, offer.id) {
      assert FindApplication(apps, offer.id).Some?;
      var k :| FirstMatchAt(apps, offer.id, k) && apps[k] == FindApplication(apps, offer.id).value;
    }
  }

  /** The status select shows the first application's status, or PENDING
      when the offer has none. */
  lemma SelectShowsFirstStatus(user: Option<User>, apps: seq<Application>, offer: JobOffer)
    ensures !HasMatch(apps, offer.id) ==> CardControls(user, apps, offer).selectValue == Pending
    ensures forall i :: FirstMatchAt(apps, offer.id, i) ==>
      CardControls(user, apps, offer).selectValue == apps[i].status
  {
    forall i | FirstMatchAt(apps, offer.id, i) ensures FindApplication(apps, offer.id) == Some(apps[i]) {
      FindApplicationAt(apps, offer.id, i);
    }
  }

  /** The select is disabled exactly for a RECRUITER on an offer without
      applications: a recruiter cannot create one through it. */
  lemma SelectDisabledExactly(user: Option<User>, apps: seq<Application>, offer: JobOffer)
    ensures CardControls(user, apps, offer).selectDisabled <==>
      !HasMatch(apps, offer.id) && user.Some? && user.value.role == Recruiter
  {
  }

  /** Delete is disabled whenever any application belongs to the offer,
      whatever its status. */
  lemma DeleteDisabledExactly(user: Option<User>, apps: seq<Application>, offer: JobOffer)
    ensures CardControls(user, apps, offer).deleteDisabled <==> HasMatch(apps, offer.id)
  {
  }

  /** A candidate never sees Apply and Withdraw both enabled, and both are
      disabled exactly when the first application is WITHDRAWN. */
  lemma ApplyWithdrawExclusive(user: Option<User>, apps: seq<Application>, offer: JobOffer)
    ensures var c := CardControls(user, apps, offer);
      c.applyDisabled || c.withdrawDisabled
    ensures var c := CardControls(user, apps, offer);
      (c.applyDisabled && c.withdrawDisabled) <==>
      exists i :: FirstMatchAt(apps, offer.id, i) && apps[i].status == Withdrawn
  {
    ApplyDisabledExactly(user, apps, offer);
    WithdrawDisabledExactly(user, apps, offer);
    forall i, k | FirstMatchAt(apps, offer.id, i) && FirstMatchAt(apps, offer.id, k) ensures i == k {
      FirstMatchUnique(apps, offer.id, i, k);
    }
  }

  /** `applications.map(app => app.id === id ? { ...app, status } : app)`:
      every entry with that id takes the new status, with its other fields
      kept; every other entry is kept as it was, in place. */
  function SetStatus(apps: seq<Application>, id: int, status: Status): (r: seq<Application>)
    ensures |r| == |apps|
    ensures forall i :: 0 <= i < |apps| && apps[i].id == id ==> r[i] == apps[i].(status := status)
    ensures forall i :: 0 <= i < |apps| && apps[i].id != id ==> r[i] == apps[i]
  {
    if apps == [] then []
    else [if apps[0].id == id then apps[0].(status := status) else apps[0]] + SetStatus(apps[1..], id, status)
  }

  /** A status change does not move any card's link: the offer finds the
      same application as before, carrying the new status if it was the one
      changed. */
  lemma {:induction false} SetStatusKeepsLinks(apps: seq<Application>, id: int, status: Status, offerId: int)
    ensures FindApplication(SetStatus(apps, id, status), offerId) ==
      match FindApplication(apps, offerId)
      case None => None
      case Some(a) => Some(if a.id == id then a.(status := status) else a)
  {
    if apps != [] {
      var r := SetStatus(apps, id, status);
      assert r[1..] == SetStatus(apps[1..], id, status);
      SetStatusKeepsLinks(apps[1..], id, status, offerId);
    }
  }

  /** Submitting the same status twice changes nothing the second time. */
  lemma SetStatusIdempotent(apps: seq<Application>, id: int, status: Status)
    ensures SetStatus(SetStatus(apps, id, status), id, status) == SetStatus(apps, id, status)
  {
  }

  /** The job-offer collection the home page fetches: a RECRUITER's own
      offers, everyone else's view of all offers. */
  function HomeOffersEndpoint(user: Option<User>): (e: OffersEndpoint)
    ensures e == MyJobOffers <==> IsRole(user, Recruiter)
  {
    if IsRole(user, Recruiter) then MyJobOffers else AllJobOffers
  }

  /** The application collection the home page fetches for each role, and
      none without a signed-in user. */
  function HomeApplicationsEndpoint(user: Option<User>): (e: Option<ApplicationsEndpoint>)
    ensures e.None? <==> user.None?
    ensures e == Some(CandidateApplications) <==> IsRole(user, Candidate)
    ensures e == Some(AllApplications) <==> IsRole(user, Admin)
    ensures e == Some(RecruiterApplications) <==> IsRole(user, Recruiter)
  {
    if user.None? then None
    else match user.value.role
      case Candidate => Some(CandidateApplications)
      case Admin => Some(AllApplications)
      case Recruiter => Some(RecruiterApplications)
  }
}
