/**
 * The dashboard: the counts of all, under-review and accepted applications
 * over the list it shows, and which per-application sections it renders.
 */
module Dashboard {
  import opened Seqs
  import opened ApplicationContext

  /** The list the dashboard shows. */
  const MockApplications: seq<Application> := [
    Application("1", "Practicante de Desarrollo de Software", "TechCorp Solutions", "Nueva York, NY",
                "15 nov, 2024", UnderReview, 60),
    Application("2", "Asistente de Marketing Digital", "Creative Agency Inc", "Remoto",
                "10 nov, 2024", Accepted, 100),
    Application("3", "Analista de Negocios en Formación", "Finance Partners LLC", "Chicago, IL",
                "8 nov, 2024", Rejected, 100)
  ]

  predicate IsAccepted(a: Application) { a.status == Accepted }
  predicate IsUnderReview(a: Application) { a.status == UnderReview }
  predicate IsRejected(a: Application) { a.status == Rejected }

  /** `acceptedApplications`. */
  function AcceptedApplications(apps: seq<Application>): seq<Application>
  {
    Filter(apps, IsAccepted)
  }

  /** The four figures of the summary cards. */
  datatype Stats = Stats(total: nat, underReview: nat, accepted: nat, activePractices: nat)

  /**
   * `totalApplications`, `underReviewCount`, and `acceptedApplications.length`
   * shown both as "accepted" and as "active practices".
   */
  function DashboardStats(apps: seq<Application>): (s: Stats)
    ensures s.total == |apps|
    ensures s.underReview == Count(apps, IsUnderReview)
    ensures s.accepted == Count(apps, IsAccepted)
    ensures s.activePractices == s.accepted
    ensures s.underReview + s.accepted <= s.total
  {
    FilterLength(apps, IsUnderReview);
    FilterLength(apps, IsAccepted);
    CountDisjoint(apps, IsUnderReview, IsAccepted);
    var accepted := |AcceptedApplications(apps)|;
    Stats(|apps|, |Filter(apps, IsUnderReview)|, accepted, accepted)
  }

  /** When every status is one of the three known ones, the three counts add up to the total. */
  lemma {:induction false} StatusCountsPartition(apps: seq<Application>)
    requires forall i :: 0 <= i < |apps| ==> IsAccepted(apps[i]) || IsUnderReview(apps[i]) || IsRejected(apps[i])
    ensures Count(apps, IsAccepted) + Count(apps, IsUnderReview) + Count(apps, IsRejected) == |apps|
  {
    if apps != [] {
      StatusCountsPartition(apps[1..]);
    }
  }

  /**
   * A record's sections follow the same conditions as the counts: the
   * "start daily logs" action (rendered when the status is accepted)
   * appears exactly on the records in the accepted filter, the progress bar
   * (rendered when the status is under review) exactly on the records in
   * the under-review filter, and no record shows both.
   */
  lemma SectionsFollowStatus(apps: seq<Application>, i: nat)
    requires i < |apps|
    ensures IsAccepted(apps[i]) <==> apps[i] in AcceptedApplications(apps)
    ensures IsUnderReview(apps[i]) <==> apps[i] in Filter(apps, IsUnderReview)
    ensures !(IsUnderReview(apps[i]) && IsAccepted(apps[i]))
  {
    if IsAccepted(apps[i]) {
      FilterComplete(apps, IsAccepted, apps[i]);
    }
    if IsUnderReview(apps[i]) {
      FilterComplete(apps, IsUnderReview, apps[i]);
    }
  }

  /** The dashboard's figures for its list: 3 in all, 1 under review, 1 accepted, 1 active. */
  lemma MockDashboardStats()
    ensures DashboardStats(MockApplications) == Stats(3, 1, 1, 1)
  {
    var m := MockApplications;
    var tail := m[1..];
    var last := m[1..][1..];
    assert last[1..] == [];
    assert Count(last, IsUnderReview) == 0 && Count(last, IsAccepted) == 0;
    assert Count(tail, IsUnderReview) == 0 && Count(tail, IsAccepted) == 1;
  }
}
