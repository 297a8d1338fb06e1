/**
 * The application store: the list of submitted applications that the
 * provider holds, its seeding from the bundled `data.json` file, the append
 * operation `addApplication`, and the `useApplications` guard.
 */
module ApplicationContext {
  import opened Wrappers
  import opened Text

  /** The three statuses the source's type names. */
  const UnderReview: string := "under_review"
  const Accepted: string := "accepted"
  const Rejected: string := "rejected"

  /** The progress percentage every new application starts with. */
  const InitialProgress: int := 25

  /**
   * One application. The status is a string: the seed's statuses reach the
   * store through an unchecked type cast, so nothing rules out other values.
   */
  datatype Application = Application(
    id: string,
    title: string,
    company: string,
    location: string,
    appliedDate: string,
    status: string,
    progress: int)

  /** One record of the bundled `data.json` file (untyped JSON). */
  datatype SeedRecord = SeedRecord(
    id: string,
    title: string,
    company: string,
    location: string,
    appliedDate: string,
    status: string,
    progress: int)

  /** What a caller of `addApplication` supplies: the application without id, date, status and progress. */
  datatype NewApplication = NewApplication(title: string, company: string, location: string)

  /** `{...app, status: app.status as ...}`: one seed record as an application. */
  function FromSeed(r: SeedRecord): Application
  {
    Application(r.id, r.title, r.company, r.location, r.appliedDate, r.status, r.progress)
  }

  /** The store's initial state: the seed, mapped record by record. */
  function SeedApplications(seed: seq<SeedRecord>): (apps: seq<Application>)
    ensures |apps| == |seed|
    ensures forall i :: 0 <= i < |seed| ==>
      && apps[i].id == seed[i].id
      && apps[i].title == seed[i].title
      && apps[i].company == seed[i].company
      && apps[i].location == seed[i].location
      && apps[i].appliedDate == seed[i].appliedDate
      && apps[i].status == seed[i].status
      && apps[i].progress == seed[i].progress
  {
    seq(|seed|, i requires 0 <= i < |seed| => FromSeed(seed[i]))
  }

  /**
   * The record `addApplication` builds when the store holds `count`
   * applications: the caller's fields, the next sequential id, the given
   * date, and the forced status and progress.
   */
  function NewRecord(request: NewApplication, count: nat, appliedDate: string): (a: Application)
    ensures a.title == request.title && a.company == request.company && a.location == request.location
    ensures a.status == UnderReview && a.progress == InitialProgress
    ensures a.appliedDate == appliedDate
    ensures a.id == NatToString(count + 1)
    ensures ParseNat(a.id) == Some(count + 1)
  {
    ParseNatToString(count + 1);
    Application(NatToString(count + 1), request.title, request.company, request.location,
                appliedDate, UnderReview, InitialProgress)
  }

  /** The collection after one `addApplication`: the old one with the new record last. */
  function Appended(apps: seq<Application>, request: NewApplication, appliedDate: string): (r: seq<Application>)
    ensures |r| == |apps| + 1
    ensures r[..|apps|] == apps
    ensures forall i :: 0 <= i < |apps| ==> r[i] == apps[i]
    ensures r[|apps|].title == request.title && r[|apps|].company == request.company
    ensures r[|apps|].location == request.location && r[|apps|].appliedDate == appliedDate
    ensures r[|apps|].status == UnderReview && r[|apps|].progress == InitialProgress
    ensures r[|apps|].id == NatToString(|apps| + 1)
    ensures ParseNat(r[|apps|].id) == Some(|apps| + 1)
  {
    apps + [NewRecord(request, |apps|, appliedDate)]
  }

  /** Every record from position `from` on carries the id its position gives it. */
  ghost predicate SequentialIdsFrom(apps: seq<Application>, from: nat)
  {
    forall i :: from <= i < |apps| ==> ParseNat(apps[i].id) == Some(i + 1)
  }

  /** Appending keeps the ids after the seed sequential. */
  lemma AppendedKeepsSequentialIds(apps: seq<Application>, from: nat, request: NewApplication, appliedDate: string)
    requires from <= |apps| && SequentialIdsFrom(apps, from)
    ensures SequentialIdsFrom(Appended(apps, request, appliedDate), from)
  {
  }

  /** Records added after the seed have pairwise different ids. */
  lemma SequentialIdsDistinct(apps: seq<Application>, from: nat, i: nat, j: nat)
    requires SequentialIdsFrom(apps, from)
    requires from <= i < |apps| && from <= j < |apps| && i != j
    ensures apps[i].id != apps[j].id
  {
    assert ParseNat(apps[i].id) != ParseNat(apps[j].id);
  }

  /** The message `useApplications` throws outside a provider. */
  const MissingProvider: string := "useApplications must be used within an ApplicationProvider"

  /** `useApplications`: the provided context value, or the error it throws when there is none. */
  function UseApplications<C>(provided: Option<C>): (r: Result<C, string>)
    ensures r.Failure? <==> provided.None?
    ensures r.Failure? ==> r.error == MissingProvider
    ensures provided.Some? ==> r == Success(provided.value)
  {
    match provided
    case None => Failure(MissingProvider)
    case Some(c) => Success(c)
  }

  /** The provider's state: the applications it holds in insertion order. */
  class ApplicationStore {
    var applications: seq<Application>
    /** How many records came from the seed; every later record has a sequential id. */
    ghost const seedLength: nat

    ghost predicate Valid()
      reads this
    {
      seedLength <= |applications| && SequentialIdsFrom(applications, seedLength)
    }

    /** The provider's mount: the store starts as the mapped seed. */
    constructor (seed: seq<SeedRecord>)
      ensures Valid()
      ensures applications == SeedApplications(seed)
      ensures seedLength == |seed|
    {
      applications := SeedApplications(seed);
      seedLength := |seed|;
    }

    /** `addApplication`: appends the new record; the date is supplied by the caller. */
    method Add(request: NewApplication, appliedDate: string)
      requires Valid()
      modifies this
      ensures Valid()
      ensures applications == Appended(old(applications), request, appliedDate)
    {
      AppendedKeepsSequentialIds(applications, seedLength, request, appliedDate);
      applications := Appended(applications, request, appliedDate);
    }
  }
}
