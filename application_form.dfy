/**
 * The application form dialog: the listing it is opened for, the draft the
 * candidate fills in, the presence check on four required fields, and the
 * submit that first marks the form busy and later, when the simulated
 * delay elapses, appends the application to the store and resets the draft.
 */
module ApplicationForm {
  import opened Wrappers
  import opened ApplicationContext

  /** A practice listing. */
  datatype Practice = Practice(
    id: string,
    title: string,
    company: string,
    location: string,
    duration: string,
    kind: string,
    description: string,
    requirements: seq<string>,
    deadline: string,
    spots: nat)

  /** The three listing types. */
  const FullTime: string := "Full-time"
  const PartTime: string := "Part-time"
  const Remote: string := "Remote"

  /** `getTypeLabel`: the displayed label of a listing type; an unknown type is shown as is. */
  function TypeLabel(kind: string): string
  {
    if kind == FullTime then "Tiempo Completo"
    else if kind == PartTime then "Medio Tiempo"
    else if kind == Remote then "Remoto"
    else kind
  }

  /** The known types get fixed labels and every other input is returned unchanged. */
  lemma TypeLabelCases(kind: string)
    ensures kind == FullTime ==> TypeLabel(kind) == "Tiempo Completo"
    ensures kind == PartTime ==> TypeLabel(kind) == "Medio Tiempo"
    ensures kind == Remote ==> TypeLabel(kind) == "Remoto"
    ensures kind != FullTime && kind != PartTime && kind != Remote ==> TypeLabel(kind) == kind
  {
  }

  /** The candidate's draft: every field is the text of one input. */
  datatype FormData = FormData(
    fullName: string,
    email: string,
    phone: string,
    university: string,
    major: string,
    graduationYear: string,
    gpa: string,
    experience: string,
    motivation: string,
    skills: string,
    availability: string,
    portfolioUrl: string,
    linkedinUrl: string)

  /** The names of the draft's fields (`keyof FormData`). */
  datatype Field =
    | FullName | Email | Phone | University | Major | GraduationYear | Gpa
    | Experience | Motivation | Skills | Availability | PortfolioUrl | LinkedinUrl

  /** The value of one draft field. */
  function Get(d: FormData, f: Field): string
  {
    match f
    case FullName => d.fullName
    case Email => d.email
    case Phone => d.phone
    case University => d.university
    case Major => d.major
    case GraduationYear => d.graduationYear
    case Gpa => d.gpa
    case Experience => d.experience
    case Motivation => d.motivation
    case Skills => d.skills
    case Availability => d.availability
    case PortfolioUrl => d.portfolioUrl
    case LinkedinUrl => d.linkedinUrl
  }

  /** `{...prev, [field]: value}`: the draft with one field replaced. */
  function Set(d: FormData, f: Field, v: string): (r: FormData)
    ensures Get(r, f) == v
    ensures forall g :: g != f ==> Get(r, g) == Get(d, g)
  {
    match f
    case FullName => d.(fullName := v)
    case Email => d.(email := v)
    case Phone => d.(phone := v)
    case University => d.(university := v)
    case Major => d.(major := v)
    case GraduationYear => d.(graduationYear := v)
    case Gpa => d.(gpa := v)
    case Experience => d.(experience := v)
    case Motivation => d.(motivation := v)
    case Skills => d.(skills := v)
    case Availability => d.(availability := v)
    case PortfolioUrl => d.(portfolioUrl := v)
    case LinkedinUrl => d.(linkedinUrl := v)
  }

  /** The draft the form starts with and is reset to: every field empty. */
  function EmptyDraft(): (d: FormData)
    ensures forall f :: Get(d, f) == ""
  {
    FormData("", "", "", "", "", "", "", "", "", "", "", "", "")
  }

  /** The four fields the submit requires. */
  predicate IsRequired(f: Field)
  {
    f == FullName || f == Email || f == Phone || f == Motivation
  }

  /** The validation gate: full name, email, phone and motivation are all non-empty. */
  predicate RequiredFilled(d: FormData)
  {
    d.fullName != "" && d.email != "" && d.phone != "" && d.motivation != ""
  }

  /** The gate passes exactly when no required field is empty. */
  lemma RequiredFilledIff(d: FormData)
    ensures RequiredFilled(d) <==> forall f :: IsRequired(f) ==> Get(d, f) != ""
  {
    assert IsRequired(FullName) && IsRequired(Email) && IsRequired(Phone) && IsRequired(Motivation);
  }

  /** Setting a field that is not required never changes the gate's verdict. */
  lemma OptionalFieldKeepsGate(d: FormData, f: Field, v: string)
    requires !IsRequired(f)
    ensures RequiredFilled(Set(d, f, v)) == RequiredFilled(d)
  {
    assert Get(Set(d, f, v), FullName) == Get(d, FullName);
    assert Get(Set(d, f, v), Email) == Get(d, Email);
    assert Get(Set(d, f, v), Phone) == Get(d, Phone);
    assert Get(Set(d, f, v), Motivation) == Get(d, Motivation);
  }

  /** The fields of a listing that the submitted application carries. */
  function RequestFor(p: Practice): (r: NewApplication)
    ensures r.title == p.title && r.company == p.company && r.location == p.location
  {
    NewApplication(p.title, p.company, p.location)
  }

  /** The notifications the form raises. */
  datatype Toast =
    | ValidationError
    /** The success message names the listing's title, `undefined` when there was none. */
    | ApplicationSent(practiceTitle: Option<string>)

  /** What the form asks of its surroundings. */
  datatype Effect = ShowToast(toast: Toast) | RequestClose

  /** The simulated delay: idle, or pending with the listing captured at submit time. */
  datatype Timer = Idle | Pending(practice: Option<Practice>)

  class ApplicationFormState {
    /** The store reached through `useApplications`. */
    const store: ApplicationStore
    /** The `practice` prop. */
    var practice: Option<Practice>
    var formData: FormData
    var isSubmitting: bool
    var timer: Timer

    ghost predicate Valid()
      reads this, store
    {
      store.Valid() && (isSubmitting <==> timer.Pending?)
    }

    /** The mounted form: an empty draft, not submitting. */
    constructor (store: ApplicationStore, practice: Option<Practice>)
      requires store.Valid()
      ensures Valid()
      ensures this.store == store && this.practice == practice
      ensures formData == EmptyDraft() && !isSubmitting && timer == Idle
    {
      this.store := store;
      this.practice := practice;
      formData := EmptyDraft();
      isSubmitting := false;
      timer := Idle;
    }

    /** The parent re-renders the form for another listing (or for none). */
    method SetPractice(p: Option<Practice>)
      requires Valid()
      modifies this
      ensures Valid()
      ensures practice == p
      ensures formData == old(formData) && isSubmitting == old(isSubmitting) && timer == old(timer)
    {
      practice := p;
    }

    /** `handleInputChange`: one field takes the new value, the others keep theirs. */
    method HandleInputChange(f: Field, v: string)
      requires Valid()
      modifies this
      ensures Valid()
      ensures formData == Set(old(formData), f, v)
      ensures practice == old(practice) && isSubmitting == old(isSubmitting) && timer == old(timer)
    {
      formData := Set(formData, f, v);
    }

    /** The submit button is disabled while a submission is pending. */
    function SubmitEnabled(): (b: bool)
      reads this
    {
      !isSubmitting
    }

    /**
     * Pressing the submit button. A disabled button does nothing. Otherwise
     * `handleSubmit` runs: an incomplete draft raises the validation toast and
     * changes nothing; a complete one sets `isSubmitting` and starts the delay.
     */
    method PressSubmit() returns (effects: seq<Effect>)
      requires Valid()
      modifies this
      ensures Valid()
      ensures formData == old(formData) && practice == old(practice)
      ensures old(isSubmitting) ==> isSubmitting && timer == old(timer) && effects == []
      ensures !old(isSubmitting) && !RequiredFilled(old(formData)) ==>
        !isSubmitting && timer == old(timer) && effects == [ShowToast(ValidationError)]
      ensures !old(isSubmitting) && RequiredFilled(old(formData)) ==>
        isSubmitting && timer == Pending(old(practice)) && effects == []
      ensures store.applications == old(store.applications)
    {
      if isSubmitting {
        return [];
      }
      if !RequiredFilled(formData) {
        return [ShowToast(ValidationError)];
      }
      isSubmitting := true;
      timer := Pending(practice);
      effects := [];
    }

    /**
     * The delay elapses: the application for the captured listing, if any,
     * is appended to the store; the form stops submitting, asks to be
     * closed and resets the draft.
     */
    method CompleteSubmit(appliedDate: string) returns (effects: seq<Effect>)
      requires Valid() && timer.Pending?
      modifies this, store
      ensures Valid()
      ensures !isSubmitting && timer == Idle && formData == EmptyDraft() && practice == old(practice)
      ensures old(timer.practice).Some? ==>
        store.applications == Appended(old(store.applications), RequestFor(old(timer.practice).value), appliedDate)
      ensures old(timer.practice).None? ==> store.applications == old(store.applications)
      ensures effects == [ShowToast(ApplicationSent(
                            match old(timer.practice)
                            case Some(p) => Some(p.title)
                            case None => None)),
                          RequestClose]
    {
      var captured := timer.practice;
      if captured.Some? {
        store.Add(RequestFor(captured.value), appliedDate);
      }
      effects := [ShowToast(ApplicationSent(
                    match captured
                    case Some(p) => Some(p.title)
                    case None => None)),
                  RequestClose];
      isSubmitting := false;
      formData := EmptyDraft();
      timer := Idle;
    }
  }

  /**
   * Applying to the first listing of an empty store: filling the four
   * required fields and waiting out the delay yields one application with
   * the listing's title, company and location, under review at 25% with id "1".
   */
  method SubmitScenario(listing: Practice, appliedDate: string)
  {
    var store := new ApplicationStore([]);
    var form := new ApplicationFormState(store, Some(listing));
    form.HandleInputChange(FullName, "Ana");
    form.HandleInputChange(Email, "ana@example.com");
    var rejected := form.PressSubmit();
    assert rejected == [ShowToast(ValidationError)] && store.applications == [];
    form.HandleInputChange(Phone, "555");
    form.HandleInputChange(Motivation, "I want to learn");
    var started := form.PressSubmit();
    assert form.isSubmitting && !form.SubmitEnabled();
    var ignored := form.PressSubmit();
    assert ignored == [] && form.timer == Pending(Some(listing));
    var done := form.CompleteSubmit(appliedDate);
    assert |store.applications| == 1;
    var a := store.applications[0];
    assert a.title == listing.title && a.company == listing.company && a.location == listing.location;
    assert a.status == UnderReview && a.progress == 25;
    assert a.id == "1";
    assert form.formData == EmptyDraft() && !form.isSubmitting;
  }
}
