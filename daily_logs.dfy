/**
 * The daily logs page: choosing a practice, the log entries recorded for
 * it, the entry count label, and the new-entry form, whose submit only
 * hides the form and resets the draft.
 */
module DailyLogs {
  import opened Wrappers
  import opened Text
  import opened Seqs

  /** A practice the page offers for selection. */
  datatype PracticeRef = PracticeRef(id: string, title: string, company: string)

  /** A recorded log entry; `hours` may be fractional. */
  datatype LogEntry = LogEntry(
    id: string,
    date: string,
    practiceId: string,
    practice: string,
    hours: real,
    activities: string,
    learnings: string,
    challenges: string,
    mood: string)

  /** The new-entry draft; every field is the text of one input. */
  datatype LogDraft = LogDraft(
    date: string,
    hours: string,
    activities: string,
    learnings: string,
    challenges: string,
    mood: string)

  /** The draft's fields, one per input of the form. */
  datatype LogField = Date | Hours | Mood | Activities | Learnings | Challenges

  /** The value of one draft field. */
  function GetDraft(d: LogDraft, f: LogField): string
  {
    match f
    case Date => d.date
    case Hours => d.hours
    case Activities => d.activities
    case Learnings => d.learnings
    case Challenges => d.challenges
    case Mood => d.mood
  }

  /** `{...formData, [field]: value}` for the field one input edits. */
  function SetDraft(d: LogDraft, f: LogField, v: string): (r: LogDraft)
    ensures GetDraft(r, f) == v
    ensures forall g :: g != f ==> GetDraft(r, g) == GetDraft(d, g)
  {
    match f
    case Date => d.(date := v)
    case Hours => d.(hours := v)
    case Activities => d.(activities := v)
    case Learnings => d.(learnings := v)
    case Challenges => d.(challenges := v)
    case Mood => d.(mood := v)
  }

  /** The draft for a new entry: today's date and every other field empty. */
  function FreshDraft(today: string): (d: LogDraft)
    ensures GetDraft(d, Date) == today
    ensures forall f :: f != Date ==> GetDraft(d, f) == ""
  {
    LogDraft(today, "", "", "", "", "")
  }

  /** The practices offered for selection. */
  const MockLogPractices: seq<PracticeRef> := [
    PracticeRef("1", "Software Development Intern", "TechCorp Solutions"),
    PracticeRef("2", "Digital Marketing Assistant", "Creative Agency Inc"),
    PracticeRef("3", "Business Analyst Trainee", "Finance Partners LLC"),
    PracticeRef("4", "UX/UI Design Intern", "DesignStudio Pro"),
    PracticeRef("5", "Data Science Intern", "Analytics Hub")
  ]

  /** The recorded entries. */
  const MockLogs: seq<LogEntry> := [
    LogEntry("1", "2024-11-20", "1", "Software Development Intern - TechCorp Solutions", 8.0,
             "Worked on React components for the user dashboard, participated in daily standup, reviewed code from senior developers.",
             "Learned about React hooks best practices and how to optimize component rendering.",
             "Understanding the existing codebase architecture took more time than expected.",
             "productive"),
    LogEntry("2", "2024-11-19", "1", "Software Development Intern - TechCorp Solutions", 7.5,
             "Debugging API integration issues, attending team retrospective meeting, setting up development environment.",
             "Gained experience with REST API debugging and learned about team collaboration tools.",
             "Environment setup had some compatibility issues that required IT support.",
             "challenging"),
    LogEntry("3", "2024-11-21", "2", "Digital Marketing Assistant - Creative Agency Inc", 6.0,
             "Created social media content calendar, analyzed campaign performance metrics, attended client presentation.",
             "Understanding of social media analytics and how to interpret engagement data.",
             "Client feedback required major changes to the campaign strategy.",
             "productive"),
    LogEntry("4", "2024-11-18", "2", "Digital Marketing Assistant - Creative Agency Inc", 7.0,
             "Researched target audience demographics, drafted blog post content, coordinated with design team.",
             "Learned about audience segmentation and content strategy planning.",
             "Balancing creative vision with client requirements.",
             "excellent")
  ]

  /** `selectedPracticeInfo`: `mockPractices.find(p => p.id === selectedPractice)`. */
  function SelectedPracticeInfo(practices: seq<PracticeRef>, selected: string): Option<PracticeRef>
  {
    Find(practices, (p: PracticeRef) => p.id == selected)
  }

  /** The lookup yields the first practice with the selected id, or nothing when none has it. */
  lemma SelectedPracticeInfoFirst(practices: seq<PracticeRef>, selected: string)
    ensures SelectedPracticeInfo(practices, selected).None? <==>
      forall j :: 0 <= j < |practices| ==> practices[j].id != selected
    ensures SelectedPracticeInfo(practices, selected).Some? ==>
      exists i :: 0 <= i < |practices| && practices[i] == SelectedPracticeInfo(practices, selected).value &&
                  practices[i].id == selected && forall j :: 0 <= j < i ==> practices[j].id != selected
  {
  }

  /** A log belongs to the selected practice. */
  predicate BelongsTo(selected: string, log: LogEntry)
  {
    log.practiceId == selected
  }

  /** `filteredLogs`. */
  function FilteredLogs(logs: seq<LogEntry>, selected: string): seq<LogEntry>
  {
    Filter(logs, (log: LogEntry) => BelongsTo(selected, log))
  }

  /**
   * The logs shown are exactly those of the selected practice, in their
   * recorded order: each shown log belongs to it, the shown logs are a
   * subsequence of all logs, there are as many as the logs that belong to
   * it, and none that belongs to it is missing.
   */
  lemma FilteredLogsExact(logs: seq<LogEntry>, selected: string)
    ensures forall i :: 0 <= i < |FilteredLogs(logs, selected)| ==> FilteredLogs(logs, selected)[i].practiceId == selected
    ensures IsSubsequence(FilteredLogs(logs, selected), logs)
    ensures |FilteredLogs(logs, selected)| == Count(logs, (log: LogEntry) => BelongsTo(selected, log))
    ensures forall log :: log in logs && log.practiceId == selected ==> log in FilteredLogs(logs, selected)
  {
    var keep := (log: LogEntry) => BelongsTo(selected, log);
    FilterIsSubsequence(logs, keep);
    FilterLength(logs, keep);
    forall log | log in logs && log.practiceId == selected
      ensures log in FilteredLogs(logs, selected)
    {
      FilterComplete(logs, keep, log);
    }
  }

  /** With nothing selected no log is shown, since every log names its practice. */
  lemma NoSelectionShowsNoLogs(logs: seq<LogEntry>)
    requires forall i :: 0 <= i < |logs| ==> logs[i].practiceId != ""
    ensures FilteredLogs(logs, "") == []
  {
    FilterKeepsNone(logs, (log: LogEntry) => BelongsTo("", log));
  }

  /** Every recorded log names its practice. */
  lemma MockLogsNamePractices()
    ensures forall i :: 0 <= i < |MockLogs| ==> MockLogs[i].practiceId != ""
  {
  }

  /** With nothing selected the page's own logs show nothing. */
  lemma MockNoSelectionShowsNoLogs()
    ensures FilteredLogs(MockLogs, "") == []
  {
    MockLogsNamePractices();
    NoSelectionShowsNoLogs(MockLogs);
  }

  /** The history header: the number of shown logs and "entry" or "entries". */
  function CountLabel(logs: seq<LogEntry>, selected: string): string
  {
    var n := |FilteredLogs(logs, selected)|;
    NatToString(n) + " " + (if n == 1 then "entry" else "entries")
  }

  /** The header states the number of logs of the selected practice, singular exactly for one. */
  lemma CountLabelReads(logs: seq<LogEntry>, selected: string)
    ensures var n := Count(logs, (log: LogEntry) => BelongsTo(selected, log));
      CountLabel(logs, selected) == NatToString(n) + (if n == 1 then " entry" else " entries")
  {
    FilteredLogsExact(logs, selected);
  }

  /** The page's state. */
  class DailyLogsPage {
    const practices: seq<PracticeRef>
    const logs: seq<LogEntry>
    var selectedPractice: string
    var showForm: bool
    var formData: LogDraft

    /** The mounted page; `today` stands for the current date the page reads. */
    constructor (today: string)
      ensures practices == MockLogPractices && logs == MockLogs
      ensures selectedPractice == "" && !showForm && formData == FreshDraft(today)
    {
      practices := MockLogPractices;
      logs := MockLogs;
      selectedPractice := "";
      showForm := false;
      formData := FreshDraft(today);
    }

    /** The logs listed under the history header. */
    function Shown(): seq<LogEntry>
      reads this
    {
      FilteredLogs(logs, selectedPractice)
    }

    /** The entry form is rendered only while it is open and a practice is selected. */
    function FormVisible(): bool
      reads this
    {
      showForm && selectedPractice != ""
    }

    /** Choosing a practice in the selector. */
    method SelectPractice(id: string)
      modifies this
      ensures selectedPractice == id && showForm == old(showForm) && formData == old(formData)
    {
      selectedPractice := id;
    }

    /** The "new log entry" buttons. */
    method OpenForm()
      modifies this
      ensures showForm && selectedPractice == old(selectedPractice) && formData == old(formData)
    {
      showForm := true;
    }

    /** The cancel button: the form hides and the draft is kept. */
    method CancelForm()
      modifies this
      ensures !showForm && selectedPractice == old(selectedPractice) && formData == old(formData)
    {
      showForm := false;
    }

    /** Editing one input of the entry form. */
    method SetDraftField(f: LogField, v: string)
      modifies this
      ensures formData == SetDraft(old(formData), f, v)
      ensures selectedPractice == old(selectedPractice) && showForm == old(showForm)
    {
      formData := SetDraft(formData, f, v);
    }

    /**
     * `handleSubmit`: the form hides and the draft is reset to today's date
     * with every other field empty. No entry is recorded: the logs and the
     * selection stay as they were.
     */
    method HandleSubmit(today: string)
      modifies this
      ensures !showForm && formData == FreshDraft(today)
      ensures selectedPractice == old(selectedPractice)
      ensures Shown() == old(Shown())
    {
      showForm := false;
      formData := FreshDraft(today);
    }
  }
}
