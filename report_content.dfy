/**
 * The body of a report: the titles and visibility of its status and note
 * lists, the per-report note drafts with their submission, and the note
 * card's confirmed deletion.
 */
module ReportContent {
  import opened JsValues
  import opened Decimal
  import opened Commands

  /**
   * A list argument as the title helpers receive it: not passed (or
   * undefined), null, or an array of which only the length is read.
   */
  datatype ListArg = Absent | NullList | Items(length: nat)

  const NotesLabel := "Notes: "
  const StatusesLabel := "Reported statuses: "
  const ItemsSuffix := " item(s)"

  /** The length a list argument counts for; an absent list defaults to `[]`. */
  function Length(a: ListArg): nat
    requires !a.NullList?
  {
    if a.Items? then a.length else 0
  }

  /** `title` is `caption`, then the decimal spelling of `n`, then " item(s)". */
  predicate ReadsAsCount(title: string, caption: string, n: nat) {
    |title| >= |caption| + |ItemsSuffix|
    && title[..|caption|] == caption
    && title[|title| - |ItemsSuffix|..] == ItemsSuffix
    && IsCanonical(title[|caption|..|title| - |ItemsSuffix|])
    && ParseDecimal(title[|caption|..|title| - |ItemsSuffix|]) == n
  }

  /**
   * `caption.concat(list.length, " item(s)")` with the list defaulting to `[]`
   * when undefined; reading the length of null throws.
   */
  function CountTitle(caption: string, a: ListArg): (r: Result<string>)
    ensures r.Failure? <==> a.NullList?
    ensures r.Success? ==> ReadsAsCount(r.value, caption, Length(a))
  {
    if a.NullList? then Failure(TypeError)
    else
      var digits := DecimalString(Length(a));
      var title := caption + digits + ItemsSuffix;
      ParseOfDecimalString(Length(a));
      assert title[|caption|..|title| - |ItemsSuffix|] == digits;
      assert title[..|caption|] == caption;
      assert title[|title| - |ItemsSuffix|..] == ItemsSuffix;
      Success(title)
  }

  /** `getNotesTitle`. */
  function NotesTitle(notes: ListArg): (r: Result<string>)
    ensures r.Failure? <==> notes.NullList?
    ensures r.Success? ==> ReadsAsCount(r.value, NotesLabel, Length(notes))
  {
    CountTitle(NotesLabel, notes)
  }

  /** `getStatusesTitle`. */
  function StatusesTitle(statuses: ListArg): (r: Result<string>)
    ensures r.Failure? <==> statuses.NullList?
    ensures r.Success? ==> ReadsAsCount(r.value, StatusesLabel, Length(statuses))
  {
    CountTitle(StatusesLabel, statuses)
  }

  /** A title names one count only: equal titles come from lists of equal length. */
  lemma TitleDeterminesCount(caption: string, a: ListArg, b: ListArg)
    requires !a.NullList? && !b.NullList?
    requires CountTitle(caption, a) == CountTitle(caption, b)
    ensures Length(a) == Length(b)
  {
  }

  /** Lists of different lengths get different titles. */
  lemma DistinctCountsDistinctTitles(caption: string, a: ListArg, b: ListArg)
    requires !a.NullList? && !b.NullList? && Length(a) != Length(b)
    ensures CountTitle(caption, a).value != CountTitle(caption, b).value
  {
    if CountTitle(caption, a).value == CountTitle(caption, b).value {
      TitleDeterminesCount(caption, a, b);
    }
  }

  /** `showStatuses`: the list, defaulting to `[]` when undefined, is non-empty. */
  function ShowStatuses(statuses: ListArg): (r: Result<bool>)
    ensures r.Failure? <==> statuses.NullList?
    ensures r.Success? ==> (r.value <==> statuses.Items? && statuses.length > 0)
  {
    match statuses
    case Absent => Success(false)
    case NullList => Failure(TypeError)
    case Items(n) => Success(n > 0)
  }

  /** The statuses section is shown exactly when its title counts at least one status. */
  lemma StatusesShownIffCounted(statuses: ListArg)
    requires !statuses.NullList?
    ensures ShowStatuses(statuses).value <==> Length(statuses) > 0
  {
  }

  /**
   * The note a submission for `reportId` creates: that report's draft, or
   * undefined when nothing has been typed for it.
   */
  function NewNoteCommand(drafts: map<string, string>, reportId: string): (c: Command)
    ensures c.CreateReportNote? && c.reportID == reportId
    ensures c.content.Some? <==> reportId in drafts
    ensures c.content.Some? ==> c.content.value == drafts[reportId]
  {
    CreateReportNote(if reportId in drafts then Some(drafts[reportId]) else None, reportId)
  }

  /** The drafts after a submission: that report's draft is emptied, every other one kept. */
  function ClearDraft(drafts: map<string, string>, reportId: string): (r: map<string, string>)
    ensures r.Keys == drafts.Keys + {reportId}
    ensures r[reportId] == ""
    ensures forall k :: k in drafts && k != reportId ==> r[k] == drafts[k]
  {
    drafts[reportId := ""]
  }

  /** Submitting twice in a row sends the empty string the second time. */
  lemma SecondSubmissionIsEmpty(drafts: map<string, string>, reportId: string)
    ensures NewNoteCommand(ClearDraft(drafts, reportId), reportId) == CreateReportNote(Some(""), reportId)
  {
  }

  class ReportContentView {
    /** The `notes` data: one draft per report id. */
    var notes: map<string, string>
    const store: Store

    constructor (store: Store)
      ensures notes == map[] && this.store == store
    {
      notes := map[];
      this.store := store;
    }

    /** The text area's `$set(notes, report.id, text)` callback. */
    method SetDraft(reportId: string, text: string)
      modifies this`notes
      ensures notes == old(notes)[reportId := text]
    {
      notes := notes[reportId := text];
    }

    /** `handleNewNote`: submit this report's draft, then empty it. */
    method HandleNewNote(reportId: string)
      modifies this`notes, store`log
      ensures store.log == old(store.log) + [NewNoteCommand(old(notes), reportId)]
      ensures notes == ClearDraft(old(notes), reportId)
    {
      var content := if reportId in notes then Some(notes[reportId]) else None;
      store.Dispatch(CreateReportNote(content, reportId));
      notes := notes[reportId := ""];
    }
  }

  /** The note card's `handleNoteDeletion`: after confirmation, delete the note of the report. */
  function NoteDeletionCommands(answer: Answer, noteId: string, reportId: string): (r: seq<Command>)
    ensures r == [] <==> answer == Cancelled
    ensures answer == Confirmed ==> r == [DeleteReportNote(noteId, reportId)]
  {
    match answer
    case Confirmed => [DeleteReportNote(noteId, reportId)]
    case Cancelled => []
  }

  class NoteCardView {
    const store: Store

    constructor (store: Store)
      ensures this.store == store
    {
      this.store := store;
    }

    method HandleNoteDeletion(noteId: string, reportId: string, answer: Answer)
      modifies store`log
      ensures store.log == old(store.log) + NoteDeletionCommands(answer, noteId, reportId)
    {
      if answer == Confirmed {
        store.Dispatch(DeleteReportNote(noteId, reportId));
      }
    }
  }
}
