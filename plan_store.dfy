/**
 * The page around the checklist: the single `localStorage` slot holding the
 * plan (`saveState`, `loadState`, `clearState`, app.js:73-100), the start-date
 * picker, what is on screen, and the handlers that change them
 * (`handleGenerateClick`, `initializeApp`, `exportData`, `handleFileImport`).
 *
 * Each handler is a transition function on a `Page` value, about which the
 * lemmas below are stated, and a method of `App` that performs the same steps
 * as the source on mutable fields and is proved to reach the function's page.
 * The clock, the confirmation dialog, the storage quota and the chosen file
 * are parameters.
 */
module PlanStore {
  import opened Wrappers
  import opened Calendar
  import opened DayKeys
  import opened Schedule

  /** `{ startDate, days }`, the object saved under the storage key. */
  datatype Plan = Plan(startDate: string, days: map<string, bool>)

  /** The text under the storage key: a serialised plan, or text that does not parse to one. */
  datatype StoredText = Json(plan: Plan) | Unreadable

  /**
   * The backup file `handleFileImport` reads: none chosen, text `JSON.parse` rejects,
   * or an object whose `startDate` and `days` may be missing or falsy (`None`).
   */
  datatype ImportFile = NoFile | Malformed | Parsed(startDate: Option<string>, days: Option<map<string, bool>>)

  /** The notice in the message box. */
  datatype Notice = SelectDate | SaveFailed | PlanUpdated | Cleared | NoData | BackupSaved | Restored | InvalidFile

  /**
   * What is on screen: the table rows, the start and end dates of the shown
   * window (`None` while the table and progress section are hidden), the
   * progress shown, and the current notice (`None` when hidden).
   */
  datatype View = View(rows: seq<DayRow>, window: Option<(Date, Date)>, progress: Option<Progress>, notice: Option<Notice>)

  const EMPTY_VIEW := View([], None, None, None)

  /** The whole state: the storage slot, the picker's value and the screen. */
  datatype Page = Page(slot: Option<StoredText>, startInput: string, view: View)

  /** The picker holds either nothing or a date string. */
  predicate ValidPage(p: Page) {
    p.startInput == "" || IsDateString(p.startInput)
  }

  function WithNotice(p: Page, n: Notice): Page {
    p.(view := p.view.(notice := Some(n)))
  }

  /** `loadState`: the stored plan, or none when nothing is stored or the text does not parse. */
  function LoadState(slot: Option<StoredText>): (r: Option<Plan>)
    ensures r.Some? <==> slot.Some? && slot.value.Json?
    ensures r.Some? ==> slot == Some(Json(r.value))
  {
    match slot
    case Some(Json(plan)) => Some(plan)
    case _ => None
  }

  /** `saveState`: the slot takes the plan whole, or on a failed write keeps its text and an error shows. */
  function Save(p: Page, plan: Plan, writeOk: bool): Page {
    if writeOk then p.(slot := Some(Json(plan))) else WithNotice(p, SaveFailed)
  }

  /** `handleGenerateClick` with today's key `todayKey` and a store that accepts writes iff `writeOk`. */
  function Generate(p: Page, todayKey: string, writeOk: bool): (q: Page)
    requires ValidPage(p)
    ensures ValidPage(q) && q.startInput == p.startInput
  {
    if p.startInput == "" then WithNotice(p, SelectDate)
    else
      var start := ParseDateString(p.startInput);
      var days := DefaultDays(start, todayKey);
      var saved := Save(p, Plan(p.startInput, days), writeOk);
      saved.(view := View(DefaultRows(start, todayKey), Some((start, EndDate(start))),
                          Some(UpdateProgress(days)), Some(PlanUpdated)))
  }

  /**
   * `clearState`: only a confirmed clear empties the slot and resets the screen
   * and the picker. When storage cannot be reached (`storageOk` false),
   * `removeItem` throws outside any `try` and the handler stops there.
   */
  function Clear(p: Page, confirmed: bool, storageOk: bool, todayKey: string): (q: Page)
    ensures confirmed && storageOk ==> ValidPage(q)
  {
    if confirmed && storageOk then Page(None, PickerValue(todayKey), EMPTY_VIEW.(notice := Some(Cleared))) else p
  }

  /** `initializeApp`: the picker shows today, and a stored plan is regenerated from its start date. */
  function Initialize(p: Page, todayKey: string, writeOk: bool): (q: Page)
    ensures ValidPage(q)
  {
    var reset := p.(startInput := PickerValue(todayKey));
    match LoadState(p.slot)
    case None => reset
    case Some(plan) => Generate(reset.(startInput := PickerValue(plan.startDate)), todayKey, writeOk)
  }

  /** `exportData`: the stored plan as the backup, or a "no data" error. */
  function Export(p: Page): (Option<Plan>, Page) {
    var backup := LoadState(p.slot);
    (backup, WithNotice(p, if backup.None? then NoData else BackupSaved))
  }

  /** The check of `handleFileImport`: a parsed object with a truthy `startDate` and a truthy `days`. */
  function ImportedPlan(file: ImportFile): (r: Option<Plan>)
    ensures r.Some? <==> file.Parsed? && file.startDate.Some? && file.startDate.value != "" && file.days.Some?
  {
    match file
    case Parsed(Some(startDate), Some(days)) => if startDate != "" then Some(Plan(startDate, days)) else None
    case _ => None
  }

  /** `handleFileImport`: an accepted file is saved whole, then the page is initialised again. */
  function Import(p: Page, file: ImportFile, todayKey: string, writeOk: bool): (q: Page)
    requires ValidPage(p)
    ensures ValidPage(q)
  {
    if file.NoFile? then p
    else match ImportedPlan(file)
      case None => WithNotice(p, InvalidFile)
      case Some(plan) => WithNotice(Initialize(Save(p, plan, writeOk), todayKey, writeOk), Restored)
  }

  // ---------------------------------------------------------------------
  // What the handlers promise.

  /** The plan a generation stores for a picked start date. */
  predicate IsDefaultPlan(plan: Plan, todayKey: string) {
    && IsDateString(plan.startDate)
    && plan.days == DefaultDays(ParseDateString(plan.startDate), todayKey)
  }

  /**
   * With no start date picked, generation shows an error and changes nothing
   * else; with one, a store that accepts the write holds the default plan
   * for that date in place of whatever it held before, with sixty entries.
   */
  lemma GenerateStoresDefaultPlan(p: Page, todayKey: string, writeOk: bool)
    requires ValidPage(p)
    ensures var q := Generate(p, todayKey, writeOk);
      && (p.startInput == "" ==> q == WithNotice(p, SelectDate))
      && (p.startInput != "" && !writeOk ==> q.slot == p.slot)
      && (p.startInput != "" && writeOk ==>
            && q.slot.Some? && q.slot.value.Json?
            && q.slot.value.plan.startDate == p.startInput
            && IsDefaultPlan(q.slot.value.plan, todayKey)
            && |q.slot.value.plan.days| == TOTAL_DAYS)
  {
    if p.startInput != "" {
      ScheduleKeysDistinct(ParseDateString(p.startInput), todayKey);
    }
  }

  /**
   * What a generation shows: the sixty default rows from the start date to the
   * end date, each checked as its stored flag, and the progress of the map it built.
   */
  lemma GenerateShowsWindow(p: Page, todayKey: string, writeOk: bool)
    requires ValidPage(p) && p.startInput != ""
    ensures var q, start := Generate(p, todayKey, writeOk), ParseDateString(p.startInput);
      && |q.view.rows| == TOTAL_DAYS
      && q.view.rows[0].date == start
      && q.view.window == Some((start, q.view.rows[TOTAL_DAYS - 1].date))
      && q.view.progress.Some? && q.view.progress.value.completed <= TOTAL_DAYS
      && q.view.notice == Some(PlanUpdated)
      && q.view.rows == DefaultRows(start, todayKey)
      && q.view.progress == Some(UpdateProgress(DefaultDays(start, todayKey)))
      && (writeOk ==> q.view.progress.value.completed == CountCompleted(q.slot.value.plan.days))
  {
    var start := ParseDateString(p.startInput);
    ScheduleKeysDistinct(start, todayKey);
    assert DefaultRows(start, todayKey)[0] == DefaultRow(start, todayKey, 0);
  }

  /**
   * Without confirmation, or with storage out of reach, a clear changes nothing;
   * a confirmed clear that reaches storage empties the slot, so nothing loads.
   */
  lemma ClearNeedsConfirmation(p: Page, confirmed: bool, storageOk: bool, todayKey: string)
    ensures !confirmed || !storageOk ==> Clear(p, confirmed, storageOk, todayKey) == p
    ensures confirmed && storageOk ==>
      && Clear(p, confirmed, storageOk, todayKey).slot.None?
      && LoadState(Clear(p, confirmed, storageOk, todayKey).slot).None?
      && Clear(p, confirmed, storageOk, todayKey).view.notice == Some(Cleared)
  {
  }

  /** A file that fails the check, or no file, leaves the stored plan and the picker as they were. */
  lemma RejectedImportKeepsStore(p: Page, file: ImportFile, todayKey: string, writeOk: bool)
    requires ValidPage(p) && ImportedPlan(file).None?
    ensures Import(p, file, todayKey, writeOk).slot == p.slot
    ensures Import(p, file, todayKey, writeOk).startInput == p.startInput
    ensures file != NoFile ==> Import(p, file, todayKey, writeOk).view.notice == Some(InvalidFile)
  {
  }

  /**
   * An accepted import whose start date is a picker value ends with the default
   * plan for that date stored: the imported flags are replaced by the flags the
   * dates give today.
   */
  lemma ImportRegenerates(p: Page, file: ImportFile, todayKey: string)
    requires ValidPage(p) && ImportedPlan(file).Some?
    requires IsDateString(file.startDate.value)
    ensures var q := Import(p, file, todayKey, true);
      && q.slot == Some(Json(Plan(file.startDate.value, DefaultDays(ParseDateString(file.startDate.value), todayKey))))
      && q.startInput == file.startDate.value
      && q.view.notice == Some(Restored)
  {
  }

  /**
   * An accepted import whose start date the picker refuses stays stored as
   * imported: the picker is left empty and generation stops at its first check.
   */
  lemma ImportWithoutPickableDateKeepsImport(p: Page, file: ImportFile, todayKey: string)
    requires ValidPage(p) && ImportedPlan(file).Some?
    requires !IsDateString(file.startDate.value)
    ensures var q := Import(p, file, todayKey, true);
      && q.slot == Some(Json(ImportedPlan(file).value))
      && q.startInput == ""
  {
  }

  /** The backup of a stored plan passes the import check and imports as the same plan. */
  lemma ExportPassesImportCheck(p: Page)
    requires LoadState(p.slot).Some? && LoadState(p.slot).value.startDate != ""
    ensures var plan := Export(p).0.value;
      ImportedPlan(Parsed(Some(plan.startDate), Some(plan.days))) == Some(plan)
  {
  }

  /**
   * Importing the backup of a plan generated on the same day stores that same
   * plan again: export then import is the identity on the slot.
   */
  lemma ExportImportRoundTrip(p: Page, todayKey: string)
    requires ValidPage(p) && LoadState(p.slot).Some?
    requires IsDefaultPlan(LoadState(p.slot).value, todayKey)
    ensures var plan := Export(p).0.value;
      Import(p, Parsed(Some(plan.startDate), Some(plan.days)), todayKey, true).slot == p.slot
  {
  }

  /** On load a stored plan is regenerated for today; with nothing readable stored only the picker changes. */
  lemma InitializeReloads(p: Page, todayKey: string, writeOk: bool)
    ensures LoadState(p.slot).None? ==>
      Initialize(p, todayKey, writeOk) == p.(startInput := PickerValue(todayKey))
    ensures LoadState(p.slot).Some? && IsDateString(LoadState(p.slot).value.startDate) && writeOk ==>
      Initialize(p, todayKey, writeOk).slot
        == Some(Json(Plan(LoadState(p.slot).value.startDate,
                          DefaultDays(ParseDateString(LoadState(p.slot).value.startDate), todayKey))))
  {
  }

  // ---------------------------------------------------------------------
  // The page as the source keeps it: fields updated in place by the handlers.

  class App {
    /** `localStorage[STORAGE_KEY]`. */
    var slot: Option<StoredText>
    /** `dom.startDateInput.value`. */
    var startInput: string
    var view: View

    function Snapshot(): Page
      reads this
    {
      Page(slot, startInput, view)
    }

    ghost predicate Valid()
      reads this
    {
      ValidPage(Snapshot())
    }

    /** The page as loaded, before `initializeApp`: the slot keeps what an earlier visit stored. */
    constructor (stored: Option<StoredText>)
      ensures Valid() && Snapshot() == Page(stored, "", EMPTY_VIEW)
    {
      slot := stored;
      startInput := "";
      view := EMPTY_VIEW;
    }

    method ShowNotice(n: Notice)
      modifies this
      ensures Snapshot() == WithNotice(old(Snapshot()), n)
    {
      view := view.(notice := Some(n));
    }

    /** `startDateInput.value = s`: the picker keeps only a date string. */
    method SetStartInput(s: string)
      modifies this
      ensures Snapshot() == old(Snapshot()).(startInput := PickerValue(s))
    {
      startInput := PickerValue(s);
    }

    method SaveState(plan: Plan, writeOk: bool)
      modifies this
      ensures Snapshot() == Save(old(Snapshot()), plan, writeOk)
    {
      if writeOk {
        slot := Some(Json(plan));
      } else {
        ShowNotice(SaveFailed);
      }
    }

    method HandleGenerateClick(todayKey: string, writeOk: bool)
      requires Valid()
      modifies this
      ensures Valid() && Snapshot() == Generate(old(Snapshot()), todayKey, writeOk)
    {
      var startDateString := startInput;
      if startDateString == "" {
        ShowNotice(SelectDate);
        return;
      }
      view := view.(notice := None);
      var startDate := ParseDateString(startDateString);
      var endDate := EndDate(startDate);
      var rows, newDaysData := GenerateSchedule(startDate, todayKey);
      SaveState(Plan(startDateString, newDaysData), writeOk);
      view := View(rows, Some((startDate, endDate)), Some(UpdateProgress(newDaysData)), Some(PlanUpdated));
    }

    method ClearState(confirmed: bool, storageOk: bool, todayKey: string)
      modifies this
      ensures Snapshot() == Clear(old(Snapshot()), confirmed, storageOk, todayKey)
    {
      if confirmed {
        if !storageOk {
          // `localStorage.removeItem` throws; nothing after it runs.
          return;
        }
        slot := None;
        view := EMPTY_VIEW;
        SetStartInput(todayKey);
        ShowNotice(Cleared);
      }
    }

    method InitializeApp(todayKey: string, writeOk: bool)
      modifies this
      ensures Valid() && Snapshot() == Initialize(old(Snapshot()), todayKey, writeOk)
    {
      SetStartInput(todayKey);
      var planData := LoadState(slot);
      if planData.Some? {
        SetStartInput(planData.value.startDate);
        HandleGenerateClick(todayKey, writeOk);
      }
    }

    method ExportData() returns (backup: Option<Plan>)
      modifies this
      ensures (backup, Snapshot()) == Export(old(Snapshot()))
    {
      backup := LoadState(slot);
      if backup.None? {
        ShowNotice(NoData);
        return;
      }
      ShowNotice(BackupSaved);
    }

    method HandleFileImport(file: ImportFile, todayKey: string, writeOk: bool)
      requires Valid()
      modifies this
      ensures Valid() && Snapshot() == Import(old(Snapshot()), file, todayKey, writeOk)
    {
      if file.NoFile? {
        return;
      }
      var d := ImportedPlan(file);
      if d.Some? {
        SaveState(d.value, writeOk);
        InitializeApp(todayKey, writeOk);
        ShowNotice(Restored);
      } else {
        ShowNotice(InvalidFile);
      }
    }
  }
}
