/** The toolbar popup: its usage statistics, and the function it injects into the
    active tab, which repeats the content script's detection, lookup and insertion
    inline. */
module Popup {
  import opened Wrappers
  import opened Text
  import opened Storage
  import opened Content

  /** The function injected into the active tab with the prompt as its argument. */
  method InjectPrompt(page: Page, prompt: string, store: SyncStorage) returns (outcome: Outcome)
    requires page.Valid()
    modifies page`elements, page`inputEvents, store
    ensures page.Valid()
    ensures outcome == Resolve(page.host, page.dom)
    ensures outcome.Inserted? ==>
              page.elements == old(page.elements)[outcome.id := Written(old(page.elements)[outcome.id], prompt)]
              && page.inputEvents == old(page.inputEvents) + 1
              && store.items == Incremented(old(store.items))
    ensures !outcome.Inserted? ==>
              page.elements == old(page.elements) && page.inputEvents == old(page.inputEvents)
              && store.items == old(store.items)
  {
    var hostname := page.host;
    var platform: Option<Platform> := None;
    if Includes(hostname, ClaudeHost) {
      platform := Some(Claude);
    } else if Includes(hostname, ChatGptHost) {
      platform := Some(ChatGpt);
    } else if Includes(hostname, GeminiHost) {
      platform := Some(Gemini);
    }
    if platform.None? {
      return Unsupported;
    }

    var inputElement: Option<ElementId> := None;
    if platform == Some(Claude) {
      inputElement := Find(page.dom, EditableDiv);
      if inputElement.None? { inputElement := Find(page.dom, AnyTextarea); }
    } else if platform == Some(ChatGpt) {
      inputElement := Find(page.dom, PromptTextarea);
      if inputElement.None? { inputElement := Find(page.dom, AnyTextarea); }
    } else if platform == Some(Gemini) {
      inputElement := Find(page.dom, QuillEditor);
      if inputElement.None? { inputElement := Find(page.dom, EditableDiv); }
    }
    if inputElement.None? {
      return NotFound;
    }

    var id := inputElement.value;
    var e := page.elements[id];
    if e.tag == TextareaTag {
      page.elements := page.elements[id := e.(value := prompt)];
    } else {
      page.elements := page.elements[id := e.(textContent := prompt)];
    }
    page.inputEvents := page.inputEvents + 1;
    var _ := store.IncrementUsage();
    outcome := Inserted(id);
  }

  /** The popup's "Insert" button: inject with the prompt template as argument.
      It has exactly the effect of the floating button's `insertPrompt`. */
  method OnInsertClick(page: Page, store: SyncStorage) returns (outcome: Outcome)
    requires page.Valid()
    modifies page`elements, page`inputEvents, store
    ensures page.Valid()
    ensures outcome == Resolve(page.host, page.dom)
    ensures outcome.Inserted? ==>
              page.elements == old(page.elements)[outcome.id := Written(old(page.elements)[outcome.id], UniversalPrompt)]
              && page.inputEvents == old(page.inputEvents) + 1
              && store.items == Incremented(old(store.items))
    ensures !outcome.Inserted? ==>
              page.elements == old(page.elements) && page.inputEvents == old(page.inputEvents)
              && store.items == old(store.items)
  {
    outcome := InjectPrompt(page, UniversalPrompt, store);
  }

  /** Milliseconds in a day, `1000 * 60 * 60 * 24`. */
  const MsPerDay := 86400000

  /** The two figures the popup shows. */
  datatype Stats = Stats(usageCount: int, daysActive: int)

  /** The install time the popup counts from: the stored date, or the clock
      reading `firstRead` when none (or a falsy one) is stored. */
  function InstalledAt(items: map<string, int>, firstRead: int): int
  {
    var stored := Find(items, InstallDate);
    if IsTruthy(stored) then stored.value else firstRead
  }

  /** The statistics shown when the popup opens. When no install date is stored
      the source reads the clock twice: `firstRead` stands in for the missing date,
      `secondRead` is the time the elapsed days are measured to. With a stored date
      only the second read happens, and `firstRead` is ignored. The usage count is the stored count
      (0 when absent); the day count is the number of whole days from the install
      time to `secondRead`, rounded down. */
  function ComputeStats(items: map<string, int>, firstRead: int, secondRead: int): (s: Stats)
    ensures s.usageCount == Lookup(items, UsageCount)
    ensures s.daysActive * MsPerDay <= secondRead - InstalledAt(items, firstRead) < (s.daysActive + 1) * MsPerDay
    ensures secondRead >= InstalledAt(items, firstRead) ==> s.daysActive >= 0
    ensures (!IsTruthy(Find(items, InstallDate)) && firstRead <= secondRead < firstRead + MsPerDay)
              ==> s.daysActive == 0
  {
    var usageCount := OrZero(Find(items, UsageCount));
    var installDate := InstalledAt(items, firstRead);
    Stats(usageCount, (secondRead - installDate) / MsPerDay)
  }

  /** With no stored date, a clock that steps back by at most a day between
      the two reads makes the popup show -1 days. */
  lemma ClockStepBackShowsMinusOne(items: map<string, int>, firstRead: int, secondRead: int)
    requires !IsTruthy(Find(items, InstallDate))
    requires firstRead - MsPerDay <= secondRead < firstRead
    ensures ComputeStats(items, firstRead, secondRead).daysActive == -1
  {
  }

  /** Right after a fresh install at time `t`, the popup shows no uses, and the
      day count it shows counts from `t`, whatever the first clock read. */
  lemma StatsAfterInstall(items: map<string, int>, t: int, firstRead: int, secondRead: int)
    requires t != 0 && !IsTruthy(Find(items, InstallDate))
    ensures ComputeStats(Installed(items, t), firstRead, secondRead) == Stats(0, (secondRead - t) / MsPerDay)
  {
  }

  /** Once an install date is stored, the day count never goes down as time
      passes, whatever the first clock read of either popup opening. */
  lemma DaysActiveMonotone(items: map<string, int>, a1: int, a2: int, b1: int, b2: int)
    requires IsTruthy(Find(items, InstallDate)) && a2 <= b2
    ensures ComputeStats(items, a1, a2).daysActive <= ComputeStats(items, b1, b2).daysActive
  {
  }
}
