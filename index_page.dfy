/**
 * The page that owns the settings record: it loads the record from the
 * browser's storage slot once at mount, shows the setup wizard until a record
 * is present and the setup is marked complete, and otherwise shows the
 * dashboard; completing the wizard, editing a switch on the dashboard and
 * resetting write the slot and the two pieces of page state.
 */
module IndexPage {

  import opened Wrappers
  import opened SetupWizard
  import Dashboard

  /** The key of the one storage slot the application uses. */
  const StorageKey: string := "reel-to-tube-settings"

  /**
   * The text held in the slot, classified by what JSON.parse makes of it:
   * the empty string (falsy, never parsed), text that makes it throw, the
   * literal `null`, and the serialisation of a settings record. Serialising a
   * record and parsing it back is taken to give the same record.
   */
  datatype Stored = Blank | Unparseable | JsonNull | JsonRecord(record: AppSettings)

  /** `localStorage.getItem(StorageKey)`: no item, or an item with its text. */
  datatype Slot = NoItem | Item(text: Stored)

  /** What JSON.parse does with a non-empty text: throws, or yields `null` or a record. */
  datatype Parsed = ParseThrew | ParsedValue(value: Option<AppSettings>)

  function Parse(t: Stored): (p: Parsed)
    requires t != Blank
    ensures p.ParseThrew? <==> t == Unparseable
    ensures p.ParsedValue? && p.value.Some? <==> t.JsonRecord?
    ensures t.JsonRecord? ==> p == ParsedValue(Some(t.record))
  {
    match t
    case Unparseable => ParseThrew
    case JsonNull => ParsedValue(None)
    case JsonRecord(r) => ParsedValue(Some(r))
  }

  /** `if (savedSettings)`: a missing item and the empty string are both falsy. */
  predicate Truthy(slot: Slot) {
    slot.Item? && slot.text != Blank
  }

  /** The slot as `setItem(StorageKey, JSON.stringify(s))` leaves it. */
  function Saved(s: AppSettings): Slot {
    Item(JsonRecord(s))
  }

  /** The page's two pieces of React state together with the storage slot. */
  datatype IndexState = IndexState(isSetupComplete: bool, settings: Option<AppSettings>, slot: Slot)

  /** The page state on first render, before the load effect, over whatever the slot holds. */
  function Fresh(slot: Slot): IndexState {
    IndexState(false, None, slot)
  }

  /** What the page shows. */
  datatype Page = WizardPage | DashboardPage(settings: AppSettings)

  /** The wizard unless the setup is complete and a record is held; otherwise the dashboard over that record. */
  function PageOf(st: IndexState): (p: Page)
    ensures p.WizardPage? <==> !st.isSetupComplete || st.settings.None?
    ensures p.DashboardPage? ==> st.settings == Some(p.settings)
  {
    if !st.isSetupComplete || st.settings.None? then WizardPage else DashboardPage(st.settings.value)
  }

  /**
   * The load effect: a truthy slot is parsed; a parse that throws removes the
   * item, otherwise whatever was parsed becomes `settings` and the setup is
   * marked complete, with no check on what it holds.
   */
  function LoadSaved(st: IndexState): (r: IndexState)
    ensures r.slot == st.slot || (st.slot == Item(Unparseable) && r.slot == NoItem)
    ensures st.isSetupComplete ==> r.isSetupComplete
    ensures r.isSetupComplete && !st.isSetupComplete ==> st.slot.Item? && (st.slot.text == JsonNull || st.slot.text.JsonRecord?)
  {
    if Truthy(st.slot) then
      match Parse(st.slot.text)
      case ParseThrew => st.(slot := NoItem)
      case ParsedValue(v) => st.(settings := v, isSetupComplete := true)
    else
      st
  }

  /** The page as it stands after being opened over `slot`. */
  function Mount(slot: Slot): IndexState {
    LoadSaved(Fresh(slot))
  }

  /** `handleSetupComplete`: the record is held, the setup is complete, and the slot holds the record. */
  function SetupComplete(st: IndexState, s: AppSettings): (r: IndexState)
    ensures PageOf(r) == DashboardPage(s)
    ensures r.slot == Saved(s)
  {
    IndexState(true, Some(s), Saved(s))
  }

  /** `handleSettingsChange`: the whole record replaces both `settings` and the slot's content. */
  function SettingsChange(st: IndexState, s: AppSettings): (r: IndexState)
    ensures r.isSetupComplete == st.isSetupComplete
    ensures r.settings == Some(s) && r.slot == Saved(s)
  {
    st.(settings := Some(s), slot := Saved(s))
  }

  /** `handleReset`: the item is removed, `settings` is null and the setup is not complete. */
  function Reset(st: IndexState): (r: IndexState)
    ensures r == Fresh(NoItem)
    ensures PageOf(r) == WizardPage
  {
    IndexState(false, None, NoItem)
  }

  /** Opening the page has one of three outcomes, decided by the slot alone. */
  lemma LoadOutcomes(slot: Slot)
    ensures !Truthy(slot) ==> Mount(slot) == Fresh(slot)
    ensures slot == Item(Unparseable) ==> Mount(slot) == Fresh(NoItem)
    ensures slot == Item(JsonNull) ==> Mount(slot) == IndexState(true, None, slot)
    ensures slot.Item? && slot.text.JsonRecord? ==> Mount(slot) == IndexState(true, Some(slot.text.record), slot)
  {
  }

  /** Right after opening, the dashboard is shown exactly when the slot held a record. */
  lemma DashboardOnMountIffRecordStored(slot: Slot)
    ensures PageOf(Mount(slot)).DashboardPage? <==> slot.Item? && slot.text.JsonRecord?
    ensures slot.Item? && slot.text.JsonRecord? ==> PageOf(Mount(slot)) == DashboardPage(slot.text.record)
  {
    LoadOutcomes(slot);
  }

  /** A stored record is not validated: one with an empty username opens straight on the dashboard. */
  lemma EmptyUsernameOpensDashboard(s: AppSettings)
    requires s.instagramUsername == ""
    ensures PageOf(Mount(Saved(s))) == DashboardPage(s)
  {
  }

  /** A stored `null` marks the setup complete and still shows the wizard. */
  lemma StoredNullShowsWizard()
    ensures Mount(Item(JsonNull)).isSetupComplete
    ensures PageOf(Mount(Item(JsonNull))) == WizardPage
  {
  }

  /** Completing the setup and opening the page again gives back the same record on the dashboard. */
  lemma SetupSurvivesReload(st: IndexState, s: AppSettings)
    ensures Mount(SetupComplete(st, s).slot) == SetupComplete(st, s)
  {
  }

  /** Reset is idempotent, and a page opened after it is unconfigured. */
  lemma ResetIsFinal(st: IndexState)
    ensures Reset(Reset(st)) == Reset(st)
    ensures Mount(Reset(st).slot) == Reset(st)
    ensures PageOf(Mount(Reset(st).slot)) == WizardPage
  {
  }

  /**
   * A dashboard switch changes that one toggle in the stored record and
   * nothing else: the three texts and the other toggles survive a reload.
   */
  lemma SwitchEditPersists(st: IndexState, sw: Dashboard.Switch, value: bool)
    requires PageOf(st).DashboardPage?
    ensures var r := Mount(SettingsChange(st, Dashboard.SettingChange(st.settings.value, sw, value)).slot);
      && r.settings.Some?
      && Get(r.settings.value, Dashboard.FieldOf(sw)) == Flag(value)
      && (forall g :: g != Dashboard.FieldOf(sw) ==> Get(r.settings.value, g) == Get(st.settings.value, g))
      && PageOf(r).DashboardPage?
  {
  }

  /**
   * What the user does on the page. The wizard's completion can only happen
   * while the wizard is shown, and the dashboard's switches and reset button
   * only while the dashboard is shown.
   */
  datatype PageEvent = WizardCompleted(record: AppSettings) | SettingsEdited(record: AppSettings) | ResetClicked

  function PageApply(st: IndexState, e: PageEvent): IndexState {
    match e
    case WizardCompleted(s) => if PageOf(st).WizardPage? then SetupComplete(st, s) else st
    case SettingsEdited(s) => if PageOf(st).DashboardPage? then SettingsChange(st, s) else st
    case ResetClicked => if PageOf(st).DashboardPage? then Reset(st) else st
  }

  function RunPage(st: IndexState, events: seq<PageEvent>): IndexState
    decreases |events|
  {
    if events == [] then st else RunPage(PageApply(st, events[0]), events[1..])
  }

  /** The page state is what opening the page over its own slot would produce. */
  predicate Coherent(st: IndexState) {
    Mount(st.slot) == st
  }

  lemma ApplyKeepsCoherent(st: IndexState, e: PageEvent)
    requires Coherent(st)
    ensures Coherent(PageApply(st, e))
  {
  }

  /**
   * Whatever the slot held when the page was opened and whatever the user did
   * since, reloading the page gives back the page as it stands: the slot
   * always agrees with the state in memory.
   */
  lemma {:induction false} ReloadIsFaithful(slot: Slot, events: seq<PageEvent>)
    ensures Mount(RunPage(Mount(slot), events).slot) == RunPage(Mount(slot), events)
  {
    LoadOutcomes(slot);
    assert Coherent(Mount(slot));
    RunKeepsCoherent(Mount(slot), events);
  }

  lemma {:induction false} RunKeepsCoherent(st: IndexState, events: seq<PageEvent>)
    requires Coherent(st)
    ensures Coherent(RunPage(st, events))
    decreases |events|
  {
    if events != [] {
      ApplyKeepsCoherent(st, events[0]);
      RunKeepsCoherent(PageApply(st, events[0]), events[1..]);
    }
  }

  /** The page component: its two state variables and the storage slot it reads and writes. */
  class IndexComponent {
    var isSetupComplete: bool
    var settings: Option<AppSettings>
    var slot: Slot

    function State(): IndexState
      reads this
    {
      IndexState(isSetupComplete, settings, slot)
    }

    /** First render over whatever the slot already holds. */
    constructor (saved: Slot)
      ensures State() == Fresh(saved)
    {
      isSetupComplete := false;
      settings := None;
      slot := saved;
    }

    /** The mount effect. */
    method LoadSavedSettings()
      modifies this
      ensures State() == LoadSaved(old(State()))
    {
      var savedSettings := slot;
      if savedSettings.Item? && savedSettings.text != Blank {
        var parsed := Parse(savedSettings.text);
        if parsed.ParseThrew? {
          slot := NoItem;
        } else {
          settings := parsed.value;
          isSetupComplete := true;
        }
      }
    }

    method HandleSetupComplete(newSettings: AppSettings)
      modifies this
      ensures State() == SetupComplete(old(State()), newSettings)
    {
      settings := Some(newSettings);
      isSetupComplete := true;
      slot := Saved(newSettings);
    }

    method HandleSettingsChange(updatedSettings: AppSettings)
      modifies this
      ensures State() == SettingsChange(old(State()), updatedSettings)
    {
      settings := Some(updatedSettings);
      slot := Saved(updatedSettings);
    }

    method HandleReset()
      modifies this
      ensures State() == Reset(old(State()))
    {
      slot := NoItem;
      settings := None;
      isSetupComplete := false;
    }
  }
}
