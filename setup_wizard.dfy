/**
 * The setup wizard: the settings record the whole application passes around,
 * the three-step form that fills it in, its Next button, its tab bar and its
 * field editor.
 */
module SetupWizard {

  import opened Wrappers

  /** The application's settings record. */
  datatype AppSettings = AppSettings(
    instagramUsername: string,
    youtubeTitle: string,
    youtubeDescription: string,
    startOnBoot: bool,
    batteryOptimized: bool,
    notifications: bool)

  /** The keys of the record. */
  datatype Field =
    | InstagramUsername
    | YoutubeTitle
    | YoutubeDescription
    | StartOnBoot
    | BatteryOptimized
    | Notifications

  /** A value written into a field: a string or a boolean. */
  datatype Value = Text(text: string) | Flag(flag: bool)

  predicate IsTextField(f: Field) {
    f == InstagramUsername || f == YoutubeTitle || f == YoutubeDescription
  }

  /** `v` has the type the record declares for `f`. */
  predicate Fits(f: Field, v: Value) {
    if IsTextField(f) then v.Text? else v.Flag?
  }

  /** The value of field `f` of `s`. */
  function Get(s: AppSettings, f: Field): (v: Value)
    ensures Fits(f, v)
  {
    match f
    case InstagramUsername => Text(s.instagramUsername)
    case YoutubeTitle => Text(s.youtubeTitle)
    case YoutubeDescription => Text(s.youtubeDescription)
    case StartOnBoot => Flag(s.startOnBoot)
    case BatteryOptimized => Flag(s.batteryOptimized)
    case Notifications => Flag(s.notifications)
  }

  /** The spread `{ ...s, [f]: v }`: field `f` becomes `v`, the other five keep their values. */
  function With(s: AppSettings, f: Field, v: Value): (r: AppSettings)
    requires Fits(f, v)
    ensures Get(r, f) == v
    ensures forall g :: g != f ==> Get(r, g) == Get(s, g)
  {
    match f
    case InstagramUsername => s.(instagramUsername := v.text)
    case YoutubeTitle => s.(youtubeTitle := v.text)
    case YoutubeDescription => s.(youtubeDescription := v.text)
    case StartOnBoot => s.(startOnBoot := v.flag)
    case BatteryOptimized => s.(batteryOptimized := v.flag)
    case Notifications => s.(notifications := v.flag)
  }

  /** A record is determined by its six fields. */
  lemma RecordIsItsFields(a: AppSettings, b: AppSettings)
    requires forall f :: Get(a, f) == Get(b, f)
    ensures a == b
  {
    assert Get(a, InstagramUsername) == Get(b, InstagramUsername);
    assert Get(a, YoutubeTitle) == Get(b, YoutubeTitle);
    assert Get(a, YoutubeDescription) == Get(b, YoutubeDescription);
    assert Get(a, StartOnBoot) == Get(b, StartOnBoot);
    assert Get(a, BatteryOptimized) == Get(b, BatteryOptimized);
    assert Get(a, Notifications) == Get(b, Notifications);
  }

  /** Writing back a field's own value changes nothing. */
  lemma WithOwnValue(s: AppSettings, f: Field)
    ensures With(s, f, Get(s, f)) == s
  {
  }

  /** Of two writes to the same field, the last one wins. */
  lemma WithLastWins(s: AppSettings, f: Field, v: Value, w: Value)
    requires Fits(f, v) && Fits(f, w)
    ensures With(With(s, f, v), f, w) == With(s, f, w)
  {
  }

  /** Writes to two different fields commute. */
  lemma WithCommutes(s: AppSettings, f: Field, v: Value, g: Field, w: Value)
    requires f != g && Fits(f, v) && Fits(g, w)
    ensures With(With(s, f, v), g, w) == With(With(s, g, w), f, v)
  {
  }

  // ---------------------------------------------------------------------------
  // The step machine

  /** The three tabs of the wizard, in order. */
  datatype Step = InstagramTab | YoutubeTab | SettingsTab

  function Rank(t: Step): nat {
    match t
    case InstagramTab => 0
    case YoutubeTab => 1
    case SettingsTab => 2
  }

  const CaptionToken: string := "{instagram_caption}"

  /** The record the wizard starts from. */
  const InitialSettings: AppSettings := AppSettings(
    "",
    CaptionToken,
    "Shared from Instagram\n\n" + CaptionToken + "\n\n#shorts",
    true,
    true,
    true)

  datatype WizardState = WizardState(step: Step, settings: AppSettings)

  const Initial: WizardState := WizardState(InstagramTab, InitialSettings)

  /** What a press of Next did: refused with a toast, moved one tab on, or handed the record to `onComplete`. */
  datatype NextOutcome = UsernameRequired | Advanced | Completed(record: AppSettings)

  /** The Next button. The only check is a non-empty username at the first tab. */
  function Next(w: WizardState): (r: (WizardState, NextOutcome))
    ensures r.0.settings == w.settings
    ensures r.1 == UsernameRequired <==> w.step == InstagramTab && w.settings.instagramUsername == ""
    ensures r.1 != Advanced ==> r.0 == w
    ensures r.1 == Advanced ==> Rank(r.0.step) == Rank(w.step) + 1
    ensures r.1.Completed? <==> w.step == SettingsTab
    ensures r.1.Completed? ==> r.1.record == w.settings
  {
    if w.step == InstagramTab && w.settings.instagramUsername == "" then
      (w, UsernameRequired)
    else
      match w.step
      case InstagramTab => (w.(step := YoutubeTab), Advanced)
      case YoutubeTab => (w.(step := SettingsTab), Advanced)
      case SettingsTab => (w, Completed(w.settings))
  }

  /** The trigger of tab `target` is not disabled while the wizard is at `current`. */
  predicate TabEnabled(current: Step, target: Step) {
    match target
    case InstagramTab => current == InstagramTab
    case YoutubeTab => current == YoutubeTab || current == InstagramTab
    case SettingsTab => current != InstagramTab
  }

  /** A tab can be reached from the current one exactly when it is the same tab or the next one. */
  lemma TabEnabledIffSameOrNext(current: Step, target: Step)
    ensures TabEnabled(current, target) <==> Rank(current) <= Rank(target) <= Rank(current) + 1
  {
  }

  /** A click on a tab trigger: an enabled one switches to its tab, a disabled one does nothing. */
  function AfterTabClick(w: WizardState, target: Step): WizardState {
    if TabEnabled(w.step, target) then w.(step := target) else w
  }

  /** `handleChange`. */
  function Change(w: WizardState, f: Field, v: Value): WizardState
    requires Fits(f, v)
  {
    w.(settings := With(w.settings, f, v))
  }

  /** The inputs rendered on each tab; only the active tab's content is mounted. */
  predicate Shown(t: Step, f: Field) {
    match t
    case InstagramTab => f == InstagramUsername
    case YoutubeTab => f == YoutubeTitle || f == YoutubeDescription
    case SettingsTab => !IsTextField(f)
  }

  /** A user gesture on the wizard. */
  datatype UiEvent = ClickNext | ClickTab(target: Step) | Edit(field: Field, value: Value)

  /**
   * The effect of one gesture, and the record it hands to `onComplete`, if any.
   * An edit of an input that is not on screen, or with a value of the wrong
   * type, cannot be made and leaves the state as it is.
   */
  function Apply(w: WizardState, e: UiEvent): (WizardState, Option<AppSettings>) {
    match e
    case ClickNext =>
      var (w', out) := Next(w);
      (w', if out.Completed? then Some(out.record) else None)
    case ClickTab(t) => (AfterTabClick(w, t), None)
    case Edit(f, v) => if Shown(w.step, f) && Fits(f, v) then (Change(w, f, v), None) else (w, None)
  }

  /** The state after a series of gestures and the records handed to `onComplete`, in order. */
  function Run(w: WizardState, events: seq<UiEvent>): (WizardState, seq<AppSettings>)
    decreases |events|
  {
    if events == [] then (w, [])
    else
      var (w1, c) := Apply(w, events[0]);
      var (w2, cs) := Run(w1, events[1..]);
      (w2, (if c.Some? then [c.value] else []) + cs)
  }

  /** Past the first tab, the username has been checked. */
  predicate UsernameGate(w: WizardState) {
    w.step != InstagramTab ==> w.settings.instagramUsername != ""
  }

  /** Every gesture but a click on the YouTube tab keeps the gate, and a record handed on has a username. */
  lemma ApplyKeepsGate(w: WizardState, e: UiEvent)
    requires UsernameGate(w)
    requires e != ClickTab(YoutubeTab)
    ensures UsernameGate(Apply(w, e).0)
    ensures Apply(w, e).1.Some? ==> Apply(w, e).1.value.instagramUsername != ""
  {
  }

  /**
   * Going through the tabs with the Next button (and any edits, and any tab
   * click except the YouTube tab), `onComplete` never receives an empty username.
   */
  lemma {:induction false} UsernameRequiredWithoutYoutubeTab(w: WizardState, events: seq<UiEvent>)
    requires UsernameGate(w)
    requires forall i :: 0 <= i < |events| ==> events[i] != ClickTab(YoutubeTab)
    ensures UsernameGate(Run(w, events).0)
    ensures forall r :: r in Run(w, events).1 ==> r.instagramUsername != ""
    decreases |events|
  {
    if events != [] {
      ApplyKeepsGate(w, events[0]);
      var (w1, c) := Apply(w, events[0]);
      UsernameRequiredWithoutYoutubeTab(w1, events[1..]);
    }
  }

  /**
   * The YouTube tab is enabled at the first tab, so clicking it skips the
   * username check: Next, Next then completes with the empty username.
   */
  lemma YoutubeTabBypassesUsernameCheck()
    ensures Run(Initial, [ClickTab(YoutubeTab), ClickNext, ClickNext])
         == (WizardState(SettingsTab, InitialSettings), [InitialSettings])
    ensures InitialSettings.instagramUsername == ""
  {
    var w1 := WizardState(YoutubeTab, InitialSettings);
    var w2 := WizardState(SettingsTab, InitialSettings);
    assert Apply(Initial, ClickTab(YoutubeTab)) == (w1, None);
    assert Apply(w1, ClickNext) == (w2, None);
    assert Apply(w2, ClickNext) == (w2, Some(InitialSettings));
    assert [ClickTab(YoutubeTab), ClickNext, ClickNext][1..] == [ClickNext, ClickNext];
    assert [ClickNext, ClickNext][1..] == [ClickNext];
    assert [ClickNext][1..] == [];
    assert Run(w2, []) == (w2, []);
    assert [InitialSettings] + [] == [InitialSettings] == [] + [InitialSettings];
    assert Run(w2, [ClickNext]) == (w2, [InitialSettings]);
    assert Run(w1, [ClickNext, ClickNext]) == (w2, [InitialSettings]);
  }

  /** No gesture moves the wizard to an earlier tab. */
  lemma ApplyNeverGoesBack(w: WizardState, e: UiEvent)
    ensures Rank(Apply(w, e).0.step) >= Rank(w.step)
  {
  }

  /** Once at the settings tab, the wizard stays there whatever the user does. */
  lemma {:induction false} SettingsTabIsFinal(w: WizardState, events: seq<UiEvent>)
    requires w.step == SettingsTab
    ensures Run(w, events).0.step == SettingsTab
    decreases |events|
  {
    if events != [] {
      ApplyNeverGoesBack(w, events[0]);
      SettingsTabIsFinal(Apply(w, events[0]).0, events[1..]);
    }
  }

  // ---------------------------------------------------------------------------
  // The component

  /** The wizard's React state: the current tab and the record being filled in. */
  class WizardComponent {
    var step: Step
    var settings: AppSettings

    function State(): WizardState
      reads this
    {
      WizardState(step, settings)
    }

    constructor ()
      ensures State() == Initial
    {
      step := InstagramTab;
      settings := InitialSettings;
    }

    /** `handleChange`: sets one field of the record. */
    method HandleChange(f: Field, v: Value)
      requires Fits(f, v)
      modifies this
      ensures State() == Change(old(State()), f, v)
      ensures step == old(step)
    {
      settings := With(settings, f, v);
    }

    /** `handleNext`: a `Completed` outcome is the call `onComplete(settings)`. */
    method HandleNext() returns (outcome: NextOutcome)
      modifies this
      ensures (State(), outcome) == Next(old(State()))
    {
      if step == InstagramTab && settings.instagramUsername == "" {
        return UsernameRequired;
      }
      if step == InstagramTab {
        step := YoutubeTab;
        outcome := Advanced;
      } else if step == YoutubeTab {
        step := SettingsTab;
        outcome := Advanced;
      } else {
        outcome := Completed(settings);
      }
    }

    /** A click on a tab trigger; `onValueChange` fires only when the trigger is enabled. */
    method HandleTabClick(target: Step) returns (accepted: bool)
      modifies this
      ensures accepted == TabEnabled(old(step), target)
      ensures State() == AfterTabClick(old(State()), target)
    {
      accepted := TabEnabled(step, target);
      if accepted {
        step := target;
      }
    }
  }
}
