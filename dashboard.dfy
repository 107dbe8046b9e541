/**
 * The dashboard shown once the application is configured: a running/stopped
 * switch for the service, a block of statistics whose last-check time a
 * one-minute interval refreshes, and three switches that edit the settings
 * record held by the page above it.
 */
module Dashboard {

  import opened SetupWizard

  /** The statistics block. `lastCheck` holds an ISO timestamp, kept opaque. */
  datatype Stats = Stats(lastCheck: string, videosDownloaded: int, videosUploaded: int, nextCheckIn: string)

  /** The dashboard's own React state. */
  datatype DashboardState = DashboardState(isRunning: bool, stats: Stats)

  /** The kind of toast the Start/Stop button raises. */
  datatype Toast = ServiceStopped | ServiceStarted

  const NextCheckIn: string := "5 minutes"

  /** The state on mount, with `now` the mount time. */
  function InitialDashboard(now: string): DashboardState {
    DashboardState(true, Stats(now, 0, 0, NextCheckIn))
  }

  /** `handleToggleService`: flips `isRunning`; the toast reports the state before the flip. */
  function Toggle(d: DashboardState): (r: (DashboardState, Toast))
    ensures r.0.isRunning == !d.isRunning
    ensures r.0.stats == d.stats
    ensures r.1 == ServiceStopped <==> d.isRunning
  {
    (d.(isRunning := !d.isRunning), if d.isRunning then ServiceStopped else ServiceStarted)
  }

  /** Two presses of Start/Stop give back the state before them. */
  lemma ToggleTwiceRestores(d: DashboardState)
    ensures Toggle(Toggle(d).0).0 == d
  {
  }

  /** The interval body: only `lastCheck` is rewritten. */
  function Refresh(d: DashboardState, now: string): (r: DashboardState)
    ensures r.isRunning == d.isRunning
    ensures r.stats.lastCheck == now
    ensures r.stats.videosDownloaded == d.stats.videosDownloaded
    ensures r.stats.videosUploaded == d.stats.videosUploaded
    ensures r.stats.nextCheckIn == d.stats.nextCheckIn
  {
    d.(stats := d.stats.(lastCheck := now))
  }

  /** The three switches on the dashboard, the only callers of `handleSettingChange`. */
  datatype Switch = StartOnBootSwitch | BatteryOptimizedSwitch | NotificationsSwitch

  function FieldOf(sw: Switch): (f: Field)
    ensures !IsTextField(f)
  {
    match sw
    case StartOnBootSwitch => StartOnBoot
    case BatteryOptimizedSwitch => BatteryOptimized
    case NotificationsSwitch => Notifications
  }

  /**
   * `handleSettingChange`: the record handed to `onSettingsChange` is the
   * current one with the switch's field replaced; since only switches call it,
   * the three string fields never change from the dashboard.
   */
  function SettingChange(settings: AppSettings, sw: Switch, value: bool): (r: AppSettings)
    ensures Get(r, FieldOf(sw)) == Flag(value)
    ensures forall g :: g != FieldOf(sw) ==> Get(r, g) == Get(settings, g)
    ensures r.instagramUsername == settings.instagramUsername
    ensures r.youtubeTitle == settings.youtubeTitle
    ensures r.youtubeDescription == settings.youtubeDescription
  {
    var r := With(settings, FieldOf(sw), Flag(value));
    assert Get(r, InstagramUsername) == Get(settings, InstagramUsername);
    assert Get(r, YoutubeTitle) == Get(settings, YoutubeTitle);
    assert Get(r, YoutubeDescription) == Get(settings, YoutubeDescription);
    r
  }

  /** What happens on the dashboard over time. */
  datatype DashboardEvent = ToggleClicked | IntervalElapsed(now: string) | SwitchChanged(sw: Switch, value: bool)

  /** A switch change hands a record upwards and leaves the dashboard's own state alone. */
  function DashboardStep(d: DashboardState, e: DashboardEvent): DashboardState {
    match e
    case ToggleClicked => Toggle(d).0
    case IntervalElapsed(now) => Refresh(d, now)
    case SwitchChanged(_, _) => d
  }

  function RunDashboard(d: DashboardState, events: seq<DashboardEvent>): DashboardState
    decreases |events|
  {
    if events == [] then d else RunDashboard(DashboardStep(d, events[0]), events[1..])
  }

  /** The number of presses of Start/Stop among `events`. */
  function Presses(events: seq<DashboardEvent>): nat
    decreases |events|
  {
    if events == [] then 0 else (if events[0] == ToggleClicked then 1 else 0) + Presses(events[1..])
  }

  /** The counters and the next-check text are never written by anything. */
  predicate CountersUntouched(d: DashboardState, initial: Stats) {
    d.stats.videosDownloaded == initial.videosDownloaded
    && d.stats.videosUploaded == initial.videosUploaded
    && d.stats.nextCheckIn == initial.nextCheckIn
  }

  /** From mount on, the download and upload counters stay 0 and the next check stays "5 minutes". */
  lemma {:induction false} CountersNeverChange(d: DashboardState, events: seq<DashboardEvent>)
    ensures CountersUntouched(RunDashboard(d, events), d.stats)
    decreases |events|
  {
    if events != [] {
      var d1 := DashboardStep(d, events[0]);
      CountersNeverChange(d1, events[1..]);
    }
  }

  /**
   * The service runs exactly when Start/Stop was pressed an even number of
   * times since mount: the interval and the switches never touch `isRunning`.
   */
  lemma {:induction false} RunningFollowsPresses(d: DashboardState, events: seq<DashboardEvent>)
    ensures RunDashboard(d, events).isRunning == (d.isRunning == (Presses(events) % 2 == 0))
    decreases |events|
  {
    if events != [] {
      RunningFollowsPresses(DashboardStep(d, events[0]), events[1..]);
    }
  }

  /** The dashboard component's state. */
  class DashboardComponent {
    var isRunning: bool
    var stats: Stats

    function State(): DashboardState
      reads this
    {
      DashboardState(isRunning, stats)
    }

    constructor (now: string)
      ensures State() == InitialDashboard(now)
    {
      isRunning := true;
      stats := Stats(now, 0, 0, NextCheckIn);
    }

    method HandleToggleService() returns (toast: Toast)
      modifies this
      ensures (State(), toast) == Toggle(old(State()))
    {
      toast := if isRunning then ServiceStopped else ServiceStarted;
      isRunning := !isRunning;
    }

    /** One firing of the one-minute interval, at time `now`. */
    method IntervalTick(now: string)
      modifies this
      ensures State() == Refresh(old(State()), now)
    {
      stats := stats.(lastCheck := now);
    }
  }
}
