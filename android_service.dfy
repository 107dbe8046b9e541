/**
 * The background service: the title and description templates rendered with
 * `String.prototype.replace`, one firing of the five-minute polling interval
 * (fetch the latest reels, then download, upload and notify for each, inside
 * a single try/catch), the scripted YouTube upload, and start/stop.
 *
 * The platform calls are not modelled by their canned answers: a `Services`
 * value says what each call returns or whether it throws.
 */
module AndroidService {

  import opened Wrappers
  import SetupWizard

  const CaptionToken: string := SetupWizard.CaptionToken

  /** Where every reel is downloaded to. */
  const DownloadDir: string := "/storage/emulated/0/Download/"

  // ---------------------------------------------------------------------------
  // String.prototype.replace with a string pattern (ECMA-262, 2024 edition, section 22.1.3.19)

  /** `pat` occurs in `s` at index `i`. */
  predicate OccursAt(s: string, pat: string, i: nat) {
    i + |pat| <= |s| && s[i..i + |pat|] == pat
  }

  /** StringIndexOf(s, pat, from): the first occurrence of `pat` at or after `from`. */
  function IndexOf(s: string, pat: string, from: nat): (r: Option<nat>)
    ensures r.Some? ==> from <= r.value && OccursAt(s, pat, r.value)
    ensures r.Some? ==> forall j :: from <= j < r.value ==> !OccursAt(s, pat, j)
    ensures r.None? ==> forall j :: from <= j ==> !OccursAt(s, pat, j)
    decreases |s| - from
  {
    if from + |pat| > |s| then None
    else if s[from..from + |pat|] == pat then Some(from)
    else IndexOf(s, pat, from + 1)
  }

  /**
   * GetSubstitution (section 22.1.3.19.1) for a string pattern, which has no
   * captures and no named captures: `$$` gives `$`, `$&` the matched text,
   * `` $` `` the text before the match and `$'` the text after it. Any other
   * `$` (including `$1`..`$99` and `$<`, which refer to captures that do not
   * exist) stands for itself.
   */
  function Substitution(matched: string, str: string, position: nat, template: string): string
    requires position + |matched| <= |str|
    decreases |template|
  {
    if template == [] then []
    else if template[0] == '$' && |template| >= 2 && template[1] in "$&`'" then
      var rest := Substitution(matched, str, position, template[2..]);
      if template[1] == '$' then "$" + rest
      else if template[1] == '&' then matched + rest
      else if template[1] == '`' then str[..position] + rest
      else str[position + |matched|..] + rest
    else
      [template[0]] + Substitution(matched, str, position, template[1..])
  }

  /** `s.replace(pat, replacement)`: only the first occurrence of `pat` is replaced. */
  function ReplaceFirst(s: string, pat: string, replacement: string): string {
    match IndexOf(s, pat, 0)
    case None => s
    case Some(p) => s[..p] + Substitution(pat, s, p, replacement) + s[p + |pat|..]
  }

  /** `template.replace("{instagram_caption}", caption)`. */
  function Render(template: string, caption: string): string {
    ReplaceFirst(template, CaptionToken, caption)
  }

  /** A replacement without `$` is inserted literally. */
  lemma {:induction false} SubstitutionLiteral(matched: string, str: string, position: nat, template: string)
    requires position + |matched| <= |str|
    requires '$' !in template
    ensures Substitution(matched, str, position, template) == template
    decreases |template|
  {
    if template != [] {
      assert template[0] in template;
      assert forall c :: c in template[1..] ==> c in template;
      SubstitutionLiteral(matched, str, position, template[1..]);
      assert [template[0]] + template[1..] == template;
    }
  }

  /** A template without the token is returned unchanged. */
  lemma RenderWithoutToken(template: string, caption: string)
    requires forall j: nat :: !OccursAt(template, CaptionToken, j)
    ensures Render(template, caption) == template
  {
  }

  /** IndexOf finds exactly the first occurrence. */
  lemma IndexOfIsFirst(s: string, pat: string, p: nat)
    requires OccursAt(s, pat, p)
    requires forall j: nat :: j < p ==> !OccursAt(s, pat, j)
    ensures IndexOf(s, pat, 0) == Some(p)
  {
  }

  /**
   * With a caption free of `$`, rendering gives the text before the first
   * token, then the caption, then the text after that token.
   */
  lemma RenderSplicesCaption(template: string, caption: string, p: nat)
    requires OccursAt(template, CaptionToken, p)
    requires forall j: nat :: j < p ==> !OccursAt(template, CaptionToken, j)
    requires '$' !in caption
    ensures Render(template, caption) == template[..p] + caption + template[p + |CaptionToken|..]
  {
    IndexOfIsFirst(template, CaptionToken, p);
    SubstitutionLiteral(CaptionToken, template, p, caption);
  }

  /**
   * Only the first token is replaced: a later occurrence of the token is still
   * there after rendering, shifted by the change in length.
   */
  lemma RenderKeepsLaterTokens(template: string, caption: string, p: nat, q: nat)
    requires OccursAt(template, CaptionToken, p)
    requires forall j: nat :: j < p ==> !OccursAt(template, CaptionToken, j)
    requires OccursAt(template, CaptionToken, q) && q >= p + |CaptionToken|
    requires '$' !in caption
    ensures OccursAt(Render(template, caption), CaptionToken, q - |CaptionToken| + |caption|)
  {
    RenderSplicesCaption(template, caption, p);
    var n := |CaptionToken|;
    var head := template[..p] + caption;
    var tail := template[p + n..];
    var out := head + tail;
    assert Render(template, caption) == out;
    var q' := q - n + |caption|;
    assert |head| == p + |caption|;
    assert q' == |head| + (q - (p + n));
    assert out[q'..q' + n] == tail[q - (p + n)..q - p];
    assert tail[q - (p + n)..q - p] == template[q..q + n];
  }

  /** `$&` in a caption stands for the matched token: the caption "$&" renders the default title as the bare token. */
  lemma DollarAmpersandRestoresToken()
    ensures Render(CaptionToken, "$&") == CaptionToken
  {
  }

  /** No occurrence of the token starts inside a prefix without `{`. */
  lemma NoTokenInBraceFreePrefix(s: string, p: nat)
    requires p <= |s|
    requires '{' !in s[..p]
    ensures forall j: nat :: j < p ==> !OccursAt(s, CaptionToken, j)
  {
    forall j: nat | j < p
      ensures s[j] != '{'
    {
      assert s[..p][j] == s[j];
    }
    forall j: nat | j < p
      ensures !OccursAt(s, CaptionToken, j)
    {
      if j + |CaptionToken| <= |s| {
        assert s[j..j + |CaptionToken|][0] == s[j];
      }
    }
  }

  /** The wizard's default title renders to the caption itself. */
  lemma DefaultTitleRenders(caption: string)
    requires '$' !in caption
    ensures Render(SetupWizard.InitialSettings.youtubeTitle, caption) == caption
  {
    var n := |CaptionToken|;
    assert CaptionToken[0..n] == CaptionToken;
    RenderSplicesCaption(CaptionToken, caption, 0);
    assert CaptionToken[..0] == [] && CaptionToken[n..] == [];
  }

  /** The wizard's default description renders to the caption between its fixed header and hashtag. */
  lemma DefaultDescriptionRenders(caption: string)
    requires '$' !in caption
    ensures Render(SetupWizard.InitialSettings.youtubeDescription, caption)
         == "Shared from Instagram\n\n" + caption + "\n\n#shorts"
  {
    var n := |CaptionToken|;
    var head := "Shared from Instagram\n\n";
    var tail := "\n\n#shorts";
    var d := head + CaptionToken + tail;
    assert d == SetupWizard.InitialSettings.youtubeDescription;
    assert d[..|head|] == head;
    assert d[|head|..|head| + n] == CaptionToken;
    assert d[|head| + n..] == tail;
    assert '{' !in head;
    NoTokenInBraceFreePrefix(d, |head|);
    RenderSplicesCaption(d, caption, |head|);
  }

  // ---------------------------------------------------------------------------
  // One firing of the polling interval

  /** A fetched reel; `timestamp` is an ISO string, kept opaque. */
  datatype Reel = Reel(id: string, url: string, caption: string, timestamp: string)

  /** The settings `start` is given and each tick reads. */
  datatype ServiceConfig = ServiceConfig(instagramUsername: string, youtubeTitle: string, youtubeDescription: string)

  datatype FetchOutcome = FetchThrew | Fetched(success: bool, reels: seq<Reel>)
  datatype DownloadOutcome = DownloadThrew | Downloaded(success: bool, filePath: string)
  datatype UploadOutcome = UploadThrew | Uploaded(success: bool)
  datatype NotifyOutcome = NotifyThrew | Notified

  /**
   * What each platform call of one tick does, given its arguments and the
   * position of the reel it is made for: it returns a result or throws.
   */
  datatype Services = Services(
    fetch: string -> FetchOutcome,
    download: (nat, string, string) -> DownloadOutcome,
    upload: (nat, string, string, string) -> UploadOutcome,
    notify: nat -> NotifyOutcome)

  /** The platform calls a tick makes, in order. */
  datatype Event =
    | Fetch(username: string)
    | Download(url: string, destination: string)
    | Upload(filePath: string, title: string, description: string)
    | Notify

  /** The calls made, and whether the last of them threw. */
  datatype Run = Run(events: seq<Event>, threw: bool)

  /** The download call for the reel at position `i`. */
  function DownloadOf(svc: Services, reels: seq<Reel>, i: nat): DownloadOutcome
    requires i < |reels|
  {
    svc.download(i, reels[i].url, DownloadDir)
  }

  /** The upload call for the reel at position `i`, whose download returned `path`. */
  function UploadOf(cfg: ServiceConfig, svc: Services, reels: seq<Reel>, i: nat, path: string): UploadOutcome
    requires i < |reels|
  {
    svc.upload(i, path, Render(cfg.youtubeTitle, reels[i].caption), Render(cfg.youtubeDescription, reels[i].caption))
  }

  /**
   * The loop body for the reel at position `i`: download; if the download
   * reports success, upload with the rendered templates, then notify whatever
   * the upload reported. Processing stops at the first call that throws.
   */
  function ReelStep(cfg: ServiceConfig, svc: Services, reels: seq<Reel>, i: nat): Run
    requires i < |reels|
  {
    var reel := reels[i];
    var download := Download(reel.url, DownloadDir);
    match svc.download(i, reel.url, DownloadDir)
    case DownloadThrew => Run([download], true)
    case Downloaded(success, path) =>
      if !success then Run([download], false)
      else
        var title := Render(cfg.youtubeTitle, reel.caption);
        var description := Render(cfg.youtubeDescription, reel.caption);
        var upload := Upload(path, title, description);
        match svc.upload(i, path, title, description)
        case UploadThrew => Run([download, upload], true)
        case Uploaded(_) => Run([download, upload, Notify], svc.notify(i).NotifyThrew?)
  }

  /**
   * One reel's calls: its download first; an upload, with the downloaded file
   * and the rendered templates, exactly when the download reports success;
   * a notification exactly when the upload returns, whatever it reports.
   */
  lemma ReelStepShape(cfg: ServiceConfig, svc: Services, reels: seq<Reel>, i: nat)
    requires i < |reels|
    ensures var r, dl := ReelStep(cfg, svc, reels, i), DownloadOf(svc, reels, i);
      && 1 <= |r.events| <= 3
      && r.events[0] == Download(reels[i].url, DownloadDir)
      && (|r.events| >= 2 <==> dl.Downloaded? && dl.success)
      && (|r.events| >= 2 ==>
            r.events[1] == Upload(dl.filePath,
                                  Render(cfg.youtubeTitle, reels[i].caption),
                                  Render(cfg.youtubeDescription, reels[i].caption))
            && (|r.events| == 3 <==> UploadOf(cfg, svc, reels, i, dl.filePath).Uploaded?))
      && (|r.events| == 3 ==> r.events[2] == Notify)
      && (r.threw <==>
            if |r.events| == 1 then dl.DownloadThrew?
            else if |r.events| == 2 then true
            else svc.notify(i).NotifyThrew?)
  {
  }

  /** The run of each fetched reel's loop body, in array order. */
  function Steps(cfg: ServiceConfig, svc: Services, reels: seq<Reel>): (steps: seq<Run>)
    ensures |steps| == |reels|
    ensures forall j :: 0 <= j < |reels| ==> steps[j] == ReelStep(cfg, svc, reels, j)
  {
    seq(|reels|, j requires 0 <= j < |reels| => ReelStep(cfg, svc, reels, j))
  }

  /** The loop from position `i` on: the reels' runs one after another, left at the first throw. */
  function Loop(steps: seq<Run>, i: nat): Run
    requires i <= |steps|
    decreases |steps| - i
  {
    if i == |steps| then Run([], false)
    else if steps[i].threw then steps[i]
    else
      var rest := Loop(steps, i + 1);
      Run(steps[i].events + rest.events, rest.threw)
  }

  /**
   * The interval body. One try/catch surrounds the fetch and the whole loop,
   * so the first throw ends the tick; `threw` is the catch having run.
   */
  function TickSpec(cfg: ServiceConfig, svc: Services): Run {
    var fetch := Fetch(cfg.instagramUsername);
    match svc.fetch(cfg.instagramUsername)
    case FetchThrew => Run([fetch], true)
    case Fetched(_, reels) =>
      var r := Loop(Steps(cfg, svc, reels), 0);
      Run([fetch] + r.events, r.threw)
  }

  /** The first position at or after `i` whose run throws, or `|steps|`. */
  function FirstThrow(steps: seq<Run>, i: nat): (k: nat)
    requires i <= |steps|
    ensures i <= k <= |steps|
    ensures forall j :: i <= j < k ==> !steps[j].threw
    ensures k < |steps| ==> steps[k].threw
    decreases |steps| - i
  {
    if i == |steps| || steps[i].threw then i else FirstThrow(steps, i + 1)
  }

  /** The calls of the runs `i` to `n - 1`, each complete, in order. */
  function Blocks(steps: seq<Run>, i: nat, n: nat): seq<Event>
    requires i <= n <= |steps|
    decreases n - i
  {
    if i == n then [] else steps[i].events + Blocks(steps, i + 1, n)
  }

  /**
   * The loop goes through the runs in order, each one finished before the
   * next starts, and stops at the first run that throws: nothing of any later
   * run happens.
   */
  lemma {:induction false} LoopShape(steps: seq<Run>, i: nat)
    requires i <= |steps|
    ensures var k := FirstThrow(steps, i);
      Loop(steps, i)
      == if k < |steps| then Run(Blocks(steps, i, k) + steps[k].events, true)
         else Run(Blocks(steps, i, |steps|), false)
    decreases |steps| - i
  {
    if i < |steps| {
      if steps[i].threw {
        assert [] + steps[i].events == steps[i].events;
      } else {
        LoopShape(steps, i + 1);
        var k := FirstThrow(steps, i + 1);
        assert Blocks(steps, i, k) == steps[i].events + Blocks(steps, i + 1, k);
        if k < |steps| {
          assert steps[i].events + (Blocks(steps, i + 1, k) + steps[k].events)
              == (steps[i].events + Blocks(steps, i + 1, k)) + steps[k].events;
        }
      }
    }
  }

  /** A tick whose fetch throws or finds no reel makes no download, upload or notification. */
  lemma NothingFetchedNothingDone(cfg: ServiceConfig, svc: Services)
    requires svc.fetch(cfg.instagramUsername).FetchThrew? || svc.fetch(cfg.instagramUsername).reels == []
    ensures TickSpec(cfg, svc).events == [Fetch(cfg.instagramUsername)]
    ensures TickSpec(cfg, svc).threw <==> svc.fetch(cfg.instagramUsername).FetchThrew?
  {
  }

  /** When no reel's processing throws, every fetched reel is processed completely, in array order. */
  lemma TickProcessesEveryReel(cfg: ServiceConfig, svc: Services, reels: seq<Reel>)
    requires svc.fetch(cfg.instagramUsername).Fetched? && svc.fetch(cfg.instagramUsername).reels == reels
    requires forall j :: 0 <= j < |reels| ==> !ReelStep(cfg, svc, reels, j).threw
    ensures TickSpec(cfg, svc)
         == Run([Fetch(cfg.instagramUsername)] + Blocks(Steps(cfg, svc, reels), 0, |reels|), false)
  {
    var steps := Steps(cfg, svc, reels);
    LoopShape(steps, 0);
    assert FirstThrow(steps, 0) == |reels|;
  }

  /**
   * A throw while processing reel `k` is swallowed by the one catch around
   * the loop, and every later reel is skipped.
   */
  lemma TickStopsAtFirstThrow(cfg: ServiceConfig, svc: Services, reels: seq<Reel>, k: nat)
    requires svc.fetch(cfg.instagramUsername).Fetched? && svc.fetch(cfg.instagramUsername).reels == reels
    requires k < |reels| && ReelStep(cfg, svc, reels, k).threw
    requires forall j :: 0 <= j < k ==> !ReelStep(cfg, svc, reels, j).threw
    ensures TickSpec(cfg, svc)
         == Run([Fetch(cfg.instagramUsername)] + Blocks(Steps(cfg, svc, reels), 0, k)
                + ReelStep(cfg, svc, reels, k).events, true)
  {
    var steps := Steps(cfg, svc, reels);
    LoopShape(steps, 0);
    assert FirstThrow(steps, 0) == k;
  }

  /**
   * Two reels: the first reel's download throws and the second's would
   * succeed; the second reel is never downloaded or uploaded.
   */
  lemma ThrownDownloadSkipsLaterReels(cfg: ServiceConfig, svc: Services, a: Reel, b: Reel)
    requires svc.fetch(cfg.instagramUsername) == Fetched(true, [a, b])
    requires svc.download(0, a.url, DownloadDir) == DownloadThrew
    ensures TickSpec(cfg, svc) == Run([Fetch(cfg.instagramUsername), Download(a.url, DownloadDir)], true)
    ensures forall e :: e in TickSpec(cfg, svc).events ==> !e.Upload?
  {
  }

  /** A download that returns without success only skips its own reel: the loop goes on. */
  lemma FailedDownloadContinues(cfg: ServiceConfig, svc: Services, reels: seq<Reel>, i: nat)
    requires i < |reels|
    requires DownloadOf(svc, reels, i).Downloaded? && !DownloadOf(svc, reels, i).success
    ensures var steps := Steps(cfg, svc, reels);
      Loop(steps, i) == Run([Download(reels[i].url, DownloadDir)] + Loop(steps, i + 1).events, Loop(steps, i + 1).threw)
  {
  }

  /** The fetch's `success` flag is never read; only its reels matter. */
  lemma FetchSuccessIgnored(cfg: ServiceConfig, svc: Services, reels: seq<Reel>, b: bool, b': bool)
    requires svc.fetch(cfg.instagramUsername) == Fetched(b, reels)
    ensures TickSpec(cfg, svc) == TickSpec(cfg, svc.(fetch := (u: string) => Fetched(b', reels)))
  {
    var svc' := svc.(fetch := (u: string) => Fetched(b', reels));
    forall j | 0 <= j < |reels|
      ensures ReelStep(cfg, svc', reels, j) == ReelStep(cfg, svc, reels, j)
    {
    }
    assert Steps(cfg, svc', reels) == Steps(cfg, svc, reels);
  }

  /** The loop body for the reel at position `i`: the calls it makes and whether one of them threw. */
  method ProcessReel(cfg: ServiceConfig, svc: Services, reels: seq<Reel>, i: nat) returns (calls: seq<Event>, threw: bool)
    requires i < |reels|
    ensures Run(calls, threw) == ReelStep(cfg, svc, reels, i)
  {
    var reel := reels[i];
    calls := [Download(reel.url, DownloadDir)];
    threw := false;
    var downloadResult := svc.download(i, reel.url, DownloadDir);
    if downloadResult.DownloadThrew? {
      threw := true;
    } else if downloadResult.success {
      var youtubeTitle := Render(cfg.youtubeTitle, reel.caption);
      var youtubeDescription := Render(cfg.youtubeDescription, reel.caption);
      calls := calls + [Upload(downloadResult.filePath, youtubeTitle, youtubeDescription)];
      var uploadResult := svc.upload(i, downloadResult.filePath, youtubeTitle, youtubeDescription);
      if uploadResult.UploadThrew? {
        threw := true;
      } else {
        calls := calls + [Notify];
        var notifyResult := svc.notify(i);
        threw := notifyResult.NotifyThrew?;
      }
    }
  }

  /**
   * The interval body as the source runs it: a loop over the fetched reels
   * inside one try/catch; `caught` is the catch having run.
   */
  method Tick(cfg: ServiceConfig, svc: Services) returns (events: seq<Event>, caught: bool)
    ensures Run(events, caught) == TickSpec(cfg, svc)
  {
    events := [Fetch(cfg.instagramUsername)];
    caught := false;
    var reelsData := svc.fetch(cfg.instagramUsername);
    if reelsData.FetchThrew? {
      caught := true;
      return;
    }
    var reels := reelsData.reels;
    ghost var steps := Steps(cfg, svc, reels);
    ghost var spec := TickSpec(cfg, svc);
    assert spec == Run(events + Loop(steps, 0).events, Loop(steps, 0).threw);
    var i := 0;
    while i < |reels| && !caught
      invariant 0 <= i <= |reels|
      invariant !caught ==> spec == Run(events + Loop(steps, i).events, Loop(steps, i).threw)
      invariant caught ==> spec == Run(events, true)
    {
      var calls, threw := ProcessReel(cfg, svc, reels, i);
      assert steps[i] == Run(calls, threw);
      if !threw {
        assert (events + calls) + Loop(steps, i + 1).events == events + Loop(steps, i).events;
      }
      events := events + calls;
      caught := threw;
      i := i + 1;
    }
    if !caught {
      assert events + [] == events;
    }
  }

  // ---------------------------------------------------------------------------
  // The scripted upload

  datatype Reply = Reply(success: bool, message: string)

  /** The eleven accessibility actions of an upload, in order. */
  function UploadSteps(videoPath: string, title: string, description: string): (steps: seq<string>)
    ensures |steps| == 11
  {
    [ "1. Opening YouTube app",
      "2. Clicking + Create button",
      "3. Selecting 'Upload a video'",
      "4. Selecting file from storage",
      "5. Finding file: " + videoPath,
      "6. Setting title: " + title,
      "7. Setting description: " + description,
      "8. Clicking 'NEXT'",
      "9. Selecting visibility: 'Shorts'",
      "10. Clicking 'UPLOAD'",
      "11. Waiting for upload to complete" ]
  }

  /** The script names the file, the title and the description: different uploads give different scripts. */
  lemma UploadStepsDetermineArguments(p: string, t: string, d: string, p': string, t': string, d': string)
    requires UploadSteps(p, t, d) == UploadSteps(p', t', d')
    ensures p == p' && t == t' && d == d'
  {
    var a, b := UploadSteps(p, t, d), UploadSteps(p', t', d');
    assert a[4] == b[4] && a[5] == b[5] && a[6] == b[6];
    assert p == a[4][|"5. Finding file: "|..] && p' == b[4][|"5. Finding file: "|..];
    assert t == a[5][|"6. Setting title: "|..] && t' == b[5][|"6. Setting title: "|..];
    assert d == a[6][|"7. Setting description: "|..] && d' == b[6][|"7. Setting description: "|..];
  }

  const UploadHeader: string := "[ANDROID SERVICE] Uploading video to YouTube: "
  const StepPrefix: string := "[ACCESSIBILITY SERVICE] "

  /** `youtubeService.uploadVideo`: logs the title, then each of the eleven steps, and reports success. */
  method UploadVideo(videoPath: string, title: string, description: string) returns (log: seq<string>, reply: Reply)
    ensures |log| == 12
    ensures log[0] == UploadHeader + title
    ensures forall k :: 0 <= k < 11 ==> log[k + 1] == StepPrefix + UploadSteps(videoPath, title, description)[k]
    ensures reply == Reply(true, "Video uploaded successfully")
  {
    log := [UploadHeader + title];
    var steps := UploadSteps(videoPath, title, description);
    for i := 0 to |steps|
      invariant |log| == i + 1
      invariant log[0] == UploadHeader + title
      invariant forall k :: 0 <= k < i ==> log[k + 1] == StepPrefix + steps[k]
    {
      log := log + [StepPrefix + steps[i]];
    }
    reply := Reply(true, "Video uploaded successfully");
  }

  // ---------------------------------------------------------------------------
  // start and stop

  /** The host's timers: one interval per successful `start`, each holding a copy of the settings value `start` was given. */
  class IntervalRegistry {
    var intervals: seq<ServiceConfig>

    constructor ()
      ensures intervals == []
    {
      intervals := [];
    }
  }

  datatype MonitorOutcome = MonitorThrew | Monitoring(success: bool)

  /**
   * `backgroundService.start`: awaits the account monitor, then schedules a
   * new interval. A throw from the monitor rejects the call before anything
   * is scheduled; its `success` flag is not read. `None` is the rejection.
   */
  method Start(timers: IntervalRegistry, cfg: ServiceConfig, monitor: MonitorOutcome) returns (r: Option<Reply>)
    modifies timers
    ensures monitor.MonitorThrew? ==> r == None && timers.intervals == old(timers.intervals)
    ensures monitor.Monitoring? ==>
      r == Some(Reply(true, "Background service started successfully"))
      && timers.intervals == old(timers.intervals) + [cfg]
  {
    if monitor.MonitorThrew? {
      return None;
    }
    timers.intervals := timers.intervals + [cfg];
    r := Some(Reply(true, "Background service started successfully"));
  }

  /** `backgroundService.stop`: reports success but keeps no interval handle, so every interval keeps ticking. */
  method Stop(timers: IntervalRegistry) returns (r: Reply)
    ensures r == Reply(true, "Background service stopped successfully")
    ensures unchanged(timers)
  {
    r := Reply(true, "Background service stopped successfully");
  }
}
