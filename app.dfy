/**
 * The video side of 01.DEV/main.py: the global `current_language` and
 * `current_loop_proc`, the choice of the loop and overlay files, the mpv
 * command lines, `handle_language_change`, and how the keyboard manager's
 * key presses reach them. Launching and stopping mpv are recorded as events.
 */
module App {
  import opened Wrappers
  import Config
  import Keyboard

  // ---------------------------------------------------------------------------
  // Video choice (start_loop, play_overlay)
  // ---------------------------------------------------------------------------

  /** The loop video `start_loop` plays for a language. */
  function LoopVideo(language: string): (path: string)
    requires language in Config.Videos
    ensures path == Config.VideoRoot + language + "/loop-video.mp4"
    ensures path != OnceVideo(language)
  {
    Config.VideosDistinct();
    Config.Videos[language].loop
  }

  /** The overlay video `play_overlay` plays for a language. */
  function OnceVideo(language: string): (path: string)
    requires language in Config.Videos
    ensures path == Config.VideoRoot + language + "/video-test.mp4"
  {
    Config.Videos[language].once
  }

  /** Different languages never share a loop or an overlay file. */
  lemma VideosPerLanguage(l1: string, l2: string)
    requires l1 in Config.Videos && l2 in Config.Videos && l1 != l2
    ensures LoopVideo(l1) != LoopVideo(l2) && OnceVideo(l1) != OnceVideo(l2)
  {
    Config.VideosDistinct();
  }

  /** The backward-compatible names of the settings are the default language's two files. */
  lemma LegacyNamesAreDefault()
    ensures Config.VideoLoop == LoopVideo(Config.DefaultLanguage) == Config.VideoRoot + "fr/loop-video.mp4"
    ensures Config.VideoOnce == OnceVideo(Config.DefaultLanguage) == Config.VideoRoot + "fr/video-test.mp4"
  {
  }

  // ---------------------------------------------------------------------------
  // mpv command lines
  // ---------------------------------------------------------------------------

  /** The two options that close both command lines. */
  const ClosingOptions: seq<string> := ["--input-default-bindings=no", "--no-input-terminal"]

  /**
   * The arguments of `start_loop` as written: the last three string literals
   * have no commas between them, so they form a single argument.
   */
  function LoopArgs(video: string): (args: seq<string>)
    ensures |args| == 18 && args[0] == "mpv" && args[1] == video
  {
    ["mpv", video,
     "--fs",
     "--loop=inf",
     "--mute",
     "--no-terminal",
     "--no-border",
     "--geometry=0:0",
     "--ontop=no",
     "--force-window=yes",
     "--wid=0",
     "--alpha=yes",
     "--loop-file=inf",
     "--keep-open=always",
     "--hr-seek=no",
     "--vf=format=rgba",
     "--no-keepaspect",
     "--deinterlace=no" + "--input-default-bindings=no" + "--no-input-terminal"]
  }

  /** The arguments of `start_loop` with the three options kept apart. */
  function IntendedLoopArgs(video: string): (args: seq<string>)
    ensures |args| == 20 && args[0] == "mpv" && args[1] == video
  {
    LoopArgs(video)[..17] + ["--deinterlace=no", "--input-default-bindings=no", "--no-input-terminal"]
  }

  /**
   * The arguments of `play_overlay` as written: as in `start_loop`, the last
   * three string literals form a single argument.
   */
  function OverlayArgs(video: string): (args: seq<string>)
    ensures |args| == 10 && args[0] == "mpv" && args[1] == video
  {
    ["mpv", video,
     "--fs",
     "--mute",
     "--no-terminal",
     "--ontop",
     "--no-border",
     "--geometry=0:0",
     "--alpha=yes",
     "--vf=format=rgba,fade=t=in:st=0:d=1,fade=t=out:st=5:d=1" + "--input-default-bindings=no" + "--no-input-terminal"]
  }

  /** The arguments of `play_overlay` with the three options kept apart. */
  function IntendedOverlayArgs(video: string): (args: seq<string>)
    ensures |args| == 12 && args[0] == "mpv" && args[1] == video
  {
    OverlayArgs(video)[..9] +
      ["--vf=format=rgba,fade=t=in:st=0:d=1,fade=t=out:st=5:d=1", "--input-default-bindings=no", "--no-input-terminal"]
  }

  /**
   * As written, the loop command line is the intended one with its last three
   * arguments glued into one, so mpv receives neither "--input-default-bindings=no"
   * nor "--no-input-terminal" nor "--deinterlace=no" as an argument.
   */
  lemma LoopArgsGlueLastOptions(video: string)
    ensures var args, intended := LoopArgs(video), IntendedLoopArgs(video);
      args[..17] == intended[..17] &&
      args[17] == intended[17] + intended[18] + intended[19] &&
      forall i :: 2 <= i < |args| ==>
        args[i] != "--deinterlace=no" && args[i] !in ClosingOptions
  {
  }

  /** The intended loop command line passes each of the three options as an argument of its own. */
  lemma IntendedLoopArgsSeparateOptions(video: string)
    ensures var args := IntendedLoopArgs(video);
      "--deinterlace=no" in args[2..] && forall o :: o in ClosingOptions ==> o in args[2..]
  {
    var args := IntendedLoopArgs(video);
    assert args[2..][15] == "--deinterlace=no";
    assert args[2..][16] == ClosingOptions[0] && args[2..][17] == ClosingOptions[1];
  }

  /**
   * As written, the overlay command line glues its filter option and the two
   * closing options into one argument, so mpv receives neither closing option.
   */
  lemma OverlayArgsGlueLastOptions(video: string)
    ensures var args, intended := OverlayArgs(video), IntendedOverlayArgs(video);
      args[..9] == intended[..9] &&
      args[9] == intended[9] + intended[10] + intended[11] &&
      forall i :: 2 <= i < |args| ==> args[i] !in ClosingOptions
  {
  }

  /** The intended overlay command line passes each closing option as an argument of its own. */
  lemma IntendedOverlayArgsSeparateOptions(video: string)
    ensures var args := IntendedOverlayArgs(video);
      forall o :: o in ClosingOptions ==> o in args[2..]
  {
    var args := IntendedOverlayArgs(video);
    assert args[2..][8] == ClosingOptions[0] && args[2..][9] == ClosingOptions[1];
  }

  // ---------------------------------------------------------------------------
  // Global state (current_language, current_loop_proc)
  // ---------------------------------------------------------------------------

  /** An mpv process started by `start_loop`, known by the video it loops. */
  datatype LoopProcess = LoopProcess(video: string)

  /** What the kiosk does to the screen. */
  datatype PlayerEvent =
    | LoopTerminated(video: string)  // the previous loop process is terminated
    | LoopLaunched(video: string, args: seq<string>)   // mpv is started with `args`, looping `video`
    | OverlayPlayed(video: string, args: seq<string>)  // mpv is run with `args`, playing `video` once to its end

  /** The events of `start_loop` when `previous` is the loop process it finds and `video` the one it starts. */
  function RestartEvents(previous: Option<LoopProcess>, video: string): (events: seq<PlayerEvent>)
    ensures |events| == if previous.Some? then 2 else 1
    ensures events[|events| - 1] == LoopLaunched(video, IntendedLoopArgs(video))
    ensures previous.Some? ==> events[0] == LoopTerminated(previous.value.video)
  {
    match previous
    case Some(proc) => [LoopTerminated(proc.video), LoopLaunched(video, IntendedLoopArgs(video))]
    case None => [LoopLaunched(video, IntendedLoopArgs(video))]
  }

  /** The module-level state of main.py. */
  class Kiosk {
    var currentLanguage: string
    var currentLoopProc: Option<LoopProcess>
    /** Everything played or stopped so far, oldest first. */
    ghost var events: seq<PlayerEvent>

    /** The language is a key of the video table and the running loop is that language's loop video. */
    ghost predicate Valid()
      reads this
    {
      currentLanguage in Config.Videos &&
      (currentLoopProc.Some? ==> currentLoopProc.value.video == LoopVideo(currentLanguage))
    }

    /** Module start: the default language and no loop process. */
    constructor ()
      ensures Valid() && currentLanguage == Config.DefaultLanguage
      ensures currentLoopProc == None && events == []
    {
      currentLanguage := Config.DefaultLanguage;
      currentLoopProc := None;
      events := [];
    }

    /**
     * `start_loop`: terminates the loop process if there is one, then starts
     * and returns a process looping the current language's loop video.
     */
    method StartLoop() returns (proc: LoopProcess)
      requires currentLanguage in Config.Videos
      modifies this
      ensures Valid() && currentLanguage == old(currentLanguage)
      ensures proc == LoopProcess(LoopVideo(currentLanguage)) && currentLoopProc == Some(proc)
      ensures events == old(events) + RestartEvents(old(currentLoopProc), LoopVideo(currentLanguage))
    {
      if currentLoopProc.Some? {
        events := events + [LoopTerminated(currentLoopProc.value.video)];
      }
      var loopVideo := Config.Videos[currentLanguage].loop;
      proc := LoopProcess(loopVideo);
      events := events + [LoopLaunched(loopVideo, IntendedLoopArgs(loopVideo))];
      currentLoopProc := Some(proc);
    }

    /** `play_overlay`: plays the current language's overlay video once; nothing else changes. */
    method PlayOverlay()
      requires Valid()
      modifies this`events
      ensures events == old(events) + [OverlayPlayed(OnceVideo(currentLanguage), IntendedOverlayArgs(OnceVideo(currentLanguage)))]
    {
      var video := Config.Videos[currentLanguage].once;
      events := events + [OverlayPlayed(video, IntendedOverlayArgs(video))];
    }

    /**
     * `handle_language_change`: switches the global language and restarts the
     * loop on the new language's loop video.
     */
    method HandleLanguageChange(newLanguage: string)
      requires newLanguage in Config.Videos
      modifies this
      ensures Valid() && currentLanguage == newLanguage
      ensures currentLoopProc == Some(LoopProcess(LoopVideo(newLanguage)))
      ensures events == old(events) + RestartEvents(old(currentLoopProc), LoopVideo(newLanguage))
    {
      currentLanguage := newLanguage;
      var _ := StartLoop();
    }
  }

  // ---------------------------------------------------------------------------
  // Key presses reaching the globals
  // ---------------------------------------------------------------------------

  /** The callback main.py registers with the keyboard manager. */
  const HandleLanguageChangeCallback: Keyboard.Callback := Keyboard.Callback("handle_language_change")

  /** The keyboard manager's fields together with main.py's global language. */
  datatype Session = Session(keyboard: Keyboard.KeyboardState, currentLanguage: string)

  /** Both languages agree, are a key of the video table, and main.py's callback is registered. */
  predicate InAgreement(s: Session) {
    s.keyboard.languageChangeCallback == Some(HandleLanguageChangeCallback) &&
    s.keyboard.currentLanguage == s.currentLanguage &&
    s.currentLanguage in Config.Videos
  }

  /** A key press: the manager reacts, and a call of main.py's callback sets the global language. */
  function SessionAfterKey(s: Session, key: string): Session {
    var o := Keyboard.AfterKey(s.keyboard, key);
    match o.effect
    case CallbackInvoked(callback, language) =>
      Session(o.state, if callback == HandleLanguageChangeCallback then language else s.currentLanguage)
    case _ => Session(o.state, s.currentLanguage)
  }

  /** A sequence of key presses, oldest first. */
  function SessionAfterKeys(s: Session, keys: seq<string>): Session
    decreases |keys|
  {
    if keys == [] then s
    else SessionAfterKey(SessionAfterKeys(s, keys[..|keys| - 1]), keys[|keys| - 1])
  }

  /** One key press keeps the two languages in agreement. */
  lemma KeyKeepsAgreement(s: Session, key: string)
    requires InAgreement(s)
    ensures InAgreement(SessionAfterKey(s, key))
  {
  }

  /** Any sequence of key presses keeps the two languages in agreement. */
  lemma {:induction false} KeysKeepAgreement(s: Session, keys: seq<string>)
    requires InAgreement(s)
    ensures InAgreement(SessionAfterKeys(s, keys))
    decreases |keys|
  {
    if keys != [] {
      KeysKeepAgreement(s, keys[..|keys| - 1]);
      KeyKeepsAgreement(SessionAfterKeys(s, keys[..|keys| - 1]), keys[|keys| - 1]);
    }
  }

  /**
   * Both languages start at the default, and once main.py has started the
   * manager with its callback they agree after every key press.
   */
  lemma LanguagesAgreeFromStartup(keys: seq<string>)
    ensures var started := Keyboard.AfterStart(Keyboard.InitialState(), Some(HandleLanguageChangeCallback));
      started.1 && InAgreement(SessionAfterKeys(Session(started.0, Config.DefaultLanguage), keys))
  {
    var started := Keyboard.AfterStart(Keyboard.InitialState(), Some(HandleLanguageChangeCallback));
    KeysKeepAgreement(Session(started.0, Config.DefaultLanguage), keys);
  }

  /**
   * The video the '0' key plays as written: the key handler imports
   * `play_overlay` from the module `main`, but main.py runs as the script
   * `__main__`, so the import loads a second copy whose `current_language`
   * still holds the default language, whatever language is active.
   */
  function ManualOverlayVideo(activeLanguage: string): (video: string)
    ensures video == OnceVideo(Config.DefaultLanguage)
  {
    Config.Videos[Config.DefaultLanguage].once
  }

  /** With English active, the '0' key as written plays the French overlay. */
  lemma ManualOverlayIgnoresLanguage()
    ensures "en" in Config.Videos && ManualOverlayVideo("en") != OnceVideo("en")
  {
    Config.VideosDistinct();
  }

  /**
   * One key press delivered to the keyboard manager, with main.py's
   * callback registered: a language switch runs `handle_language_change`,
   * '0' plays the overlay of the active language, and the two languages stay
   * in agreement.
   */
  method DeliverKey(keyboard: Keyboard.KeyboardManager, kiosk: Kiosk, key: string)
    returns (effect: Keyboard.KeyEffect)
    requires keyboard.Valid() && kiosk.Valid()
    requires InAgreement(Session(keyboard.State(), kiosk.currentLanguage))
    modifies keyboard, kiosk
    ensures keyboard.Valid() && kiosk.Valid()
    ensures Keyboard.KeyOutcome(keyboard.State(), effect) == Keyboard.AfterKey(old(keyboard.State()), key)
    ensures Session(keyboard.State(), kiosk.currentLanguage) ==
            SessionAfterKey(old(Session(keyboard.State(), kiosk.currentLanguage)), key)
    ensures InAgreement(Session(keyboard.State(), kiosk.currentLanguage))
    ensures keyboard.callbackCalls ==
      old(keyboard.callbackCalls) + if effect.CallbackInvoked? then [effect.language] else []
    ensures effect.CallbackInvoked? ==>
      kiosk.events == old(kiosk.events) + RestartEvents(old(kiosk.currentLoopProc), LoopVideo(effect.language)) &&
      kiosk.currentLoopProc == Some(LoopProcess(LoopVideo(effect.language)))
    ensures effect == Keyboard.OverlayRequested ==>
      kiosk.events == old(kiosk.events) + [OverlayPlayed(OnceVideo(kiosk.currentLanguage), IntendedOverlayArgs(OnceVideo(kiosk.currentLanguage)))] &&
      kiosk.currentLoopProc == old(kiosk.currentLoopProc)
    ensures !effect.CallbackInvoked? && effect != Keyboard.OverlayRequested ==>
      kiosk.events == old(kiosk.events) && kiosk.currentLoopProc == old(kiosk.currentLoopProc)
  {
    effect := keyboard.OnKey(key);
    match effect
    case CallbackInvoked(callback, language) =>
      if callback == HandleLanguageChangeCallback {
        kiosk.HandleLanguageChange(language);
      }
    case OverlayRequested =>
      kiosk.PlayOverlay();
    case _ =>
  }
}
