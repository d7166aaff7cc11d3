/**
 * The keyboard language selector of 01.DEV/keyboard.py: `KeyboardManager`
 * keeps the active language, whether it is listening, the registered
 * language-change callback and its (invisible) window. Keys '1'..'4' select a
 * language, 'q' stops and interrupts the process, '0' asks for the overlay.
 */
module Keyboard {
  import opened Wrappers
  import Config

  /** The key table of the manager: '1'..'4' select fr, it, de, en. */
  const Languages: map<string, string> := map["1" := "fr", "2" := "it", "3" := "de", "4" := "en"]

  /** A registered language-change callback, known by its handle. */
  datatype Callback = Callback(name: string)

  /** The invisible window that receives the key presses. */
  datatype Window = InvisibleWindow

  /** The four fields of the manager. */
  datatype KeyboardState = KeyboardState(
    currentLanguage: string,
    running: bool,
    languageChangeCallback: Option<Callback>,
    tkRoot: Option<Window>)

  /** What a key press causes beyond the manager's own fields. */
  datatype KeyEffect =
    | NoEffect
    | CallbackInvoked(callback: Callback, language: string)  // the callback was called with `language`
    | OverlayRequested                                       // '0': the overlay is to be played
    | InterruptRequested                                     // 'q': SIGINT is sent to the process

  datatype KeyOutcome = KeyOutcome(state: KeyboardState, effect: KeyEffect)

  /** The manager's state after construction. */
  function InitialState(): (s: KeyboardState)
    ensures s.currentLanguage == Config.DefaultLanguage && s.currentLanguage in Config.Videos
    ensures !s.running && s.languageChangeCallback == None && s.tkRoot == None
  {
    KeyboardState(Config.DefaultLanguage, false, None, None)
  }

  /** The language a key selects, if any. */
  function LanguageForKey(key: string): (r: Option<string>)
    ensures r.Some? <==> key in {"1", "2", "3", "4"}
    ensures r.Some? ==> r.value in Config.Videos
    ensures key == "1" ==> r == Some("fr")
    ensures key == "2" ==> r == Some("it")
    ensures key == "3" ==> r == Some("de")
    ensures key == "4" ==> r == Some("en")
  {
    if key in Languages then Some(Languages[key]) else None
  }

  /** Every language of the video table is selected by exactly one key. */
  lemma {:induction false} EachLanguageHasOneKey(lang: string)
    requires lang in Config.Videos
    ensures exists key :: LanguageForKey(key) == Some(lang)
    ensures forall k1, k2 :: LanguageForKey(k1) == Some(lang) && LanguageForKey(k2) == Some(lang) ==> k1 == k2
  {
    Config.VideosKeys();
    if lang == "fr" { assert LanguageForKey("1") == Some(lang); }
    else if lang == "it" { assert LanguageForKey("2") == Some(lang); }
    else if lang == "de" { assert LanguageForKey("3") == Some(lang); }
    else { assert LanguageForKey("4") == Some(lang); }
  }

  /** The French display name of a language code, or the code itself when it has none. */
  function LanguageName(code: string): (name: string)
    ensures code !in {"fr", "it", "de", "en"} ==> name == code
    ensures code == "fr" ==> name == "Français"
    ensures code == "it" ==> name == "Italien"
    ensures code == "de" ==> name == "Allemand"
    ensures code == "en" ==> name == "Anglais"
  {
    var names := map["fr" := "Français", "it" := "Italien", "de" := "Allemand", "en" := "Anglais"];
    if code in names then names[code] else code
  }

  /** Every language of the video table has a display name of its own. */
  lemma LanguageNamesDistinct()
    ensures forall l1, l2 :: l1 in Config.Videos && l2 in Config.Videos && l1 != l2 ==>
      LanguageName(l1) != LanguageName(l2)
    ensures forall l :: l in Config.Videos ==> LanguageName(l) != l
  {
    Config.VideosKeys();
  }

  /** `start`: refused while already running; otherwise registers the callback and opens the window. */
  function AfterStart(s: KeyboardState, callback: Option<Callback>): (r: (KeyboardState, bool))
    ensures s.running ==> r == (s, false)
    ensures !s.running ==> r.1 && r.0.running && r.0.languageChangeCallback == callback && r.0.tkRoot.Some?
    ensures r.0.currentLanguage == s.currentLanguage
  {
    if s.running then (s, false)
    else (s.(languageChangeCallback := callback, running := true, tkRoot := Some(InvisibleWindow)), true)
  }

  /** `stop`: not running and no window afterwards, whatever the state before; nothing else changes. */
  function AfterStop(s: KeyboardState): (r: KeyboardState)
    ensures !r.running && r.tkRoot == None
    ensures r.currentLanguage == s.currentLanguage && r.languageChangeCallback == s.languageChangeCallback
  {
    s.(running := false, tkRoot := None)
  }

  /** Stopping twice is the same as stopping once. */
  lemma StopIdempotent(s: KeyboardState)
    ensures AfterStop(AfterStop(s)) == AfterStop(s)
  {
  }

  /** `_on_key`: the manager's reaction to one key press. */
  function AfterKey(s: KeyboardState, key: string): (r: KeyOutcome)
    ensures s.currentLanguage in Config.Videos ==> r.state.currentLanguage in Config.Videos
    ensures r.state.languageChangeCallback == s.languageChangeCallback
    ensures r.effect.CallbackInvoked? <==>
      r.state.currentLanguage != s.currentLanguage && s.languageChangeCallback.Some?
    ensures r.effect.CallbackInvoked? ==> r.effect.language == r.state.currentLanguage
  {
    var selected := LanguageForKey(key);
    if selected.Some? then
      var newLanguage := selected.value;
      if newLanguage != s.currentLanguage && newLanguage in Config.Videos then
        KeyOutcome(s.(currentLanguage := newLanguage),
                   match s.languageChangeCallback
                   case Some(callback) => CallbackInvoked(callback, newLanguage)
                   case None => NoEffect)
      else
        KeyOutcome(s, NoEffect)
    else if key == "q" then
      KeyOutcome(AfterStop(s), InterruptRequested)
    else if key == "0" then
      KeyOutcome(s, OverlayRequested)
    else
      KeyOutcome(s, NoEffect)
  }

  /**
   * A key for a language other than the active one switches to it, changes no
   * other field, and calls the registered callback once with that language.
   */
  lemma LanguageKeySwitches(s: KeyboardState, key: string, lang: string)
    requires LanguageForKey(key) == Some(lang) && lang != s.currentLanguage
    ensures AfterKey(s, key).state == s.(currentLanguage := lang)
    ensures s.languageChangeCallback.Some? ==>
      AfterKey(s, key).effect == CallbackInvoked(s.languageChangeCallback.value, lang)
    ensures s.languageChangeCallback.None? ==> AfterKey(s, key).effect == NoEffect
  {
  }

  /** A key for the language already active changes nothing and calls nothing. */
  lemma ActiveLanguageKeyIsNoOp(s: KeyboardState, key: string)
    requires LanguageForKey(key) == Some(s.currentLanguage)
    ensures AfterKey(s, key) == KeyOutcome(s, NoEffect)
  {
  }

  /** 'q' stops the manager and interrupts the process; the language and callback stay. */
  lemma QuitKeyStops(s: KeyboardState)
    ensures AfterKey(s, "q") == KeyOutcome(AfterStop(s), InterruptRequested)
  {
  }

  /** '0' only asks for the overlay; every field stays. */
  lemma OverlayKeyKeepsState(s: KeyboardState)
    ensures AfterKey(s, "0") == KeyOutcome(s, OverlayRequested)
  {
  }

  /** Any key other than '1'..'4', 'q' and '0' changes nothing and calls nothing. */
  lemma OtherKeysIgnored(s: KeyboardState, key: string)
    requires key !in {"1", "2", "3", "4", "q", "0"}
    ensures AfterKey(s, key) == KeyOutcome(s, NoEffect)
  {
  }

  /** The state and the callback arguments after a sequence of key presses. */
  function AfterKeys(s: KeyboardState, keys: seq<string>): (KeyboardState, seq<string>)
    decreases |keys|
  {
    if keys == [] then (s, [])
    else
      var prev := AfterKeys(s, keys[..|keys| - 1]);
      var o := AfterKey(prev.0, keys[|keys| - 1]);
      (o.state, prev.1 + if o.effect.CallbackInvoked? then [o.effect.language] else [])
  }

  /**
   * Over any sequence of key presses with a callback registered: the active
   * language stays a key of the video table; the callback is called at most
   * once per key, never twice in a row with the same language, never with the
   * language that was active before, and its last argument is the active
   * language.
   */
  lemma {:induction false} CallbackCallsTrackLanguage(s: KeyboardState, keys: seq<string>)
    requires s.currentLanguage in Config.Videos && s.languageChangeCallback.Some?
    ensures var (t, calls) := AfterKeys(s, keys);
      t.currentLanguage in Config.Videos &&
      |calls| <= |keys| &&
      t.languageChangeCallback == s.languageChangeCallback &&
      (calls == [] ==> t.currentLanguage == s.currentLanguage) &&
      (calls != [] ==> calls[0] != s.currentLanguage && calls[|calls| - 1] == t.currentLanguage) &&
      (forall i :: 0 < i < |calls| ==> calls[i] != calls[i - 1])
    decreases |keys|
  {
    if keys != [] {
      var init := keys[..|keys| - 1];
      CallbackCallsTrackLanguage(s, init);
      var prev := AfterKeys(s, init);
      var o := AfterKey(prev.0, keys[|keys| - 1]);
      if o.effect.CallbackInvoked? {
        assert o.effect.language != prev.0.currentLanguage;
        var calls := prev.1 + [o.effect.language];
        assert prev.1 != [] ==> calls[|prev.1| - 1] == prev.0.currentLanguage;
      }
    }
  }

  /** The keyboard manager, whose methods update its fields in place. */
  class KeyboardManager {
    var currentLanguage: string
    var running: bool
    var languageChangeCallback: Option<Callback>
    var tkRoot: Option<Window>
    /** The arguments of every call made to the language-change callback, oldest first. */
    ghost var callbackCalls: seq<string>

    function State(): KeyboardState
      reads this
    {
      KeyboardState(currentLanguage, running, languageChangeCallback, tkRoot)
    }

    /** The active language is always a key of the video table. */
    ghost predicate Valid()
      reads this
    {
      currentLanguage in Config.Videos
    }

    /** `__init__`: default language, not running, no callback, no window. */
    constructor ()
      ensures Valid() && State() == InitialState() && callbackCalls == []
    {
      currentLanguage := Config.DefaultLanguage;
      running := false;
      languageChangeCallback := None;
      tkRoot := None;
      callbackCalls := [];
    }

    /**
     * `start`: returns false and changes nothing while running; otherwise
     * registers the callback, marks the manager running and opens the window.
     */
    method Start(callback: Option<Callback>) returns (started: bool)
      requires Valid()
      modifies this
      ensures Valid() && (State(), started) == AfterStart(old(State()), callback)
      ensures callbackCalls == old(callbackCalls)
    {
      if running {
        return false;
      }
      languageChangeCallback := callback;
      running := true;
      tkRoot := Some(InvisibleWindow);
      started := true;
    }

    /** `stop`: not running and no window afterwards, whatever the state before. */
    method Stop()
      requires Valid()
      modifies this
      ensures Valid() && State() == AfterStop(old(State()))
      ensures callbackCalls == old(callbackCalls)
    {
      running := false;
      if tkRoot.Some? {
        tkRoot := None;
      }
    }

    /**
     * `_on_key`: reacts to one key press as AfterKey says, and records the
     * callback's argument exactly when the callback is called.
     */
    method OnKey(key: string) returns (effect: KeyEffect)
      requires Valid()
      modifies this
      ensures Valid() && KeyOutcome(State(), effect) == AfterKey(old(State()), key)
      ensures callbackCalls == old(callbackCalls) + if effect.CallbackInvoked? then [effect.language] else []
    {
      effect := NoEffect;
      var selected := LanguageForKey(key);
      if selected.Some? {
        var newLanguage := selected.value;
        if newLanguage != currentLanguage && newLanguage in Config.Videos {
          currentLanguage := newLanguage;
          if languageChangeCallback.Some? {
            effect := CallbackInvoked(languageChangeCallback.value, newLanguage);
            callbackCalls := callbackCalls + [newLanguage];
          }
        }
      } else if key == "q" {
        Stop();
        effect := InterruptRequested;
      } else if key == "0" {
        effect := OverlayRequested;
      }
    }

    /** `get_current_language`. */
    method GetCurrentLanguage() returns (language: string)
      requires Valid()
      ensures language == currentLanguage && language in Config.Videos
    {
      language := currentLanguage;
    }
  }
}
