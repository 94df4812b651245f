/**
 * The time-accounting state machine of devtrackr-plugin/src/extension.ts.
 *
 * The plugin keeps, in module-level variables, the time of the last input, the current
 * (language, file, folder) attribution and `startTime`, the start of the open interval
 * (0 meaning "no open interval"). Six events drive it: a text change, a change of active
 * editor, window blur, window focus, the 30-second save tick and `deactivate`. Durations are
 * persisted by `saveTimeLog` into the per-day store of module TimeLog.
 *
 * The clock (`Date.now()`), today's ISO date, the active editor and the tracked-extension list
 * are parameters. Each event is first given as a function on a `Tracking` snapshot; the class
 * `DevTrackr` holds the same state in mutable fields and its methods, written as the source
 * writes them, are proved to perform exactly those transitions.
 */
module Extension {
  import opened Wrappers
  import opened ActivityWatcher
  import opened TimeLog
  import opened Paths

  /** The tracked extensions used when the workspace has no tracked-extensions.json. */
  const DefaultTracked: seq<string> := [".ts", ".js", ".py", ".go"]

  /** An editor document: its language id and its file-system path (also its `fileName`). */
  datatype Document = Document(languageId: string, fsPath: string)

  /** The plugin's tracking variables together with the contents of time_data.json. */
  datatype Tracking = Tracking(lastActivity: int,
                               currentLang: Option<string>,
                               currentFile: Option<string>,
                               currentFolder: Option<string>,
                               startTime: int,
                               data: DailyStats)

  /** The state right after `activate`: nothing attributed, no open interval. */
  function Initial(now: int, stored: DailyStats): Tracking
  {
    Tracking(now, None, None, None, 0, stored)
  }

  /** `Math.floor((now - startTime) / 1000)`: whole seconds elapsed, rounded down. */
  function ElapsedSeconds(startTime: int, now: int): (secs: int)
    ensures secs * 1000 <= now - startTime < secs * 1000 + 1000
    ensures secs > 0 <==> now - startTime >= 1000
  {
    (now - startTime) / 1000
  }

  /** `currentLang && startTime > 0`: an interval is open and attributed to a language. */
  predicate HasOpenInterval(s: Tracking)
  {
    Truthy(s.currentLang) && s.startTime > 0
  }

  /** The store after saving the open interval's whole seconds, when it has any. */
  function CloseInterval(s: Tracking, now: int, today: string): (data: DailyStats)
    ensures !(HasOpenInterval(s) && ElapsedSeconds(s.startTime, now) > 0) ==> data == s.data
    ensures HasOpenInterval(s) && ElapsedSeconds(s.startTime, now) > 0 ==>
      Get(Day(data, today).languages, s.currentLang.value)
        == Get(Day(s.data, today).languages, s.currentLang.value) + ElapsedSeconds(s.startTime, now)
    ensures HasOpenInterval(s) && ElapsedSeconds(s.startTime, now) > 0 ==>
      data == SaveTimeLog(s.data, today, s.currentLang.value, s.currentFile, s.currentFolder, ElapsedSeconds(s.startTime, now))
    ensures StoreGrows(s.data, data)
  {
    if HasOpenInterval(s) && ElapsedSeconds(s.startTime, now) > 0 then
      var duration := ElapsedSeconds(s.startTime, now);
      SaveIsMonotone(s.data, today, s.currentLang.value, s.currentFile, s.currentFolder, duration);
      SaveTimeLog(s.data, today, s.currentLang.value, s.currentFile, s.currentFolder, duration)
    else
      s.data
  }

  /** The periodic save tick: a rolling checkpoint of the open interval when the user is not idle. */
  function Tick(s: Tracking, now: int, today: string): (r: Tracking)
    ensures r.lastActivity == s.lastActivity
    ensures (r.currentLang, r.currentFile, r.currentFolder) == (s.currentLang, s.currentFile, s.currentFolder)
    ensures Idle(s.lastActivity, now) || !HasOpenInterval(s) || ElapsedSeconds(s.startTime, now) <= 0 ==> r == s
    ensures !Idle(s.lastActivity, now) && HasOpenInterval(s) && ElapsedSeconds(s.startTime, now) > 0 ==>
      && r.startTime == now
      && r.data == SaveTimeLog(s.data, today, s.currentLang.value, s.currentFile, s.currentFolder, ElapsedSeconds(s.startTime, now))
  {
    if !Idle(s.lastActivity, now) && HasOpenInterval(s) && ElapsedSeconds(s.startTime, now) > 0 then
      s.(data := CloseInterval(s, now, today), startTime := now)
    else
      s
  }

  /**
   * `trackActivityChange`: ignored when the active editor's extension is not tracked; otherwise
   * the attribution becomes the new triple and a new interval starts now. The interval open so
   * far is not saved, and idleness makes no difference.
   */
  function TrackChange(s: Tracking, lang: string, file: string, folder: string,
                       activeExt: Option<string>, allowed: seq<string>, now: int): (r: Tracking)
    ensures r.lastActivity == s.lastActivity && r.data == s.data
    ensures activeExt.Some? && activeExt.value !in allowed ==> r == s
    ensures !(activeExt.Some? && activeExt.value !in allowed) ==>
      r.currentLang == Some(lang) && r.currentFile == Some(file) && r.currentFolder == Some(folder) && r.startTime == now
  {
    if activeExt.Some? && activeExt.value !in allowed then s
    else s.(currentLang := Some(lang), currentFile := Some(file), currentFolder := Some(folder), startTime := now)
  }

  /** The extension of the active editor's file, if there is an active editor. */
  function ActiveExtension(active: Option<Document>): (ext: Option<string>)
    ensures ext.Some? <==> active.Some?
  {
    if active.Some? then Some(ExtName(active.value.fsPath)) else None
  }

  /** True when `doc` is not what is currently attributed (language, path or folder differs). */
  predicate Differs(s: Tracking, doc: Document)
  {
    Some(doc.languageId) != s.currentLang || Some(doc.fsPath) != s.currentFile
      || Some(DirName(doc.fsPath)) != s.currentFolder
  }

  /** A text change in `doc` while `active` is the active editor. */
  function TextChange(s: Tracking, doc: Document, active: Option<Document>, allowed: seq<string>, now: int): (r: Tracking)
    ensures r.lastActivity == now && r.data == s.data
    ensures !Differs(s, doc) ==> r == s.(lastActivity := now)
    ensures Differs(s, doc) && active.Some? && ExtName(active.value.fsPath) !in allowed ==> r == s.(lastActivity := now)
    ensures Differs(s, doc) && (active.None? || ExtName(active.value.fsPath) in allowed) ==>
      && r.currentLang == Some(doc.languageId) && r.currentFile == Some(doc.fsPath)
      && r.currentFolder == Some(DirName(doc.fsPath)) && r.startTime == now
  {
    var s1 := s.(lastActivity := now);
    if Differs(s, doc) then
      TrackChange(s1, doc.languageId, doc.fsPath, DirName(doc.fsPath), ActiveExtension(active), allowed, now)
    else
      s1
  }

  /** A change of active editor; `None` when no editor is active any more. */
  function EditorChange(s: Tracking, editor: Option<Document>, allowed: seq<string>, now: int): (r: Tracking)
    ensures r.lastActivity == s.lastActivity && r.data == s.data
    ensures editor.None? ==> r == s
    ensures editor.Some? && ExtName(editor.value.fsPath) !in allowed ==> r == s
    ensures editor.Some? && ExtName(editor.value.fsPath) in allowed ==>
      && r.currentLang == Some(editor.value.languageId) && r.currentFile == Some(editor.value.fsPath)
      && r.currentFolder == Some(DirName(editor.value.fsPath)) && r.startTime == now
  {
    if editor.None? then s
    else TrackChange(s, editor.value.languageId, editor.value.fsPath, DirName(editor.value.fsPath),
                     ActiveExtension(editor), allowed, now)
  }

  /** Window blur: save the open interval (no idle check), then close it, keeping the attribution. */
  function Blur(s: Tracking, now: int, today: string): (r: Tracking)
    ensures r.startTime == 0 && !HasOpenInterval(r)
    ensures r == s.(data := CloseInterval(s, now, today), startTime := 0)
  {
    s.(data := CloseInterval(s, now, today), startTime := 0)
  }

  /** Window focus: reopen an interval starting now, when there is a current language. */
  function Focus(s: Tracking, now: int): (r: Tracking)
    ensures r.startTime == now || r == s
    ensures Truthy(s.currentLang) ==> r == s.(startTime := now)
    ensures !Truthy(s.currentLang) ==> r == s
  {
    if Truthy(s.currentLang) then s.(startTime := now) else s
  }

  /** `onDidChangeWindowState`: focus never saves; blur always leaves no interval open. */
  function WindowStateChange(s: Tracking, focused: bool, now: int, today: string): (r: Tracking)
    ensures (r.lastActivity, r.currentLang, r.currentFile, r.currentFolder)
         == (s.lastActivity, s.currentLang, s.currentFile, s.currentFolder)
    ensures focused ==> r.data == s.data && (r.startTime == now || r.startTime == s.startTime)
    ensures !focused ==> r.startTime == 0 && StoreGrows(s.data, r.data)
  {
    if focused then Focus(s, now) else Blur(s, now, today)
  }

  /** `deactivate`: the same final save as blur; no new interval is opened. */
  function Shutdown(s: Tracking, now: int, today: string): (r: Tracking)
    ensures r == s.(data := CloseInterval(s, now, today))
    ensures !HasOpenInterval(s) ==> r == s
  {
    s.(data := CloseInterval(s, now, today))
  }

  /** The six events, each with the arguments the host hands to its handler. */
  datatype Event =
    | TextChanged(doc: Document, active: Option<Document>)
    | EditorChanged(editor: Option<Document>)
    | WindowState(focused: bool)
    | SaveTick
    | Deactivated

  /** One event at time `now` on date `today`, with `allowed` the tracked-extension list. */
  function Step(s: Tracking, e: Event, now: int, today: string, allowed: seq<string>): Tracking
  {
    match e
    case TextChanged(doc, active) => TextChange(s, doc, active, allowed, now)
    case EditorChanged(editor) => EditorChange(s, editor, allowed, now)
    case WindowState(focused) => WindowStateChange(s, focused, now, today)
    case SaveTick => Tick(s, now, today)
    case Deactivated => Shutdown(s, now, today)
  }

  /** An event as it reaches the plugin: what happened, when, and on which date. */
  datatype Stamped = Stamped(event: Event, now: int, today: string)

  /** The state after a whole trace of events, in order. */
  function Run(s: Tracking, trace: seq<Stamped>, allowed: seq<string>): Tracking
    decreases |trace|
  {
    if trace == [] then s
    else Run(Step(s, trace[0].event, trace[0].now, trace[0].today, allowed), trace[1..], allowed)
  }

  /**
   * The invariant the handlers keep: the attribution triple is set all at once, its folder is
   * the file's directory, and an interval is only ever open on an attributed file.
   */
  ghost predicate Consistent(s: Tracking)
  {
    && s.currentLang.Some? == s.currentFile.Some? == s.currentFolder.Some?
    && (s.currentFile.Some? ==> s.currentFolder == Some(DirName(s.currentFile.value)))
    && (s.startTime != 0 ==> s.currentLang.Some?)
  }

  lemma InitialIsConsistent(now: int, stored: DailyStats)
    ensures Consistent(Initial(now, stored)) && !HasOpenInterval(Initial(now, stored))
  {
  }

  /** Every event keeps the invariant and never lowers a stored total. */
  lemma StepIsSound(s: Tracking, e: Event, now: int, today: string, allowed: seq<string>)
    requires Consistent(s)
    ensures Consistent(Step(s, e, now, today, allowed))
    ensures StoreGrows(s.data, Step(s, e, now, today, allowed).data)
  {
  }

  lemma StoreGrowsTransitive(a: DailyStats, b: DailyStats, c: DailyStats)
    requires StoreGrows(a, b) && StoreGrows(b, c)
    ensures StoreGrows(a, c)
  {
  }

  /** Over any trace of events the invariant holds and no stored total ever decreases. */
  lemma {:induction false} RunIsSound(s: Tracking, trace: seq<Stamped>, allowed: seq<string>)
    requires Consistent(s)
    ensures Consistent(Run(s, trace, allowed))
    ensures StoreGrows(s.data, Run(s, trace, allowed).data)
    decreases |trace|
  {
    if trace != [] {
      var s1 := Step(s, trace[0].event, trace[0].now, trace[0].today, allowed);
      StepIsSound(s, trace[0].event, trace[0].now, trace[0].today, allowed);
      RunIsSound(s1, trace[1..], allowed);
      StoreGrowsTransitive(s.data, s1.data, Run(s1, trace[1..], allowed).data);
    }
  }

  /** Checkpoint idempotence: with no open interval the tick changes nothing. */
  lemma TickWithoutIntervalIsNoOp(s: Tracking, now: int, today: string)
    requires s.startTime <= 0 || !Truthy(s.currentLang)
    ensures Tick(s, now, today) == s
  {
  }

  /** After a blur, ticks are no-ops until focus returns. */
  lemma TicksAfterBlurAreNoOps(s: Tracking, t: int, t': int, today: string, today': string)
    ensures Tick(Blur(s, t, today), t', today') == Blur(s, t, today)
  {
  }

  /** Focus after blur reopens the interval at the focus time, never backdated to the blur. */
  lemma FocusAfterBlurStartsAtFocus(s: Tracking, blurAt: int, focusAt: int, today: string)
    requires Truthy(s.currentLang)
    ensures Focus(Blur(s, blurAt, today), focusAt).startTime == focusAt
    ensures HasOpenInterval(Focus(Blur(s, blurAt, today), focusAt)) <==> focusAt > 0
  {
  }

  /** Deactivate after blur saves nothing more: the blur already closed the interval. */
  lemma DeactivateAfterBlurSavesNothing(s: Tracking, t: int, t': int, today: string, today': string)
    ensures Shutdown(Blur(s, t, today), t', today') == Blur(s, t, today)
  {
  }

  /**
   * A text change that keeps language, file and folder only records the input: the open interval
   * continues and nothing is saved.
   */
  lemma SameTripleOnlyResetsActivity(s: Tracking, doc: Document, active: Option<Document>, allowed: seq<string>, now: int)
    requires s.currentLang == Some(doc.languageId) && s.currentFile == Some(doc.fsPath)
    requires s.currentFolder == Some(DirName(doc.fsPath))
    ensures TextChange(s, doc, active, allowed, now) == s.(lastActivity := now)
  {
  }

  /**
   * Switching to a tracked file drops the interval open so far: the store is left as it was and
   * the new interval starts now, so those seconds are never saved, whether or not the user was idle.
   */
  lemma SwitchDropsOpenInterval(s: Tracking, doc: Document, allowed: seq<string>, now: int)
    requires ExtName(doc.fsPath) in allowed
    ensures var r := EditorChange(s, Some(doc), allowed, now);
      && r.data == s.data
      && r.startTime == now
      && r == EditorChange(s.(lastActivity := now), Some(doc), allowed, now).(lastActivity := s.lastActivity)
  {
  }

  /** An event on an untracked file changes nothing but the activity time. */
  lemma UntrackedFileIsIgnored(s: Tracking, doc: Document, allowed: seq<string>, now: int)
    requires ExtName(doc.fsPath) !in allowed
    ensures EditorChange(s, Some(doc), allowed, now) == s
    ensures TextChange(s, doc, Some(doc), allowed, now) == s.(lastActivity := now)
  {
  }

  /**
   * A tick only looks at idleness at the moment it fires, so an idle gap that ends before the
   * next tick is saved with the rest of the interval. Typing at 1 s opens an interval; the ticks
   * at 31 s and 61 s save 30 s each; the tick at 91 s finds the user idle and does nothing; typing
   * resumes at 100 s; the tick at 121 s saves 60 s, although the user was idle from 61 s to 100 s.
   */
  lemma IdleGapBeforeTickIsCounted(stored: DailyStats, doc: Document, today: string)
    requires ExtName(doc.fsPath) in DefaultTracked && doc.languageId != ""
    ensures var s1 := TextChange(Initial(0, stored), doc, Some(doc), DefaultTracked, 1000);
      var s2 := Tick(Tick(s1, 31000, today), 61000, today);
      var s3 := Tick(s2, 91000, today);
      var s4 := Tick(TextChange(s3, doc, Some(doc), DefaultTracked, 100000), 121000, today);
      && s3 == s2
      && s4.data == SaveTimeLog(s2.data, today, doc.languageId, Some(doc.fsPath), Some(DirName(doc.fsPath)), 60)
  {
    var s1 := TextChange(Initial(0, stored), doc, Some(doc), DefaultTracked, 1000);
    assert s1.startTime == 1000 && s1.lastActivity == 1000 && HasOpenInterval(s1);
    var s2 := Tick(Tick(s1, 31000, today), 61000, today);
    assert s2.startTime == 61000 && s2.lastActivity == 1000 && HasOpenInterval(s2);
    assert Idle(s2.lastActivity, 91000);
    var s3 := TextChange(s2, doc, Some(doc), DefaultTracked, 100000);
    assert !Differs(s2, doc);
    assert s3 == s2.(lastActivity := 100000);
    assert ElapsedSeconds(s3.startTime, 121000) == 60;
  }

  /**
   * The module-level variables of extension.ts as one object; `data` stands for the contents of
   * time_data.json, which `saveTimeLog` reads, updates and writes back on every save.
   */
  class DevTrackr {
    var lastActivity: int
    var currentLang: Option<string>
    var currentFile: Option<string>
    var currentFolder: Option<string>
    var startTime: int
    var data: DailyStats

    /** The abstract value of the object. */
    function State(): Tracking
      reads this
    {
      Tracking(lastActivity, currentLang, currentFile, currentFolder, startTime, data)
    }

    ghost predicate Valid()
      reads this
    {
      Consistent(State())
    }

    /** Module load followed by `activate`, with `stored` what time_data.json already holds. */
    constructor (now: int, stored: DailyStats)
      ensures Valid() && State() == Initial(now, stored)
    {
      lastActivity := now;
      currentLang, currentFile, currentFolder := None, None, None;
      startTime := 0;
      data := stored;
    }

    /** `resetActivityTimer`. */
    method ResetActivityTimer(now: int)
      requires Valid()
      modifies this
      ensures Valid() && State() == old(State()).(lastActivity := now)
    {
      lastActivity := now;
    }

    /** `isIdle`, a pure read of `lastActivity`. */
    function IsIdle(now: int): (idle: bool)
      reads this
      ensures idle <==> Idle(lastActivity, now)
    {
      now - lastActivity > IdleThreshold
    }

    /** `saveTimeLog`, on the in-memory copy of the store; `today` is the ISO date of the save. */
    method SaveTimeLog(language: string, file: Option<string>, folder: Option<string>, duration: int, today: string)
      requires Valid()
      modifies this
      ensures Valid()
      ensures State() == old(State()).(data := TimeLog.SaveTimeLog(old(data), today, language, file, folder, duration))
    {
      ghost var before := Day(data, today);
      if today !in data {
        data := data[today := EmptyDay];
      }
      var day := data[today];
      assert day == before;
      day := day.(languages := day.languages[language := Get(day.languages, language) + duration]);
      if Truthy(file) {
        day := day.(files := day.files[file.value := Get(day.files, file.value) + duration]);
      }
      if Truthy(folder) {
        day := day.(folders := day.folders[folder.value := Get(day.folders, folder.value) + duration]);
      }
      assert day == AddToDay(before, language, file, folder, duration);
      data := data[today := day];
      assert data == old(data)[today := AddToDay(Day(old(data), today), language, file, folder, duration)];
    }

    /** The body of the 30-second save timer. */
    method PeriodicSave(now: int, today: string)
      requires Valid()
      modifies this
      ensures Valid() && State() == Tick(old(State()), now, today)
    {
      if !IsIdle(now) && Truthy(currentLang) && startTime > 0 {
        var duration := (now - startTime) / 1000;
        if duration > 0 {
          SaveTimeLog(currentLang.value, currentFile, currentFolder, duration, today);
          startTime := now;
        }
      }
    }

    /** `trackActivityChange`; `activeExt` is the extension of the active editor's file, if any. */
    method TrackActivityChange(newLang: string, newFile: string, newFolder: string,
                               activeExt: Option<string>, allowed: seq<string>, now: int)
      requires Valid() && newFolder == DirName(newFile)
      modifies this
      ensures Valid()
      ensures State() == TrackChange(old(State()), newLang, newFile, newFolder, activeExt, allowed, now)
    {
      if activeExt.Some? {
        var ext := activeExt.value;
        if ext !in allowed {
          return;
        }
      }
      if IsIdle(now) {
        currentLang := Some(newLang);
        currentFile := Some(newFile);
        currentFolder := Some(newFolder);
        startTime := now;
        return;
      }
      currentLang := Some(newLang);
      currentFile := Some(newFile);
      currentFolder := Some(newFolder);
      startTime := now;
    }

    /** `onDidChangeTextDocument` for `doc`, with `active` the active editor at that moment. */
    method OnTextChange(doc: Document, active: Option<Document>, allowed: seq<string>, now: int)
      requires Valid()
      modifies this
      ensures Valid() && State() == TextChange(old(State()), doc, active, allowed, now)
    {
      ResetActivityTimer(now);
      var lang := doc.languageId;
      var filePath := doc.fsPath;
      var folderPath := DirName(filePath);
      if Some(lang) != currentLang || Some(filePath) != currentFile || Some(folderPath) != currentFolder {
        TrackActivityChange(lang, filePath, folderPath, ActiveExtension(active), allowed, now);
      }
    }

    /** `onDidChangeActiveTextEditor`; the new editor is also the active one. */
    method OnActiveEditorChange(editor: Option<Document>, allowed: seq<string>, now: int)
      requires Valid()
      modifies this
      ensures Valid() && State() == EditorChange(old(State()), editor, allowed, now)
    {
      if editor.Some? {
        var doc := editor.value;
        TrackActivityChange(doc.languageId, doc.fsPath, DirName(doc.fsPath), ActiveExtension(editor), allowed, now);
      }
    }

    /** `onDidChangeWindowState`. */
    method OnWindowStateChange(focused: bool, now: int, today: string)
      requires Valid()
      modifies this
      ensures Valid() && State() == WindowStateChange(old(State()), focused, now, today)
    {
      if !focused {
        if Truthy(currentLang) && startTime > 0 {
          var duration := (now - startTime) / 1000;
          if duration > 0 {
            SaveTimeLog(currentLang.value, currentFile, currentFolder, duration, today);
          }
        }
        startTime := 0;
      } else {
        if Truthy(currentLang) {
          startTime := now;
        }
      }
    }

    /** `deactivate`: the final save. */
    method Deactivate(now: int, today: string)
      requires Valid()
      modifies this
      ensures Valid() && State() == Shutdown(old(State()), now, today)
    {
      if Truthy(currentLang) && startTime > 0 {
        var duration := (now - startTime) / 1000;
        if duration > 0 {
          SaveTimeLog(currentLang.value, currentFile, currentFolder, duration, today);
        }
      }
    }
  }

  /** Blur five seconds into an interval saves five seconds; focus at 30 s reopens at 30 s. */
  method BlurFocusScenario(doc: Document, today: string)
    requires ExtName(doc.fsPath) in DefaultTracked && doc.languageId != ""
  {
    var p := new DevTrackr(1000, map[]);
    p.OnTextChange(doc, Some(doc), DefaultTracked, 1000);
    assert p.startTime == 1000;
    p.OnWindowStateChange(false, 6000, today);
    assert p.data == SaveTimeLog(map[], today, doc.languageId, Some(doc.fsPath), Some(DirName(doc.fsPath)), 5);
    assert p.data[today].languages == map[doc.languageId := 5];
    assert p.startTime == 0;
    p.PeriodicSave(20000, today);
    assert p.data[today].languages == map[doc.languageId := 5];
    p.OnWindowStateChange(true, 31000, today);
    assert p.startTime == 31000;
  }
}
