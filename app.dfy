/**
 * The state of the App component and its handlers. Each React state field is
 * a field of the class; each handler is a method that reassigns the fields
 * its setters change, in one atomic step.
 */
module AppState {
  import opened Types
  import opened Text
  import opened Lines
  import opened Store
  import opened Rehearsal
  import opened Views

  /**
   * What `await parseScript(inputText)` yields: the turns (none at all when
   * the model's reply is not valid JSON), or a thrown transport error.
   */
  datatype ParseOutcome = Parsed(turns: seq<Turn>) | TransportError

  /**
   * The MediaRecorder held by mediaRecorderRef, with what its onstop closure
   * captured when recording began: the line id, `currentScene` and `scenes`.
   */
  datatype Recorder = Recorder(lineId: string, scene: Option<Scene>, scenes: seq<Scene>, recording: bool)

  /**
   * The open scene with the recording `url` attached to its line `lineId`
   * (App.tsx:129-134): the same scene with the same lines in the same
   * order, where the lines with that id now carry `url` and every other
   * field of every line is as it was.
   */
  function Attach(scene: Scene, lineId: string, url: string): (u: Scene)
    ensures u.id == scene.id && u.title == scene.title && u.createdAt == scene.createdAt
    ensures Ids(u.lines) == Ids(scene.lines)
    ensures |u.lines| == |scene.lines|
    ensures forall i :: 0 <= i < |u.lines| ==>
      u.lines[i] == if scene.lines[i].id == lineId then scene.lines[i].(audioUrl := Some(url)) else scene.lines[i]
  {
    EditKeepsIds(scene.lines, lineId, SetAudio(url));
    scene.(lines := EditById(scene.lines, lineId, SetAudio(url)))
  }

  class App {
    var view: AppView
    var scenes: seq<Scene>
    var currentScene: Option<Scene>
    var inputText: string
    var isParsing: bool
    var rehearsalIndex: nat
    var isRecording: Option<string>
    var recorder: Option<Recorder>

    /** `isRecording` names the line of the recorder that is recording, and is null when none is. */
    ghost predicate Valid()
      reads this`isRecording, this`recorder
    {
      && (isRecording.Some? <==> recorder.Some? && recorder.value.recording)
      && (isRecording.Some? ==> recorder.value.lineId == isRecording.value)
    }

    /** The stored entry of the open scene equals the working copy. */
    ghost predicate InSync()
      reads this`scenes, this`currentScene
    {
      currentScene.Some? ==> Agrees(scenes, currentScene.value)
    }

    /** The rehearsal cursor is on a line of the open scene. */
    predicate CursorOnLine()
      reads this`currentScene, this`rehearsalIndex
    {
      currentScene.Some? && rehearsalIndex < |currentScene.value.lines|
    }

    /**
     * The recording the autoplay effect starts when it runs in this state. It
     * runs only after `rehearsalIndex`, `view` or `currentScene` changes.
     */
    function Autoplay(): Option<string>
      reads this`view, this`currentScene, this`rehearsalIndex
    {
      AutoplayUrl(view, currentScene, rehearsalIndex)
    }

    /** The initial state of the component (App.tsx:8-14), before saved scenes are loaded. */
    constructor ()
      ensures view == HOME && scenes == [] && currentScene == None
      ensures inputText == "" && !isParsing && rehearsalIndex == 0
      ensures isRecording == None && recorder == None
      ensures Valid() && InSync()
    {
      view := HOME;
      scenes := [];
      currentScene := None;
      inputText := "";
      isParsing := false;
      rehearsalIndex := 0;
      isRecording := None;
      recorder := None;
    }

    /** The script textarea (App.tsx:260). */
    method EditInput(text: string)
      modifies this`inputText
      ensures inputText == text
    {
      inputText := text;
    }

    /** A navigation control whose only effect is to change the view. */
    method Navigate(c: Control)
      requires PlainNavigation(c) && view == Screen(c)
      modifies this`view
      ensures view == Target(c) && view != old(view)
    {
      view := Target(c);
    }

    /**
     * handleCreateScene. Blank input changes nothing. Otherwise parsing ends
     * with `isParsing` false and the input cleared; a parse result, even an
     * empty one, appends the new scene, opens it and shows the role editor,
     * while a transport error leaves the scenes and the view alone.
     */
    method CreateScene(outcome: ParseOutcome, idStamp: nat, createdAt: nat, lineStamps: seq<nat>)
      requires view == NEW_SCENE
      requires outcome.Parsed? ==> |lineStamps| == |outcome.turns|
      modifies this`scenes, this`currentScene, this`view, this`inputText, this`isParsing
      ensures AllWhitespace(old(inputText)) ==>
        && scenes == old(scenes) && currentScene == old(currentScene) && view == old(view)
        && inputText == old(inputText) && isParsing == old(isParsing)
      ensures !AllWhitespace(old(inputText)) ==> !isParsing && inputText == ""
      ensures !AllWhitespace(old(inputText)) && outcome.Parsed? ==>
        var s := NewScene(old(inputText), outcome.turns, idStamp, createdAt, lineStamps);
        && scenes == old(scenes) + [s]
        && currentScene == Some(s)
        && view == Target(CreateSucceeded)
        && ((forall i :: 0 <= i < |old(scenes)| ==> old(scenes)[i].id != s.id) ==> InSync())
      ensures !AllWhitespace(old(inputText)) && outcome.TransportError? ==>
        scenes == old(scenes) && currentScene == old(currentScene) && view == old(view)
    {
      if Trim(inputText) == "" {
        return;
      }
      isParsing := true;
      match outcome {
        case Parsed(turns) =>
          var s := NewScene(inputText, turns, idStamp, createdAt, lineStamps);
          if forall i :: 0 <= i < |scenes| ==> scenes[i].id != s.id {
            AppendFreshAgrees(scenes, s);
          }
          scenes := scenes + [s];
          currentScene := Some(s);
          view := Target(CreateSucceeded);
        case TransportError =>
      }
      isParsing := false;
      inputText := "";
    }

    /** deleteScene: only a confirmed deletion filters the scene out. */
    method DeleteScene(id: string, confirmed: bool)
      modifies this`scenes
      ensures scenes == if confirmed then RemoveById(old(scenes), id) else old(scenes)
    {
      if confirmed {
        scenes := RemoveById(scenes, id);
      }
    }

    /** `setCurrentScene(updated); setScenes(scenes.map(...))`: write an edit to both copies. */
    method WriteBack(updated: Scene)
      modifies this`currentScene, this`scenes
      ensures currentScene == Some(updated)
      ensures scenes == ReplaceById(old(scenes), updated)
      ensures |scenes| == |old(scenes)| && forall i :: 0 <= i < |scenes| ==> scenes[i].id == old(scenes)[i].id
      ensures InSync()
    {
      ReplaceByIdSpec(scenes, updated);
      currentScene := Some(updated);
      scenes := ReplaceById(scenes, updated);
    }

    /** updateSceneTitle: an empty title becomes 'Без названия'. */
    method UpdateSceneTitle(newTitle: string)
      modifies this`currentScene, this`scenes
      ensures old(currentScene).None? ==> currentScene == old(currentScene) && scenes == old(scenes)
      ensures old(currentScene).Some? ==>
        var u := old(currentScene).value.(title := EditedTitle(newTitle));
        currentScene == Some(u) && scenes == ReplaceById(old(scenes), u) && InSync()
    {
      if currentScene.Some? {
        WriteBack(currentScene.value.(title := EditedTitle(newTitle)));
      }
    }

    /** An edit of the open scene's line `lineId`, written back to the store. */
    method EditCurrentLine(lineId: string, e: LineEdit)
      modifies this`currentScene, this`scenes
      ensures old(currentScene).None? ==> currentScene == old(currentScene) && scenes == old(scenes)
      ensures old(currentScene).Some? ==>
        var c := old(currentScene).value;
        var u := c.(lines := EditById(c.lines, lineId, e));
        currentScene == Some(u) && scenes == ReplaceById(old(scenes), u) && InSync()
    {
      if currentScene.Some? {
        var c := currentScene.value;
        WriteBack(c.(lines := EditById(c.lines, lineId, e)));
      }
    }

    /** setLineRole. */
    method SetLineRole(lineId: string, role: Role)
      modifies this`currentScene, this`scenes
      ensures old(currentScene).None? ==> currentScene == old(currentScene) && scenes == old(scenes)
      ensures old(currentScene).Some? ==>
        var c := old(currentScene).value;
        var u := c.(lines := EditById(c.lines, lineId, SetRole(role)));
        currentScene == Some(u) && scenes == ReplaceById(old(scenes), u) && InSync()
    {
      EditCurrentLine(lineId, SetRole(role));
    }

    /** updateLineText. */
    method UpdateLineText(lineId: string, newText: string)
      modifies this`currentScene, this`scenes
      ensures old(currentScene).None? ==> currentScene == old(currentScene) && scenes == old(scenes)
      ensures old(currentScene).Some? ==>
        var c := old(currentScene).value;
        var u := c.(lines := EditById(c.lines, lineId, SetText(newText)));
        currentScene == Some(u) && scenes == ReplaceById(old(scenes), u) && InSync()
    {
      EditCurrentLine(lineId, SetText(newText));
    }

    /**
     * startRecording. When the microphone is granted, a new recorder replaces
     * the one held before (which is not stopped) and `isRecording` names the
     * line; when it is refused, nothing changes.
     */
    method StartRecording(lineId: string, granted: bool)
      requires Valid()
      modifies this`recorder, this`isRecording
      ensures Valid()
      ensures granted ==> recorder == Some(Recorder(lineId, currentScene, scenes, true)) && isRecording == Some(lineId)
      ensures !granted ==> recorder == old(recorder) && isRecording == old(isRecording)
    {
      if granted {
        recorder := Some(Recorder(lineId, currentScene, scenes, true));
        isRecording := Some(lineId);
      }
    }

    /**
     * stopRecording and the onstop handler it triggers. The recording is
     * attached to the captured scene and written over the captured scene
     * list, so edits made while recording are dropped.
     */
    method StopRecording(audioUrl: string)
      requires Valid()
      modifies this`recorder, this`isRecording, this`currentScene, this`scenes
      ensures Valid()
      ensures !(old(recorder).Some? && old(recorder).value.recording) ==>
        && recorder == old(recorder) && isRecording == old(isRecording)
        && currentScene == old(currentScene) && scenes == old(scenes)
      ensures old(recorder).Some? && old(recorder).value.recording ==>
        var r := old(recorder).value;
        && isRecording == None
        && recorder == Some(r.(recording := false))
        && (r.scene.None? ==> currentScene == old(currentScene) && scenes == old(scenes))
        && (r.scene.Some? ==>
              var u := Attach(r.scene.value, r.lineId, audioUrl);
              currentScene == Some(u) && scenes == ReplaceById(r.scenes, u) && InSync())
    {
      if recorder.Some? && recorder.value.recording {
        var r := recorder.value;
        recorder := Some(r.(recording := false));
        if r.scene.Some? {
          var u := Attach(r.scene.value, r.lineId, audioUrl);
          ReplaceByIdSpec(r.scenes, u);
          currentScene := Some(u);
          scenes := ReplaceById(r.scenes, u);
        }
        isRecording := None;
      }
    }

    /**
     * The record button of line `lineId` (App.tsx:358): it stops the
     * recording when that line is the one recording, and starts one otherwise.
     */
    method PressRecord(lineId: string, granted: bool, audioUrl: string)
      requires Valid()
      modifies this`recorder, this`isRecording, this`currentScene, this`scenes
      ensures Valid()
      ensures old(isRecording) == Some(lineId) ==>
        var r := old(recorder).value;
        && isRecording == None
        && recorder == Some(r.(recording := false))
        && (r.scene.None? ==> currentScene == old(currentScene) && scenes == old(scenes))
        && (r.scene.Some? ==>
              var u := Attach(r.scene.value, lineId, audioUrl);
              currentScene == Some(u) && scenes == ReplaceById(r.scenes, u) && InSync())
      ensures old(isRecording) != Some(lineId) ==>
        && isRecording == (if granted then Some(lineId) else old(isRecording))
        && recorder == (if granted then Some(Recorder(lineId, old(currentScene), old(scenes), true)) else old(recorder))
        && currentScene == old(currentScene) && scenes == old(scenes)
    {
      if isRecording == Some(lineId) {
        StopRecording(audioUrl);
      } else {
        StartRecording(lineId, granted);
      }
    }

    /** startRehearsal, from a scene card on the home screen. */
    method StartRehearsal(scene: Scene)
      requires view == Screen(SceneCard)
      modifies this`currentScene, this`rehearsalIndex, this`view
      ensures currentScene == Some(scene) && rehearsalIndex == 0 && view == Target(SceneCard)
      ensures CursorOnLine() <==> scene.lines != []
      ensures scene.lines != [] && scene.lines[0].role == PARTNER && Truthy(scene.lines[0].audioUrl) ==>
        Autoplay() == Some(scene.lines[0].audioUrl.value)
      ensures scene.lines == [] || scene.lines[0].role == ME || !Truthy(scene.lines[0].audioUrl) ==> Autoplay() == None
    {
      currentScene := Some(scene);
      rehearsalIndex := 0;
      view := Target(SceneCard);
    }

    /** The gear of a scene card: opens the role editor and keeps the cursor as it was. */
    method OpenEditor(scene: Scene)
      requires view == Screen(GearButton)
      modifies this`currentScene, this`view
      ensures currentScene == Some(scene) && view == Target(GearButton)
    {
      currentScene := Some(scene);
      view := Target(GearButton);
    }

    /** СТАРТ in the role editor: rehearse from the first line. */
    method StartFromEditor()
      requires view == Screen(StartButton)
      modifies this`rehearsalIndex, this`view
      ensures rehearsalIndex == 0 && view == Target(StartButton)
      ensures CursorOnLine() <==> currentScene.Some? && currentScene.value.lines != []
    {
      rehearsalIndex := 0;
      view := Target(StartButton);
    }

    /** ЗАПУСТИТЬ СУФЛЁРА at the foot of the role editor: the cursor is not reset. */
    method LaunchPrompter()
      requires view == Screen(LaunchButton)
      modifies this`view
      ensures view == Target(LaunchButton)
    {
      view := Target(LaunchButton);
    }

    // The prompter renders only while the cursor is on a line: it reads the
    // current line's role at App.tsx:447 and 480, which throws otherwise, so
    // its controls require CursorOnLine().

    /** НАСТРОЙКИ in the prompter: back to the role editor, the cursor kept. */
    method OpenSettings()
      requires view == Screen(SettingsButton) && CursorOnLine()
      modifies this`view
      ensures view == Target(SettingsButton) && CursorOnLine()
    {
      view := Target(SettingsButton);
    }

    /** СНАЧАЛА: back to the first line without leaving the prompter. */
    method RestartRehearsal()
      requires view == REHEARSAL && CursorOnLine()
      modifies this`rehearsalIndex
      ensures rehearsalIndex == 0 && CursorOnLine()
    {
      rehearsalIndex := 0;
    }

    /** НАЗАД: one line back, never below the first; the cursor stays on a line. */
    method StepBack()
      requires view == REHEARSAL && CursorOnLine()
      modifies this`rehearsalIndex
      ensures rehearsalIndex == Retreat(old(rehearsalIndex))
      ensures CursorOnLine()
    {
      MovesStayInRange(rehearsalIndex, |currentScene.value.lines|);
      rehearsalIndex := Retreat(rehearsalIndex);
    }

    /**
     * ДАЛЕЕ/ФИНИШ: on the last line, home with the cursor left in place;
     * otherwise one line forward, still on a line.
     */
    method StepForward()
      requires view == Screen(FinishButton) && CursorOnLine()
      modifies this`rehearsalIndex, this`view
      ensures old(rehearsalIndex) == |currentScene.value.lines| - 1 ==>
        view == Target(FinishButton) && rehearsalIndex == old(rehearsalIndex)
      ensures old(rehearsalIndex) != |currentScene.value.lines| - 1 ==>
        view == old(view) && rehearsalIndex == old(rehearsalIndex) + 1 && CursorOnLine()
    {
      var count := |currentScene.value.lines|;
      MovesStayInRange(rehearsalIndex, count);
      match Advance(rehearsalIndex, count) {
        case Finished => view := Target(FinishButton);
        case At(next) => rehearsalIndex := next;
      }
    }
  }

  /**
   * The cursor is not reset by the gear and by ЗАПУСТИТЬ СУФЛЁРА: after
   * rehearsing a three-line scene to its last line and leaving, opening a
   * one-line scene through the gear and launching the prompter puts the
   * cursor past that scene's only line, where the prompter cannot render.
   */
  method StaleCursorExample() returns (app: App)
    ensures app.view == REHEARSAL && app.rehearsalIndex == 2
    ensures app.currentScene.Some? && |app.currentScene.value.lines| == 1 && !app.CursorOnLine()
  {
    var line := Line("line-0-1", "ANA", "Hello", PARTNER, None);
    var long := Scene("1", "long", [line, line, line], 1);
    var short := Scene("2", "short", [line], 2);
    app := new App();
    app.StartRehearsal(long);
    app.StepForward();
    app.StepForward();
    app.OpenSettings();
    app.Navigate(EditorBack);
    app.OpenEditor(short);
    app.LaunchPrompter();
  }

  /**
   * onstop writes back the scene captured when recording began: a role
   * changed while the recording runs is lost when it stops, and the
   * recording is attached.
   */
  method EditDuringRecordingExample() returns (app: App)
    ensures app.isRecording == None && app.currentScene.Some?
    ensures |app.currentScene.value.lines| == 2
    ensures app.currentScene.value.lines[0].audioUrl == Some("blob:take")
    ensures app.currentScene.value.lines[1].role == PARTNER
    ensures app.scenes == [app.currentScene.value]
  {
    var a := Line("line-0-1", "ANA", "Hello", PARTNER, None);
    var b := Line("line-1-1", "BOB", "Hi there", PARTNER, None);
    var scene := Scene("1", "ANA: Hello", [a, b], 1);
    app := new App();
    app.scenes := [scene];
    app.OpenEditor(scene);
    app.PressRecord(a.id, true, "");
    app.SetLineRole(b.id, ME);
    assert app.currentScene.value.lines[1].role == ME;
    app.PressRecord(a.id, true, "blob:take");
  }
}
