# Rehearsal assistant: scene and prompter state

This project models the state layer of the App component of a single-page
rehearsal assistant. In the app, a user pastes a script. An external language
model splits the script into (character, text) turns. The user then marks
each line as their own (ME) or the partner's (PARTNER), records the partner's
lines, and runs a prompter through the scene line by line.

The model is split into these modules:

- `Types` (types.dfy) holds the records and enums of `types.ts`: `Role` (types.ts:2-5), `Line` with its optional `audioUrl` (types.ts:7-13), `Scene` (types.ts:15-20) and `AppView` (types.ts:22).
- `Text` (text.dfy) holds the JavaScript string operations the title needs: `trim`, `split('\n')[0]` and `substring(0, n)`, plus the decimal rendering used in ids.
- `Lines` (lines.dfy) builds the lines of a new scene and applies the id-keyed line edits that the role editor and the recorder perform.
- `Store` (store.dfy) covers the collection of scenes. It derives the default and edited titles, builds a new scene, does the id-keyed write-back and the delete filter.
- `Rehearsal` (rehearsal.dfy) holds the prompter cursor: back, next/finish and restart. It also holds the autoplay condition and the "not recorded" badge.
- `Views` (views.dfy) is the table of every control that sets the view: the screen the control is shown on and the screen it leads to.
- `AppState` (app.dfy) holds the component as a class. Its fields are `view`, `scenes`, `currentScene`, `inputText`, `isParsing`, `rehearsalIndex` and `isRecording`, plus the recorder held in `mediaRecorderRef`. Each handler is a method that reassigns the fields in one atomic step.

Effects become parameters:

- The parser result is a `ParseOutcome`: the turns, or a thrown transport error.
- Each reading of `Date.now()` is a parameter.
- The answer to `window.confirm` is a boolean.
- The microphone grant is a boolean.
- The object URL of a finished recording is a string.

The recorder's `onstop` closure is modelled by the `Recorder` datatype. The datatype holds the `currentScene` and `scenes` captured when recording began, so the write-back uses those values as the code does.

Where the code's behaviour may surprise a reader, the model follows the code:

- An empty or unparsable reply from the model yields a scene with no lines, not a failure.
- The character of a line cannot be edited, only its text.
- Starting a recording does not stop one already running.
- The rehearsal cursor is not confined to the scene: the gear and ЗАПУСТИТЬ СУФЛЁРА keep the old index.
- Edits made while a recording runs are overwritten when it stops.
- Two scenes made in the same millisecond get the same id. `CreateScene` promises store/working-copy agreement only for a fresh id.

## Model

| member | source | states |
|---|---|---|
| Types.RoleCases | types.ts:2-5 | a role is exactly one of ME and PARTNER |
| Types.ViewCases | types.ts:22 | a view is exactly one of the six names |
| Text.Trim | App.tsx:45 | the trimmed string is the input with its leading whitespace run and its trailing whitespace cut off and nothing else: what precedes it and what follows it are all whitespace, it is empty exactly when the input is all whitespace, and otherwise starts and ends with non-whitespace |
| Text.TrimUnique | App.tsx:45 | any cut of the input that removes only whitespace at the two ends and leaves non-whitespace ends is the trim |
| Text.TrimIsTrimOf | App.tsx:45 | trim meets the reference description `IsTrimOf` (only end whitespace removed, non-whitespace ends) |
| Text.TrimSpec | App.tsx:45 | a string meets the reference description of trimming the input exactly when it is the trim |
| Text.TrimIdempotent | App.tsx:51 | trimming twice is trimming once |
| Text.FirstLine | App.tsx:51 | `split('\n')[0]` is a prefix without newline that stops at the first newline |
| Text.Take | App.tsx:51 | `substring(0, n)` is a prefix of length min(n, length) |
| Text.Decimal | App.tsx:50 | `toString` of a number is a non-empty digit string |
| Text.DecimalInjective | App.tsx:50 | different numbers render differently |
| Lines.LineId | App.tsx:55 | a line id starts with `line-` |
| Lines.LineIdInjective | App.tsx:55 | a `line-${idx}-${now}` id determines both the index and the clock reading |
| Lines.BuildLines | App.tsx:53-57 | the lines of a new scene carry exactly the parsed turns' characters and texts, one line per turn in order, each with role PARTNER and no recording |
| Lines.BuildLinesUniqueIds | App.tsx:53-57 | the lines of a new scene have pairwise different ids whatever the clock reads |
| Lines.Apply | App.tsx:86-134 | the spreads `{ ...l, text }` (line 88), `{ ...l, role }` (line 106) and `{ ...l, audioUrl }` (line 132): each edit replaces exactly its field and keeps the id, the character and the other fields |
| Lines.EditById | App.tsx:105-107 | the id-keyed map keeps the length, changes every line with the id by the edit and leaves all others equal |
| Lines.EditKeepsIds | App.tsx:88 | an edit keeps the line ids in order: no line is added, dropped or moved |
| Lines.EditChangesOne | App.tsx:101-111 | with unique ids, an edit of line k yields the list with only position k replaced |
| Lines.EditAbsent | App.tsx:131-133 | an edit of an id no line has changes nothing |
| Lines.ReRecordOverwrites | App.tsx:131-133 | recording a line again keeps only the last audioUrl |
| Lines.EditIdempotent | App.tsx:84-93 | repeating the same edit has no further effect |
| Lines.EditsCommute | App.tsx:84-111 | edits of different fields can be applied in either order |
| Store.DefaultTitle | App.tsx:51 | the default title has between 1 and 30 characters |
| Store.DefaultTitleShape | App.tsx:51 | the default title has 1 to 30 characters, no newline and no whitespace at either end |
| Store.DefaultTitleSource | App.tsx:51 | the default title is 'Новая сцена' when the first 30 characters of the first line are blank; otherwise it is those 30 characters with whitespace removed at both ends and nowhere else (`IsTrimOf`), and so a piece of the first line |
| Store.LabelShape | App.tsx:51 | the fallback label itself is a well-formed title |
| Store.EditedTitle | App.tsx:78 | an edited title is never empty: it is the typed title when that is non-empty and exactly 'Без названия' when it is empty |
| Store.NewScene | App.tsx:49-58 | a new scene has the default title, the given creation time, the parsed turns as its script in order, pairwise different line ids, every line PARTNER and none recorded |
| Store.ReplaceById | App.tsx:80 | the write-back map keeps the length, puts the updated scene at each position with its id and keeps all others |
| Store.ReplaceByIdSpec | App.tsx:80 | the write-back keeps the scene ids in order, leaves every entry with the id equal to the written scene, makes it present when its id was, and is a no-op otherwise |
| Store.RemoveById | App.tsx:72 | the delete filter never grows the list and keeps no scene with the id |
| Store.RemoveByIdMembers | App.tsx:72 | a scene survives the filter exactly when it was stored and has a different id |
| Store.RemoveDistributes | App.tsx:72 | the filter works piecewise over a concatenation, so the survivors keep their order |
| Store.RemoveAbsent | App.tsx:72 | deleting an id no scene has changes nothing |
| Store.RemoveMiddle | App.tsx:72 | filtering out the id of a scene between two pieces keeps only the two filtered pieces |
| Store.RemoveExactlyOne | App.tsx:72 | with unique ids, deleting scene k's id removes exactly scene k and keeps the rest in order |
| Store.TwoLineExampleTitle | App.tsx:51 | the script "ANA: Hello\nBOB: Hi there" gets the title "ANA: Hello" |
| Store.TwoLineExample | App.tsx:49-58 | that script, split into its two turns, becomes a scene of two PARTNER lines in order with no recordings |
| Rehearsal.Retreat | App.tsx:470 | НАЗАД never goes below 0, stays put exactly at 0 and otherwise steps back by one |
| Rehearsal.Advance | App.tsx:481-489 | ДАЛЕЕ/ФИНИШ only moves forward, never wraps round, keeps a cursor that was on a line on a line, and finishes only on the last index (`isLast`, line 414) |
| Rehearsal.RetreatUndoesAdvance | App.tsx:469-489 | a step back after a step forward returns to the original line |
| Rehearsal.MovesStayInRange | App.tsx:469-489 | from a cursor on a line, back and next keep it on a line |
| Rehearsal.WalkVisitsInOrder | App.tsx:485 | k presses of ДАЛЕЕ move the cursor k lines forward while lines remain |
| Rehearsal.WalkFinishes | App.tsx:482-483 | from a line, one press per remaining line finishes the session |
| Rehearsal.RehearsalCoversScene | App.tsx:95-99 | a rehearsal started at 0 shows every line once in order and then finishes |
| Rehearsal.AutoplayUrl | App.tsx:161-171 | when the autoplay effect runs and plays something, it is on the rehearsal view, on an existing line of the open scene, which shows no 'not recorded' badge, and it plays that line's own non-empty recording |
| Rehearsal.MeNeverPlays | App.tsx:164 | a ME line never plays |
| Rehearsal.PlaysOrShowsBadge | App.tsx:454 | on a partner line either the recording plays or the "not recorded" badge shows, never both |
| Rehearsal.NewLinesAreSilent | App.tsx:53-57 | a freshly created scene plays nothing |
| Rehearsal.RecordedLinePlays | App.tsx:131-133 | after a partner line is recorded, the prompter plays that recording on it |
| Views.Target | App.tsx:183-580 | every view-setting control leads away from the screen that shows it |
| Views.StepTable | App.tsx:183-580 | one action leads from HOME to every other view and back, plus exactly NEW_SCENE→EDIT_ROLES, EDIT_ROLES→REHEARSAL, REHEARSAL→EDIT_ROLES and HELP→DONATE_CONFIRM |
| Views.ViewsConnected | App.tsx:183-580 | every view reaches every other in at most two steps |
| AppState.Attach | App.tsx:129-134 | attaching a recording keeps the scene's id, title and creation time and the number of lines; each line with the id becomes that line with `audioUrl` set to the url, its character, text and role kept; every other line is unchanged |
| AppState.App.constructor | App.tsx:8-14 | the initial state: HOME, no scenes, no open scene, empty input, not parsing, cursor 0, not recording |
| AppState.App.EditInput | App.tsx:260 | the textarea sets the input |
| AppState.App.Navigate | App.tsx:183-580 | a plain navigation control sets its target view, which differs from the current one |
| AppState.App.CreateScene | App.tsx:44-68 | blank input changes nothing; otherwise parsing ends with the input cleared; a parse result (possibly empty) is appended as a new scene, opened and edited in EDIT_ROLES; a transport error keeps scenes, open scene and view |
| AppState.App.DeleteScene | App.tsx:70-74 | an unconfirmed delete keeps the scenes; a confirmed one applies the id filter |
| AppState.App.WriteBack | App.tsx:79-80 | the edited scene becomes the open scene and replaces its store entry, keeping ids and leaving store and open scene in agreement |
| AppState.App.UpdateSceneTitle | App.tsx:76-82 | with a scene open, its title becomes the edited title in both copies; with none, nothing changes |
| AppState.App.EditCurrentLine | App.tsx:84-111 | a line edit of the open scene is written to both copies; with no open scene nothing changes |
| AppState.App.SetLineRole | App.tsx:101-111 | the role edit of one line, written to both copies |
| AppState.App.UpdateLineText | App.tsx:84-93 | the text edit of one line, written to both copies |
| AppState.App.StartRecording | App.tsx:113-146 | a granted microphone installs a recorder that captures the line, open scene and scenes and sets isRecording to the line; a refusal changes nothing |
| AppState.App.StopRecording | App.tsx:124-152 | an active recorder's recording is attached to the captured scene and written over the captured list; isRecording becomes null; without an active recorder nothing changes |
| AppState.App.PressRecord | App.tsx:358 | the record button stops the recording when its line is recording and starts one otherwise |
| AppState.App.StartRehearsal | App.tsx:95-99 | a scene card opens the scene in the prompter at index 0, which is on a line exactly when the scene has lines; the autoplay effect then plays the first line's recording when that line is a recorded partner line, and nothing otherwise |
| AppState.App.OpenEditor | App.tsx:234 | the gear opens the scene in the role editor and leaves the cursor alone |
| AppState.App.StartFromEditor | App.tsx:308 | СТАРТ opens the prompter at index 0 |
| AppState.App.LaunchPrompter | App.tsx:403 | ЗАПУСТИТЬ СУФЛЁРА opens the prompter without resetting the cursor |
| AppState.App.OpenSettings | App.tsx:430 | НАСТРОЙКИ returns to the role editor with the cursor kept |
| AppState.App.RestartRehearsal | App.tsx:441 | СНАЧАЛА puts the cursor on the first line |
| AppState.App.StepBack | App.tsx:469-473 | НАЗАД moves the cursor by the clamp and keeps it on a line |
| AppState.App.StepForward | App.tsx:481-489 | on the last line ФИНИШ goes HOME with the cursor kept; otherwise ДАЛЕЕ moves one line forward and stays on a line |
| AppState.StaleCursorExample | App.tsx:403 | after rehearsing a three-line scene to its end, the gear and ЗАПУСТИТЬ СУФЛЁРА put a one-line scene in the prompter with the cursor at 2, off its only line |
| AppState.EditDuringRecordingExample | App.tsx:124-136 | a role change made while a line is recording is lost when the recording stops, and the recording is attached |

## Left out

- Loading and saving scenes in `localStorage` (App.tsx:28-42) is browser I/O and JSON. The constructor therefore starts from an empty list.
- services/geminiService.ts calls an external model and parses its reply. Its result is the `ParseOutcome` parameter. An empty list stands for an invalid reply, as `parseScript` returns `[]` then.
- A reply that is JSON but not an array would make `parsedLines.map` throw. The model folds that case into `TransportError`, whose effect is the same catch branch.
- `getUserMedia`, `MediaRecorder`, the chunk buffer, `Blob`, `URL.createObjectURL` and `audio.play()` are platform APIs. They are replaced by the grant boolean, the `audioUrl` string and the autoplay value.
- `playRecording` (App.tsx:154-159) and the missing-`audioRef` case are left out for the same reason.
- The recorder that a second start replaces is never stopped. The model drops it, and does not model its later `onstop` firing.
- `window.confirm` is the `confirmed` parameter. `alert`, `console.error` and `window.open` are side effects without state.
- `Date.now()` is read separately for the scene id, `createdAt` and each line id. Each reading is a parameter.
- The handlers are async, but each is modelled as one atomic step. Interleavings, such as a parse result arriving after the user left the screen, are not modelled.
- The UI-only state `editingTitle`, `editingLineId` and `tempText` is left out, as are the disabled states of buttons. The model's handlers accept the calls these would block, for example НАЗАД at index 0, which is a no-op anyway.
- The progress-bar percentage (App.tsx:415, floating point), `scrollTo` and all rendering and styling are left out, including components/Button.tsx.
- The autoplay effect runs only when `rehearsalIndex`, `view` or `currentScene` changes (App.tsx:171). `AutoplayUrl` is the condition it checks when it runs; the model does not track when it re-runs. For example, СНАЧАЛА on the first line changes nothing and so replays nothing, although `AutoplayUrl` holds there.
- Rendering the prompter with the cursor off the open scene's lines throws at App.tsx:447. The model does not model that crash. Instead, the prompter's controls require `CursorOnLine()`, and `StaleCursorExample` shows a state that reaches it.
- Text.Take: JavaScript `substring` counts UTF-16 code units; the model counts characters, so titles outside the Basic Multilingual Plane are cut differently.
