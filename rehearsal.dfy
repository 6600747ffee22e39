/**
 * The prompter: the cursor over a scene's lines that the НАЗАД, ДАЛЕЕ/ФИНИШ
 * and СНАЧАЛА buttons move, and the effect that plays a partner's recording
 * when the cursor lands on it.
 */
module Rehearsal {
  import opened Types
  import opened Lines

  /** Where ДАЛЕЕ/ФИНИШ leaves the session: on a line, or finished. */
  datatype Cursor = At(index: nat) | Finished

  /**
   * ДАЛЕЕ/ФИНИШ: finish on the last line (`index === lines.length - 1`),
   * otherwise step forward. It only ever moves forward, never wrapping
   * round, and from a line of the scene it lands on a line or finishes.
   */
  function Advance(index: nat, count: nat): (c: Cursor)
    ensures c.At? ==> c.index > index && c.index != count
    ensures index < count && c.At? ==> c.index < count
    ensures c.Finished? ==> count > 0 && index == count - 1
  {
    if index + 1 == count then Finished else At(index + 1)
  }

  /** НАЗАД: `Math.max(0, index - 1)`. */
  function Retreat(index: nat): (r: nat)
    ensures r <= index
    ensures r == index <==> index == 0
    ensures index > 0 ==> r + 1 == index
  {
    if index >= 1 then index - 1 else 0
  }

  /** Stepping back undoes a step forward. */
  lemma RetreatUndoesAdvance(index: nat, count: nat)
    requires Advance(index, count).At?
    ensures Retreat(Advance(index, count).index) == index
  {
  }

  /**
   * From a cursor on a line of the scene (as after start or СНАЧАЛА, which set
   * it to 0), every move keeps it on a line of the scene.
   */
  lemma MovesStayInRange(index: nat, count: nat)
    requires index < count
    ensures 0 < count
    ensures Retreat(index) < count
    ensures Advance(index, count).At? ==> Advance(index, count).index < count
  {
  }

  /** The cursor after pressing ДАЛЕЕ `presses` times; a finished session stays finished. */
  function Presses(index: nat, count: nat, presses: nat): Cursor
    decreases presses
  {
    if presses == 0 then At(index)
    else match Advance(index, count)
      case Finished => Finished
      case At(next) => Presses(next, count, presses - 1)
  }

  /** Pressing ДАЛЕЕ walks through the following lines one by one, in order. */
  lemma {:induction false} WalkVisitsInOrder(index: nat, count: nat, presses: nat)
    requires index + presses < count
    ensures Presses(index, count, presses) == At(index + presses)
    decreases presses
  {
    if presses > 0 {
      WalkVisitsInOrder(index + 1, count, presses - 1);
    }
  }

  /** From a line of the scene, the session finishes after one press per remaining line. */
  lemma {:induction false} WalkFinishes(index: nat, count: nat)
    requires index < count
    ensures Presses(index, count, count - index) == Finished
    decreases count - index
  {
    if index + 1 < count {
      WalkFinishes(index + 1, count);
    }
  }

  /** A rehearsal started on the first line shows every line once, in order, then finishes. */
  lemma RehearsalCoversScene(count: nat, k: nat)
    requires 0 < count && k <= count
    ensures k < count ==> Presses(0, count, k) == At(k)
    ensures k == count ==> Presses(0, count, k) == Finished
  {
    if k < count {
      WalkVisitsInOrder(0, count, k);
    } else {
      WalkFinishes(0, count);
    }
  }

  /** The "not recorded" badge of the prompter (App.tsx:454). */
  predicate ShowsUnrecorded(line: Line) {
    line.role == PARTNER && !Truthy(line.audioUrl)
  }

  /**
   * The recording the autoplay effect starts when it runs (App.tsx:161-171):
   * on the rehearsal screen, with a scene open, on a line that exists, is the
   * partner's and carries a non-empty audioUrl. What it plays is that line's
   * own recording, on a line that shows no "not recorded" badge.
   */
  function AutoplayUrl(view: AppView, scene: Option<Scene>, index: nat): (u: Option<string>)
    ensures u.Some? ==>
      && view == REHEARSAL && scene.Some? && index < |scene.value.lines|
      && scene.value.lines[index].audioUrl == Some(u.value) && u.value != ""
      && !ShowsUnrecorded(scene.value.lines[index])
  {
    if view == REHEARSAL && scene.Some? && index < |scene.value.lines|
       && scene.value.lines[index].role == PARTNER && Truthy(scene.value.lines[index].audioUrl)
    then Some(scene.value.lines[index].audioUrl.value)
    else None
  }

  /** A line of the user's own (ME) never plays, whatever it carries. */
  lemma MeNeverPlays(view: AppView, scene: Scene, index: nat)
    requires index < |scene.lines| && scene.lines[index].role == ME
    ensures AutoplayUrl(view, Some(scene), index) == None
  {
  }

  /** On a partner line of the prompter, either its recording plays or the badge shows, never both. */
  lemma PlaysOrShowsBadge(scene: Scene, index: nat)
    requires index < |scene.lines| && scene.lines[index].role == PARTNER
    ensures AutoplayUrl(REHEARSAL, Some(scene), index).Some? <==> !ShowsUnrecorded(scene.lines[index])
  {
  }

  /** A freshly created scene plays nothing until something is recorded. */
  lemma NewLinesAreSilent(scene: Scene, turns: seq<Turn>, stamps: seq<nat>, index: nat)
    requires |stamps| == |turns| && scene.lines == BuildLines(turns, stamps)
    ensures AutoplayUrl(REHEARSAL, Some(scene), index) == None
  {
  }

  /** After recording a partner line, the prompter plays that recording on it. */
  lemma RecordedLinePlays(scene: Scene, k: nat, url: string)
    requires k < |scene.lines| && scene.lines[k].role == PARTNER && url != ""
    ensures AutoplayUrl(REHEARSAL, Some(scene.(lines := EditById(scene.lines, scene.lines[k].id, SetAudio(url)))), k)
         == Some(url)
  {
  }
}
