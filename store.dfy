/**
 * The scene collection and the values App.tsx computes for it: the default
 * and edited titles, a new scene built from segmented turns, the id-keyed
 * replacement every edit writes back, and the filter of deleteScene.
 */
module Store {
  import opened Types
  import opened Text
  import opened Lines

  /** Longest default title, in characters (`substring(0, 30)`). */
  const TitleLength: nat := 30

  /** Label used when the first input line yields no title. */
  const NewSceneLabel: string := "Новая сцена"

  /** Label used when an edited title is left empty. */
  const UntitledLabel: string := "Без названия"

  /** `inputText.split('\n')[0].substring(0, 30).trim() || 'Новая сцена'`. */
  function DefaultTitle(input: string): (title: string)
    ensures 1 <= |title| <= TitleLength
  {
    var t := Trim(Take(FirstLine(input), TitleLength));
    if t == "" then NewSceneLabel else t
  }

  /**
   * The default title is never empty, at most 30 characters long, has no
   * newline and no whitespace at either end.
   */
  lemma DefaultTitleShape(input: string)
    ensures var t := DefaultTitle(input);
      && 1 <= |t| <= TitleLength
      && '\n' !in t
      && !IsWhitespace(t[0]) && !IsWhitespace(t[|t| - 1])
  {
    var cut := Take(FirstLine(input), TitleLength);
    if Trim(cut) != [] {
      assert '\n' !in cut;
      InfixInherits(Trim(cut), cut, '\n');
    } else {
      LabelShape();
    }
  }

  /** The fallback label is itself a well-formed title. */
  lemma LabelShape()
    ensures 1 <= |NewSceneLabel| <= TitleLength && '\n' !in NewSceneLabel
    ensures !IsWhitespace(NewSceneLabel[0]) && !IsWhitespace(NewSceneLabel[|NewSceneLabel| - 1])
  {
    assert NewSceneLabel[0] == 'Н' && NewSceneLabel[|NewSceneLabel| - 1] == 'а';
    assert forall k :: 0 <= k < |NewSceneLabel| ==> NewSceneLabel[k] != '\n';
  }

  /**
   * The default title is the fallback label when the first 30 characters of
   * the input's first line are all whitespace; otherwise it is those 30
   * characters with the whitespace at both ends, and only there, removed,
   * and so a piece of the first line.
   */
  lemma DefaultTitleSource(input: string)
    ensures AllWhitespace(Take(FirstLine(input), TitleLength)) ==> DefaultTitle(input) == NewSceneLabel
    ensures !AllWhitespace(Take(FirstLine(input), TitleLength)) ==>
      && IsTrimOf(DefaultTitle(input), Take(FirstLine(input), TitleLength))
      && IsInfix(DefaultTitle(input), FirstLine(input))
  {
    var line := FirstLine(input);
    var cut := Take(line, TitleLength);
    if !AllWhitespace(cut) {
      TrimIsTrimOf(cut);
      PrefixIsInfix(cut, line);
      InfixTransitive(Trim(cut), cut, line);
    }
  }

  /** `newTitle || 'Без названия'`: an edited title, or the label when it is empty. */
  function EditedTitle(newTitle: string): (r: string)
    ensures r != ""
    ensures newTitle != "" ==> r == newTitle
    ensures newTitle == "" ==> r == UntitledLabel
  {
    if newTitle == "" then UntitledLabel else newTitle
  }

  /** The scene handleCreateScene makes; each stamp is one reading of `Date.now()`. */
  function NewScene(input: string, turns: seq<Turn>, idStamp: nat, createdAt: nat, lineStamps: seq<nat>): (s: Scene)
    requires |lineStamps| == |turns|
    ensures s.title == DefaultTitle(input) && s.createdAt == createdAt
    ensures Script(s.lines) == turns && UniqueIds(s.lines)
    ensures forall i :: 0 <= i < |s.lines| ==> s.lines[i].role == PARTNER && s.lines[i].audioUrl == None
  {
    BuildLinesUniqueIds(turns, lineStamps);
    Scene(Decimal(idStamp), DefaultTitle(input), BuildLines(turns, lineStamps), createdAt)
  }

  /** Appending a scene whose id is fresh leaves the store in agreement with it. */
  lemma AppendFreshAgrees(scenes: seq<Scene>, s: Scene)
    requires forall i :: 0 <= i < |scenes| ==> scenes[i].id != s.id
    ensures Agrees(scenes + [s], s)
  {
  }

  /** `scenes.map(s => s.id === updated.id ? updated : s)`. */
  function ReplaceById(scenes: seq<Scene>, updated: Scene): (r: seq<Scene>)
    ensures |r| == |scenes|
    ensures forall i :: 0 <= i < |scenes| && scenes[i].id != updated.id ==> r[i] == scenes[i]
    ensures forall i :: 0 <= i < |scenes| && scenes[i].id == updated.id ==> r[i] == updated
  {
    if scenes == [] then []
    else [if scenes[0].id == updated.id then updated else scenes[0]] + ReplaceById(scenes[1..], updated)
  }

  /** Every entry of the store with the id of `scene` equals `scene`. */
  predicate Agrees(scenes: seq<Scene>, scene: Scene) {
    forall i :: 0 <= i < |scenes| && scenes[i].id == scene.id ==> scenes[i] == scene
  }

  /**
   * Writing back a scene keeps the collection's ids in order, leaves it in
   * agreement with the written scene, makes the scene present when its id
   * was, and changes nothing when its id was absent.
   */
  lemma ReplaceByIdSpec(scenes: seq<Scene>, updated: Scene)
    ensures var r := ReplaceById(scenes, updated);
      |r| == |scenes| && forall i :: 0 <= i < |r| ==> r[i].id == scenes[i].id
    ensures Agrees(ReplaceById(scenes, updated), updated)
    ensures (exists i :: 0 <= i < |scenes| && scenes[i].id == updated.id) ==> updated in ReplaceById(scenes, updated)
    ensures (forall i :: 0 <= i < |scenes| ==> scenes[i].id != updated.id) ==> ReplaceById(scenes, updated) == scenes
  {
    var r := ReplaceById(scenes, updated);
    if exists i :: 0 <= i < |scenes| && scenes[i].id == updated.id {
      var k :| 0 <= k < |scenes| && scenes[k].id == updated.id;
      assert r[k] == updated;
    }
  }

  /** `scenes.filter(s => s.id !== id)`. */
  function RemoveById(scenes: seq<Scene>, id: string): (r: seq<Scene>)
    ensures |r| <= |scenes|
    ensures forall i :: 0 <= i < |r| ==> r[i].id != id
  {
    if scenes == [] then []
    else (if scenes[0].id == id then [] else [scenes[0]]) + RemoveById(scenes[1..], id)
  }

  /** The filter keeps exactly the scenes whose id differs. */
  lemma {:induction false} RemoveByIdMembers(scenes: seq<Scene>, id: string, s: Scene)
    ensures s in RemoveById(scenes, id) <==> s in scenes && s.id != id
  {
    if scenes != [] {
      RemoveByIdMembers(scenes[1..], id, s);
      assert scenes == [scenes[0]] + scenes[1..];
    }
  }

  /** The filter works piecewise, so the scenes it keeps stay in their order. */
  lemma {:induction false} RemoveDistributes(a: seq<Scene>, b: seq<Scene>, id: string)
    ensures RemoveById(a + b, id) == RemoveById(a, id) + RemoveById(b, id)
  {
    if a != [] {
      assert (a + b)[1..] == a[1..] + b;
      RemoveDistributes(a[1..], b, id);
    } else {
      assert a + b == b;
    }
  }

  /** Removing an id no scene has changes nothing. */
  lemma {:induction false} RemoveAbsent(scenes: seq<Scene>, id: string)
    requires forall i :: 0 <= i < |scenes| ==> scenes[i].id != id
    ensures RemoveById(scenes, id) == scenes
  {
    if scenes != [] {
      RemoveAbsent(scenes[1..], id);
    }
  }

  /** No two stored scenes share an id. */
  predicate UniqueSceneIds(scenes: seq<Scene>) {
    forall i, j :: 0 <= i < |scenes| && 0 <= j < |scenes| && scenes[i].id == scenes[j].id ==> i == j
  }

  /** Filtering out the id of a scene between two pieces keeps the two filtered pieces. */
  lemma RemoveMiddle(before: seq<Scene>, x: Scene, after: seq<Scene>)
    ensures RemoveById(before + [x] + after, x.id) == RemoveById(before, x.id) + RemoveById(after, x.id)
  {
    RemoveDistributes(before + [x], after, x.id);
    RemoveDistributes(before, [x], x.id);
    assert RemoveById([x], x.id) == [] by {
      assert [x][1..] == [];
    }
  }

  /** With unique ids, deleting the id of scene k removes exactly that scene. */
  lemma {:induction false} RemoveExactlyOne(scenes: seq<Scene>, k: nat)
    requires UniqueSceneIds(scenes) && k < |scenes|
    ensures RemoveById(scenes, scenes[k].id) == scenes[..k] + scenes[k + 1..]
  {
    var id := scenes[k].id;
    var before, after := scenes[..k], scenes[k + 1..];
    assert scenes == before + [scenes[k]] + after;
    RemoveMiddle(before, scenes[k], after);
    assert forall i :: 0 <= i < |before| ==> before[i].id == scenes[i].id != id;
    RemoveAbsent(before, id);
    assert forall i :: 0 <= i < |after| ==> after[i].id == scenes[k + 1 + i].id != id;
    RemoveAbsent(after, id);
  }

  /** The title of the worked example below. */
  lemma TwoLineExampleTitle()
    ensures DefaultTitle("ANA: Hello\nBOB: Hi there") == "ANA: Hello"
  {
    var first, rest := "ANA: Hello", "BOB: Hi there";
    assert "ANA: Hello\nBOB: Hi there" == first + ['\n'] + rest;
    assert '\n' !in first by {
      assert forall k :: 0 <= k < |first| ==> first[k] != '\n';
    }
    UpToConcat(first, rest, '\n');
    assert Take(first, TitleLength) == first;
    assert !IsWhitespace(first[0]) && !IsWhitespace(first[|first| - 1]);
    TrimKeepsTrimmed(first);
  }

  /**
   * The worked example: the script "ANA: Hello\nBOB: Hi there", segmented into
   * two turns, becomes a scene titled "ANA: Hello" with two partner lines in
   * that order and no recordings.
   */
  lemma TwoLineExample(stamp: nat)
    ensures var s := NewScene("ANA: Hello\nBOB: Hi there",
                              [Turn("ANA", "Hello"), Turn("BOB", "Hi there")], stamp, stamp, [stamp, stamp]);
      && s.title == "ANA: Hello"
      && Script(s.lines) == [Turn("ANA", "Hello"), Turn("BOB", "Hi there")]
      && s.lines[0].role == PARTNER && s.lines[1].role == PARTNER
      && s.lines[0].audioUrl == None && s.lines[1].audioUrl == None
  {
    TwoLineExampleTitle();
  }
}
