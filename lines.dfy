/**
 * The lines of a scene: building them from the segmented turns
 * (handleCreateScene) and the id-keyed `map` that setLineRole, updateLineText
 * and the recorder's onstop handler apply to them.
 */
module Lines {
  import opened Types
  import opened Text

  /** The line id template `line-${idx}-${Date.now()}`. */
  function LineId(idx: nat, stamp: nat): (id: string)
    ensures |id| > 5 && id[..5] == "line-"
  {
    "line-" + Decimal(idx) + "-" + Decimal(stamp)
  }

  /** A line id determines the position and the clock reading it was made from. */
  lemma LineIdInjective(i: nat, t: nat, j: nat, u: nat)
    requires LineId(i, t) == LineId(j, u)
    ensures i == j && t == u
  {
    var x, y := LineId(i, t), LineId(j, u);
    assert x[5..] == Decimal(i) + ['-'] + Decimal(t);
    assert y[5..] == Decimal(j) + ['-'] + Decimal(u);
    DecimalHasNoDash(i);
    DecimalHasNoDash(j);
    SplitAtSeparator(Decimal(i), Decimal(t), Decimal(j), Decimal(u), '-');
    DecimalInjective(i, j);
    DecimalInjective(t, u);
  }

  /** No two lines share an id. */
  predicate UniqueIds(lines: seq<Line>) {
    forall i, j :: 0 <= i < |lines| && 0 <= j < |lines| && lines[i].id == lines[j].id ==> i == j
  }

  /** The (character, text) pairs a sequence of lines carries, in order. */
  function Script(lines: seq<Line>): (r: seq<Turn>)
    ensures |r| == |lines|
    ensures forall i :: 0 <= i < |lines| ==> r[i] == Turn(lines[i].character, lines[i].text)
  {
    if lines == [] then [] else [Turn(lines[0].character, lines[0].text)] + Script(lines[1..])
  }

  /**
   * `parsedLines.map((line, idx) => ({...line, id: ..., role: Role.PARTNER}))`,
   * where `stamps[idx]` is the clock reading taken for line `idx`. The lines
   * carry the turns' script in order, all assigned to the partner and none
   * recorded.
   */
  function BuildLines(turns: seq<Turn>, stamps: seq<nat>): (r: seq<Line>)
    requires |stamps| == |turns|
    ensures Script(r) == turns
    ensures forall i :: 0 <= i < |r| ==> r[i].role == PARTNER && r[i].audioUrl == None
  {
    var r := seq(|turns|, i requires 0 <= i < |turns| =>
      Line(LineId(i, stamps[i]), turns[i].character, turns[i].text, PARTNER, None));
    assert forall i :: 0 <= i < |turns| ==> Script(r)[i] == turns[i];
    r
  }

  /** The built lines have pairwise different ids, whatever the clock readings. */
  lemma BuildLinesUniqueIds(turns: seq<Turn>, stamps: seq<nat>)
    requires |stamps| == |turns|
    ensures UniqueIds(BuildLines(turns, stamps))
  {
    var r := BuildLines(turns, stamps);
    forall i, j | 0 <= i < |r| && 0 <= j < |r| && r[i].id == r[j].id ensures i == j {
      LineIdInjective(i, stamps[i], j, stamps[j]);
    }
  }

  /** The three per-line edits of the role editor. */
  datatype LineEdit = SetRole(role: Role) | SetText(text: string) | SetAudio(url: string)

  /**
   * `{ ...l, role }`, `{ ...l, text: newText }` or `{ ...l, audioUrl }`:
   * an edit replaces its one field and keeps the id and the character.
   */
  function Apply(l: Line, e: LineEdit): (r: Line)
    ensures r.id == l.id && r.character == l.character
    ensures e.SetRole? ==> r.role == e.role && r.text == l.text && r.audioUrl == l.audioUrl
    ensures e.SetText? ==> r.text == e.text && r.role == l.role && r.audioUrl == l.audioUrl
    ensures e.SetAudio? ==> r.audioUrl == Some(e.url) && r.role == l.role && r.text == l.text
  {
    match e
    case SetRole(role) => l.(role := role)
    case SetText(text) => l.(text := text)
    case SetAudio(url) => l.(audioUrl := Some(url))
  }

  /** `lines.map(l => l.id === lineId ? edit(l) : l)`. */
  function EditById(lines: seq<Line>, lineId: string, e: LineEdit): (r: seq<Line>)
    ensures |r| == |lines|
    ensures forall i :: 0 <= i < |lines| && lines[i].id != lineId ==> r[i] == lines[i]
    ensures forall i :: 0 <= i < |lines| && lines[i].id == lineId ==> r[i] == Apply(lines[i], e)
  {
    if lines == [] then []
    else [if lines[0].id == lineId then Apply(lines[0], e) else lines[0]] + EditById(lines[1..], lineId, e)
  }

  /** The ids of a sequence of lines, in order. */
  function Ids(lines: seq<Line>): (r: seq<string>)
    ensures |r| == |lines|
    ensures forall i :: 0 <= i < |lines| ==> r[i] == lines[i].id
  {
    if lines == [] then [] else [lines[0].id] + Ids(lines[1..])
  }

  /** An edit keeps the ids in their order, so it never adds, drops or reorders lines. */
  lemma EditKeepsIds(lines: seq<Line>, lineId: string, e: LineEdit)
    ensures Ids(EditById(lines, lineId, e)) == Ids(lines)
  {
    var r := EditById(lines, lineId, e);
    assert forall i :: 0 <= i < |lines| ==> Ids(r)[i] == Ids(lines)[i];
  }

  /** With unique ids, an edit of a present id changes exactly that one line. */
  lemma EditChangesOne(lines: seq<Line>, k: nat, e: LineEdit)
    requires UniqueIds(lines) && k < |lines|
    ensures EditById(lines, lines[k].id, e) == lines[k := Apply(lines[k], e)]
  {
  }

  /** An edit of an id no line carries changes nothing. */
  lemma EditAbsent(lines: seq<Line>, lineId: string, e: LineEdit)
    requires forall i :: 0 <= i < |lines| ==> lines[i].id != lineId
    ensures EditById(lines, lineId, e) == lines
  {
  }

  /** Recording again replaces the earlier recording: only the last audioUrl survives. */
  lemma ReRecordOverwrites(lines: seq<Line>, lineId: string, first: string, second: string)
    ensures EditById(EditById(lines, lineId, SetAudio(first)), lineId, SetAudio(second))
         == EditById(lines, lineId, SetAudio(second))
  {
    var once := EditById(lines, lineId, SetAudio(first));
    assert forall i :: 0 <= i < |lines| ==> once[i].id == lines[i].id;
  }

  /** The same edit applied twice has the effect of applying it once. */
  lemma EditIdempotent(lines: seq<Line>, lineId: string, e: LineEdit)
    ensures EditById(EditById(lines, lineId, e), lineId, e) == EditById(lines, lineId, e)
  {
    var once := EditById(lines, lineId, e);
    assert forall i :: 0 <= i < |lines| ==> once[i].id == lines[i].id;
  }

  /** Two edits that write the same field of a line. */
  predicate SameField(e: LineEdit, f: LineEdit) {
    (e.SetRole? && f.SetRole?) || (e.SetText? && f.SetText?) || (e.SetAudio? && f.SetAudio?)
  }

  /** Edits of different fields do not interfere: their order does not matter. */
  lemma EditsCommute(lines: seq<Line>, a: string, e: LineEdit, b: string, f: LineEdit)
    requires !SameField(e, f)
    ensures EditById(EditById(lines, a, e), b, f) == EditById(EditById(lines, b, f), a, e)
  {
    var ef, fe := EditById(EditById(lines, a, e), b, f), EditById(EditById(lines, b, f), a, e);
    forall i | 0 <= i < |lines| ensures ef[i] == fe[i] {
      var l := lines[i];
      if l.id == a && l.id == b {
        assert ef[i] == Apply(Apply(l, e), f) && fe[i] == Apply(Apply(l, f), e);
      }
    }
  }
}
