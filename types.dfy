/** The records and enumerations of the rehearsal app (types.ts). */
module Types {

  datatype Option<T> = None | Some(value: T)

  /** Who speaks a line: the user (ME) or the recorded partner (PARTNER). */
  datatype Role = ME | PARTNER

  /** One spoken turn as the script segmentation service returns it. */
  datatype Turn = Turn(character: string, text: string)

  /** A line of a scene; `audioUrl` is the optional reference to a recording. */
  datatype Line = Line(id: string, character: string, text: string, role: Role, audioUrl: Option<string>)

  /** A saved scene; `createdAt` is a millisecond timestamp. */
  datatype Scene = Scene(id: string, title: string, lines: seq<Line>, createdAt: nat)

  /** The six screens of the app; exactly one is shown at a time. */
  datatype AppView = HOME | NEW_SCENE | EDIT_ROLES | REHEARSAL | HELP | DONATE_CONFIRM

  /** A role is one of exactly two values. */
  lemma RoleCases(r: Role)
    ensures r == ME || r == PARTNER
    ensures ME != PARTNER
  {
  }

  /** A view is one of exactly six names, pairwise distinct. */
  lemma ViewCases(v: AppView)
    ensures v in {HOME, NEW_SCENE, EDIT_ROLES, REHEARSAL, HELP, DONATE_CONFIRM}
    ensures |{HOME, NEW_SCENE, EDIT_ROLES, REHEARSAL, HELP, DONATE_CONFIRM}| == 6
  {
  }

  /** JavaScript truthiness of an optional string: present and not empty. */
  predicate Truthy(s: Option<string>) {
    s.Some? && s.value != ""
  }
}
