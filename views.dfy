/**
 * The view transition table: every control of App.tsx that calls `setView`,
 * the screen it is shown on and the screen it leads to.
 */
module Views {
  import opened Types

  datatype Control =
    | NewSceneTile      // App.tsx:183
    | HelpTile          // App.tsx:187
    | SupportTile       // App.tsx:194
    | SceneCard         // App.tsx:219, startRehearsal at App.tsx:98
    | GearButton        // App.tsx:234
    | NewSceneBack      // App.tsx:250
    | CreateSucceeded   // App.tsx:61, the end of a successful handleCreateScene
    | EditorBack        // App.tsx:286
    | StartButton       // App.tsx:308
    | LaunchButton      // App.tsx:403
    | SettingsButton    // App.tsx:430
    | FinishButton      // App.tsx:483
    | DonateButton      // App.tsx:517
    | DonateBack        // App.tsx:526
    | HelpBack          // App.tsx:538
    | HelpSupportTop    // App.tsx:539
    | HelpSupportBottom // App.tsx:580

  /** The screen whose render function shows the control. */
  function Screen(c: Control): AppView {
    match c
    case NewSceneTile | HelpTile | SupportTile | SceneCard | GearButton => HOME
    case NewSceneBack | CreateSucceeded => NEW_SCENE
    case EditorBack | StartButton | LaunchButton => EDIT_ROLES
    case SettingsButton | FinishButton => REHEARSAL
    case DonateButton | DonateBack => DONATE_CONFIRM
    case HelpBack | HelpSupportTop | HelpSupportBottom => HELP
  }

  /** The view the control sets: always another view than the one showing it. */
  function Target(c: Control): (v: AppView)
    ensures v != Screen(c)
  {
    match c
    case NewSceneTile => NEW_SCENE
    case HelpTile => HELP
    case SupportTile | HelpSupportTop | HelpSupportBottom => DONATE_CONFIRM
    case SceneCard | StartButton | LaunchButton => REHEARSAL
    case GearButton | CreateSucceeded | SettingsButton => EDIT_ROLES
    case NewSceneBack | EditorBack | FinishButton | DonateButton | DonateBack | HelpBack => HOME
  }

  /** Controls whose only effect on the modelled state is the view change. */
  predicate PlainNavigation(c: Control) {
    c in {NewSceneTile, HelpTile, SupportTile, NewSceneBack, EditorBack, DonateButton, DonateBack,
          HelpBack, HelpSupportTop, HelpSupportBottom}
  }

  /** One user action can move the app from view `a` to view `b`. */
  predicate Step(a: AppView, b: AppView) {
    exists c: Control :: Screen(c) == a && Target(c) == b
  }

  /**
   * The table of steps: from HOME to every other view, back to HOME from
   * every other view, and the four steps between the other views.
   */
  lemma StepTable(a: AppView, b: AppView)
    ensures Step(a, b) <==>
      || (a == HOME && b != HOME)
      || (a != HOME && b == HOME)
      || (a == NEW_SCENE && b == EDIT_ROLES)
      || (a == EDIT_ROLES && b == REHEARSAL)
      || (a == REHEARSAL && b == EDIT_ROLES)
      || (a == HELP && b == DONATE_CONFIRM)
  {
    if a == HOME && b == NEW_SCENE { assert Screen(NewSceneTile) == a && Target(NewSceneTile) == b; }
    if a == HOME && b == HELP { assert Screen(HelpTile) == a && Target(HelpTile) == b; }
    if a == HOME && b == DONATE_CONFIRM { assert Screen(SupportTile) == a && Target(SupportTile) == b; }
    if a == HOME && b == REHEARSAL { assert Screen(SceneCard) == a && Target(SceneCard) == b; }
    if a == HOME && b == EDIT_ROLES { assert Screen(GearButton) == a && Target(GearButton) == b; }
    if a == NEW_SCENE && b == HOME { assert Screen(NewSceneBack) == a && Target(NewSceneBack) == b; }
    if a == NEW_SCENE && b == EDIT_ROLES { assert Screen(CreateSucceeded) == a && Target(CreateSucceeded) == b; }
    if a == EDIT_ROLES && b == HOME { assert Screen(EditorBack) == a && Target(EditorBack) == b; }
    if a == EDIT_ROLES && b == REHEARSAL { assert Screen(StartButton) == a && Target(StartButton) == b; }
    if a == REHEARSAL && b == EDIT_ROLES { assert Screen(SettingsButton) == a && Target(SettingsButton) == b; }
    if a == REHEARSAL && b == HOME { assert Screen(FinishButton) == a && Target(FinishButton) == b; }
    if a == DONATE_CONFIRM && b == HOME { assert Screen(DonateBack) == a && Target(DonateBack) == b; }
    if a == HELP && b == HOME { assert Screen(HelpBack) == a && Target(HelpBack) == b; }
    if a == HELP && b == DONATE_CONFIRM { assert Screen(HelpSupportTop) == a && Target(HelpSupportTop) == b; }
  }

  /** Every view can be reached from every other in at most two steps, through HOME. */
  lemma ViewsConnected(a: AppView, b: AppView)
    requires a != b
    ensures Step(a, b) || (Step(a, HOME) && Step(HOME, b))
  {
    StepTable(a, HOME);
    StepTable(HOME, b);
  }
}
