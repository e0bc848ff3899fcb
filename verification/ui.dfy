/**
 * The UI outputs the core produces: updates to tab panels, navigation
 * links, the file menu, the perspective panel and the progress dialogs.
 * Tabs are referred to by their position in the application's tab list.
 */
module Ui {
  /** What a File-menu entry shows: an action, the project-name header, or a divider line. */
  datatype ItemKind = Action(text: string) | Header(title: string) | Divider

  /** One entry of the File menu (a dropdown menu item) and its disabled attribute. */
  datatype MenuItem = MenuItem(kind: ItemKind, disabled: bool)

  /** The application's dialogs: the two progress dialogs, the project chooser and the Save-as name dialog. */
  datatype Dialog = LoadProgress | SaveProgress | OpenProjectDialog | SaveAsNameDialog

  datatype Mod =
    | IsOpen(tab: nat, value: bool)        // a tab's panel shown or hidden
    | Active(tab: nat, value: bool)        // a tab's navigation link highlighted
    | NavDisabled(tab: nat, value: bool)   // a tab's navigation link disabled
    | MenuOptions(items: seq<MenuItem>)    // the File menu redrawn with these entries
    | PerspectiveReset
    | PerspectiveEnable(value: bool)
    | DialogProgress(dialog: Dialog, percent: int)
    | DialogOpen(dialog: Dialog, value: bool)
    | TabOutput(tab: nat, tag: nat)        // anything a tab's own callbacks emit

  const CAMERA: nat := 0
  const CAPTURE: nat := 1
  const PROCESS: nat := 2
  const ANALYZE: nat := 3
  const TAB_NAMES: seq<string> := ["Camera", "Capture", "Process", "Analyze"]
}
