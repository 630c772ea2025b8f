/**
 * The enumerations every button shares: the host's button types and the
 * placement flag a decoration gives a button in its group.
 */
module ButtonBase {

  /** The host's button types, including the two it may add beyond the named controls. */
  datatype ButtonType =
    | Menu
    | ApplicationMenu
    | OnAllDesktops
    | Minimize
    | Maximize
    | Close
    | ContextHelp
    | Shade
    | KeepBelow
    | KeepAbove
    | Custom
    | Spacer

  /** Where a button sits in its group; standalone buttons are drawn outside a decoration. */
  datatype ButtonFlag = FlagNone | FlagStandalone | FlagFirstInList | FlagLastInList

  /** A point with real coordinates, used for offsets and symbol geometry. */
  datatype Point = Point(x: real, y: real)

  /** An integer size; a negative side marks the size invalid. */
  datatype Size = Size(width: int, height: int) {
    predicate IsValid() {
      width >= 0 && height >= 0
    }
  }
}
