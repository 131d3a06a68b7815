/**
 * The redraw events the app window receives from the editor, one value per
 * event, and the data they carry. Payloads the window only passes on to the
 * shell, the omnibar or the tabline are kept opaque.
 */
module UiEvents {
  import opened Wrappers

  /** The semantic highlight groups the window tracks for its style sheet. */
  datatype HlGroup =
    | MsgSeparator | Pmenu | PmenuSel | PmenuSbar | PmenuThumb
    | TabLine | TabLineFill | TabLineSel | Menu

  /** RGB attributes of one highlight id; the style flags are not modelled. */
  datatype HlAttr = HlAttr(foreground: Option<int>, background: Option<int>, special: Option<int>)

  /** One cursor style descriptor of `mode_info_set`. */
  datatype ModeInfo = ModeInfo(cursorShape: string, cellPercentage: int, attrId: int, blinkOn: int, blinkOff: int)

  /** The options of `option_set` the window reacts to, and all others. */
  datatype UiOption =
    | Linespace(linespace: int)
    | Guifont(guifont: string)
    | ShowTabline(showTabline: int)
    | Unknown(name: string)

  datatype PmenuShow = PmenuShow(items: seq<string>, selected: int, row: int, col: int, grid: int)

  /** Arguments of an event the window forwards without looking inside. */
  datatype Payload = Payload(fields: seq<int>)

  /** Events handed as they are to the shell, the omnibar or the tabline. */
  datatype ForwardKind =
    | BusyStart | BusyStop
    | GridResize | GridLine | GridClear | GridDestroy | GridCursorGoto | GridScroll
    | WinPos | WinFloatPos | WinExternalPos | WinHide | WinClose | MsgSetPos
    | TablineUpdate
    | CmdlineShow | CmdlineHide | CmdlinePos | CmdlineSpecialChar
    | CmdlineBlockShow | CmdlineBlockHide | CmdlineBlockAppend

  datatype UiEvent =
    | SetTitle(title: string)
    | SetIcon
    | ModeInfoSet(cursorStyles: seq<ModeInfo>)
    | OptionSet(option: UiOption)
    | ModeChange(modeIdx: int)
    | MouseOn | MouseOff | Suspend | UpdateMenu | Bell | VisualBell
    | Flush
    | DefaultColorsSet(rgbFg: int, rgbBg: int, rgbSp: int)
    | HlAttrDefine(id: int, rgbAttrs: HlAttr)
    | HlGroupSet(name: string, hlId: int)
    | WinViewport
    | PopupmenuShow(show: PmenuShow)
    | PopupmenuSelect(selected: int)
    | PopupmenuHide
    | Forward(kind: ForwardKind, payload: Payload)
    /** Any event of the protocol the window has no arm for. */
    | Unhandled(name: string)
}
