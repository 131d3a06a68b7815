/**
 * The app window's redraw dispatcher. It keeps the colour table, the cursor
 * mode table and two dirty flags, routes most other events to the shell, the
 * omnibar or the tabline, sets the title, ignores a few events and ends the
 * session on an unhandled one. On `flush` it asks for a resize and regenerates
 * its style sheet only when a handler marked them dirty. What it asks of its
 * collaborators is recorded as a list of effects.
 *
 * `Step` and `Run` are the specification; the `Window` class is the window
 * itself, whose handlers change its fields in place.
 */
module AppWindow {
  import opened Wrappers
  import opened UiEvents
  import opened InputEscape
  import opened Seqs

  /** The highlight group name the editor uses for `g`. */
  function GroupName(g: HlGroup): string
  {
    match g
    case MsgSeparator => "MsgSeparator"
    case Pmenu => "Pmenu"
    case PmenuSel => "PmenuSel"
    case PmenuSbar => "PmenuSbar"
    case PmenuThumb => "PmenuThumb"
    case TabLine => "TabLine"
    case TabLineFill => "TabLineFill"
    case TabLineSel => "TabLineSel"
    case Menu => "Menu"
  }

  /** The fixed name table of `hl_group_set`: exactly the nine names of `GroupName`. */
  function HlGroupFromName(name: string): (r: Option<HlGroup>)
    ensures r.Some? ==> GroupName(r.value) == name
    ensures forall g :: GroupName(g) == name ==> r == Some(g)
  {
    if name == "MsgSeparator" then Some(MsgSeparator)
    else if name == "Pmenu" then Some(Pmenu)
    else if name == "PmenuSel" then Some(PmenuSel)
    else if name == "PmenuSbar" then Some(PmenuSbar)
    else if name == "PmenuThumb" then Some(PmenuThumb)
    else if name == "TabLine" then Some(TabLine)
    else if name == "TabLineFill" then Some(TabLineFill)
    else if name == "TabLineSel" then Some(TabLineSel)
    else if name == "Menu" then Some(Menu)
    else None
  }

  const AllGroups: set<HlGroup> :=
    {MsgSeparator, Pmenu, PmenuSel, PmenuSbar, PmenuThumb, TabLine, TabLineFill, TabLineSel, Menu}

  /** Default colours, the attributes per highlight id, and the id of each group. */
  datatype Colors = Colors(fg: int, bg: int, sp: int, hls: map<int, HlAttr>, hlGroups: map<HlGroup, int>)

  /** What a group that was never set, or whose id was never defined, resolves to. */
  const DefaultAttr: HlAttr := HlAttr(None, None, None)

  /** The attributes the style sheet uses for group `g`. */
  function GroupAttr(c: Colors, g: HlGroup): HlAttr
  {
    if g in c.hlGroups && c.hlGroups[g] in c.hls then c.hls[c.hlGroups[g]] else DefaultAttr
  }

  /** The colour inputs of the generated style sheet. */
  datatype Theme = Theme(fg: int, bg: int, groups: map<HlGroup, HlAttr>)

  function ThemeOf(c: Colors): Theme
  {
    Theme(c.fg, c.bg, map g | g in AllGroups :: GroupAttr(c, g))
  }

  datatype Sink = Shell | Omnibar | Tabline

  /** A call into one of the window's children. */
  datatype Call =
    | FlushGrids(colors: Colors)
    | FlushTabline
    | ModeChanged(mode: ModeInfo)
    | ShowPopupmenu(show: PmenuShow)
    | SelectPopupmenu(selected: int)
    | HidePopupmenu
    | SetCmdlineLinespace(linespace: int)
    | Handle(kind: ForwardKind, payload: Payload)
    | HandleWithColors(kind: ForwardKind, payload: Payload, colors: Colors)

  /** Everything the window does outside its own fields. */
  datatype Effect =
    | TitleSet(title: string)
    | Sent(sink: Sink, call: Call)
    | ResizeRequested
    | CssRegenerated(theme: Theme)
    | NvimInput(input: string)

  /** The protocol violations that end the session. */
  datatype Fatal = InvalidModeIdx(modeIdx: int) | UnhandledEvent(name: string)

  datatype WindowState = WindowState(colors: Colors, modeInfos: seq<ModeInfo>, resizeOnFlush: bool, cssOnFlush: bool)

  /** The state after some events, what they did, and the violation that stopped them, if any. */
  datatype Outcome = Outcome(state: WindowState, effects: seq<Effect>, fatal: Option<Fatal>)

  /** The child that owns a forwarded event. */
  function SinkOf(k: ForwardKind): Sink
  {
    match k
    case BusyStart | BusyStop | GridResize | GridLine | GridClear | GridDestroy | GridCursorGoto | GridScroll
      | WinPos | WinFloatPos | WinExternalPos | WinHide | WinClose | MsgSetPos => Shell
    case TablineUpdate => Tabline
    case CmdlineShow | CmdlineHide | CmdlinePos | CmdlineSpecialChar
      | CmdlineBlockShow | CmdlineBlockHide | CmdlineBlockAppend => Omnibar
  }

  /** The command-line show, block-show and block-append handlers also read the colours. */
  function ForwardCall(k: ForwardKind, p: Payload, c: Colors): Call
  {
    if k == CmdlineShow || k == CmdlineBlockShow || k == CmdlineBlockAppend then HandleWithColors(k, p, c)
    else Handle(k, p)
  }

  /** `popupmenu_show` goes to the omnibar exactly for grid -1. */
  function ShowHost(grid: int): (s: Sink)
    ensures s == Omnibar <==> grid == -1
    ensures s == Omnibar || s == Shell
  {
    if grid == -1 then Omnibar else Shell
  }

  /** `popupmenu_select` and `popupmenu_hide` follow the visible command-line popupmenu. */
  function SelectHost(cmdlinePopupVisible: bool): (s: Sink)
    ensures s == Omnibar <==> cmdlinePopupVisible
    ensures s == Omnibar || s == Shell
  {
    if cmdlinePopupVisible then Omnibar else Shell
  }

  /** `Vec::get(mode_idx as usize)`: a negative index wraps to a huge one and is out of range too. */
  function ModeLookup(modes: seq<ModeInfo>, idx: int): (r: Option<ModeInfo>)
    ensures r.Some? <==> 0 <= idx < |modes|
    ensures r.Some? ==> r.value == modes[idx]
  {
    if 0 <= idx < |modes| then Some(modes[idx]) else None
  }

  /** What `flush` does besides clearing the flags, in its fixed order. */
  function FlushEffects(s: WindowState): seq<Effect>
  {
    [Sent(Shell, FlushGrids(s.colors)), Sent(Tabline, FlushTabline)]
    + (if s.resizeOnFlush then [ResizeRequested] else [])
    + (if s.cssOnFlush then [CssRegenerated(ThemeOf(s.colors))] else [])
  }

  /** `handle_option_set`: the three options the window knows mark both size and style dirty. */
  function OptionState(s: WindowState, opt: UiOption): WindowState
  {
    if opt.Unknown? then s else s.(resizeOnFlush := true, cssOnFlush := true)
  }

  function OptionEffects(opt: UiOption): seq<Effect>
  {
    if opt.Linespace? then [Sent(Omnibar, SetCmdlineLinespace(opt.linespace))] else []
  }

  /** `handle_hl_group_set`. */
  function GroupSetState(s: WindowState, name: string, id: int): WindowState
  {
    match HlGroupFromName(name)
    case Some(g) => s.(colors := s.colors.(hlGroups := s.colors.hlGroups[g := id]), cssOnFlush := true)
    case None => s
  }

  /** The events whose handlers read or change the window's own state. */
  predicate ChangesState(ev: UiEvent)
  {
    ev.ModeInfoSet? || ev.OptionSet? || ev.ModeChange? || ev.Flush?
    || ev.DefaultColorsSet? || ev.HlAttrDefine? || ev.HlGroupSet?
  }

  /** Applying one redraw event. */
  function Step(s: WindowState, cmdlinePopupVisible: bool, ev: UiEvent): Outcome
  {
    match ev
    case SetTitle(title) => Outcome(s, [TitleSet(title)], None)
    case SetIcon | MouseOn | MouseOff | Suspend | UpdateMenu | Bell | VisualBell | WinViewport =>
      Outcome(s, [], None)
    case ModeInfoSet(styles) => Outcome(s.(modeInfos := styles), [], None)
    case OptionSet(opt) => Outcome(OptionState(s, opt), OptionEffects(opt), None)
    case ModeChange(idx) =>
      (match ModeLookup(s.modeInfos, idx)
       case Some(mode) => Outcome(s, [Sent(Shell, ModeChanged(mode))], None)
       case None => Outcome(s, [], Some(InvalidModeIdx(idx))))
    case Flush => Outcome(s.(resizeOnFlush := false, cssOnFlush := false), FlushEffects(s), None)
    case DefaultColorsSet(fg, bg, sp) =>
      Outcome(s.(colors := s.colors.(fg := fg, bg := bg, sp := sp), cssOnFlush := true), [], None)
    case HlAttrDefine(id, attr) => Outcome(s.(colors := s.colors.(hls := s.colors.hls[id := attr])), [], None)
    case HlGroupSet(name, id) => Outcome(GroupSetState(s, name, id), [], None)
    case PopupmenuShow(show) => Outcome(s, [Sent(ShowHost(show.grid), ShowPopupmenu(show))], None)
    case PopupmenuSelect(selected) => Outcome(s, [Sent(SelectHost(cmdlinePopupVisible), SelectPopupmenu(selected))], None)
    case PopupmenuHide => Outcome(s, [Sent(SelectHost(cmdlinePopupVisible), HidePopupmenu)], None)
    case Forward(kind, payload) => Outcome(s, [Sent(SinkOf(kind), ForwardCall(kind, payload, s.colors))], None)
    case Unhandled(name) => Outcome(s, [], Some(UnhandledEvent(name)))
  }

  /** `o` followed by `p`, unless `o` already ended the session. */
  function Then(o: Outcome, p: Outcome): Outcome
  {
    if o.fatal.Some? then o else Outcome(p.state, o.effects + p.effects, p.fatal)
  }

  /**
   * Applying the events of a redraw notification in order; a violation stops
   * the rest. `vis[k]` is the omnibar's answer, while event `k` is handled,
   * to whether its command-line popupmenu is visible: the omnibar owns that
   * state and the window asks for it afresh at every select and hide.
   */
  function Run(s: WindowState, vis: seq<bool>, evs: seq<UiEvent>): Outcome
    requires |vis| == |evs|
    decreases |evs|
  {
    if evs == [] then Outcome(s, [], None)
    else
      var before := Run(s, vis[..|vis| - 1], evs[..|evs| - 1]);
      Then(before, Step(before.state, vis[|vis| - 1], evs[|evs| - 1]))
  }

  lemma RunSnoc(s: WindowState, vis: seq<bool>, evs: seq<UiEvent>, v: bool, ev: UiEvent)
    requires |vis| == |evs|
    ensures Run(s, vis + [v], evs + [ev]) == Then(Run(s, vis, evs), Step(Run(s, vis, evs).state, v, ev))
  {
    assert (vis + [v])[..|vis|] == vis;
    assert (evs + [ev])[..|evs|] == evs;
  }

  /** One more event of a redraw that has not failed yet. */
  lemma RedrawStep(s: WindowState, vis: seq<bool>, evs: seq<UiEvent>, i: nat)
    requires |vis| == |evs| && i < |evs| && Run(s, vis[..i], evs[..i]).fatal.None?
    ensures var o := Run(s, vis[..i], evs[..i]);
            var p := Step(o.state, vis[i], evs[i]);
            Run(s, vis[..i + 1], evs[..i + 1]) == Outcome(p.state, o.effects + p.effects, p.fatal)
  {
    RunSnoc(s, vis[..i], evs[..i], vis[i], evs[i]);
    assert vis[..i] + [vis[i]] == vis[..i + 1];
    assert evs[..i] + [evs[i]] == evs[..i + 1];
  }

  class Window {
    var colors: Colors
    var modeInfos: seq<ModeInfo>
    /** Set when an event changed what the grid size should be. */
    var resizeOnFlush: bool
    /** Set when an event changed what the style sheet should say. */
    var cssOnFlush: bool
    /** What the window asked of its children, the editor and the toolkit, in order. */
    var effects: seq<Effect>

    function State(): WindowState
      reads this
    {
      WindowState(colors, modeInfos, resizeOnFlush, cssOnFlush)
    }

    constructor (initial: Colors)
      ensures State() == WindowState(initial, [], false, false)
      ensures effects == []
    {
      colors := initial;
      modeInfos := [];
      resizeOnFlush := false;
      cssOnFlush := false;
      effects := [];
    }

    method HandleHlGroupSet(name: string, id: int)
      modifies this
      ensures match HlGroupFromName(name)
              case Some(g) => colors == old(colors).(hlGroups := old(colors).hlGroups[g := id]) && cssOnFlush
              case None => colors == old(colors) && cssOnFlush == old(cssOnFlush)
      ensures resizeOnFlush == old(resizeOnFlush) && modeInfos == old(modeInfos)
      ensures effects == old(effects)
    {
      var group := HlGroupFromName(name);
      if group.Some? {
        colors := colors.(hlGroups := colors.hlGroups[group.value := id]);
        cssOnFlush := true;
      }
    }

    method HandleDefaultColorsSet(rgbFg: int, rgbBg: int, rgbSp: int)
      modifies this
      ensures colors == old(colors).(fg := rgbFg, bg := rgbBg, sp := rgbSp) && cssOnFlush
      ensures resizeOnFlush == old(resizeOnFlush) && modeInfos == old(modeInfos)
      ensures effects == old(effects)
    {
      colors := colors.(fg := rgbFg, bg := rgbBg, sp := rgbSp);
      cssOnFlush := true;
    }

    method HandleHlAttrDefine(id: int, attr: HlAttr)
      modifies this
      ensures colors == old(colors).(hls := old(colors).hls[id := attr])
      ensures resizeOnFlush == old(resizeOnFlush) && cssOnFlush == old(cssOnFlush) && modeInfos == old(modeInfos)
      ensures effects == old(effects)
    {
      colors := colors.(hls := colors.hls[id := attr]);
    }

    method HandleOptionSet(opt: UiOption)
      modifies this
      ensures opt.Unknown? ==> resizeOnFlush == old(resizeOnFlush) && cssOnFlush == old(cssOnFlush)
      ensures !opt.Unknown? ==> resizeOnFlush && cssOnFlush
      ensures effects == old(effects) + OptionEffects(opt)
      ensures colors == old(colors) && modeInfos == old(modeInfos)
    {
      match opt
      case Linespace(linespace) =>
        resizeOnFlush := true;
        cssOnFlush := true;
        effects := effects + [Sent(Omnibar, SetCmdlineLinespace(linespace))];
      case Guifont(_) =>
        resizeOnFlush := true;
        cssOnFlush := true;
      case ShowTabline(_) =>
        resizeOnFlush := true;
        cssOnFlush := true;
      case Unknown(_) =>
    }

    method HandleModeInfoSet(styles: seq<ModeInfo>)
      modifies this
      ensures modeInfos == styles
      ensures colors == old(colors) && resizeOnFlush == old(resizeOnFlush) && cssOnFlush == old(cssOnFlush)
      ensures effects == old(effects)
    {
      modeInfos := styles;
    }

    /** Forwards the selected cursor style; an index outside the table is fatal. */
    method HandleModeChange(modeIdx: int) returns (fatal: Option<Fatal>)
      modifies this
      ensures fatal.Some? <==> !(0 <= modeIdx < |modeInfos|)
      ensures fatal.Some? ==> fatal == Some(InvalidModeIdx(modeIdx)) && effects == old(effects)
      ensures fatal.None? ==> effects == old(effects) + [Sent(Shell, ModeChanged(modeInfos[modeIdx]))]
      ensures State() == old(State())
    {
      var mode := ModeLookup(modeInfos, modeIdx);
      if mode.None? {
        return Some(InvalidModeIdx(modeIdx));
      }
      effects := effects + [Sent(Shell, ModeChanged(mode.value))];
      fatal := None;
    }

    /** Flushes the children, then resizes and restyles only if marked, clearing both marks. */
    method HandleFlush()
      modifies this
      ensures effects == old(effects) + FlushEffects(old(State()))
      ensures !resizeOnFlush && !cssOnFlush
      ensures colors == old(colors) && modeInfos == old(modeInfos)
    {
      effects := effects + [Sent(Shell, FlushGrids(colors)), Sent(Tabline, FlushTabline)];
      var resize := resizeOnFlush;
      resizeOnFlush := false;
      if resize {
        effects := effects + [ResizeRequested];
      }
      var css := cssOnFlush;
      cssOnFlush := false;
      if css {
        effects := effects + [CssRegenerated(ThemeOf(colors))];
      }
    }

    method HandlePopupmenuShow(show: PmenuShow)
      modifies this
      ensures effects == old(effects) + [Sent(ShowHost(show.grid), ShowPopupmenu(show))]
      ensures State() == old(State())
    {
      if show.grid == -1 {
        effects := effects + [Sent(Omnibar, ShowPopupmenu(show))];
      } else {
        effects := effects + [Sent(Shell, ShowPopupmenu(show))];
      }
    }

    /** `cmdlinePopupVisible` is the omnibar's answer to whether its command-line popupmenu is visible. */
    method HandlePopupmenuSelect(selected: int, cmdlinePopupVisible: bool)
      modifies this
      ensures effects == old(effects) + [Sent(SelectHost(cmdlinePopupVisible), SelectPopupmenu(selected))]
      ensures State() == old(State())
    {
      if cmdlinePopupVisible {
        effects := effects + [Sent(Omnibar, SelectPopupmenu(selected))];
      } else {
        effects := effects + [Sent(Shell, SelectPopupmenu(selected))];
      }
    }

    method HandlePopupmenuHide(cmdlinePopupVisible: bool)
      modifies this
      ensures effects == old(effects) + [Sent(SelectHost(cmdlinePopupVisible), HidePopupmenu)]
      ensures State() == old(State())
    {
      if cmdlinePopupVisible {
        effects := effects + [Sent(Omnibar, HidePopupmenu)];
      } else {
        effects := effects + [Sent(Shell, HidePopupmenu)];
      }
    }

    /** Text committed by the input method is sent to the editor with every `<` escaped. */
    method ImCommit(input: string)
      modifies this
      ensures effects == old(effects) + [NvimInput(EscapeLt(input))]
      ensures State() == old(State())
    {
      effects := effects + [NvimInput(EscapeLt(input))];
    }

    /** `handle_ui_event`: one redraw event, as `Step` specifies it. */
    method HandleUiEvent(ev: UiEvent, cmdlinePopupVisible: bool) returns (fatal: Option<Fatal>)
      modifies this
      ensures var o := Step(old(State()), cmdlinePopupVisible, ev);
              State() == o.state && effects == old(effects) + o.effects && fatal == o.fatal
    {
      if ChangesState(ev) {
        fatal := HandleStateEvent(ev);
      } else {
        fatal := HandleRoutedEvent(ev, cmdlinePopupVisible);
      }
    }

    /** The events that read or change the window's own fields. */
    method HandleStateEvent(ev: UiEvent) returns (fatal: Option<Fatal>)
      requires ChangesState(ev)
      modifies this
      ensures forall v :: var o := Step(old(State()), v, ev);
              State() == o.state && effects == old(effects) + o.effects && fatal == o.fatal
    {
      fatal := None;
      match ev
      case ModeInfoSet(styles) =>
        HandleModeInfoSet(styles);
      case OptionSet(opt) =>
        HandleOptionSet(opt);
      case ModeChange(idx) =>
        fatal := HandleModeChange(idx);
      case Flush =>
        HandleFlush();
      case DefaultColorsSet(fg, bg, sp) =>
        HandleDefaultColorsSet(fg, bg, sp);
      case HlAttrDefine(id, attr) =>
        HandleHlAttrDefine(id, attr);
      case HlGroupSet(name, id) =>
        HandleHlGroupSet(name, id);
    }

    /** The events that are ignored, passed on to a child, or fatal. */
    method HandleRoutedEvent(ev: UiEvent, cmdlinePopupVisible: bool) returns (fatal: Option<Fatal>)
      requires !ChangesState(ev)
      modifies this
      ensures var o := Step(old(State()), cmdlinePopupVisible, ev);
              State() == o.state && effects == old(effects) + o.effects && fatal == o.fatal
    {
      fatal := None;
      match ev
      case SetTitle(title) =>
        effects := effects + [TitleSet(title)];
      case SetIcon =>
      case MouseOn =>
      case MouseOff =>
      case Suspend =>
      case UpdateMenu =>
      case Bell =>
      case VisualBell =>
      case WinViewport =>
      case PopupmenuShow(show) =>
        HandlePopupmenuShow(show);
      case PopupmenuSelect(selected) =>
        HandlePopupmenuSelect(selected, cmdlinePopupVisible);
      case PopupmenuHide =>
        HandlePopupmenuHide(cmdlinePopupVisible);
      case Forward(kind, payload) =>
        effects := effects + [Sent(SinkOf(kind), ForwardCall(kind, payload, colors))];
      case Unhandled(name) =>
        fatal := Some(UnhandledEvent(name));
    }

    /**
     * A `redraw` notification: its events in array order, up to the first
     * violation. `vis[k]` is the omnibar's answer about its command-line
     * popupmenu while event `k` is handled.
     */
    method HandleRedraw(evs: seq<UiEvent>, vis: seq<bool>) returns (fatal: Option<Fatal>)
      requires |vis| == |evs|
      modifies this
      ensures var o := Run(old(State()), vis, evs);
              State() == o.state && effects == old(effects) + o.effects && fatal == o.fatal
    {
      ghost var s0 := State();
      ghost var e0 := effects;
      var i := 0;
      fatal := None;
      while i < |evs|
        invariant 0 <= i <= |evs| && fatal == None
        invariant var o := Run(s0, vis[..i], evs[..i]);
                  State() == o.state && effects == e0 + o.effects && o.fatal == None
      {
        fatal := HandleNext(s0, e0, evs, vis, i);
        if fatal.Some? {
          return;
        }
        i := i + 1;
      }
      assert evs[..i] == evs && vis[..i] == vis;
    }

    /** Event `i` of a redraw whose first `i` events have been applied without a violation. */
    method HandleNext(ghost s0: WindowState, ghost e0: seq<Effect>, evs: seq<UiEvent>, vis: seq<bool>, i: nat)
      returns (fatal: Option<Fatal>)
      requires |vis| == |evs| && i < |evs|
      requires var o := Run(s0, vis[..i], evs[..i]);
               State() == o.state && effects == e0 + o.effects && o.fatal == None
      modifies this
      ensures fatal.None? ==> var o := Run(s0, vis[..i + 1], evs[..i + 1]);
                              State() == o.state && effects == e0 + o.effects && o.fatal == None
      ensures fatal.Some? ==> var o := Run(s0, vis, evs);
                              State() == o.state && effects == e0 + o.effects && fatal == o.fatal
    {
      ghost var o := Run(s0, vis[..i], evs[..i]);
      ghost var e1 := effects;
      fatal := HandleUiEvent(evs[i], vis[i]);
      ghost var p := Step(o.state, vis[i], evs[i]);
      assert effects == e1 + p.effects;
      RedrawStep(s0, vis, evs, i);
      SeqAssoc(e0, o.effects, p.effects);
      if fatal.Some? {
        RunStopsAtFatal(s0, vis[..i + 1], evs[..i + 1], vis[i + 1..], evs[i + 1..]);
        assert evs[..i + 1] + evs[i + 1..] == evs;
        assert vis[..i + 1] + vis[i + 1..] == vis;
      }
    }
  }

  /** Nothing after a violation is applied. */
  lemma {:induction false} RunStopsAtFatal(s: WindowState, vis: seq<bool>, evs: seq<UiEvent>, visRest: seq<bool>, rest: seq<UiEvent>)
    requires |vis| == |evs| && |visRest| == |rest|
    requires Run(s, vis, evs).fatal.Some?
    ensures Run(s, vis + visRest, evs + rest) == Run(s, vis, evs)
    decreases |rest|
  {
    if rest == [] {
      assert evs + rest == evs && vis + visRest == vis;
    } else {
      var front, visFront := rest[..|rest| - 1], visRest[..|visRest| - 1];
      RunStopsAtFatal(s, vis, evs, visFront, front);
      assert evs + rest == (evs + front) + [rest[|rest| - 1]];
      assert vis + visRest == (vis + visFront) + [visRest[|visRest| - 1]];
      RunSnoc(s, vis + visFront, evs + front, visRest[|visRest| - 1], rest[|rest| - 1]);
    }
  }
}
