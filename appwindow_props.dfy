/**
 * Properties of the app window's redraw dispatcher, stated about `Step` and
 * `Run`: the dirty-flag protocol around `flush`, the highlight tables, the
 * cursor mode lookup and the popupmenu routing.
 */
module AppWindowProps {
  import opened Wrappers
  import opened UiEvents
  import opened AppWindow
  import opened Seqs

  /** An event that marks the grid size dirty. */
  predicate MarksResize(ev: UiEvent)
  {
    ev.OptionSet? && !ev.option.Unknown?
  }

  /** An event that marks the style sheet dirty. */
  predicate MarksCss(ev: UiEvent)
  {
    MarksResize(ev) || ev.DefaultColorsSet? || (ev.HlGroupSet? && HlGroupFromName(ev.name).Some?)
  }

  /** True when the effect list holds no resize and no style-sheet regeneration. */
  predicate Quiet(effects: seq<Effect>)
  {
    forall k :: 0 <= k < |effects| ==> !effects[k].ResizeRequested? && !effects[k].CssRegenerated?
  }

  // ---------------------------------------------------------------------------
  // Running several events

  lemma RunOne(s: WindowState, v: bool, ev: UiEvent)
    ensures Run(s, [v], [ev]) == Step(s, v, ev)
  {
    RunSnoc(s, [], [], v, ev);
    assert [] + [ev] == [ev] && [] + [v] == [v];
    assert [] + Step(s, v, ev).effects == Step(s, v, ev).effects;
  }

  /** `Then` is associative: it is how outcomes of consecutive events compose. */
  lemma ThenAssoc(x: Outcome, y: Outcome, z: Outcome)
    ensures Then(Then(x, y), z) == Then(x, Then(y, z))
  {
    if x.fatal.None? && y.fatal.None? {
      SeqAssoc(x.effects, y.effects, z.effects);
    }
  }

  /** Running `a + b` is running `a`, then `b` from where `a` left off, unless `a` failed. */
  lemma {:induction false} RunConcat(s: WindowState, va: seq<bool>, a: seq<UiEvent>, vb: seq<bool>, b: seq<UiEvent>)
    requires |va| == |a| && |vb| == |b|
    ensures Run(s, va + vb, a + b) == Then(Run(s, va, a), Run(Run(s, va, a).state, vb, b))
    decreases |b|
  {
    var ra := Run(s, va, a);
    if b == [] {
      assert a + b == a && va + vb == va;
      assert ra.effects + [] == ra.effects;
    } else {
      var front, last := b[..|b| - 1], b[|b| - 1];
      var vfront, vlast := vb[..|vb| - 1], vb[|vb| - 1];
      assert a + b == (a + front) + [last] && va + vb == (va + vfront) + [vlast];
      assert b == front + [last] && vb == vfront + [vlast];
      RunConcat(s, va, a, vfront, front);
      var rf := Run(ra.state, vfront, front);
      var mid := Run(s, va + vfront, a + front);
      assert mid == Then(ra, rf);
      RunSnoc(s, va + vfront, a + front, vlast, last);
      RunSnoc(ra.state, vfront, front, vlast, last);
      if ra.fatal.None? {
        assert mid.state == rf.state;
        ThenAssoc(ra, rf, Step(rf.state, vlast, last));
      }
    }
  }

  lemma RunPair(s: WindowState, v1: bool, v2: bool, e1: UiEvent, e2: UiEvent)
    ensures Run(s, [v1, v2], [e1, e2]) == Then(Step(s, v1, e1), Step(Step(s, v1, e1).state, v2, e2))
  {
    RunConcat(s, [v1], [e1], [v2], [e2]);
    assert [e1] + [e2] == [e1, e2] && [v1] + [v2] == [v1, v2];
    RunOne(s, v1, e1);
    RunOne(Step(s, v1, e1).state, v2, e2);
  }

  /** Only select and hide read the omnibar's answer. */
  lemma StepIgnoresVisibility(s: WindowState, v: bool, w: bool, ev: UiEvent)
    requires !ev.PopupmenuSelect? && !ev.PopupmenuHide?
    ensures Step(s, v, ev) == Step(s, w, ev)
  {
  }

  /** A notification without select or hide does not depend on the omnibar's answers. */
  lemma {:induction false} VisibilityOnlyRoutes(s: WindowState, vis: seq<bool>, vis2: seq<bool>, evs: seq<UiEvent>)
    requires |vis| == |evs| && |vis2| == |evs|
    requires forall k :: 0 <= k < |evs| ==> !evs[k].PopupmenuSelect? && !evs[k].PopupmenuHide?
    ensures Run(s, vis, evs) == Run(s, vis2, evs)
    decreases |evs|
  {
    if evs != [] {
      var n := |evs| - 1;
      VisibilityOnlyRoutes(s, vis[..n], vis2[..n], evs[..n]);
      StepIgnoresVisibility(Run(s, vis[..n], evs[..n]).state, vis[n], vis2[n], evs[n]);
    }
  }

  /**
   * A select is routed by the answer the omnibar gives when the select is
   * handled, not by an earlier one: after a show on the command-line grid
   * the select still goes wherever the omnibar's current answer says.
   */
  lemma ShowThenSelect(s: WindowState, v1: bool, v2: bool, show: PmenuShow, selected: int)
    requires show.grid == -1
    ensures Run(s, [v1, v2], [PopupmenuShow(show), PopupmenuSelect(selected)]).effects
         == [Sent(Omnibar, ShowPopupmenu(show)), Sent(SelectHost(v2), SelectPopupmenu(selected))]
  {
    RunPair(s, v1, v2, PopupmenuShow(show), PopupmenuSelect(selected));
  }

  // ---------------------------------------------------------------------------
  // Highlight groups and attributes

  /** A recognised group name maps that group to the id and marks the style sheet dirty, nothing else. */
  lemma HlGroupSetKnown(s: WindowState, v: bool, g: HlGroup, id: int)
    ensures var o := Step(s, v, HlGroupSet(GroupName(g), id));
            && o.state.colors == s.colors.(hlGroups := s.colors.hlGroups[g := id])
            && o.state.cssOnFlush
            && o.state.resizeOnFlush == s.resizeOnFlush && o.state.modeInfos == s.modeInfos
            && o.effects == [] && o.fatal == None
  {
    assert HlGroupFromName(GroupName(g)) == Some(g);
  }

  /** Any other name changes nothing: not the colours and neither flag. */
  lemma HlGroupSetOther(s: WindowState, v: bool, name: string, id: int)
    requires forall g :: GroupName(g) != name
    ensures Step(s, v, HlGroupSet(name, id)) == Outcome(s, [], None)
  {
    assert HlGroupFromName(name) == None;
  }

  /** Exactly nine names are recognised. */
  lemma NineGroupNames()
    ensures |AllGroups| == 9
    ensures forall g: HlGroup :: g in AllGroups
    ensures forall g, h :: GroupName(g) == GroupName(h) ==> g == h
  {
    assert forall g: HlGroup :: g in AllGroups by {
      forall g: HlGroup ensures g in AllGroups {
        match g
        case MsgSeparator => case Pmenu => case PmenuSel => case PmenuSbar => case PmenuThumb =>
        case TabLine => case TabLineFill => case TabLineSel => case Menu =>
      }
    }
    assert |AllGroups| == 9 by {
      var l := [MsgSeparator, Pmenu, PmenuSel, PmenuSbar, PmenuThumb, TabLine, TabLineFill, TabLineSel, Menu];
      DistinctCard(l);
    }
    forall g, h | GroupName(g) == GroupName(h) ensures g == h {
      assert HlGroupFromName(GroupName(g)) == Some(h);
    }
  }

  lemma {:induction false} DistinctCard<X>(l: seq<X>)
    requires forall i, j :: 0 <= i < j < |l| ==> l[i] != l[j]
    ensures |set x | x in l| == |l|
  {
    if l != [] {
      var rest := l[1..];
      DistinctCard(rest);
      assert (set x | x in l) == {l[0]} + (set x | x in rest);
      assert l[0] !in rest;
    }
  }

  /** `default_colors_set` overwrites the three default colours and marks only the style sheet. */
  lemma DefaultColorsSetSpec(s: WindowState, v: bool, fg: int, bg: int, sp: int)
    ensures var o := Step(s, v, DefaultColorsSet(fg, bg, sp));
            && o.state.colors.fg == fg && o.state.colors.bg == bg && o.state.colors.sp == sp
            && o.state.colors.hls == s.colors.hls && o.state.colors.hlGroups == s.colors.hlGroups
            && o.state.cssOnFlush && o.state.resizeOnFlush == s.resizeOnFlush
            && o.state.modeInfos == s.modeInfos && o.effects == [] && o.fatal == None
  {
  }

  /** `hl_attr_define` touches neither flag and only the one id. */
  lemma HlAttrDefineSpec(s: WindowState, v: bool, id: int, attr: HlAttr)
    ensures var o := Step(s, v, HlAttrDefine(id, attr));
            && o.state == s.(colors := s.colors.(hls := s.colors.hls[id := attr]))
            && id in o.state.colors.hls && o.state.colors.hls[id] == attr
            && (forall other :: other != id && other in s.colors.hls ==> other in o.state.colors.hls && o.state.colors.hls[other] == s.colors.hls[other])
            && o.state.resizeOnFlush == s.resizeOnFlush && o.state.cssOnFlush == s.cssOnFlush
            && o.effects == [] && o.fatal == None
  {
  }

  /** The last definition of an id wins. */
  lemma HlAttrLastWins(s: WindowState, v: bool, id: int, a: HlAttr, b: HlAttr)
    ensures Run(s, [v, v], [HlAttrDefine(id, a), HlAttrDefine(id, b)]) == Run(s, [v], [HlAttrDefine(id, b)])
  {
    RunPair(s, v, v, HlAttrDefine(id, a), HlAttrDefine(id, b));
    RunOne(s, v, HlAttrDefine(id, b));
    assert s.colors.hls[id := a][id := b] == s.colors.hls[id := b];
  }

  /** Definitions of two different ids may come in either order. */
  lemma HlAttrDefinesCommute(s: WindowState, v: bool, id1: int, a: HlAttr, id2: int, b: HlAttr)
    requires id1 != id2
    ensures Run(s, [v, v], [HlAttrDefine(id1, a), HlAttrDefine(id2, b)]) == Run(s, [v, v], [HlAttrDefine(id2, b), HlAttrDefine(id1, a)])
  {
    var both := s.(colors := s.colors.(hls := s.colors.hls[id1 := a][id2 := b]));
    assert s.colors.hls[id1 := a][id2 := b] == s.colors.hls[id2 := b][id1 := a];
    RunPair(s, v, v, HlAttrDefine(id1, a), HlAttrDefine(id2, b));
    assert Run(s, [v, v], [HlAttrDefine(id1, a), HlAttrDefine(id2, b)]) == Outcome(both, [], None);
    RunPair(s, v, v, HlAttrDefine(id2, b), HlAttrDefine(id1, a));
    assert Run(s, [v, v], [HlAttrDefine(id2, b), HlAttrDefine(id1, a)]) == Outcome(both, [], None);
  }

  /** Setting a group and defining an attribute commute within a batch. */
  lemma GroupSetAndAttrDefineCommute(s: WindowState, v: bool, name: string, gid: int, id: int, attr: HlAttr)
    ensures Run(s, [v, v], [HlGroupSet(name, gid), HlAttrDefine(id, attr)])
         == Run(s, [v, v], [HlAttrDefine(id, attr), HlGroupSet(name, gid)])
  {
    RunPair(s, v, v, HlGroupSet(name, gid), HlAttrDefine(id, attr));
    RunPair(s, v, v, HlAttrDefine(id, attr), HlGroupSet(name, gid));
  }

  /** The style sheet takes a group's attributes through its id. */
  lemma ThemeGroup(c: Colors, g: HlGroup, id: int, attr: HlAttr)
    requires g in c.hlGroups && c.hlGroups[g] == id && id in c.hls && c.hls[id] == attr
    ensures g in ThemeOf(c).groups && ThemeOf(c).groups[g] == attr
  {
    assert g in AllGroups by { NineGroupNames(); }
  }

  /** After mapping `g` to `id` and defining `id`, the group resolves to the attributes. */
  lemma GroupAndAttrState(s: WindowState, v: bool, g: HlGroup, id: int, attr: HlAttr)
    ensures var o := Run(s, [v, v], [HlGroupSet(GroupName(g), id), HlAttrDefine(id, attr)]);
            && o.fatal == None && o.effects == [] && o.state.cssOnFlush
            && g in o.state.colors.hlGroups && o.state.colors.hlGroups[g] == id
            && id in o.state.colors.hls && o.state.colors.hls[id] == attr
  {
    assert HlGroupFromName(GroupName(g)) == Some(g);
    RunPair(s, v, v, HlGroupSet(GroupName(g), id), HlAttrDefine(id, attr));
  }

  /**
   * Mapping group `g` to `id` and defining `id` as `attr`, in either order,
   * makes the next `flush` regenerate the style sheet with `attr` for `g`.
   */
  lemma GroupStyleAfterFlush(s: WindowState, v: bool, g: HlGroup, id: int, attr: HlAttr)
    ensures var o := Run(s, [v, v, v], [HlGroupSet(GroupName(g), id), HlAttrDefine(id, attr), Flush]);
            && o.fatal == None
            && o.effects[|o.effects| - 1].CssRegenerated?
            && o.effects[|o.effects| - 1].theme.groups[g] == attr
    ensures Run(s, [v, v, v], [HlAttrDefine(id, attr), HlGroupSet(GroupName(g), id), Flush])
         == Run(s, [v, v, v], [HlGroupSet(GroupName(g), id), HlAttrDefine(id, attr), Flush])
  {
    var e1, e2 := HlGroupSet(GroupName(g), id), HlAttrDefine(id, attr);
    RunSnoc(s, [v, v], [e1, e2], v, Flush);
    RunSnoc(s, [v, v], [e2, e1], v, Flush);
    assert [v, v] + [v] == [v, v, v];
    assert [e1, e2] + [Flush] == [e1, e2, Flush];
    assert [e2, e1] + [Flush] == [e2, e1, Flush];
    GroupSetAndAttrDefineCommute(s, v, GroupName(g), id, id, attr);
    GroupAndAttrState(s, v, g, id, attr);
    var mid := Run(s, [v, v], [e1, e2]).state;
    ThemeGroup(mid.colors, g, id, attr);
    var fx := FlushEffects(mid);
    assert fx[|fx| - 1] == CssRegenerated(ThemeOf(mid.colors));
    assert Run(s, [v, v, v], [e1, e2, Flush]) == Outcome(mid.(resizeOnFlush := false, cssOnFlush := false), [] + fx, None);
    assert [] + fx == fx;
  }

  // ---------------------------------------------------------------------------
  // Options and the dirty-flag protocol

  /** The three known options mark both size and style dirty; an unknown one changes nothing. */
  lemma OptionSetFlags(s: WindowState, v: bool, opt: UiOption)
    ensures var o := Step(s, v, OptionSet(opt));
            && o.state.resizeOnFlush == (s.resizeOnFlush || !opt.Unknown?)
            && o.state.cssOnFlush == (s.cssOnFlush || !opt.Unknown?)
            && o.state.colors == s.colors && o.state.modeInfos == s.modeInfos && o.fatal == None
            && Quiet(o.effects)
    ensures opt.Unknown? ==> Step(s, v, OptionSet(opt)) == Outcome(s, [], None)
  {
  }

  /**
   * `flush` flushes the grids and the tabline, requests a resize exactly when
   * the size was marked, then regenerates the style sheet from the current
   * colours exactly when the style was marked, and clears both marks.
   */
  lemma FlushSpec(s: WindowState, v: bool)
    ensures var o := Step(s, v, Flush);
            && o.fatal == None && o.state == s.(resizeOnFlush := false, cssOnFlush := false)
            && |o.effects| >= 2
            && o.effects[0] == Sent(Shell, FlushGrids(s.colors)) && o.effects[1] == Sent(Tabline, FlushTabline)
            && (ResizeRequested in o.effects <==> s.resizeOnFlush)
            && (CssRegenerated(ThemeOf(s.colors)) in o.effects <==> s.cssOnFlush)
            && (forall k :: 0 <= k < |o.effects| && o.effects[k].CssRegenerated? ==> o.effects[k].theme == ThemeOf(s.colors))
            && (s.resizeOnFlush && s.cssOnFlush ==> o.effects[2] == ResizeRequested)
  {
  }

  /** A second `flush` with nothing in between neither resizes nor regenerates the style sheet. */
  lemma SecondFlushQuiet(s: WindowState, v: bool)
    ensures var o := Run(s, [v, v], [Flush, Flush]);
            o.effects == FlushEffects(s) + [Sent(Shell, FlushGrids(s.colors)), Sent(Tabline, FlushTabline)]
  {
    RunPair(s, v, v, Flush, Flush);
  }

  /** Some event of `evs` marks the size dirty. */
  predicate AnyMarksResize(evs: seq<UiEvent>)
  {
    exists k :: 0 <= k < |evs| && MarksResize(evs[k])
  }

  /** Some event of `evs` marks the style sheet dirty. */
  predicate AnyMarksCss(evs: seq<UiEvent>)
  {
    exists k :: 0 <= k < |evs| && MarksCss(evs[k])
  }

  lemma AnyMarksSnoc(front: seq<UiEvent>, last: UiEvent)
    ensures AnyMarksResize(front + [last]) == (AnyMarksResize(front) || MarksResize(last))
    ensures AnyMarksCss(front + [last]) == (AnyMarksCss(front) || MarksCss(last))
  {
    var evs := front + [last];
    assert evs[|front|] == last;
    if AnyMarksResize(evs) {
      var k :| 0 <= k < |evs| && MarksResize(evs[k]);
      if k < |front| { assert front[k] == evs[k]; }
    }
    if AnyMarksCss(evs) {
      var k :| 0 <= k < |evs| && MarksCss(evs[k]);
      if k < |front| { assert front[k] == evs[k]; }
    }
    if AnyMarksResize(front) {
      var k :| 0 <= k < |front| && MarksResize(front[k]);
      assert evs[k] == front[k];
    }
    if AnyMarksCss(front) {
      var k :| 0 <= k < |front| && MarksCss(front[k]);
      assert evs[k] == front[k];
    }
  }

  lemma QuietConcat(a: seq<Effect>, b: seq<Effect>)
    requires Quiet(a) && Quiet(b)
    ensures Quiet(a + b)
  {
    forall k | 0 <= k < |a + b|
      ensures !(a + b)[k].ResizeRequested? && !(a + b)[k].CssRegenerated?
    {
      if k >= |a| {
        assert (a + b)[k] == b[k - |a|];
      }
    }
  }

  /** Any event but `flush` can only set the marks, and neither resizes nor restyles. */
  lemma StepMarks(s: WindowState, v: bool, ev: UiEvent)
    requires !ev.Flush?
    ensures var p := Step(s, v, ev);
            && p.state.resizeOnFlush == (s.resizeOnFlush || MarksResize(ev))
            && p.state.cssOnFlush == (s.cssOnFlush || MarksCss(ev))
            && Quiet(p.effects)
  {
  }

  /**
   * Between two flushes the marks only accumulate: a mark is set after a run
   * of events exactly when it was set before or some event set it, and
   * nothing is resized or restyled yet.
   */
  lemma {:induction false} FlagsBetweenFlushes(s: WindowState, vis: seq<bool>, evs: seq<UiEvent>)
    requires |vis| == |evs|
    requires forall k :: 0 <= k < |evs| ==> !evs[k].Flush?
    requires Run(s, vis, evs).fatal.None?
    ensures Run(s, vis, evs).state.resizeOnFlush == (s.resizeOnFlush || AnyMarksResize(evs))
    ensures Run(s, vis, evs).state.cssOnFlush == (s.cssOnFlush || AnyMarksCss(evs))
    ensures Quiet(Run(s, vis, evs).effects)
    decreases |evs|
  {
    if evs != [] {
      var front, last := evs[..|evs| - 1], evs[|evs| - 1];
      var vfront, vlast := vis[..|vis| - 1], vis[|vis| - 1];
      assert evs == front + [last] && vis == vfront + [vlast];
      RunSnoc(s, vfront, front, vlast, last);
      var o := Run(s, vfront, front);
      assert o.fatal.None?;
      assert forall k :: 0 <= k < |front| ==> front[k] == evs[k];
      FlagsBetweenFlushes(s, vfront, front);
      var p := Step(o.state, vlast, last);
      StepMarks(o.state, vlast, last);
      QuietConcat(o.effects, p.effects);
      AnyMarksSnoc(front, last);
    }
  }

  /** What a `flush` adds to effects that hold no resize and no restyle. */
  lemma QuietThenFlush(pre: seq<Effect>, st: WindowState)
    requires Quiet(pre)
    ensures ResizeRequested in pre + FlushEffects(st) <==> st.resizeOnFlush
    ensures (exists k :: 0 <= k < |pre + FlushEffects(st)| && (pre + FlushEffects(st))[k].CssRegenerated?)
            <==> st.cssOnFlush
  {
    var post := FlushEffects(st);
    var all := pre + post;
    if ResizeRequested in all {
      var k :| 0 <= k < |all| && all[k] == ResizeRequested;
      assert post[k - |pre|] == ResizeRequested;
    }
    if st.resizeOnFlush {
      assert all[|pre| + 2] == post[2];
    }
    if exists k :: 0 <= k < |all| && all[k].CssRegenerated? {
      var k :| 0 <= k < |all| && all[k].CssRegenerated?;
      assert post[k - |pre|].CssRegenerated?;
    }
    if st.cssOnFlush {
      var k := |post| - 1;
      assert all[|pre| + k] == post[k];
    }
  }

  lemma FlushSplit(s: WindowState, vis: seq<bool>, v: bool, evs: seq<UiEvent>)
    requires |vis| == |evs|
    requires Run(s, vis, evs).fatal.None? && Quiet(Run(s, vis, evs).effects)
    ensures var o := Run(s, vis + [v], evs + [Flush]);
            var before := Run(s, vis, evs).state;
            && o.fatal == None && !o.state.resizeOnFlush && !o.state.cssOnFlush
            && (ResizeRequested in o.effects <==> before.resizeOnFlush)
            && ((exists k :: 0 <= k < |o.effects| && o.effects[k].CssRegenerated?) <==> before.cssOnFlush)
  {
    var o := Run(s, vis, evs);
    RunSnoc(s, vis, evs, v, Flush);
    assert Run(s, vis + [v], evs + [Flush])
        == Outcome(o.state.(resizeOnFlush := false, cssOnFlush := false), o.effects + FlushEffects(o.state), None);
    QuietThenFlush(o.effects, o.state);
  }

  /**
   * The `flush` that ends a batch requests a resize exactly when the size was
   * marked before the batch or by one of its events, and likewise regenerates
   * the style sheet; afterwards both marks are clear.
   */
  lemma FlushEndsBatch(s: WindowState, vis: seq<bool>, v: bool, evs: seq<UiEvent>)
    requires |vis| == |evs|
    requires forall k :: 0 <= k < |evs| ==> !evs[k].Flush?
    requires Run(s, vis, evs).fatal.None?
    ensures var o := Run(s, vis + [v], evs + [Flush]);
            && o.fatal == None && !o.state.resizeOnFlush && !o.state.cssOnFlush
            && (ResizeRequested in o.effects <==> s.resizeOnFlush || AnyMarksResize(evs))
            && ((exists k :: 0 <= k < |o.effects| && o.effects[k].CssRegenerated?)
                <==> s.cssOnFlush || AnyMarksCss(evs))
  {
    FlagsBetweenFlushes(s, vis, evs);
    FlushSplit(s, vis, v, evs);
  }

  /** Number of resize requests among `effects`. */
  function ResizeCount(effects: seq<Effect>): nat
  {
    if effects == [] then 0
    else (if effects[0].ResizeRequested? then 1 else 0) + ResizeCount(effects[1..])
  }

  lemma {:induction false} ResizeCountConcat(a: seq<Effect>, b: seq<Effect>)
    ensures ResizeCount(a + b) == ResizeCount(a) + ResizeCount(b)
    decreases |a|
  {
    if a == [] {
      assert a + b == b;
    } else {
      assert (a + b)[0] == a[0] && (a + b)[1..] == a[1..] + b;
      ResizeCountConcat(a[1..], b);
    }
  }

  lemma {:induction false} QuietNoResize(effects: seq<Effect>)
    requires Quiet(effects)
    ensures ResizeCount(effects) == 0
    decreases |effects|
  {
    if effects != [] {
      assert !effects[0].ResizeRequested?;
      assert Quiet(effects[1..]) by {
        forall k | 0 <= k < |effects[1..]|
          ensures !effects[1..][k].ResizeRequested? && !effects[1..][k].CssRegenerated?
        {
          assert effects[1..][k] == effects[k + 1];
        }
      }
      QuietNoResize(effects[1..]);
    }
  }

  /**
   * However many events of a batch mark the size dirty, the `flush` that ends
   * it requests one resize, and none when nothing marked it.
   */
  lemma OneResizePerFlush(s: WindowState, vis: seq<bool>, v: bool, evs: seq<UiEvent>)
    requires |vis| == |evs|
    requires forall k :: 0 <= k < |evs| ==> !evs[k].Flush?
    requires Run(s, vis, evs).fatal.None?
    ensures ResizeCount(Run(s, vis + [v], evs + [Flush]).effects) == if s.resizeOnFlush || AnyMarksResize(evs) then 1 else 0
  {
    var o := Run(s, vis, evs);
    FlagsBetweenFlushes(s, vis, evs);
    RunSnoc(s, vis, evs, v, Flush);
    assert Run(s, vis + [v], evs + [Flush]).effects == o.effects + FlushEffects(o.state);
    QuietNoResize(o.effects);
    ResizeCountConcat(o.effects, FlushEffects(o.state));
    var fx := FlushEffects(o.state);
    var head: seq<Effect> := [Sent(Shell, FlushGrids(o.state.colors)), Sent(Tabline, FlushTabline)];
    var mid: seq<Effect> := if o.state.resizeOnFlush then [ResizeRequested] else [];
    var tail: seq<Effect> := if o.state.cssOnFlush then [CssRegenerated(ThemeOf(o.state.colors))] else [];
    assert fx == head + mid + tail;
    ResizeCountConcat(head + mid, tail);
    ResizeCountConcat(head, mid);
    assert ResizeCount(head) == 0 by {
      assert head[1..][1..] == [];
    }
    assert ResizeCount(tail) == 0 by {
      if tail != [] { assert tail[1..] == []; }
    }
    assert ResizeCount(mid) == if o.state.resizeOnFlush then 1 else 0 by {
      if mid != [] { assert mid[1..] == []; }
    }
  }

  /** Two font changes in one batch still give a single resize at its `flush`. */
  lemma TwoFontChangesOneResize(s: WindowState, v: bool, a: string, b: string)
    ensures ResizeCount(Run(s, [v, v, v], [OptionSet(Guifont(a)), OptionSet(Guifont(b)), Flush]).effects) == 1
  {
    var evs := [OptionSet(Guifont(a)), OptionSet(Guifont(b))];
    assert evs + [Flush] == [OptionSet(Guifont(a)), OptionSet(Guifont(b)), Flush];
    assert [v, v] + [v] == [v, v, v];
    RunPair(s, v, v, evs[0], evs[1]);
    assert MarksResize(evs[0]);
    OneResizePerFlush(s, [v, v], v, evs);
  }

  // ---------------------------------------------------------------------------
  // Cursor modes

  /** `mode_change` fails exactly for an index outside the table, and otherwise forwards that entry. */
  lemma ModeChangeSpec(s: WindowState, v: bool, idx: int)
    ensures var o := Step(s, v, ModeChange(idx));
            && o.state == s
            && (o.fatal.Some? <==> idx < 0 || idx >= |s.modeInfos|)
            && (o.fatal.Some? ==> o.fatal == Some(InvalidModeIdx(idx)) && o.effects == [])
            && (o.fatal.None? ==> o.effects == [Sent(Shell, ModeChanged(s.modeInfos[idx]))])
  {
  }

  /** `mode_info_set` replaces the table wholesale: the old table no longer matters. */
  lemma ModeInfoSetReplaces(s: WindowState, v: bool, styles: seq<ModeInfo>, idx: int)
    ensures var o := Run(s, [v, v], [ModeInfoSet(styles), ModeChange(idx)]);
            && o.state == s.(modeInfos := styles)
            && (o.fatal.Some? <==> !(0 <= idx < |styles|))
            && (o.fatal.None? ==> o.effects == [Sent(Shell, ModeChanged(styles[idx]))])
  {
    RunPair(s, v, v, ModeInfoSet(styles), ModeChange(idx));
  }

  /** Events after a violation are not applied at all. */
  lemma ViolationEndsRedraw(s: WindowState, v: bool, idx: int, visRest: seq<bool>, rest: seq<UiEvent>)
    requires idx < 0 || idx >= |s.modeInfos|
    requires |visRest| == |rest|
    ensures Run(s, [v] + visRest, [ModeChange(idx)] + rest) == Outcome(s, [], Some(InvalidModeIdx(idx)))
  {
    RunOne(s, v, ModeChange(idx));
    RunStopsAtFatal(s, [v], [ModeChange(idx)], visRest, rest);
  }

  // ---------------------------------------------------------------------------
  // Popupmenu routing

  /** `popupmenu_show` goes to the omnibar exactly for grid -1, and to the shell otherwise. */
  lemma PopupmenuShowRouting(s: WindowState, v: bool, show: PmenuShow)
    ensures var o := Step(s, v, PopupmenuShow(show));
            && o.state == s && o.fatal == None
            && o.effects == [Sent(if show.grid == -1 then Omnibar else Shell, ShowPopupmenu(show))]
  {
  }

  /** Select and hide follow the command-line popupmenu's visibility and nothing else. */
  lemma PopupmenuSelectHideRouting(s: WindowState, v: bool, selected: int)
    ensures var o := Step(s, v, PopupmenuSelect(selected));
            o.state == s && o.fatal == None
            && o.effects == [Sent(if v then Omnibar else Shell, SelectPopupmenu(selected))]
    ensures var o := Step(s, v, PopupmenuHide);
            o.state == s && o.fatal == None
            && o.effects == [Sent(if v then Omnibar else Shell, HidePopupmenu)]
  {
  }

  // ---------------------------------------------------------------------------
  // Other events

  /** The events the window accepts and ignores change nothing and do nothing. */
  lemma IgnoredEvents(s: WindowState, v: bool, ev: UiEvent)
    requires ev.SetIcon? || ev.MouseOn? || ev.MouseOff? || ev.Suspend? || ev.UpdateMenu?
          || ev.Bell? || ev.VisualBell? || ev.WinViewport?
    ensures Step(s, v, ev) == Outcome(s, [], None)
  {
  }

  /** An event the window has no arm for ends the session. */
  lemma UnhandledIsFatal(s: WindowState, v: bool, name: string)
    ensures Step(s, v, Unhandled(name)).fatal == Some(UnhandledEvent(name))
  {
  }

  /**
   * Default colours white on black, then `flush`: the colours are set and both
   * marks clear. A line-space option then marks both without touching the
   * colours, and the next `flush` clears them again.
   */
  lemma ColorsThenLinespace(s: WindowState, v: bool)
    ensures var a := Run(s, [v, v], [DefaultColorsSet(0xffffff, 0x000000, 0x000000), Flush]);
            var b := Run(a.state, [v], [OptionSet(Linespace(4))]);
            var c := Run(b.state, [v], [Flush]);
            && a.state.colors.fg == 0xffffff && a.state.colors.bg == 0 && a.state.colors.sp == 0
            && !a.state.resizeOnFlush && !a.state.cssOnFlush
            && CssRegenerated(ThemeOf(a.state.colors)) in a.effects
            && b.state.resizeOnFlush && b.state.cssOnFlush && b.state.colors == a.state.colors
            && !c.state.resizeOnFlush && !c.state.cssOnFlush
            && ResizeRequested in c.effects && CssRegenerated(ThemeOf(a.state.colors)) in c.effects
  {
    var d := DefaultColorsSet(0xffffff, 0x000000, 0x000000);
    RunPair(s, v, v, d, Flush);
    var a := Run(s, [v, v], [d, Flush]);
    RunOne(a.state, v, OptionSet(Linespace(4)));
    var b := Run(a.state, [v], [OptionSet(Linespace(4))]);
    RunOne(b.state, v, Flush);
  }
}
