# gnvim: lazy popupmenu model and redraw dispatcher

This project models two pieces of gnvim, a GTK front-end for Neovim, in Dafny, and proves properties of the models:

- **The popupmenu list model** (`PopupmenuModel`, in `popupmenu_model.dfy`). The completion list does not hand all its items to the GTK list view at once. `set_items` replaces the contents and exposes the first batch of at most 40 items. It then schedules an idle job, and each run of that job exposes another batch of at most 40 until nothing is pending.
  - Every batch is announced with an `items-changed(position, removed, added)` notification.
  - The selected item is then re-announced with `selection-changed`.
  - The class `Model` keeps the two queues `items` and `toAdd`, the handle of the scheduled idle source, and a log of the notifications.
  - The pure functions `MoveBatch`, `SetItemsBatch` and `Ticks` specify one batch, `set_items`, and the idle job run to completion.
- **The redraw dispatcher of the app window** (`AppWindow` and `AppWindowProps`, in `appwindow.dfy` and `appwindow_props.dfy`). The window keeps three pieces of state:
  - the colour table: the default colours, the attributes per highlight id, and the id of each highlight group;
  - the cursor mode table;
  - two dirty flags, `resizeOnFlush` and `cssOnFlush`.

  Neovim sends `redraw` notifications. Each is a sequence of UI events, and the window applies them in order:
  - Highlight, colour and option events update the state. `default_colors_set`, a recognised `hl_group_set` and the three known options also set flags, while `hl_attr_define` sets none. Redefining an id's attributes alone therefore does not restyle at the next `flush`.
  - `flush` flushes the grids and the tabline. It requests a resize only if the size flag is set, then regenerates the style sheet only if the style flag is set, and clears both flags.
  - Popupmenu events are routed to the omnibar (the command-line popup) or to the shell.
  - Most other events are forwarded unchanged to the child that owns them.
  - An out-of-range `mode_change` index, or an event with no handler, ends the session.

  The window's calls into its children, into Neovim and into the toolkit are recorded as a list of `Effect` values. They are not modelled further.
  - `Step` and `Run` specify one event and a whole notification.
  - The class `Window` holds the same state, and its handler methods update it in place.
    - Each single-event handler states its effect field by field.
    - `HandleUiEvent`, `HandleStateEvent` and `HandleRoutedEvent` are proved against `Step`, and `HandleRedraw` and `HandleNext` against `Run`.
    - `ImCommit` handles text from the input method. That text is not a redraw event, so `Step` does not cover it.
  - The omnibar owns the visibility of the command-line popupmenu, and the window asks for it again at every select and hide. `Step` takes the omnibar's answer as a parameter, and `Run` takes one answer per event.
  - `AppWindowProps` proves the flag protocol, the highlight properties, the mode lookup and the routing rules about `Step` and `Run`.
- **The escaping of committed input-method text** (`InputEscape`, in `input_escape.dfy`). Every `<` becomes `<lt>` before the text is sent with `nvim_input`. `UnescapeLt` is how Neovim reads `<lt>` back, and it serves as the reference for a round-trip lemma.

`ui_events.dfy` holds the event datatypes, `wrappers.dfy` the `Option` type and `seqs.dfy` a fact about sequences.

Three behaviours of the code that a reader may not expect, kept as written:
- **The idle job always runs at least once.** `set_items` moves the first batch itself and then schedules the idle job whatever is left, so the first idle tick always runs. For a list of at most 40 items there are therefore two `items-changed` notifications, the second one `(n, 0, 0)`. In general `ceil(n/40)` of the batches are non-empty, and `ScheduleFacts` states the exact count.
- **The selection bound is inclusive.** `do_selection` announces item `i` when `i <= n_items()`, so an index one past the end is announced too. The model keeps this bound as written.
- **Select and hide are always routed.** `popupmenu_select` and `popupmenu_hide` go to a child even when no popupmenu is shown. The code routes them only by whether the command-line popupmenu is visible.

## Model

| member | source | states |
|---|---|---|
| PopupmenuModel.BatchLen | ui/src/components/popupmenu/model/mod.rs:29 | a batch has `min(40, pending)` items: at most 40, at most the pending count, and equal to one of the two |
| PopupmenuModel.Selection | ui/src/components/popupmenu/model/mod.rs:39-45 | at most one notification; one is emitted exactly when an item `i` is selected and `i <= n_items` (inclusive), and it is `selection-changed(i, 1)` |
| PopupmenuModel.MoveBatch | ui/src/components/popupmenu/model/mod.rs:23-37 | `lazy_add`: `items ++ toAdd` is preserved; `items` grows by exactly `BatchLen` of the pending count and keeps its old items as a prefix; the notifications are `items-changed(old count, removed, number moved)` followed by the selection notification against the new count |
| PopupmenuModel.MoveBatchFront | ui/src/components/popupmenu/model/mod.rs:29-33 | the moved items are exactly the first `min(40, pending)` pending items, appended in order, and the rest stay pending |
| PopupmenuModel.MoveBatchAdded | ui/src/components/popupmenu/model/mod.rs:29-35 | one batch reports exactly one `added` count, the number of items it moved |
| PopupmenuModel.SetItemsBatch | ui/src/components/popupmenu/model/mod.rs:55-58 | after `set_items(xs)`: `items` is the first `n = min(40, len xs)` items of `xs` and `toAdd` the rest, and the first notification reports position 0, all old items removed, and the batch added |
| PopupmenuModel.Ticks | ui/src/components/popupmenu/model/mod.rs:60-71 | the idle job terminates (the pending count strictly decreases) with everything exposed in order and nothing pending |
| PopupmenuModel.TicksBatches | ui/src/components/popupmenu/model/mod.rs:60-71 | the idle ticks report the batch sizes `TickSizes(pending)` and never report a removal |
| PopupmenuModel.TickSizesSum | ui/src/components/popupmenu/model/mod.rs:29-31 | the tick batch sizes add up to the pending count, and each is at most 40 |
| PopupmenuModel.TickSizesCount | ui/src/components/popupmenu/model/mod.rs:60-71 | the idle job runs once when nothing is pending and otherwise `ceil(pending/40)` times; `ceil(pending/40)` of its batches are non-empty |
| PopupmenuModel.ScheduleFacts | ui/src/components/popupmenu/model/mod.rs:47-73 | over `set_items` plus the idle job, the batch sizes add up to the length `n` of `xs`, `ceil(n/40)` batches are non-empty, and there are two batches in all when `n <= 40` |
| PopupmenuModel.SetItemsThenIdle | ui/src/components/popupmenu/model/mod.rs:47-73 | `set_items(xs)` followed by the idle job ends with `items == xs` and nothing pending; the reported `added` counts are `Schedule` of the length of `xs`; no idle tick reports a removal |
| PopupmenuModel.Model.constructor | ui/src/components/popupmenu/model/mod.rs:19-21 | a new model is empty, with nothing selected, nothing scheduled and nothing emitted |
| PopupmenuModel.Model.DoSelection | ui/src/components/popupmenu/model/mod.rs:39-45 | appends `Selection` of the item against the current item count to the log and changes nothing else |
| PopupmenuModel.Model.LazyAdd | ui/src/components/popupmenu/model/mod.rs:23-37 | changes the queues and the log as `MoveBatch` does, and leaves the selection and the idle source alone |
| PopupmenuModel.Model.SetItems | ui/src/components/popupmenu/model/mod.rs:47-73 | removes the previously scheduled idle source from the main loop, updates the queues and the log as `SetItemsBatch` does, and schedules one fresh source; at most one source is ever scheduled (`Valid`) |
| PopupmenuModel.Model.Tick | ui/src/components/popupmenu/model/mod.rs:61-71 | one idle callback: a `MoveBatch` with `removed = 0`; asks to run again exactly when items remain, and otherwise clears the handle |
| PopupmenuModel.Model.RunIdle | ui/src/components/popupmenu/model/mod.rs:60-72 | running the idle callback until it declines ends with everything exposed, nothing pending, no source scheduled, the selection and the next source id unchanged, and the log extended by exactly what `Ticks` describes |
| AppWindow.HlGroupFromName | ui/src/components/appwindow/imp.rs:110-121 | the name table: a recognised name yields the group of that name, and each of the nine group names yields its group |
| AppWindow.ShowHost | ui/src/components/appwindow/imp.rs:136-142 | `popupmenu_show` goes to the omnibar exactly when the grid is -1, and to the shell otherwise |
| AppWindow.SelectHost | ui/src/components/appwindow/imp.rs:144-158 | select and hide go to the omnibar exactly when its command-line popupmenu is visible, and to the shell otherwise |
| AppWindow.ModeLookup | ui/src/components/appwindow/imp.rs:209-212 | the lookup succeeds exactly for `0 <= idx` below the table length and then yields `modes[idx]` |
| AppWindow.RunStopsAtFatal | ui/src/components/appwindow/imp.rs:208-214 | once an event has ended the session, no later event has any effect |
| AppWindow.Window.constructor | ui/src/components/appwindow/imp.rs:32-60 | a new window has no cursor modes, both flags clear and no effects |
| AppWindow.Window.HandleHlGroupSet | ui/src/components/appwindow/imp.rs:109-125 | a recognised name maps its group to the id and sets the style flag; any other name changes nothing; nothing else changes |
| AppWindow.Window.HandleDefaultColorsSet | ui/src/components/appwindow/imp.rs:127-134 | overwrites the three default colours and sets the style flag; the size flag, attributes, groups and modes are unchanged |
| AppWindow.Window.HandleHlAttrDefine | ui/src/components/appwindow/imp.rs:373-376 | inserts or overwrites the attributes of one id; neither flag changes |
| AppWindow.Window.HandleOptionSet | ui/src/components/appwindow/imp.rs:460-485 | line space, font and tabline options set both flags, and line space is also sent to the omnibar; an unknown option changes nothing |
| AppWindow.Window.HandleModeInfoSet | ui/src/components/appwindow/imp.rs:201-204 | replaces the mode table wholesale and changes nothing else |
| AppWindow.Window.HandleModeChange | ui/src/components/appwindow/imp.rs:208-214 | fails exactly for an index outside the table; otherwise forwards exactly that entry to the shell; the state is unchanged |
| AppWindow.Window.HandleFlush | ui/src/components/appwindow/imp.rs:227-235 | flushes grids and tabline, requests a resize iff the size flag was set, then regenerates the style sheet from the current colours iff the style flag was set, and clears both flags |
| AppWindow.Window.HandlePopupmenuShow | ui/src/components/appwindow/imp.rs:136-142 | sends the show to `ShowHost(grid)` and changes no state |
| AppWindow.Window.HandlePopupmenuSelect | ui/src/components/appwindow/imp.rs:144-150 | sends the select to `SelectHost(visible)` and changes no state |
| AppWindow.Window.HandlePopupmenuHide | ui/src/components/appwindow/imp.rs:152-158 | sends the hide to `SelectHost(visible)` and changes no state |
| AppWindow.Window.ImCommit | ui/src/components/appwindow/imp.rs:502-506 | sends the escaped text `EscapeLt(input)` to Neovim and changes no state |
| AppWindow.Window.HandleUiEvent | ui/src/components/appwindow/imp.rs:194-458 | one event changes the state and effects exactly as `Step` specifies, including the fatal outcome |
| AppWindow.Window.HandleStateEvent | ui/src/components/appwindow/imp.rs:201-379 | the events that read or change the window's fields agree with `Step` |
| AppWindow.Window.HandleRoutedEvent | ui/src/components/appwindow/imp.rs:197-456 | the ignored, forwarded, routed and unhandled events agree with `Step` |
| AppWindow.Window.HandleRedraw | ui/src/components/appwindow/imp.rs:86-88 | a whole `redraw` notification changes the state and effects exactly as `Run` specifies, stopping at the first violation; each select and hide is routed by the omnibar's answer at that event |
| AppWindow.Window.HandleNext | ui/src/components/appwindow/imp.rs:86-88 | applying event `i` extends the `Run` of the first `i` events, or ends with the `Run` of all of them when it is fatal |
| AppWindowProps.RunConcat | ui/src/components/appwindow/imp.rs:86-88 | running `a + b` is running `a`, then `b` from the state `a` left, unless `a` failed |
| AppWindowProps.HlGroupSetKnown | ui/src/components/appwindow/imp.rs:109-125 | a recognised group name maps that group to the id and sets the style flag, and changes nothing else |
| AppWindowProps.HlGroupSetOther | ui/src/components/appwindow/imp.rs:109-125 | any name outside the nine leaves colours, modes and both flags unchanged |
| AppWindowProps.NineGroupNames | ui/src/components/appwindow/imp.rs:110-121 | exactly nine groups are recognised, and their names are distinct |
| AppWindowProps.DefaultColorsSetSpec | ui/src/components/appwindow/imp.rs:127-134 | `default_colors_set` sets the three colours and the style flag, and leaves the attributes, groups, modes and size flag alone |
| AppWindowProps.HlAttrDefineSpec | ui/src/components/appwindow/imp.rs:373-376 | `hl_attr_define` updates the attribute table at that id and changes nothing else: every other id, the colours, groups, modes and both flags are kept |
| AppWindowProps.HlAttrLastWins | ui/src/components/appwindow/imp.rs:373-376 | defining the same id twice is the same as defining it once with the last attributes |
| AppWindowProps.HlAttrDefinesCommute | ui/src/components/appwindow/imp.rs:373-376 | definitions of two different ids commute |
| AppWindowProps.GroupSetAndAttrDefineCommute | ui/src/components/appwindow/imp.rs:373-379 | setting a group and defining an attribute commute |
| AppWindowProps.ThemeGroup | ui/src/components/appwindow/imp.rs:236-247 | the regenerated style sheet resolves a group through its id to that id's attributes |
| AppWindowProps.GroupAndAttrState | ui/src/components/appwindow/imp.rs:373-379 | after mapping a group to an id and defining the id, the group resolves to those attributes and the style flag is set |
| AppWindowProps.GroupStyleAfterFlush | ui/src/components/appwindow/imp.rs:227-247 | group set, attribute define and flush, in either order of the first two, regenerate a style sheet using the defined attributes for the group, with identical outcomes |
| AppWindowProps.OptionSetFlags | ui/src/components/appwindow/imp.rs:460-485 | the three known options set both flags and leave colours and modes alone; an unknown option changes nothing at all |
| AppWindowProps.FlushSpec | ui/src/components/appwindow/imp.rs:227-235 | grids then tabline are flushed first; a resize iff the size flag was set; a style sheet from the current colours iff the style flag was set; resize before style; both flags clear afterwards |
| AppWindowProps.SecondFlushQuiet | ui/src/components/appwindow/imp.rs:231-235 | a second flush with nothing in between neither resizes nor regenerates the style sheet |
| AppWindowProps.StepMarks | ui/src/components/appwindow/imp.rs:194-458 | every event but flush only sets the flags (exactly the size and style events do) and neither resizes nor restyles |
| AppWindowProps.FlagsBetweenFlushes | ui/src/components/appwindow/imp.rs:194-458 | between flushes each flag is set exactly when it was set before or some event set it, and no resize or restyle happens |
| AppWindowProps.FlushEndsBatch | ui/src/components/appwindow/imp.rs:227-235 | the flush ending a batch resizes iff the size flag was set before or by an event of the batch, restyles likewise, and clears both flags |
| AppWindowProps.OneResizePerFlush | ui/src/components/appwindow/imp.rs:231-233 | however many events of a batch change the size, its flush requests exactly one resize, and none when nothing did |
| AppWindowProps.TwoFontChangesOneResize | ui/src/components/appwindow/imp.rs:471-477 | two font changes followed by one flush give a single resize |
| AppWindowProps.ModeChangeSpec | ui/src/components/appwindow/imp.rs:208-214 | `mode_change` is fatal exactly for an index outside the table, changes no state, and otherwise forwards exactly that entry |
| AppWindowProps.ModeInfoSetReplaces | ui/src/components/appwindow/imp.rs:201-214 | after `mode_info_set`, whether a `mode_change` succeeds and what it forwards depend only on the new table |
| AppWindowProps.ViolationEndsRedraw | ui/src/components/appwindow/imp.rs:208-214 | after an invalid mode index, the rest of the notification is not applied |
| AppWindowProps.PopupmenuShowRouting | ui/src/components/appwindow/imp.rs:136-142 | show is sent to the omnibar for grid -1 and to the shell otherwise, and changes no state |
| AppWindowProps.PopupmenuSelectHideRouting | ui/src/components/appwindow/imp.rs:144-158 | select and hide go to the omnibar exactly when its popupmenu is visible, whatever the selected index, and change no state |
| AppWindowProps.StepIgnoresVisibility | ui/src/components/appwindow/imp.rs:194-458 | only select and hide depend on the omnibar's visibility answer |
| AppWindowProps.VisibilityOnlyRoutes | ui/src/components/appwindow/imp.rs:144-158 | a notification with no select and no hide has the same outcome whatever the omnibar answers |
| AppWindowProps.ShowThenSelect | ui/src/components/appwindow/imp.rs:136-150 | after a show on grid -1, a select is routed by the answer the omnibar gives when the select is handled |
| AppWindowProps.IgnoredEvents | ui/src/components/appwindow/imp.rs:223-226 | the ignored events change no state and have no effect: `suspend`, `update_menu`, `bell` and `visual_bell` here, and likewise `set_icon` (line 200), `mouse_on` and `mouse_off` (lines 215-216) and `win_viewport` (line 416) |
| AppWindowProps.UnhandledIsFatal | ui/src/components/appwindow/imp.rs:456 | an event with no handler ends the session |
| AppWindowProps.ColorsThenLinespace | ui/src/components/appwindow/imp.rs:462-467 | default colours white on black then flush: the colours are set, both flags are clear and the style sheet is regenerated; a line-space option then sets both flags without changing colours; the next flush resizes, restyles and clears both |
| InputEscape.EscapeLt | ui/src/components/appwindow/imp.rs:504 | the escaped text is 3 characters longer per `<` in the input |
| InputEscape.EscapeRoundTrip | ui/src/components/appwindow/imp.rs:503-504 | reading the escaped text back as key notation gives exactly the committed text |
| InputEscape.EscapeConcat | ui/src/components/appwindow/imp.rs:504 | escaping works piece by piece: the escape of a concatenation is the concatenation of the escapes |
| InputEscape.EscapeChar | ui/src/components/appwindow/imp.rs:504 | a `<` becomes `<lt>` and every other character is kept |
| InputEscape.EscapeWithoutLt | ui/src/components/appwindow/imp.rs:504 | text without `<` is sent unchanged |

## Left out

- Neovim I/O is left out: the `io_loop`, msgpack and RPC decoding of messages, responses and `gnvim` notifications, and the decoding of `redraw` batches (imp.rs:63-107). These are asynchronous I/O over a foreign codec. A `redraw` notification is modelled as its decoded sequence of events.
- The `gnvim` custom events (imp.rs:160-192) are left out. They forward the cursor and scroll transition settings to the shell (imp.rs:182-190), call `nvim_echo` over RPC (imp.rs:162-178), or turn on the toolkit's debugger (imp.rs:179-181).
- All `spawn_local!` calls into Neovim (`nvim_echo`, `nvim_input`, `nvim_set_client_info`, `nvim_ui_attach`) are asynchronous network calls. They are left out, except that `im_commit`'s call is one `NvimInput` effect.
- Batch grouping: Neovim groups events of one kind into one `UiEvent` holding a vector, and `handle_ui_event` loops over it. The model flattens each group into consecutive single events, which the loop handles identically and in the same order.
- Style sheet text is left out. Its generation, the line-space padding computed in `f32`, and the font's CSS (imp.rs:236-362) are string templating and floating point. A regeneration is the `CssRegenerated` effect carrying its colour inputs: the default colours and the attributes of the nine groups.
- Highlight style flags are left out. `HlAttr` keeps only the foreground, background and special colours. The bold, italic, reverse and underline flags that `hl_attr_define` stores (imp.rs:375) and that the shell receives at `flush` (imp.rs:228) are not modelled.
- `Color::from_i64` is not part of this model; colours are kept as the integers Neovim sends. crate::colors is not part of this model either. `get_hl_group` is modelled as the group's id looked up in the attribute table, with an empty attribute when either lookup fails.
- Font and tabline properties are left out: the `font` and `show-tabline` values set by `handle_option_set` depend on crate::font, which is not part of this model. Only the flags and the omnibar line-space call are kept. The line space stays an integer, so the `as f32` cast at imp.rs:469 is not modelled.
- Key handling, the IM context and `event_to_nvim_input` (imp.rs:508-546 and 720-732) are left out: they depend on gdk key values and crate::input, which is not part of this model.
- Toolkit plumbing is left out: GObject properties, `class_init`, `constructed` and `size_allocate`.
- ui/src/components/shell/imp.rs and ui/src/components/mod.rs are not part of this model.
- The Shell, Omnibar and Tabline handlers are opaque sinks: a forwarded event is recorded as an effect naming the child and the call. Any debouncing of resizes would happen inside `Shell::resize_nvim`, which is not part of this model; the model records one `ResizeRequested` per call.
- The omnibar owns `cmdline_popupmenu_visible`, and the window asks for it at every select and hide. The omnibar's handlers are not part of this model, so its answers are inputs: `Run` takes one answer per event. The model does not relate an answer to the popupmenu events the omnibar received earlier.
- `mode_change` with a negative index: Rust's `as usize` turns it into a huge index. The model treats any index outside `0 <= idx < |modes|` as out of range, which is the same outcome.
- The fatal paths end the session with `panic!` or `expect`. The model records them as `Fatal` values and stops the notification there.
- model/imp.rs of the popupmenu is not part of this model. `n_items()` is taken to be the number of exposed items (`NItems`). `selected_item` is a field of `Model` that no modelled operation changes.
- The glib main loop is modelled by the idle-source handle (`lazy`), the scheduled sources (`live`) and `Tick`. `RunIdle` stands for the loop running the scheduled job with no other event in between; interleaving with other events is left out.
- The weak reference `@weak self` in the idle closure is left out: its default return only matters after the model has been freed.
- Model.LazyAdd, Model.SetItems: positions and counts are unbounded `nat`, so they do not model the `as u32` truncation. Lists of more than 2^32 items are outside what a popupmenu holds.
