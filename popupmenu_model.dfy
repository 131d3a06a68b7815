/**
 * The popupmenu list model. Items handed to `SetItems` are not exposed to the
 * list view all at once: they wait in `toAdd` and are moved to `items` in
 * batches of at most `BatchSize`, one batch per idle tick of the main loop.
 * Every batch is announced with an `items-changed` notification, followed by
 * a `selection-changed` notification for the selected item when it is in range.
 */
module PopupmenuModel {
  import opened Wrappers
  import opened Seqs

  /** Largest number of items moved per batch. */
  const BatchSize: nat := 40

  /** The signals the model emits to the list view, in emission order. */
  datatype Notification =
    | ItemsChanged(position: nat, removed: nat, added: nat)
    | SelectionChanged(position: nat, count: nat)

  /** The two queues: what the list view already sees, and what is pending. */
  datatype Lists<T> = Lists(items: seq<T>, toAdd: seq<T>)

  /** Size of the next batch when `pending` items wait: the smaller of the two. */
  function BatchLen(pending: nat): (n: nat)
    ensures n <= BatchSize && n <= pending
    ensures n == BatchSize || n == pending
  {
    if pending < BatchSize then pending else BatchSize
  }

  /**
   * What `do_selection` emits for the selected item when the model holds
   * `nItems` items. The bound is inclusive: an item one past the end is
   * still announced.
   */
  function Selection(selected: Option<nat>, nItems: nat): (r: seq<Notification>)
    ensures |r| <= 1
    ensures r != [] <==> selected.Some? && selected.value <= nItems
    ensures r != [] ==> r[0] == SelectionChanged(selected.value, 1)
  {
    match selected
    case None => []
    case Some(i) => if i <= nItems then [SelectionChanged(i, 1)] else []
  }

  /**
   * One `lazy_add(removed)`: moves the first batch of `toAdd` to the end of
   * `items` and reports it, reporting first the old item count as position.
   */
  function MoveBatch<T>(l: Lists<T>, removed: nat, selected: Option<nat>): (r: (Lists<T>, seq<Notification>))
    ensures r.0.items + r.0.toAdd == l.items + l.toAdd
    ensures |r.0.items| == |l.items| + BatchLen(|l.toAdd|)
    ensures r.0.items[..|l.items|] == l.items
    ensures r.1 == [ItemsChanged(|l.items|, removed, |r.0.items| - |l.items|)] + Selection(selected, |r.0.items|)
  {
    var n := BatchLen(|l.toAdd|);
    var moved := Lists(l.items + l.toAdd[..n], l.toAdd[n..]);
    assert moved.items + moved.toAdd == l.items + (l.toAdd[..n] + l.toAdd[n..]);
    (moved, [ItemsChanged(|l.items|, removed, n)] + Selection(selected, |moved.items|))
  }

  /**
   * What `set_items(xs)` does to the queues when the model held `nOld` items:
   * both queues are replaced and the first batch is moved, reporting all old
   * items as removed.
   */
  function SetItemsBatch<T>(nOld: nat, xs: seq<T>, selected: Option<nat>): (r: (Lists<T>, seq<Notification>))
    ensures r.0.items == xs[..BatchLen(|xs|)] && r.0.toAdd == xs[BatchLen(|xs|)..]
    ensures |r.1| > 0 && r.1[0] == ItemsChanged(0, nOld, BatchLen(|xs|))
  {
    var r := MoveBatch(Lists([], xs), nOld, selected);
    assert r.0.items == xs[..BatchLen(|xs|)];
    r
  }

  /**
   * The idle callback run by the main loop until it returns `false`: every
   * tick is a `lazy_add(0)`, and the callback asks to run again only while
   * items are pending. The ticks drain `toAdd` into `items`.
   */
  function Ticks<T>(l: Lists<T>, selected: Option<nat>): (r: (Lists<T>, seq<Notification>))
    ensures r.0 == Lists(l.items + l.toAdd, [])
    decreases |l.toAdd|
  {
    var step := MoveBatch(l, 0, selected);
    if step.0.toAdd != [] then
      var rest := Ticks(step.0, selected);
      (rest.0, step.1 + rest.1)
    else
      step
  }

  /** One more idle tick runs exactly when the current one leaves items pending. */
  lemma TicksUnfold<T>(l: Lists<T>, selected: Option<nat>)
    ensures var step := MoveBatch(l, 0, selected);
            Ticks(l, selected).1 == if step.0.toAdd != [] then step.1 + Ticks(step.0, selected).1 else step.1
  {
  }

  /** The `added` counts of the `items-changed` notifications in `ns`, in order. */
  function AddedCounts(ns: seq<Notification>): seq<nat>
  {
    if ns == [] then []
    else (if ns[0].ItemsChanged? then [ns[0].added] else []) + AddedCounts(ns[1..])
  }

  /** True when every `items-changed` notification in `ns` reports nothing removed. */
  ghost predicate NothingRemoved(ns: seq<Notification>)
  {
    forall k :: 0 <= k < |ns| && ns[k].ItemsChanged? ==> ns[k].removed == 0
  }

  /** The batch sizes reported by the idle ticks when `pending` items wait. */
  function TickSizes(pending: nat): (r: seq<nat>)
    decreases pending
  {
    if pending <= BatchSize then [pending] else [BatchSize] + TickSizes(pending - BatchSize)
  }

  function Sum(xs: seq<nat>): nat
  {
    if xs == [] then 0 else xs[0] + Sum(xs[1..])
  }

  /** Number of positive entries of `xs`. */
  function Positives(xs: seq<nat>): nat
  {
    if xs == [] then 0 else (if xs[0] > 0 then 1 else 0) + Positives(xs[1..])
  }

  lemma {:induction false} AddedCountsConcat(a: seq<Notification>, b: seq<Notification>)
    ensures AddedCounts(a + b) == AddedCounts(a) + AddedCounts(b)
    decreases |a|
  {
    if a == [] {
      assert a + b == b;
    } else {
      var ab := a + b;
      var head := if a[0].ItemsChanged? then [a[0].added] else [];
      assert ab[0] == a[0] && ab[1..] == a[1..] + b;
      assert AddedCounts(ab) == head + AddedCounts(a[1..] + b);
      assert AddedCounts(a) == head + AddedCounts(a[1..]);
      AddedCountsConcat(a[1..], b);
      SeqAssoc(head, AddedCounts(a[1..]), AddedCounts(b));
    }
  }

  lemma {:induction false} SumConcat(a: seq<nat>, b: seq<nat>)
    ensures Sum(a + b) == Sum(a) + Sum(b)
    decreases |a|
  {
    if a == [] {
      assert a + b == b;
    } else {
      assert (a + b)[1..] == a[1..] + b;
      SumConcat(a[1..], b);
    }
  }

  lemma {:induction false} PositivesConcat(a: seq<nat>, b: seq<nat>)
    ensures Positives(a + b) == Positives(a) + Positives(b)
    decreases |a|
  {
    if a == [] {
      assert a + b == b;
    } else {
      assert (a + b)[1..] == a[1..] + b;
      PositivesConcat(a[1..], b);
    }
  }

  /** One batch reports exactly one `added` count: the number of items it moved. */
  lemma MoveBatchAdded<T>(l: Lists<T>, removed: nat, selected: Option<nat>)
    ensures AddedCounts(MoveBatch(l, removed, selected).1) == [BatchLen(|l.toAdd|)]
  {
    var ns := MoveBatch(l, removed, selected).1;
    AddedCountsConcat([ns[0]], ns[1..]);
    assert [ns[0]] + ns[1..] == ns;
  }

  /** A batch is the front of `toAdd`, appended to `items` in order. */
  lemma MoveBatchFront<T>(l: Lists<T>, removed: nat, selected: Option<nat>)
    ensures var n := BatchLen(|l.toAdd|);
            var r := MoveBatch(l, removed, selected).0;
            r.items == l.items + l.toAdd[..n] && r.toAdd == l.toAdd[n..]
  {
    var n := BatchLen(|l.toAdd|);
    var r := MoveBatch(l, removed, selected).0;
    var whole := l.items + l.toAdd;
    assert r.items == whole[..|l.items| + n];
    assert whole[..|l.items| + n] == l.items + l.toAdd[..n];
    assert r.toAdd == whole[|l.items| + n..];
    assert whole[|l.items| + n..] == l.toAdd[n..];
  }

  /** The idle ticks report the batch sizes `TickSizes`, and none reports a removal. */
  lemma {:induction false} TicksBatches<T>(l: Lists<T>, selected: Option<nat>)
    ensures AddedCounts(Ticks(l, selected).1) == TickSizes(|l.toAdd|)
    ensures NothingRemoved(Ticks(l, selected).1)
    decreases |l.toAdd|
  {
    var step := MoveBatch(l, 0, selected);
    MoveBatchAdded(l, 0, selected);
    TicksUnfold(l, selected);
    assert NothingRemoved(step.1);
    if step.0.toAdd != [] {
      var rest := Ticks(step.0, selected);
      TicksBatches(step.0, selected);
      AddedCountsConcat(step.1, rest.1);
      NothingRemovedConcat(step.1, rest.1);
      assert |l.toAdd| > BatchSize;
      assert |step.0.toAdd| == |l.toAdd| - BatchSize;
    } else {
      assert |l.toAdd| <= BatchSize;
    }
  }

  lemma NothingRemovedConcat(a: seq<Notification>, b: seq<Notification>)
    requires NothingRemoved(a) && NothingRemoved(b)
    ensures NothingRemoved(a + b)
  {
    forall k | 0 <= k < |a + b| && (a + b)[k].ItemsChanged?
      ensures (a + b)[k].removed == 0
    {
      if k >= |a| {
        assert (a + b)[k] == b[k - |a|];
      }
    }
  }

  /** The batch sizes add up to the pending count, and each is at most `BatchSize`. */
  lemma {:induction false} TickSizesSum(pending: nat)
    ensures Sum(TickSizes(pending)) == pending
    ensures forall k :: 0 <= k < |TickSizes(pending)| ==> TickSizes(pending)[k] <= BatchSize
    decreases pending
  {
    if pending > BatchSize {
      TickSizesSum(pending - BatchSize);
      SumConcat([BatchSize], TickSizes(pending - BatchSize));
    }
  }

  /**
   * The idle job runs once when nothing is pending and otherwise
   * `ceil(pending / 40)` times; only a run with nothing pending reports an
   * empty batch.
   */
  lemma {:induction false} TickSizesCount(pending: nat)
    ensures |TickSizes(pending)| == if pending == 0 then 1 else (pending + BatchSize - 1) / BatchSize
    ensures Positives(TickSizes(pending)) == (pending + BatchSize - 1) / BatchSize
    decreases pending
  {
    if pending > BatchSize {
      TickSizesCount(pending - BatchSize);
      PositivesConcat([BatchSize], TickSizes(pending - BatchSize));
    }
  }

  /** The batch sizes of `set_items` plus the idle job, for a list of `len` items. */
  function Schedule(len: nat): seq<nat>
  {
    [BatchLen(len)] + TickSizes(len - BatchLen(len))
  }

  /**
   * For `len` items the batches add up to `len`; `ceil(len / 40)` of them are
   * non-empty; when `len <= 40` there are two batches in all, the second one
   * empty.
   */
  lemma ScheduleFacts(len: nat)
    ensures Sum(Schedule(len)) == len
    ensures Positives(Schedule(len)) == (len + BatchSize - 1) / BatchSize
    ensures |Schedule(len)| == if len <= BatchSize then 2 else (len + BatchSize - 1) / BatchSize
  {
    var n := BatchLen(len);
    var rest := len - n;
    TickSizesSum(rest);
    TickSizesCount(rest);
    SumConcat([n], TickSizes(rest));
    PositivesConcat([n], TickSizes(rest));
    if len <= BatchSize {
      assert rest == 0 && TickSizes(rest) == [0];
    } else {
      assert n == BatchSize;
      CeilStep(rest);
    }
  }

  /**
   * `set_items(xs)` followed by the idle job running to completion exposes
   * exactly `xs`, and announces it in the batches `Schedule(|xs|)`, none of
   * them after the first reporting a removal.
   */
  lemma SetItemsThenIdle<T>(nOld: nat, xs: seq<T>, selected: Option<nat>)
    ensures Ticks(SetItemsBatch(nOld, xs, selected).0, selected).0 == Lists(xs, [])
    ensures AddedCounts(SetItemsBatch(nOld, xs, selected).1 + Ticks(SetItemsBatch(nOld, xs, selected).0, selected).1)
            == Schedule(|xs|)
    ensures NothingRemoved(Ticks(SetItemsBatch(nOld, xs, selected).0, selected).1)
  {
    var first := SetItemsBatch(nOld, xs, selected);
    var n := BatchLen(|xs|);
    assert xs[..n] + xs[n..] == xs;
    MoveBatchAdded(Lists([], xs), nOld, selected);
    TicksBatches(first.0, selected);
    AddedCountsConcat(first.1, Ticks(first.0, selected).1);
  }

  lemma CeilStep(m: nat)
    requires m > 0
    ensures (m + BatchSize - 1) / BatchSize + 1 == (m + BatchSize + BatchSize - 1) / BatchSize
  {
  }

  /**
   * The list model. `lazy` is the handle of the scheduled idle source, if any;
   * `live` stands for the idle sources of this model that the main loop still
   * holds, and `nextSource` for the id the main loop hands out next.
   */
  class Model<T> {
    var items: seq<T>
    var toAdd: seq<T>
    var selectedItem: Option<nat>
    var lazy: Option<nat>
    var nextSource: nat
    ghost var live: set<nat>
    ghost var log: seq<Notification>

    /** At most one idle job is ever scheduled, and it is the one `lazy` names. */
    ghost predicate Valid()
      reads this
    {
      && (lazy.None? ==> live == {})
      && (lazy.Some? ==> live == {lazy.value} && lazy.value < nextSource)
    }

    function Queues(): Lists<T>
      reads this
    {
      Lists(items, toAdd)
    }

    constructor ()
      ensures Valid()
      ensures items == [] && toAdd == [] && selectedItem == None && lazy == None && log == []
    {
      items := [];
      toAdd := [];
      selectedItem := None;
      lazy := None;
      nextSource := 0;
      live := {};
      log := [];
    }

    /** `n_items()`: the items the list view can see. */
    function NItems(): (n: nat)
      reads this
      ensures n == |items|
    {
      |items|
    }

    method DoSelection(item: Option<nat>)
      modifies this
      ensures log == old(log) + Selection(item, |items|)
      ensures items == old(items) && toAdd == old(toAdd) && selectedItem == old(selectedItem)
      ensures lazy == old(lazy) && nextSource == old(nextSource) && live == old(live)
    {
      if item.Some? {
        var i := item.value;
        if i <= NItems() {
          log := log + [SelectionChanged(i, 1)];
        }
      }
    }

    method LazyAdd(removed: nat)
      modifies this
      ensures var r := MoveBatch(old(Queues()), removed, old(selectedItem));
              Queues() == r.0 && log == old(log) + r.1
      ensures selectedItem == old(selectedItem) && lazy == old(lazy)
      ensures nextSource == old(nextSource) && live == old(live)
    {
      var index := NItems();
      var n := BatchLen(|toAdd|);
      var batch := toAdd[..n];
      toAdd := toAdd[n..];
      var added := |batch|;
      items := items + batch;
      log := log + [ItemsChanged(index, removed, added)];
      DoSelection(selectedItem);
    }

    /**
     * Replaces the contents with `xs`: the previous idle job, if any, is
     * removed from the main loop, the first batch is moved, and a fresh idle
     * job is scheduled.
     */
    method SetItems(xs: seq<T>)
      requires Valid()
      modifies this
      ensures Valid()
      ensures var r := SetItemsBatch(old(|items|), xs, old(selectedItem));
              Queues() == r.0 && log == old(log) + r.1
      ensures old(lazy).Some? ==> old(lazy).value !in live
      ensures lazy == Some(old(nextSource)) && nextSource == old(nextSource) + 1
      ensures selectedItem == old(selectedItem)
    {
      if lazy.Some? {
        live := live - {lazy.value};
        lazy := None;
      }
      var removed := NItems();
      items := [];
      toAdd := xs;
      LazyAdd(removed);
      var source := nextSource;
      nextSource := nextSource + 1;
      live := live + {source};
      lazy := Some(source);
    }

    /** One run of the idle callback; the result asks the main loop to run it again. */
    method Tick() returns (again: bool)
      requires Valid() && lazy.Some?
      modifies this
      ensures Valid()
      ensures var r := MoveBatch(old(Queues()), 0, old(selectedItem));
              Queues() == r.0 && log == old(log) + r.1
      ensures again <==> toAdd != []
      ensures lazy == (if again then old(lazy) else None)
      ensures selectedItem == old(selectedItem) && nextSource == old(nextSource)
    {
      LazyAdd(0);
      if |toAdd| > 0 {
        again := true;
      } else {
        lazy := None;
        live := {};
        again := false;
      }
    }

    /**
     * The main loop running the scheduled idle job until it finishes, with no
     * other event in between: it ends with everything exposed, nothing
     * pending and no job scheduled, having emitted what `Ticks` describes.
     */
    method RunIdle()
      requires Valid() && lazy.Some?
      modifies this
      ensures Valid() && lazy == None && live == {}
      ensures var r := Ticks(old(Queues()), old(selectedItem));
              Queues() == r.0 && log == old(log) + r.1
      ensures items == old(items) + old(toAdd) && toAdd == []
      ensures selectedItem == old(selectedItem) && nextSource == old(nextSource)
    {
      ghost var start := Queues();
      ghost var log0 := log;
      ghost var all := Ticks(start, selectedItem).1;
      var again := true;
      while again
        invariant Valid() && selectedItem == old(selectedItem) && nextSource == old(nextSource)
        invariant items + toAdd == start.items + start.toAdd
        invariant again ==> lazy.Some? && log0 + all == log + Ticks(Queues(), selectedItem).1
        invariant !again ==> lazy == None && toAdd == [] && log == log0 + all
        decreases |toAdd| + (if again then 1 else 0)
      {
        ghost var before := Queues();
        ghost var logBefore := log;
        again := Tick();
        ghost var step := MoveBatch(before, 0, selectedItem);
        assert Queues() == step.0 && log == logBefore + step.1;
        TicksUnfold(before, selectedItem);
        if again {
          SeqAssoc(logBefore, step.1, Ticks(step.0, selectedItem).1);
        }
      }
    }
  }
}
