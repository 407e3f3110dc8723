/**
 What the display list promises: which records become chat items and in what
 order, which date items appear and where, and how each chat item is annotated.
 Each property is stated against a reference definition written independently
 of the fold (a filter, a map, a first-occurrence deduplication).
 */
module MessageOrder {
  import opened Wrappers
  import opened MessageContainer

  /** The records whose timestamp parses, each with its instant, in log order. */
  function Parsed(clock: Clock, log: seq<Chat>): (p: seq<(Chat, int)>)
    ensures |p| <= |log|
    ensures forall k :: 0 <= k < |p| ==> p[k].0 in log && clock.parse(p[k].0.datetime) == Some(p[k].1)
    ensures forall c :: c in log && clock.parse(c.datetime).Some? ==> (c, clock.parse(c.datetime).value) in p
    decreases |log|
  {
    if log == [] then []
    else
      var rest := Parsed(clock, log[1..]);
      assert forall c :: c in log[1..] ==> c in log;
      assert forall c :: c in log ==> c == log[0] || c in log[1..];
      match clock.parse(log[0].datetime)
      case None => rest
      case Some(t) => [(log[0], t)] + rest
  }

  /** The chat items the parsed records should become, one each, in order. */
  function Bubbles(clock: Clock, uuid: string, p: seq<(Chat, int)>): (r: seq<Item>)
    ensures |r| == |p|
    ensures forall k :: 0 <= k < |p| ==> r[k] == Bubble(clock, uuid, p[k].0, p[k].1)
    decreases |p|
  {
    if p == [] then [] else [Bubble(clock, uuid, p[0].0, p[0].1)] + Bubbles(clock, uuid, p[1..])
  }

  /** The date labels of the parsed records, in log order, repetitions kept. */
  function Labels(clock: Clock, log: seq<Chat>): (r: seq<string>)
    decreases |log|
  {
    if log == [] then []
    else
      match clock.parse(log[0].datetime)
      case None => Labels(clock, log[1..])
      case Some(t) => [clock.formatDate(t)] + Labels(clock, log[1..])
  }

  /** The labels are the formatted dates of the parsed records' instants. */
  lemma {:induction false} LabelsOfParsed(clock: Clock, log: seq<Chat>)
    ensures |Labels(clock, log)| == |Parsed(clock, log)|
    ensures forall k :: 0 <= k < |Labels(clock, log)| ==>
              Labels(clock, log)[k] == clock.formatDate(Parsed(clock, log)[k].1)
    decreases |log|
  {
    if log != [] {
      LabelsOfParsed(clock, log[1..]);
    }
  }

  /** Each label not in `seen`, once, at its first occurrence. */
  function FirstOccurrences(labels: seq<string>, seen: set<string>): (r: seq<string>)
    ensures forall i, j :: 0 <= i < j < |r| ==> r[i] != r[j]
    ensures forall x :: x in r <==> x in labels && x !in seen
    decreases |labels|
  {
    if labels == [] then []
    else
      assert forall x :: x in labels <==> x == labels[0] || x in labels[1..];
      if labels[0] in seen then FirstOccurrences(labels[1..], seen)
      else [labels[0]] + FirstOccurrences(labels[1..], seen + {labels[0]})
  }

  /** The chat items of a display list, in order. */
  function ChatItems(items: seq<Item>): seq<Item>
    decreases |items|
  {
    if items == [] then []
    else if items[0].ChatItem? then [items[0]] + ChatItems(items[1..])
    else ChatItems(items[1..])
  }

  /** The labels of the date items of a display list, in order. */
  function DateLabels(items: seq<Item>): seq<string>
    decreases |items|
  {
    if items == [] then []
    else if items[0].DateItem? then [items[0].date] + DateLabels(items[1..])
    else DateLabels(items[1..])
  }

  lemma {:induction false} ChatItemsAppend(a: seq<Item>, b: seq<Item>)
    ensures ChatItems(a + b) == ChatItems(a) + ChatItems(b)
    decreases |a|
  {
    if a == [] {
      assert a + b == b;
    } else {
      assert (a + b)[1..] == a[1..] + b;
      ChatItemsAppend(a[1..], b);
    }
  }

  lemma {:induction false} DateLabelsAppend(a: seq<Item>, b: seq<Item>)
    ensures DateLabels(a + b) == DateLabels(a) + DateLabels(b)
    decreases |a|
  {
    if a == [] {
      assert a + b == b;
    } else {
      assert (a + b)[1..] == a[1..] + b;
      DateLabelsAppend(a[1..], b);
    }
  }

  /** A display list is split without remainder into its chat and date items. */
  lemma {:induction false} ItemsPartition(a: seq<Item>)
    ensures |a| == |ChatItems(a)| + |DateLabels(a)|
    decreases |a|
  {
    if a != [] {
      ItemsPartition(a[1..]);
    }
  }

  /** The chat items of the fold are exactly the parsed records, annotated, in
      log order: a record that does not parse yields nothing. */
  lemma {:induction false} FoldChatItems(clock: Clock, uuid: string, log: seq<Chat>, seen: set<string>)
    ensures ChatItems(Fold(clock, uuid, log, seen)) == Bubbles(clock, uuid, Parsed(clock, log))
    decreases |log|
  {
    if log != [] {
      match clock.parse(log[0].datetime)
      case None =>
        FoldChatItems(clock, uuid, log[1..], seen);
      case Some(t) =>
        var date := clock.formatDate(t);
        var head := if date in seen then [] else [DateItem(date)];
        var tail := Fold(clock, uuid, log[1..], seen + {date});
        FoldChatItems(clock, uuid, log[1..], seen + {date});
        ChatItemsAppend(head + [Bubble(clock, uuid, log[0], t)], tail);
        ChatItemsAppend(head, [Bubble(clock, uuid, log[0], t)]);
        assert ChatItems([Bubble(clock, uuid, log[0], t)]) == [Bubble(clock, uuid, log[0], t)];
        var p := Parsed(clock, log);
        assert p == [(log[0], t)] + Parsed(clock, log[1..]);
        assert p[1..] == Parsed(clock, log[1..]);
    }
  }

  /** The date items of the fold are the first occurrences of the parsed
      records' date labels that were not already seen. */
  lemma {:induction false} FoldDateLabels(clock: Clock, uuid: string, log: seq<Chat>, seen: set<string>)
    ensures DateLabels(Fold(clock, uuid, log, seen)) == FirstOccurrences(Labels(clock, log), seen)
    decreases |log|
  {
    if log != [] {
      match clock.parse(log[0].datetime)
      case None =>
        FoldDateLabels(clock, uuid, log[1..], seen);
      case Some(t) =>
        var date := clock.formatDate(t);
        var b := Bubble(clock, uuid, log[0], t);
        var tail := Fold(clock, uuid, log[1..], seen + {date});
        FoldDateLabels(clock, uuid, log[1..], seen + {date});
        var labels := Labels(clock, log);
        assert labels == [date] + Labels(clock, log[1..]);
        assert labels[1..] == Labels(clock, log[1..]);
        assert DateLabels([b]) == [];
        DateLabelsAppend([b], tail);
        if date in seen {
          assert seen + {date} == seen;
          assert Fold(clock, uuid, log, seen) == [b] + tail;
        } else {
          assert Fold(clock, uuid, log, seen) == [DateItem(date)] + ([b] + tail);
          DateLabelsAppend([DateItem(date)], [b] + tail);
          assert DateLabels([DateItem(date)]) == [date];
        }
    }
  }

  /** The seen-set after the loop is the starting set plus every date label of
      a parsed record. */
  lemma {:induction false} SeenAfterLabels(clock: Clock, log: seq<Chat>, seen: set<string>)
    ensures forall x :: x in SeenAfter(clock, log, seen) <==> x in seen || x in Labels(clock, log)
    decreases |log|
  {
    if log != [] {
      match clock.parse(log[0].datetime)
      case None =>
        SeenAfterLabels(clock, log[1..], seen);
      case Some(t) =>
        SeenAfterLabels(clock, log[1..], seen + {clock.formatDate(t)});
        assert Labels(clock, log) == [clock.formatDate(t)] + Labels(clock, log[1..]);
    }
  }

  /** Every date item stands immediately before a chat item with its label,
      and its label was not seen before. */
  ghost predicate DatesLeadTheirGroup(out: seq<Item>, seen: set<string>) {
    forall i :: 0 <= i < |out| && out[i].DateItem? ==>
      out[i].date !in seen && i + 1 < |out| && out[i + 1].ChatItem? && out[i + 1].date == out[i].date
  }

  /** No item before a date item carries its label: each date item marks the
      first appearance of its date, so none is repeated. */
  ghost predicate DatesFresh(out: seq<Item>) {
    forall i, j :: 0 <= j < i < |out| && out[i].DateItem? ==> out[j].date != out[i].date
  }

  /** Every chat item's date was seen before, or announced by an earlier date item. */
  ghost predicate DatesAnnounced(out: seq<Item>, seen: set<string>) {
    forall j :: 0 <= j < |out| && out[j].ChatItem? ==>
      out[j].date in seen || exists i :: 0 <= i < j && out[i] == DateItem(out[j].date)
  }

  lemma {:induction false} FoldDatesLead(clock: Clock, uuid: string, log: seq<Chat>, seen: set<string>)
    ensures DatesLeadTheirGroup(Fold(clock, uuid, log, seen), seen)
    decreases |log|
  {
    if log != [] {
      match clock.parse(log[0].datetime)
      case None =>
        FoldDatesLead(clock, uuid, log[1..], seen);
      case Some(t) =>
        var d := clock.formatDate(t);
        var head := if d in seen then [] else [DateItem(d)];
        var tail := Fold(clock, uuid, log[1..], seen + {d});
        var out := head + [Bubble(clock, uuid, log[0], t)] + tail;
        assert Fold(clock, uuid, log, seen) == out;
        var h := |head| + 1;
        assert forall m :: 0 <= m < |tail| ==> out[h + m] == tail[m];
        assert forall i :: 0 <= i < h ==> out[i].date == d;
        FoldDatesLead(clock, uuid, log[1..], seen + {d});
        assert out[h - 1] == Bubble(clock, uuid, log[0], t);
        forall i | 0 <= i < |out| && out[i].DateItem?
          ensures out[i].date !in seen && i + 1 < |out| && out[i + 1].ChatItem? && out[i + 1].date == out[i].date
        {
          if i >= h {
            assert out[i] == tail[i - h];
            assert out[i + 1] == tail[i - h + 1];
          }
        }
    }
  }

  lemma {:induction false} FoldDatesFresh(clock: Clock, uuid: string, log: seq<Chat>, seen: set<string>)
    ensures DatesFresh(Fold(clock, uuid, log, seen))
    decreases |log|
  {
    if log != [] {
      match clock.parse(log[0].datetime)
      case None =>
        FoldDatesFresh(clock, uuid, log[1..], seen);
      case Some(t) =>
        var d := clock.formatDate(t);
        var head := if d in seen then [] else [DateItem(d)];
        var tail := Fold(clock, uuid, log[1..], seen + {d});
        var out := head + [Bubble(clock, uuid, log[0], t)] + tail;
        assert Fold(clock, uuid, log, seen) == out;
        var h := |head| + 1;
        assert forall m :: 0 <= m < |tail| ==> out[h + m] == tail[m];
        assert forall i :: 0 <= i < h ==> out[i].date == d;
        FoldDatesFresh(clock, uuid, log[1..], seen + {d});
        FoldDatesLead(clock, uuid, log[1..], seen + {d});
        forall i, j | 0 <= j < i < |out| && out[i].DateItem?
          ensures out[j].date != out[i].date
        {
          assert out[i] == tail[i - h];
          if j >= h {
            assert out[j] == tail[j - h];
          }
        }
    }
  }

  lemma {:induction false} FoldDatesAnnounced(clock: Clock, uuid: string, log: seq<Chat>, seen: set<string>)
    ensures DatesAnnounced(Fold(clock, uuid, log, seen), seen)
    decreases |log|
  {
    if log != [] {
      match clock.parse(log[0].datetime)
      case None =>
        FoldDatesAnnounced(clock, uuid, log[1..], seen);
      case Some(t) =>
        var d := clock.formatDate(t);
        var head := if d in seen then [] else [DateItem(d)];
        var tail := Fold(clock, uuid, log[1..], seen + {d});
        var out := head + [Bubble(clock, uuid, log[0], t)] + tail;
        assert Fold(clock, uuid, log, seen) == out;
        var h := |head| + 1;
        assert forall m :: 0 <= m < |tail| ==> out[h + m] == tail[m];
        assert forall i :: 0 <= i < h ==> out[i].date == d;
        FoldDatesAnnounced(clock, uuid, log[1..], seen + {d});
        forall j | 0 <= j < |out| && out[j].ChatItem?
          ensures out[j].date in seen || exists i :: 0 <= i < j && out[i] == DateItem(out[j].date)
        {
          if d !in seen {
            assert out[0] == DateItem(d);
          }
          if j >= h {
            var m := j - h;
            assert out[j] == tail[m];
            if tail[m].date !in seen + {d} {
              var i' :| 0 <= i' < m && tail[i'] == DateItem(tail[m].date);
              assert out[i' + h] == tail[i'];
            }
          }
        }
    }
  }

  /** The three placement properties of the fold together. */
  lemma FoldPlacement(clock: Clock, uuid: string, log: seq<Chat>, seen: set<string>)
    ensures DatesLeadTheirGroup(Fold(clock, uuid, log, seen), seen)
    ensures DatesFresh(Fold(clock, uuid, log, seen))
    ensures DatesAnnounced(Fold(clock, uuid, log, seen), seen)
  {
    FoldDatesLead(clock, uuid, log, seen);
    FoldDatesFresh(clock, uuid, log, seen);
    FoldDatesAnnounced(clock, uuid, log, seen);
  }

  /** A record whose timestamp does not parse contributes nothing: removing it
      from the log leaves the display list unchanged. */
  lemma SkipUnparsed(clock: Clock, uuid: string, log: seq<Chat>, k: nat, seen: set<string>)
    requires k < |log| && clock.parse(log[k].datetime).None?
    ensures Fold(clock, uuid, log[..k] + log[k + 1..], seen) == Fold(clock, uuid, log, seen)
  {
    var rest := [log[k]] + log[k + 1..];
    assert log == log[..k] + rest;
    assert rest[1..] == log[k + 1..];
    FoldAppend(clock, uuid, log[..k], rest, seen);
    FoldAppend(clock, uuid, log[..k], log[k + 1..], seen);
  }

  /** Every chat item of the fold is the annotated copy of some record of the
      log with a parsed timestamp, labelled with that timestamp. */
  ghost predicate FromRecord(clock: Clock, uuid: string, log: seq<Chat>, item: Item) {
    exists c, t :: c in log && clock.parse(c.datetime) == Some(t) && item == Bubble(clock, uuid, c, t)
  }

  lemma {:induction false} FoldItemsFromRecords(clock: Clock, uuid: string, log: seq<Chat>, seen: set<string>)
    ensures forall k :: 0 <= k < |Fold(clock, uuid, log, seen)| && Fold(clock, uuid, log, seen)[k].ChatItem? ==>
              FromRecord(clock, uuid, log, Fold(clock, uuid, log, seen)[k])
    decreases |log|
  {
    if log != [] {
      var out := Fold(clock, uuid, log, seen);
      match clock.parse(log[0].datetime)
      case None =>
        FoldItemsFromRecords(clock, uuid, log[1..], seen);
        forall k | 0 <= k < |out| && out[k].ChatItem? ensures FromRecord(clock, uuid, log, out[k]) {
          var c, t :| c in log[1..] && clock.parse(c.datetime) == Some(t) && out[k] == Bubble(clock, uuid, c, t);
          assert c in log;
        }
      case Some(t) =>
        var d := clock.formatDate(t);
        var head := if d in seen then [] else [DateItem(d)];
        var tail := Fold(clock, uuid, log[1..], seen + {d});
        FoldItemsFromRecords(clock, uuid, log[1..], seen + {d});
        var h := |head| + 1;
        assert out == head + [Bubble(clock, uuid, log[0], t)] + tail;
        forall k | 0 <= k < |out| && out[k].ChatItem? ensures FromRecord(clock, uuid, log, out[k]) {
          if k < h {
            assert out[k] == Bubble(clock, uuid, log[0], t);
            assert log[0] in log;
          } else {
            assert out[k] == tail[k - h];
            var c, t' :| c in log[1..] && clock.parse(c.datetime) == Some(t') && out[k] == Bubble(clock, uuid, c, t');
            assert c in log;
          }
        }
    }
  }

  /** The chat items shown for a delivered log: the records with a valid
      timestamp, annotated, in log order, and as many as there are of them. */
  lemma TransformChats(clock: Clock, log: seq<Chat>, uuid: string)
    ensures ChatItems(Transform(clock, Some(log), uuid)) == Bubbles(clock, uuid, Parsed(clock, log))
    ensures |ChatItems(Transform(clock, Some(log), uuid))| == |Parsed(clock, log)|
  {
    FoldChatItems(clock, uuid, log, {});
  }

  /** The date items shown for a delivered log: one per distinct date of a
      valid record, in order of first appearance, never repeated. */
  lemma TransformDates(clock: Clock, log: seq<Chat>, uuid: string)
    ensures DateLabels(Transform(clock, Some(log), uuid)) == FirstOccurrences(Labels(clock, log), {})
    ensures forall x :: x in DateLabels(Transform(clock, Some(log), uuid)) <==> x in Labels(clock, log)
    ensures forall i, j :: 0 <= i < j < |DateLabels(Transform(clock, Some(log), uuid))| ==>
              DateLabels(Transform(clock, Some(log), uuid))[i] != DateLabels(Transform(clock, Some(log), uuid))[j]
  {
    FoldDateLabels(clock, uuid, log, {});
  }

  /** Placement in a delivered log: every date item opens the group of its
      date, and every chat item comes after the date item of its date. */
  lemma TransformPlacement(clock: Clock, log: seq<Chat>, uuid: string)
    ensures DatesLeadTheirGroup(Transform(clock, Some(log), uuid), {})
    ensures DatesFresh(Transform(clock, Some(log), uuid))
    ensures forall j :: 0 <= j < |Transform(clock, Some(log), uuid)| && Transform(clock, Some(log), uuid)[j].ChatItem? ==>
              exists i :: 0 <= i < j && Transform(clock, Some(log), uuid)[i] == DateItem(Transform(clock, Some(log), uuid)[j].date)
  {
    FoldPlacement(clock, uuid, log, {});
  }

  /** The length of the list: one item per valid record plus one per distinct date. */
  lemma TransformLength(clock: Clock, log: seq<Chat>, uuid: string)
    ensures |Transform(clock, Some(log), uuid)| == |Parsed(clock, log)| + |FirstOccurrences(Labels(clock, log), {})|
  {
    var out := Transform(clock, Some(log), uuid);
    FoldChatItems(clock, uuid, log, {});
    FoldDateLabels(clock, uuid, log, {});
    ItemsPartition(out);
  }

  /** A worked log: a date that recurs after another date gets no second date
      item, an unparseable record vanishes, and messages to the viewer are read. */
  lemma RecurringDateScenario()
    ensures var clock := Clock(
              s => if s == "" then None else Some(|s|),
              t => if t < 3 then "1 Januari 2024" else "2 Januari 2024",
              t => if t < 3 then "10.00.00" else "09.00.00");
      var m1 := Chat("c1", "A", "B", "hi", "a", false);
      var m2 := Chat("c2", "B", "A", "hello", "bb", false);
      var m3 := Chat("c3", "A", "B", "next day", "ccc", false);
      var bad := Chat("c4", "B", "A", "lost", "", false);
      var m4 := Chat("c5", "B", "A", "late", "dd", false);
      Transform(clock, Some([m1, m2, m3, bad, m4]), "A") == [
        DateItem("1 Januari 2024"),
        ChatItem(m1, "1 Januari 2024", "10.00.00"),
        ChatItem(m2.(read := true), "1 Januari 2024", "10.00.00"),
        DateItem("2 Januari 2024"),
        ChatItem(m3, "2 Januari 2024", "09.00.00"),
        ChatItem(m4.(read := true), "1 Januari 2024", "10.00.00")]
  {
  }
}
