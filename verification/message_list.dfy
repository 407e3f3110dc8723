/**
 The message list component: its state after the effect (the display list
 and the viewer id), and the rendering of that list with self/peer alignment.
 */
module MessageList {
  import opened Wrappers
  import opened MessageContainer
  import opened MessageOrder

  /** The component's state after the effect: the display list and the viewer. */
  datatype State = State(messages: seq<Item>, viewer: string)

  /** The effect on `[data, uuid]`: both parts of the state are rebuilt from
      the props alone. Absent data shows nothing; a delivered log shows its
      valid records, annotated, in log order, each distinct date once, ahead
      of the first record of that date. */
  function Effect(clock: Clock, data: Option<seq<Chat>>, uuid: string): (s: State)
    ensures s.viewer == uuid
    ensures data.None? ==> s.messages == []
    ensures data.Some? ==> ChatItems(s.messages) == Bubbles(clock, uuid, Parsed(clock, data.value))
    ensures data.Some? ==> DateLabels(s.messages) == FirstOccurrences(Labels(clock, data.value), {})
    ensures data.Some? ==> DatesLeadTheirGroup(s.messages, {}) && DatesFresh(s.messages)
  {
    match data
    case None => State([], uuid)
    case Some(log) =>
      TransformChats(clock, log, uuid);
      TransformDates(clock, log, uuid);
      TransformPlacement(clock, log, uuid);
      State(Transform(clock, data, uuid), uuid)
  }

  datatype Side = Left | Right

  /** One rendered row: a centred date, or a message bubble on one side. */
  datatype Row = DateRow(caption: string) | BubbleRow(side: Side, text: string, time: string)

  function RenderItem(item: Item, viewer: string): Row {
    match item
    case DateItem(date) => DateRow(date)
    case ChatItem(chat, _, time) =>
      BubbleRow(if chat.fromUuid == viewer then Right else Left, chat.message, time)
  }

  /** The rendered list, one row per item, in order. */
  function Render(s: State): (rows: seq<Row>)
    ensures |rows| == |s.messages|
    ensures forall k :: 0 <= k < |rows| ==> (rows[k].DateRow? <==> s.messages[k].DateItem?)
    ensures forall k :: 0 <= k < |rows| && s.messages[k].ChatItem? ==>
              (rows[k].side == Right <==> s.messages[k].chat.fromUuid == s.viewer)
    ensures forall k :: 0 <= k < |rows| && rows[k].DateRow? ==> rows[k].caption == s.messages[k].date
    ensures forall k :: 0 <= k < |rows| && rows[k].BubbleRow? ==>
              rows[k].text == s.messages[k].chat.message && rows[k].time == s.messages[k].time
  {
    seq(|s.messages|, k requires 0 <= k < |s.messages| => RenderItem(s.messages[k], s.viewer))
  }

  /** Item `k` of state `s` shows record `c`, whose timestamp parsed to `t`:
      every field kept except `read`, which is forced on when the viewer is the
      recipient; labels of its own timestamp; on the right exactly when the
      viewer sent it. */
  ghost predicate ShowsRecord(clock: Clock, s: State, k: nat, c: Chat, t: int)
    requires k < |s.messages|
  {
    && s.messages[k].ChatItem?
    && s.messages[k].chat.(read := c.read) == c
    && s.messages[k].date == clock.formatDate(t)
    && s.messages[k].time == clock.formatTime(t)
    && (c.toUuid == s.viewer ==> s.messages[k].chat.read)
    && (c.toUuid != s.viewer ==> s.messages[k].chat.read == c.read)
    && (Render(s)[k].side == Right <==> c.fromUuid == s.viewer)
  }

  /** Read state and alignment of every chat item shown for viewer `uuid`. */
  lemma ChatAnnotations(clock: Clock, log: seq<Chat>, uuid: string)
    ensures var s := Effect(clock, Some(log), uuid);
      forall k :: 0 <= k < |s.messages| && s.messages[k].ChatItem? ==>
        exists c, t :: c in log && clock.parse(c.datetime) == Some(t) && ShowsRecord(clock, s, k, c, t)
  {
    var s := Effect(clock, Some(log), uuid);
    FoldItemsFromRecords(clock, uuid, log, {});
    forall k | 0 <= k < |s.messages| && s.messages[k].ChatItem?
      ensures exists c, t :: c in log && clock.parse(c.datetime) == Some(t) && ShowsRecord(clock, s, k, c, t)
    {
      assert FromRecord(clock, uuid, log, s.messages[k]);
      var c, t :| c in log && clock.parse(c.datetime) == Some(t) && s.messages[k] == Bubble(clock, uuid, c, t);
      assert ShowsRecord(clock, s, k, c, t);
    }
  }
}
