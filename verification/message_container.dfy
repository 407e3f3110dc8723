/**
 The message list transform of a conversation: the effect body that turns
 the chat log delivered by the socket into a display list of date items and
 chat items.
 */
module MessageContainer {
  import opened Wrappers

  /** One record of the chat log (`Chat`). Its `datetime` arrives as text. */
  datatype Chat = Chat(
    chatUuid: string,
    fromUuid: string,
    toUuid: string,
    message: string,
    datetime: string,
    read: bool)

  /** An entry of the display list (`ChatType`): a date separator, or a copy of
      a record together with the date and time labels of its timestamp. */
  datatype Item =
    | DateItem(date: string)
    | ChatItem(chat: Chat, date: string, time: string)

  /** Parsing of a timestamp (`new Date(..)`, None when `getTime()` is NaN) and
      the two `Intl.DateTimeFormat` formatters, applied to epoch milliseconds. */
  datatype Clock = Clock(
    parse: string -> Option<int>,
    formatDate: int -> string,
    formatTime: int -> string)

  /** The record as the list shows it: read once it reaches its recipient. */
  function Annotate(c: Chat, uuid: string): (r: Chat)
    ensures c.toUuid == uuid ==> r.read
    ensures c.toUuid != uuid ==> r.read == c.read
    ensures r.(read := c.read) == c
  {
    if c.toUuid == uuid then c.(read := true) else c
  }

  /** The chat item for a record whose timestamp parsed to `t`. */
  function Bubble(clock: Clock, uuid: string, c: Chat, t: int): Item {
    ChatItem(Annotate(c, uuid), clock.formatDate(t), clock.formatTime(t))
  }

  /** The body of the `forEach`, folded over the rest of the log; `seen` is the
      set of date labels a date item has already been emitted for. */
  function Fold(clock: Clock, uuid: string, log: seq<Chat>, seen: set<string>): seq<Item>
    decreases |log|
  {
    if log == [] then []
    else
      match clock.parse(log[0].datetime)
      case None => Fold(clock, uuid, log[1..], seen)
      case Some(t) =>
        var date := clock.formatDate(t);
        (if date in seen then [] else [DateItem(date)])
        + [Bubble(clock, uuid, log[0], t)]
        + Fold(clock, uuid, log[1..], seen + {date})
  }

  /** The seen-set after the `forEach` has run over `log`. */
  function SeenAfter(clock: Clock, log: seq<Chat>, seen: set<string>): set<string>
    decreases |log|
  {
    if log == [] then seen
    else
      match clock.parse(log[0].datetime)
      case None => SeenAfter(clock, log[1..], seen)
      case Some(t) => SeenAfter(clock, log[1..], seen + {clock.formatDate(t)})
  }

  /** The display list for the component's `data` prop; absent data gives none. */
  function Transform(clock: Clock, data: Option<seq<Chat>>, uuid: string): seq<Item> {
    match data
    case None => []
    case Some(log) => Fold(clock, uuid, log, {})
  }

  /** Running the fold over `a + b` is running it over `a`, then over `b`
      with the labels `a` added to the seen-set. */
  lemma {:induction false} FoldAppend(clock: Clock, uuid: string, a: seq<Chat>, b: seq<Chat>, seen: set<string>)
    ensures Fold(clock, uuid, a + b, seen) == Fold(clock, uuid, a, seen) + Fold(clock, uuid, b, SeenAfter(clock, a, seen))
    ensures SeenAfter(clock, a + b, seen) == SeenAfter(clock, b, SeenAfter(clock, a, seen))
    decreases |a|
  {
    if a == [] {
      assert a + b == b;
    } else {
      assert (a + b)[0] == a[0];
      assert (a + b)[1..] == a[1..] + b;
      match clock.parse(a[0].datetime)
      case None =>
        FoldAppend(clock, uuid, a[1..], b, seen);
      case Some(t) =>
        FoldAppend(clock, uuid, a[1..], b, seen + {clock.formatDate(t)});
    }
  }

  /** The effect itself, as the imperative loop over `data` with a result list
      and a set of seen dates. */
  method BuildMessages(clock: Clock, data: Option<seq<Chat>>, uuid: string) returns (results: seq<Item>)
    ensures results == Transform(clock, data, uuid)
  {
    if data.None? {
      return [];
    }
    var log := data.value;
    results := [];
    var seenDates: set<string> := {};
    var i := 0;
    while i < |log|
      invariant 0 <= i <= |log|
      invariant results == Fold(clock, uuid, log[..i], {})
      invariant seenDates == SeenAfter(clock, log[..i], {})
    {
      var item := log[i];
      FoldAppend(clock, uuid, log[..i], [item], {});
      assert log[..i + 1] == log[..i] + [item];
      assert [item][1..] == [];
      match clock.parse(item.datetime) {
        case None =>
        case Some(t) =>
        var date := clock.formatDate(t);
        var time := clock.formatTime(t);
        if date !in seenDates {
          results := results + [DateItem(date)];
          seenDates := seenDates + {date};
        }
        var chat := Annotate(item, uuid);
        results := results + [ChatItem(chat, date, time)];
      }
      i := i + 1;
    }
    assert log[..|log|] == log;
  }
}
