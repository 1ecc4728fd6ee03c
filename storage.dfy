/** `ChannelStorage`: the category store kept in the messages of the storage
    channels.  Every read walks the channels in order and, in each, the most
    recent messages, and applies one of the per-message functions of
    `Records`; every write edits, sends or deletes messages through the
    `Backend`. */
module Storage {
  import opened Wrappers
  import opened Text
  import opened Records
  import opened Chats
  import BlockFacts

  /** The message a scan stopped at, with what it found there. */
  datatype Found<T> = Found(channel: string, message: Message, value: T)

  // ---------------------------------------------------------------------------
  // Scans

  /** The walk over the messages of one channel that stops at the first hit.
      An `Abort` (an exception inside the channel's `try`) gives up the rest
      of the channel. */
  function FirstInChannel<T>(channel: string, msgs: seq<Message>, step: string -> Step<T>): (r: Step<Found<T>>)
    ensures r.Hit? ==>
      r.value.channel == channel && r.value.message in msgs && step(r.value.message.text) == Hit(r.value.value)
    ensures r.Skip? ==> forall k :: 0 <= k < |msgs| ==> step(msgs[k].text).Skip?
  {
    if |msgs| == 0 then Skip
    else
      match step(msgs[0].text)
      case Skip =>
        var rest := FirstInChannel(channel, msgs[1..], step);
        assert rest.Skip? ==> forall k :: 1 <= k < |msgs| ==> msgs[k] == msgs[1..][k - 1];
        rest
      case Abort => Abort
      case Hit(v) => Hit(Found(channel, msgs[0], v))
  }

  /** The walk over all channels that stops at the first hit. */
  function FirstHit<T>(chats: ChatMap, channels: seq<string>, step: string -> Step<T>): (r: Option<Found<T>>)
    ensures r.Some? ==>
      r.value.channel in channels && r.value.message in Recent(chats, r.value.channel) &&
      step(r.value.message.text) == Hit(r.value.value)
    ensures r.None? <==>
      forall k :: 0 <= k < |channels| ==> !FirstInChannel(channels[k], Recent(chats, channels[k]), step).Hit?
  {
    if |channels| == 0 then None
    else
      match FirstInChannel(channels[0], Recent(chats, channels[0]), step)
      case Hit(f) => Some(f)
      case _ =>
        var rest := FirstHit(chats, channels[1..], step);
        assert forall k :: 1 <= k < |channels| ==> channels[k] == channels[1..][k - 1];
        rest
  }

  /** The message a channel walk stops at is the first one the step does not
      pass over: every message before it is skipped. */
  lemma {:induction false} FirstInChannelIsFirst<T>(channel: string, msgs: seq<Message>, step: string -> Step<T>)
    ensures var r := FirstInChannel(channel, msgs, step);
      !r.Skip? ==>
        exists i :: (0 <= i < |msgs| && !step(msgs[i].text).Skip? &&
          (forall k :: 0 <= k < i ==> step(msgs[k].text).Skip?) &&
          (r.Hit? ==> msgs[i] == r.value.message && step(msgs[i].text) == Hit(r.value.value)))
    decreases |msgs|
  {
    if |msgs| > 0 && step(msgs[0].text).Skip? {
      var rest := msgs[1..];
      FirstInChannelIsFirst(channel, rest, step);
      var r := FirstInChannel(channel, rest, step);
      assert FirstInChannel(channel, msgs, step) == r;
      if !r.Skip? {
        var i :| 0 <= i < |rest| && !step(rest[i].text).Skip? &&
          (forall k :: 0 <= k < i ==> step(rest[k].text).Skip?) &&
          (r.Hit? ==> rest[i] == r.value.message && step(rest[i].text) == Hit(r.value.value));
        assert msgs[i + 1] == rest[i];
        assert forall k :: 1 <= k < i + 1 ==> msgs[k] == rest[k - 1];
      }
    }
  }

  /** Whether the walk over channel `c` finds a hit. */
  predicate HitsIn<T>(chats: ChatMap, c: string, step: string -> Step<T>) {
    FirstInChannel(c, Recent(chats, c), step).Hit?
  }

  /** A scan finds its hit in the first channel that yields one: every
      channel before it gives no hit. */
  lemma {:induction false} FirstHitIsFirst<T>(chats: ChatMap, channels: seq<string>, step: string -> Step<T>)
    ensures var r := FirstHit(chats, channels, step);
      r.Some? ==>
        exists ci :: (0 <= ci < |channels| && channels[ci] == r.value.channel &&
          FirstInChannel(channels[ci], Recent(chats, channels[ci]), step) == Hit(r.value) &&
          forall j :: 0 <= j < ci ==> !HitsIn(chats, channels[j], step))
    decreases |channels|
  {
    if |channels| > 0 {
      var first := FirstInChannel(channels[0], Recent(chats, channels[0]), step);
      if first.Hit? {
        assert FirstHit(chats, channels, step) == Some(first.value);
        assert channels[0] == first.value.channel;
      } else {
        var rest := channels[1..];
        FirstHitIsFirst(chats, rest, step);
        var r := FirstHit(chats, rest, step);
        assert FirstHit(chats, channels, step) == r;
        if r.Some? {
          var ci :| 0 <= ci < |rest| && rest[ci] == r.value.channel &&
            FirstInChannel(rest[ci], Recent(chats, rest[ci]), step) == Hit(r.value) &&
            forall j :: 0 <= j < ci ==> !HitsIn(chats, rest[j], step);
          PrependMiss(chats, channels, ci, step);
        }
      }
    }
  }

  /** A miss in the first channel followed by misses before `ci` in the rest. */
  lemma PrependMiss<T>(chats: ChatMap, channels: seq<string>, ci: nat, step: string -> Step<T>)
    requires 0 < |channels| && ci < |channels| - 1 && !HitsIn(chats, channels[0], step)
    requires forall j :: 0 <= j < ci ==> !HitsIn(chats, channels[1..][j], step)
    ensures channels[ci + 1] == channels[1..][ci]
    ensures forall j :: 0 <= j < ci + 1 ==> !HitsIn(chats, channels[j], step)
  {
    forall j | 0 <= j < ci + 1
      ensures !HitsIn(chats, channels[j], step)
    {
      if j > 0 {
        assert channels[j] == channels[1..][j - 1];
      }
    }
  }

  /** What a first-hit scan found, without where. */
  function FoundValue<T>(f: Option<Found<T>>): Option<T> {
    if f.Some? then Some(f.value.value) else None
  }

  /** The walk over the messages of one channel that visits them all; the
      flag an entry returns ends the channel's walk early. */
  function FoldChannel<A>(msgs: seq<Message>, acc: A, step: (A, string) -> (A, bool)): A {
    if |msgs| == 0 then acc
    else
      var next := step(acc, msgs[0].text);
      if next.1 then next.0 else FoldChannel(msgs[1..], next.0, step)
  }

  /** The walk over all channels that visits every message. */
  function FoldAll<A>(chats: ChatMap, channels: seq<string>, acc: A, step: (A, string) -> (A, bool)): A {
    if |channels| == 0 then acc
    else FoldAll(chats, channels[1..], FoldChannel(Recent(chats, channels[0]), acc, step), step)
  }

  /** The `async for message in get_chat_history(...)` loop of a first-hit scan. */
  method ScanChannel<T>(channel: string, msgs: seq<Message>, step: string -> Step<T>) returns (r: Step<Found<T>>)
    ensures r == FirstInChannel(channel, msgs, step)
  {
    var mi := 0;
    while mi < |msgs|
      invariant 0 <= mi <= |msgs|
      invariant FirstInChannel(channel, msgs, step) == FirstInChannel(channel, msgs[mi..], step)
    {
      assert msgs[mi..][0] == msgs[mi] && msgs[mi..][1..] == msgs[mi + 1..];
      var s := step(msgs[mi].text);
      if s.Hit? {
        return Hit(Found(channel, msgs[mi], s.value));
      }
      if s.Abort? {
        return Abort;
      }
      mi := mi + 1;
    }
    return Skip;
  }

  /** The nested `for channel ... async for message ...` loop of every
      first-hit scan. */
  method ScanFirst<T>(chats: ChatMap, channels: seq<string>, step: string -> Step<T>) returns (r: Option<Found<T>>)
    ensures r == FirstHit(chats, channels, step)
  {
    var ci := 0;
    while ci < |channels|
      invariant 0 <= ci <= |channels|
      invariant FirstHit(chats, channels, step) == FirstHit(chats, channels[ci..], step)
    {
      var s := ScanChannel(channels[ci], Recent(chats, channels[ci]), step);
      FirstHitStep(chats, channels, ci, step);
      if s.Hit? {
        return Some(s.value);
      }
      ci := ci + 1;
    }
    return None;
  }

  /** One channel of a first-hit scan. */
  lemma FirstHitStep<T>(chats: ChatMap, channels: seq<string>, ci: nat, step: string -> Step<T>)
    requires ci < |channels|
    ensures var s := FirstInChannel(channels[ci], Recent(chats, channels[ci]), step);
      FirstHit(chats, channels[ci..], step) == if s.Hit? then Some(s.value) else FirstHit(chats, channels[ci + 1..], step)
  {
    assert channels[ci..][0] == channels[ci] && channels[ci..][1..] == channels[ci + 1..];
  }

  /** The `async for message in get_chat_history(...)` loop of a scan that
      visits every message. */
  method FoldMessages<A>(msgs: seq<Message>, acc: A, step: (A, string) -> (A, bool)) returns (r: A)
    ensures r == FoldChannel(msgs, acc, step)
  {
    r := acc;
    var mi := 0;
    while mi < |msgs|
      invariant 0 <= mi <= |msgs|
      invariant FoldChannel(msgs, acc, step) == FoldChannel(msgs[mi..], r, step)
    {
      assert msgs[mi..][0] == msgs[mi] && msgs[mi..][1..] == msgs[mi + 1..];
      var next := step(r, msgs[mi].text);
      r := next.0;
      if next.1 {
        return;
      }
      mi := mi + 1;
    }
  }

  /** The nested loop of every scan that visits all messages. */
  method ScanAll<A>(chats: ChatMap, channels: seq<string>, acc: A, step: (A, string) -> (A, bool)) returns (r: A)
    ensures r == FoldAll(chats, channels, acc, step)
  {
    r := acc;
    var ci := 0;
    while ci < |channels|
      invariant 0 <= ci <= |channels|
      invariant FoldAll(chats, channels, acc, step) == FoldAll(chats, channels[ci..], r, step)
    {
      r := FoldMessages(Recent(chats, channels[ci]), r, step);
      assert channels[ci..][0] == channels[ci] && channels[ci..][1..] == channels[ci + 1..];
      ci := ci + 1;
    }
  }

  // ---------------------------------------------------------------------------
  // What each scan looks for in a message

  function GlobalTimerStep(): string -> Step<int> {
    t => match GlobalTimerIn(t) case Some(n) => Hit(n) case None => Skip
  }

  function SlotStep(): string -> Step<nat> {
    t => match SlotIn(t, "") case Some(p) => Hit(p) case None => Skip
  }

  function CategoryStep(id: string, globalTimer: int): string -> Step<Category> {
    t => CategoryIn(t, id, globalTimer)
  }

  function AddFileStep(id: string, f: FileRecord): string -> Step<string> {
    t => match AddFileText(t, id, f) case Some(u) => Hit(u) case None => Skip
  }

  function DeleteStep(id: string): string -> Step<seq<string>> {
    t => match DeleteLines(t, id) case Some(rest) => Hit(rest) case None => Skip
  }

  function TimerStep(id: string, seconds: int): string -> Step<string> {
    t => match TimerText(t, id, seconds) case Some(u) => Hit(u) case None => Skip
  }

  function CatalogStep(): (map<string, string>, string) -> (map<string, string>, bool) {
    (acc, t) => BlockCatalog(t, acc)
  }

  function MetaStep(): (map<string, int>, string) -> (map<string, int>, bool) {
    (acc, t) => MetaTimers(t, acc)
  }

  // ---------------------------------------------------------------------------
  // Derived results

  /** The global timer after `load_global_timer`. */
  function LoadedGlobalTimer(chats: ChatMap, channels: seq<string>, current: int): int {
    match FirstHit(chats, channels, GlobalTimerStep())
    case Some(f) => f.value
    case None => current
  }

  /** The edit `add_category` makes to an existing block, when the scan found
      one and the edited text fits. */
  function Placement(chats: ChatMap, channels: seq<string>, record: string): (r: Option<Found<string>>)
    ensures r.Some? ==> r.value.message in Recent(chats, r.value.channel) && |r.value.value| <= MaxTextLength
  {
    match FirstHit(chats, channels, SlotStep())
    case None => None
    case Some(f) => Placed(f, record)
  }

  /** The record inserted at the slot the scan found, when the result fits
      in one message. */
  function Placed(f: Found<nat>, record: string): (r: Option<Found<string>>)
    requires SlotIn(f.message.text, "") == Some(f.value)
    ensures r.Some? ==> r.value.channel == f.channel && r.value.message == f.message && |r.value.value| <= MaxTextLength
  {
    var t := Join(InsertAt(Split(f.message.text, '\n'), f.value + 1, record), '\n');
    if |t| <= MaxTextLength then Some(Found(f.channel, f.message, t)) else None
  }

  /** A message the global-timer purge deletes. */
  predicate Marked(m: Message) {
    Contains(m.text, GlobalTimerMarker)
  }

  /** The ids of the marked messages, in history order. */
  function MarkedIds(msgs: seq<Message>): (r: seq<nat>)
    ensures forall m :: m in msgs && Marked(m) ==> m.id in r
    decreases |msgs|
  {
    if |msgs| == 0 then []
    else
      var last := msgs[|msgs| - 1];
      var init := msgs[..|msgs| - 1];
      assert forall m :: m in msgs ==> m in init || m == last;
      MarkedIds(init) + (if Marked(last) then [last.id] else [])
  }

  /** Only marked messages are listed. */
  lemma {:induction false} MarkedIdsAreMarked(msgs: seq<Message>)
    ensures forall i :: i in MarkedIds(msgs) ==> exists m :: m in msgs && Marked(m) && m.id == i
    decreases |msgs|
  {
    if |msgs| > 0 {
      var last := msgs[|msgs| - 1];
      var init := msgs[..|msgs| - 1];
      MarkedIdsAreMarked(init);
      assert forall m :: m in init ==> m in msgs;
      assert MarkedIds(msgs) == MarkedIds(init) + (if Marked(last) then [last.id] else []);
    }
  }

  /** The chats after deleting, one by one, the messages numbered `ids` from `chat`. */
  function DeleteAll(chats: ChatMap, chat: string, ids: seq<nat>): ChatMap
    decreases |ids|
  {
    if |ids| == 0 then chats
    else Deleted(DeleteAll(chats, chat, ids[..|ids| - 1]), chat, ids[|ids| - 1])
  }

  /** The chats after the purge loop of `save_global_timer` went over `channels`. */
  function PurgeFrom(chats: ChatMap, channels: seq<string>): ChatMap
    decreases |channels|
  {
    if |channels| == 0 then chats
    else PurgeFrom(DeleteAll(chats, channels[0], MarkedIds(Recent(chats, channels[0]))), channels[1..])
  }

  /** The part of `add_category` that finds the block and builds its new text. */
  method FindPlacement(chats: ChatMap, channels: seq<string>, record: string) returns (p: Option<Found<string>>)
    ensures p == Placement(chats, channels, record)
  {
    var slot := ScanFirst(chats, channels, SlotStep());
    if slot.None? {
      return None;
    }
    assert SlotIn(slot.value.message.text, "") == Some(slot.value.value);
    p := Placed(slot.value, record);
  }

  // ---------------------------------------------------------------------------
  // Properties of the scans

  /** Deleting a list of ids removes exactly the messages carrying one of
      them, in that chat only. */
  lemma {:induction false} DeleteAllRemoves(chats: ChatMap, chat: string, ids: seq<nat>)
    ensures forall m :: m in History(DeleteAll(chats, chat, ids), chat) <==> m in History(chats, chat) && m.id !in ids
    ensures forall c :: c != chat ==> History(DeleteAll(chats, chat, ids), c) == History(chats, c)
    decreases |ids|
  {
    if |ids| > 0 {
      var init := ids[..|ids| - 1];
      DeleteAllRemoves(chats, chat, init);
      assert forall i :: i in ids <==> i in init || i == ids[|ids| - 1];
    }
  }

  /** After the purge of one channel, no marked message among its recent
      ones is left. */
  lemma PurgeChannelRemovesMarked(chats: ChatMap, chat: string)
    ensures var after := DeleteAll(chats, chat, MarkedIds(Recent(chats, chat)));
      forall m :: m in Recent(chats, chat) && Marked(m) ==> m !in History(after, chat)
  {
    DeleteAllRemoves(chats, chat, MarkedIds(Recent(chats, chat)));
  }

  /** The purge of one channel keeps every message that no marked recent
      message shares an id with, and leaves the other chats alone. */
  lemma PurgeChannelKeepsOthers(chats: ChatMap, chat: string)
    ensures var after := DeleteAll(chats, chat, MarkedIds(Recent(chats, chat)));
      forall m :: m in History(chats, chat) && (forall n :: n in Recent(chats, chat) && Marked(n) ==> n.id != m.id) ==>
        m in History(after, chat)
    ensures var after := DeleteAll(chats, chat, MarkedIds(Recent(chats, chat)));
      forall c :: c != chat ==> History(after, c) == History(chats, c)
  {
    var ids := MarkedIds(Recent(chats, chat));
    DeleteAllRemoves(chats, chat, ids);
    MarkedIdsAreMarked(Recent(chats, chat));
    var after := DeleteAll(chats, chat, ids);
    forall m | m in History(chats, chat) && (forall n :: n in Recent(chats, chat) && Marked(n) ==> n.id != m.id)
      ensures m in History(after, chat)
    {
      assert m.id !in ids;
    }
  }

  /** The timer message `save_global_timer` sends to the first channel is the
      first thing `load_global_timer` meets, whatever else the chats hold. */
  lemma GlobalTimerRoundTrip(chats: ChatMap, channels: seq<string>, id: nat, seconds: int, current: int)
    requires |channels| > 0
    ensures LoadedGlobalTimer(Posted(chats, channels[0], Message(id, GlobalTimerText(seconds))), channels, current) == seconds
  {
    var m := Message(id, GlobalTimerText(seconds));
    var after := Posted(chats, channels[0], m);
    var msgs := Recent(after, channels[0]);
    assert |History(after, channels[0])| >= 1;
    assert msgs[0] == m;
    BlockFacts.GlobalTimerReadBack(seconds);
    assert GlobalTimerStep()(m.text) == Hit(seconds);
    assert FirstInChannel(channels[0], msgs, GlobalTimerStep()) == Hit(Found(channels[0], m, seconds));
  }

  // ---------------------------------------------------------------------------
  // The store

  class ChannelStorage {
    const bot: Backend
    const channels: seq<string>
    var globalTimer: int
    var categoryTimers: map<string, int>
    var currentChannelIndex: nat
    var loaded: bool

    /** The round-robin index names a channel, or is 0 when there is none. */
    predicate Valid()
      reads this
    {
      currentChannelIndex < |channels| || (|channels| == 0 && currentChannelIndex == 0)
    }

    constructor (bot: Backend, channels: seq<string>, defaultTimer: int)
      ensures this.bot == bot && this.channels == channels && Valid()
      ensures globalTimer == defaultTimer && categoryTimers == map[] && currentChannelIndex == 0 && !loaded
    {
      this.bot := bot;
      this.channels := channels;
      globalTimer := defaultTimer;
      categoryTimers := map[];
      currentChannelIndex := 0;
      loaded := false;
    }

    /** `initialize`: both loads, once. */
    method Initialize()
      modifies this
      ensures old(loaded) ==> globalTimer == old(globalTimer) && categoryTimers == old(categoryTimers)
      ensures !old(loaded) ==>
        globalTimer == LoadedGlobalTimer(bot.chats, channels, old(globalTimer)) &&
        categoryTimers == FoldAll(bot.chats, channels, old(categoryTimers), MetaStep())
      ensures loaded && currentChannelIndex == old(currentChannelIndex)
    {
      if loaded {
        return;
      }
      LoadGlobalTimer();
      LoadCategoryTimers();
      loaded := true;
    }

    /** `load_global_timer`: the first timer message that parses wins. */
    method LoadGlobalTimer()
      modifies this
      ensures globalTimer == LoadedGlobalTimer(bot.chats, channels, old(globalTimer))
      ensures categoryTimers == old(categoryTimers) && currentChannelIndex == old(currentChannelIndex)
      ensures loaded == old(loaded)
    {
      var f := ScanFirst(bot.chats, channels, GlobalTimerStep());
      if f.Some? {
        globalTimer := f.value.value;
      }
    }

    /** `load_category_timers`: every META message adds to the cache. */
    method LoadCategoryTimers()
      modifies this
      ensures categoryTimers == FoldAll(bot.chats, channels, old(categoryTimers), MetaStep())
      ensures globalTimer == old(globalTimer) && currentChannelIndex == old(currentChannelIndex)
      ensures loaded == old(loaded)
    {
      categoryTimers := ScanAll(bot.chats, channels, categoryTimers, MetaStep());
    }

    /** `save_global_timer`: delete every timer message among the recent
        ones, then send the new one to the first channel. */
    method SaveGlobalTimer(seconds: int)
      modifies this, bot
      ensures globalTimer == seconds
      ensures categoryTimers == old(categoryTimers) && currentChannelIndex == old(currentChannelIndex)
      ensures loaded == old(loaded)
      ensures |channels| > 0 ==>
        bot.chats == Posted(PurgeFrom(old(bot.chats), channels), channels[0], Message(old(bot.nextId), GlobalTimerText(seconds))) &&
        bot.nextId == old(bot.nextId) + 1
      ensures |channels| == 0 ==> bot.chats == old(bot.chats) && bot.nextId == old(bot.nextId)
    {
      globalTimer := seconds;
      var ci := 0;
      while ci < |channels|
        invariant 0 <= ci <= |channels|
        invariant PurgeFrom(old(bot.chats), channels) == PurgeFrom(bot.chats, channels[ci..])
        invariant bot.nextId == old(bot.nextId)
        invariant globalTimer == seconds && categoryTimers == old(categoryTimers)
        invariant currentChannelIndex == old(currentChannelIndex) && loaded == old(loaded)
      {
        PurgeChannel(channels[ci]);
        assert channels[ci..][0] == channels[ci] && channels[ci..][1..] == channels[ci + 1..];
        ci := ci + 1;
      }
      if |channels| > 0 {
        var _ := bot.SendMessage(channels[0], GlobalTimerText(seconds));
      }
    }

    /** The inner loop of `save_global_timer`: delete, one by one, the timer
        messages among the recent ones of `chat`. */
    method PurgeChannel(chat: string)
      modifies bot
      ensures bot.chats == DeleteAll(old(bot.chats), chat, MarkedIds(Recent(old(bot.chats), chat)))
      ensures bot.nextId == old(bot.nextId)
    {
      var msgs := Recent(bot.chats, chat);
      ghost var before := bot.chats;
      var mi := 0;
      while mi < |msgs|
        invariant 0 <= mi <= |msgs|
        invariant bot.chats == DeleteAll(before, chat, MarkedIds(msgs[..mi]))
        invariant bot.nextId == old(bot.nextId)
      {
        assert msgs[..mi + 1][..mi] == msgs[..mi];
        if Marked(msgs[mi]) {
          bot.DeleteMessage(chat, msgs[mi].id);
          assert MarkedIds(msgs[..mi + 1]) == MarkedIds(msgs[..mi]) + [msgs[mi].id];
        } else {
          assert MarkedIds(msgs[..mi + 1]) == MarkedIds(msgs[..mi]);
        }
        mi := mi + 1;
      }
      assert msgs[..mi] == msgs;
    }

    /** `save_category_timer`: set the cache entry, then rewrite the timer
        lines of the first message that mentions the category. */
    method SaveCategoryTimer(id: string, seconds: int)
      modifies this, bot
      ensures categoryTimers == old(categoryTimers)[id := seconds]
      ensures globalTimer == old(globalTimer) && currentChannelIndex == old(currentChannelIndex)
      ensures loaded == old(loaded) && bot.nextId == old(bot.nextId)
      ensures var f := FirstHit(old(bot.chats), channels, TimerStep(id, seconds));
        bot.chats == if f.Some? then Edited(old(bot.chats), f.value.channel, f.value.message.id, f.value.value)
                     else old(bot.chats)
    {
      categoryTimers := categoryTimers[id := seconds];
      var f := ScanFirst(bot.chats, channels, TimerStep(id, seconds));
      if f.Some? {
        bot.EditMessageText(f.value.channel, f.value.message.id, f.value.value);
      }
    }

    /** What `add_category` leaves behind once the scan settled on `p`: the
        chosen block edited, or else a new block sent to the round-robin
        channel and the index moved on, or, with no channel at all, nothing;
        then the record's timer cached. */
    twostate predicate RecordPlaced(id: string, record: string, new p: Option<Found<string>>, new r: Option<string>)
      reads this, bot
    {
      globalTimer == old(globalTimer) && loaded == old(loaded) &&
      (p.Some? ==>
        r == Some(id) && currentChannelIndex == old(currentChannelIndex) && bot.nextId == old(bot.nextId) &&
        bot.chats == Edited(old(bot.chats), p.value.channel, p.value.message.id, p.value.value)) &&
      (p.None? && |channels| > 0 ==>
        r == Some(id) && old(currentChannelIndex) < |channels| &&
        currentChannelIndex == (old(currentChannelIndex) + 1) % |channels| &&
        bot.nextId == old(bot.nextId) + 1 &&
        bot.chats == Posted(old(bot.chats), channels[old(currentChannelIndex)], Message(old(bot.nextId), NewBlockText(record)))) &&
      (p.None? && |channels| == 0 ==>
        r == None && currentChannelIndex == old(currentChannelIndex) && bot.chats == old(bot.chats) &&
        bot.nextId == old(bot.nextId)) &&
      (r.Some? ==> categoryTimers == old(categoryTimers)[id := old(globalTimer)]) &&
      (r.None? ==> categoryTimers == old(categoryTimers))
    }

    /** `add_category` with the record built from the id the caller drew
        (`uuid4` is not modelled), the name, the creator and the global timer:
        the record goes into the block `Placement` picks. */
    method AddCategory(id: string, name: string, createdBy: int) returns (r: Option<string>)
      requires Valid()
      modifies this, bot
      ensures Valid()
      ensures RecordPlaced(id, CategoryRecord(id, name, createdBy, old(globalTimer)),
        Placement(old(bot.chats), channels, CategoryRecord(id, name, createdBy, old(globalTimer))), r)
    {
      var record := CategoryRecord(id, name, createdBy, globalTimer);
      var p := FindPlacement(bot.chats, channels, record);
      r := PlaceRecord(id, record, p);
    }

    /** The writes of `add_category` once the scan is done: edit the block it
        chose, or send a new one; then cache the timer. */
    method PlaceRecord(id: string, record: string, p: Option<Found<string>>) returns (r: Option<string>)
      requires Valid()
      modifies this, bot
      ensures Valid() && RecordPlaced(id, record, p, r)
    {
      if p.Some? {
        bot.EditMessageText(p.value.channel, p.value.message.id, p.value.value);
      } else {
        if |channels| == 0 {
          return None;
        }
        SendNewBlock(record);
      }
      categoryTimers := categoryTimers[id := globalTimer];
      return Some(id);
    }

    /** The fallback of `add_category`: a new block for the record goes to the
        round-robin channel, and the index moves on. */
    method SendNewBlock(record: string)
      requires Valid() && |channels| > 0
      modifies this, bot
      ensures Valid()
      ensures currentChannelIndex == (old(currentChannelIndex) + 1) % |channels|
      ensures bot.nextId == old(bot.nextId) + 1
      ensures bot.chats == Posted(old(bot.chats), channels[old(currentChannelIndex)], Message(old(bot.nextId), NewBlockText(record)))
      ensures globalTimer == old(globalTimer) && categoryTimers == old(categoryTimers) && loaded == old(loaded)
    {
      var channel := channels[currentChannelIndex];
      currentChannelIndex := (currentChannelIndex + 1) % |channels|;
      var _ := bot.SendMessage(channel, NewBlockText(record));
    }

    /** `get_categories`: id to name, over every block. */
    method GetCategories() returns (r: map<string, string>)
      ensures r == FoldAll(bot.chats, channels, map[], CatalogStep())
    {
      r := ScanAll(bot.chats, channels, map[], CatalogStep());
    }

    /** `get_category`: the record of the first message that has it; `None`
        when no scan finds it. */
    method GetCategory(id: string) returns (r: Option<Category>)
      ensures r == FoundValue(FirstHit(bot.chats, channels, CategoryStep(id, globalTimer)))
    {
      var f := ScanFirst(bot.chats, channels, CategoryStep(id, globalTimer));
      r := FoundValue(f);
    }

    /** `add_file`: insert the file line into the first message where it
        fits; false when there is none. */
    method AddFile(id: string, f: FileRecord) returns (ok: bool)
      modifies bot
      ensures bot.nextId == old(bot.nextId)
      ensures var h := FirstHit(old(bot.chats), channels, AddFileStep(id, f));
        ok == h.Some? &&
        bot.chats == if h.Some? then Edited(old(bot.chats), h.value.channel, h.value.message.id, h.value.value)
                     else old(bot.chats)
    {
      var h := ScanFirst(bot.chats, channels, AddFileStep(id, f));
      if h.None? {
        return false;
      }
      bot.EditMessageText(h.value.channel, h.value.message.id, h.value.value);
      return true;
    }

    /** `delete_category`: cut the record out of the first message that has
        it, deleting the message when at most one line is left. */
    method DeleteCategory(id: string) returns (ok: bool)
      modifies this, bot
      ensures globalTimer == old(globalTimer) && currentChannelIndex == old(currentChannelIndex)
      ensures loaded == old(loaded) && bot.nextId == old(bot.nextId)
      ensures var h := FirstHit(old(bot.chats), channels, DeleteStep(id));
        ok == h.Some? &&
        (h.Some? ==>
          categoryTimers == old(categoryTimers) - {id} &&
          bot.chats == if |h.value.value| <= 1 then Deleted(old(bot.chats), h.value.channel, h.value.message.id)
                       else Edited(old(bot.chats), h.value.channel, h.value.message.id, Join(h.value.value, '\n'))) &&
        (h.None? ==> categoryTimers == old(categoryTimers) && bot.chats == old(bot.chats))
    {
      var h := ScanFirst(bot.chats, channels, DeleteStep(id));
      if h.None? {
        return false;
      }
      var rest := h.value.value;
      categoryTimers := categoryTimers - {id};
      if |rest| <= 1 {
        bot.DeleteMessage(h.value.channel, h.value.message.id);
      } else {
        bot.EditMessageText(h.value.channel, h.value.message.id, Join(rest, '\n'));
      }
      return true;
    }
  }
}
