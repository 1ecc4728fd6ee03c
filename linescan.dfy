/** The index loops `ChannelStorage` runs over the lines of one message,
    written as loops and proved to compute the `Records` functions that the
    storage scans apply to every message. */
module LineScan {
  import opened Wrappers
  import opened Text
  import opened Records

  /** `for i, line in enumerate(lines[from:]): if line.startswith(prefix): ... break`. */
  method FindLine(lines: seq<string>, prefix: string, from: nat) returns (r: Option<nat>)
    ensures r == FirstMatch(lines, prefix, from)
  {
    var i := from;
    while i < |lines|
      invariant from <= i
      invariant FirstMatch(lines, prefix, from) == FirstMatch(lines, prefix, i)
      decreases |lines| - i
    {
      if StartsWith(lines[i], prefix) {
        return Some(i);
      }
      i := i + 1;
    }
    return None;
  }

  /** The nested search of `add_file` for the `FILES:` line of a category. */
  method LocateFilesLine(lines: seq<string>, id: string) returns (r: Option<nat>)
    ensures r == FilesLineIndex(lines, id)
  {
    r := None;
    var i := 0;
    while i < |lines|
      invariant 0 <= i <= |lines|
      invariant FirstMatch(lines, CategoryPrefix(id), 0) == FirstMatch(lines, CategoryPrefix(id), i)
      decreases |lines| - i
    {
      if StartsWith(lines[i], CategoryPrefix(id)) {
        var j := i;
        while j < |lines|
          invariant i <= j <= |lines|
          invariant FirstMatch(lines, FilesTag, i) == FirstMatch(lines, FilesTag, j)
          decreases |lines| - j
        {
          if StartsWith(lines[j], FilesTag) {
            r := Some(j);
            break;
          }
          j := j + 1;
        }
        return;
      }
      i := i + 1;
    }
  }

  /** The range search of `delete_category`: a line starting with the
      prefix (re)sets the start, the next other `CATEGORY:` line sets the end. */
  method LocateCategoryRange(lines: seq<string>, id: string) returns (r: Option<(nat, nat)>)
    ensures r == CategoryRange(lines, id)
  {
    var p := CategoryPrefix(id);
    StartsWithConcat(CategoryTag, id);
    var start: Option<nat> := None;
    var i := 0;
    while i < |lines|
      invariant 0 <= i <= |lines|
      invariant start.None? ==> forall k :: 0 <= k < i ==> !StartsWith(lines[k], p)
      invariant start.Some? ==>
        start.value < i && StartsWith(lines[start.value], p) &&
        (forall k :: start.value < k < i ==> !StartsWith(lines[k], CategoryTag)) &&
        CategoryRange(lines, id) == Some(RangeFrom(lines, p, start.value, i))
      decreases |lines| - i
    {
      if StartsWith(lines[i], p) {
        if start.None? {
          RangeOfFirst(lines, id, i);
        } else {
          RangeMoves(lines, id, start.value, i);
        }
        start := Some(i);
      } else if start.Some? && i > start.value && StartsWith(lines[i], CategoryTag) {
        RangeEnds(lines, p, start.value, i);
        return Some((start.value, i));
      } else if start.Some? {
        RangeGrows(lines, id, start.value, i);
      }
      i := i + 1;
    }
    if start.None? {
      return None;
    }
    return Some((start.value, |lines|));
  }

  /** The first line with the prefix opens the range. */
  lemma RangeOfFirst(lines: seq<string>, id: string, i: nat)
    requires i < |lines| && StartsWith(lines[i], CategoryPrefix(id))
    requires forall k :: 0 <= k < i ==> !StartsWith(lines[k], CategoryPrefix(id))
    ensures StartsWith(CategoryPrefix(id), CategoryTag)
    ensures CategoryRange(lines, id) == Some(RangeFrom(lines, CategoryPrefix(id), i, i + 1))
  {
    StartsWithConcat(CategoryTag, id);
    FirstMatchIs(lines, CategoryPrefix(id), i);
  }

  /** A later line with the prefix moves the start of the range. */
  lemma RangeMoves(lines: seq<string>, id: string, s: nat, i: nat)
    requires StartsWith(CategoryPrefix(id), CategoryTag)
    requires s < i < |lines| && StartsWith(lines[s], CategoryPrefix(id))
    requires forall k :: s < k < i ==> !StartsWith(lines[k], CategoryTag)
    requires CategoryRange(lines, id) == Some(RangeFrom(lines, CategoryPrefix(id), s, i))
    requires StartsWith(lines[i], CategoryPrefix(id))
    ensures CategoryRange(lines, id) == Some(RangeFrom(lines, CategoryPrefix(id), i, i + 1))
  {
  }

  /** Another record's `CATEGORY:` line ends the range. */
  lemma RangeEnds(lines: seq<string>, p: string, s: nat, i: nat)
    requires StartsWith(p, CategoryTag)
    requires s < i < |lines| && StartsWith(lines[s], p)
    requires forall k :: s < k < i ==> !StartsWith(lines[k], CategoryTag)
    requires !StartsWith(lines[i], p) && StartsWith(lines[i], CategoryTag)
    ensures RangeFrom(lines, p, s, i) == (s, i)
  {
  }

  /** Any other line joins the range. */
  lemma RangeGrows(lines: seq<string>, id: string, s: nat, i: nat)
    requires StartsWith(CategoryPrefix(id), CategoryTag)
    requires s < i < |lines| && StartsWith(lines[s], CategoryPrefix(id))
    requires forall k :: s < k < i ==> !StartsWith(lines[k], CategoryTag)
    requires CategoryRange(lines, id) == Some(RangeFrom(lines, CategoryPrefix(id), s, i))
    requires !StartsWith(lines[i], CategoryPrefix(id)) && !StartsWith(lines[i], CategoryTag)
    ensures forall k :: s < k < i + 1 ==> !StartsWith(lines[k], CategoryTag)
    ensures CategoryRange(lines, id) == Some(RangeFrom(lines, CategoryPrefix(id), s, i + 1))
  {
  }

  /** A line with the prefix below which no line has it is the first match. */
  lemma FirstMatchIs(lines: seq<string>, p: string, i: nat)
    requires i < |lines| && StartsWith(lines[i], p)
    requires forall k :: 0 <= k < i ==> !StartsWith(lines[k], p)
    ensures FirstMatch(lines, p, 0) == Some(i)
  {
  }

  /** The rewrite loop of `save_category_timer`, then its search for the
      `CREATED_BY:` line when no `TIMER:` line was met. */
  method RewriteTimerLines(lines: seq<string>, seconds: int) returns (r: seq<string>)
    ensures r == TimerEdit(lines, seconds)
  {
    var timerLine := TimerTag + IntToString(seconds);
    var newLines: seq<string> := [];
    var timerFound := false;
    var k := 0;
    while k < |lines|
      invariant 0 <= k <= |lines| && |newLines| == k
      invariant forall i :: 0 <= i < k ==>
        newLines[i] == if StartsWith(lines[i], TimerTag) then timerLine else lines[i]
      invariant timerFound <==> exists i :: 0 <= i < k && StartsWith(lines[i], TimerTag)
    {
      if StartsWith(lines[k], TimerTag) {
        newLines := newLines + [timerLine];
        timerFound := true;
      } else {
        newLines := newLines + [lines[k]];
      }
      k := k + 1;
    }
    var rewritten := seq(|lines|, i requires 0 <= i < |lines| =>
      if StartsWith(lines[i], TimerTag) then timerLine else lines[i]);
    assert newLines == rewritten;
    assert timerFound == HasTimerLine(lines);
    if !timerFound {
      var at := FindLine(newLines, CreatedByTag, 0);
      if at.Some? {
        newLines := InsertAt(newLines, at.value + 1, timerLine);
      }
    }
    return newLines;
  }

  /** The file walk of `get_category`, up to the first empty or `CATEGORY:` line. */
  method CollectFiles(lines: seq<string>) returns (files: seq<FileRecord>)
    ensures files == ParseFiles(lines)
  {
    files := [];
    var k := 0;
    while k < |lines| && ContinuesFiles(lines[k])
      invariant 0 <= k <= |lines|
      invariant ParseFiles(lines) == files + ParseFiles(lines[k..])
    {
      assert lines[k..][1..] == lines[k + 1..];
      var parsed := ParseFileLine(lines[k]);
      if parsed.Some? {
        files := files + [parsed.value];
      }
      k := k + 1;
    }
  }

  /** `get_category` on the lines of one message that mentions the prefix:
      locate the record, read name, timer and files. */
  method ReadCategory(lines: seq<string>, id: string, globalTimer: int) returns (r: Step<Category>)
    ensures r == CategoryInLines(lines, id, globalTimer)
  {
    var found := FindLine(lines, CategoryPrefix(id), 0);
    if found.None? {
      return Skip;
    }
    var s := found.value;
    if s + 2 >= |lines| {
      return Abort;
    }
    var name := Field(lines[s + 1], ':', 1);
    if name.None? {
      return Abort;
    }
    var timer := globalTimer;
    if StartsWith(lines[s + 2], TimerTag) {
      var v := Field(lines[s + 2], ':', 1);
      if v.Some? {
        var n := ParseInt(v.value);
        if n.Some? {
          timer := n.value;
        }
      }
    }
    var from := if s + 4 <= |lines| then s + 4 else |lines|;
    var files := CollectFiles(lines[from..]);
    return Hit(Category(name.value, timer, files));
  }

  /** The inner loop of `_find_message_for_category` on one message. */
  method LocateSlot(text: string, id: string) returns (r: Option<nat>)
    ensures r == SlotIn(text, id)
  {
    if !StartsWith(text, BlockHeader) {
      return None;
    }
    var categories := Split(text, '\n')[1..];
    var found := FindLine(categories, CategoryPrefix(id), 0);
    if found.Some? {
      return found;
    }
    if |categories| < CategoriesPerMessage {
      return Some(|categories|);
    }
    return None;
  }

  /** The loop of `get_categories` over the lines after the block header;
      the flag reports the `IndexError` that ends the walk. */
  method CatalogLines(lines: seq<string>, acc: map<string, string>) returns (m: map<string, string>, aborted: bool)
    ensures (m, aborted) == CatalogFrom(lines, 1, acc)
  {
    m := acc;
    var k := 1;
    while k < |lines|
      invariant 1 <= k
      invariant CatalogFrom(lines, 1, acc) == CatalogFrom(lines, k, m)
      decreases |lines| - k
    {
      if StartsWith(lines[k], CategoryTag) {
        var catId := Field(lines[k], ':', 1);
        if catId.None? {
          return m, true;
        }
        var at := IndexOf(lines, lines[k]);
        if at + 1 >= |lines| {
          return m, true;
        }
        var name := Field(lines[at + 1], ':', 1);
        if name.None? {
          return m, true;
        }
        m := m[catId.value := name.value];
      }
      k := k + 1;
    }
    return m, false;
  }

  /** The loop of `load_category_timers` over the lines of one message;
      `current` is the id of the last `CATEGORY:` line, empty for none. */
  method MetaTimerLines(lines: seq<string>, acc: map<string, int>) returns (m: map<string, int>, aborted: bool)
    ensures (m, aborted) == MetaTimersFrom(lines, 0, "", acc)
  {
    m := acc;
    var current := "";
    var k := 0;
    while k < |lines|
      invariant MetaTimersFrom(lines, 0, "", acc) == MetaTimersFrom(lines, k, current, m)
      decreases |lines| - k
    {
      if StartsWith(lines[k], CategoryTag) {
        var catId := Field(lines[k], ':', 1);
        if catId.None? {
          return m, true;
        }
        current := catId.value;
      } else if StartsWith(lines[k], TimerTag) && current != "" {
        var v := Field(lines[k], ':', 1);
        if v.None? {
          return m, true;
        }
        var n := ParseInt(v.value);
        if n.Some? {
          m := m[current := n.value];
        }
      }
      k := k + 1;
    }
    return m, false;
  }
}
