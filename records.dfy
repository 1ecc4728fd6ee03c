/** The line grammar of the channel record store.

    A block is one channel message whose body starts with `CATEGORIES_BLOCK:`
    and continues, line by line, with category records:

        CATEGORY:<id>
        NAME:<name>
        CREATED_BY:<owner>
        TIMER:<seconds>
        FILES:
        <file_id>|<file_type>|<caption>
        ...

    Every operation of the store reads a message body, splits it on `'\n'`,
    edits or reads the resulting line sequence, and joins it again.  This
    module states, for one message body, what each operation does to it. */
module Records {
  import opened Wrappers
  import opened Text

  const BlockHeader: string := "CATEGORIES_BLOCK:"
  const CategoryTag: string := "CATEGORY:"
  const NameTag: string := "NAME:"
  const CreatedByTag: string := "CREATED_BY:"
  const TimerTag: string := "TIMER:"
  const FilesTag: string := "FILES:"
  const GlobalTimerMarker: string := "===== GLOBAL TIMER ====="
  const MetaMarker: string := "===== META ====="

  /** The backend's size limit on a message body, as the store checks it. */
  const MaxTextLength: nat := 4096
  /** `categories_per_message`; the code compares it with a count of lines. */
  const CategoriesPerMessage: nat := 10
  /** Every history scan reads at most this many messages per channel. */
  const HistoryLimit: nat := 100

  datatype FileRecord = FileRecord(fileId: string, fileType: string, caption: string)

  /** What `get_category` returns: name, timer and files. */
  datatype Category = Category(name: string, timer: int, files: seq<FileRecord>)

  /** What one message contributes to a scan that stops at the first hit:
      `Skip` goes on with the next message, `Abort` is an exception that ends
      the scan of the current channel, `Hit` ends the whole scan. */
  datatype Step<+T> = Skip | Abort | Hit(value: T)

  /** `f"CATEGORY:{category_id}"`; with an empty or absent id it is `CATEGORY:`. */
  function CategoryPrefix(id: string): string {
    CategoryTag + id
  }

  // ---------------------------------------------------------------------------
  // Record formatting

  /** The file line `add_file` writes. */
  function FileLine(f: FileRecord): string {
    f.fileId + "|" + f.fileType + "|" + f.caption
  }

  /** The five lines of a category record written by `add_category`. */
  function RecordLines(id: string, name: string, createdBy: int, timer: int): seq<string> {
    [CategoryPrefix(id), NameTag + name, CreatedByTag + IntToString(createdBy),
     TimerTag + IntToString(timer), FilesTag]
  }

  /** `category_data` of `add_category`: one string holding the five lines. */
  function CategoryRecord(id: string, name: string, createdBy: int, timer: int): string {
    Join(RecordLines(id, name, createdBy, timer), '\n')
  }

  /** The body of a block created for a single record. */
  function NewBlockText(record: string): string {
    BlockHeader + "\n" + record
  }

  /** The body of the global timer message. */
  function GlobalTimerText(seconds: int): string {
    GlobalTimerMarker + "\n" + IntToString(seconds)
  }

  // ---------------------------------------------------------------------------
  // Line surgery

  /** The first line at index `from` or later that starts with `prefix`. */
  function FirstMatch(lines: seq<string>, prefix: string, from: nat): (r: Option<nat>)
    decreases |lines| - from
    ensures r.Some? ==> from <= r.value < |lines| && StartsWith(lines[r.value], prefix)
    ensures r.Some? ==> forall k :: from <= k < r.value ==> !StartsWith(lines[k], prefix)
    ensures r.None? ==> forall k :: from <= k < |lines| ==> !StartsWith(lines[k], prefix)
  {
    if from >= |lines| then None
    else if StartsWith(lines[from], prefix) then Some(from)
    else FirstMatch(lines, prefix, from + 1)
  }

  /** Python's `lines.insert(k, x)`: `x` lands at index `k`, the lines before
      it stay where they were and the lines after it move down by one. */
  function InsertAt(lines: seq<string>, k: nat, x: string): (r: seq<string>)
    requires k <= |lines|
    ensures |r| == |lines| + 1 && r[k] == x
    ensures forall i :: 0 <= i < k ==> r[i] == lines[i]
    ensures forall i :: k < i < |r| ==> r[i] == lines[i - 1]
  {
    lines[..k] + [x] + lines[k..]
  }

  // ---------------------------------------------------------------------------
  // add_file

  /** The `FILES:` line `add_file` inserts after: the first one at or after the
      first line that starts with `CATEGORY:<id>`. */
  function FilesLineIndex(lines: seq<string>, id: string): (r: Option<nat>)
    ensures r.Some? ==>
      var s := FirstMatch(lines, CategoryPrefix(id), 0);
      s.Some? && s.value <= r.value < |lines| && StartsWith(lines[r.value], FilesTag) &&
      forall k :: s.value <= k < r.value ==> !StartsWith(lines[k], FilesTag)
    ensures r.None? ==>
      var s := FirstMatch(lines, CategoryPrefix(id), 0);
      s.None? || forall k :: s.value <= k < |lines| ==> !StartsWith(lines[k], FilesTag)
  {
    match FirstMatch(lines, CategoryPrefix(id), 0)
    case None => None
    case Some(i) => FirstMatch(lines, FilesTag, i)
  }

  /** The new body `add_file` writes into one message, or `None` when it
      passes the message by (no match, no `FILES:` line, or too long). */
  function AddFileText(text: string, id: string, f: FileRecord): (r: Option<string>)
    ensures r.Some? ==> |r.value| <= MaxTextLength
  {
    if !Contains(text, CategoryPrefix(id)) then None
    else
      var lines := Split(text, '\n');
      match FilesLineIndex(lines, id)
      case None => None
      case Some(j) =>
        var t := Join(InsertAt(lines, j + 1, FileLine(f)), '\n');
        if |t| > MaxTextLength then None else Some(t)
  }

  // ---------------------------------------------------------------------------
  // delete_category

  /** The range `[start, end)` the deletion loop settles on once it has met a
      line starting with `prefix` at `start` and looked at every line below
      `k`.  A later line that also starts with `prefix` moves `start`; the
      first other `CATEGORY:` line ends the range. */
  function RangeFrom(lines: seq<string>, prefix: string, start: nat, k: nat): (r: (nat, nat))
    requires StartsWith(prefix, CategoryTag)
    requires start < k <= |lines| && StartsWith(lines[start], prefix)
    requires forall i :: start < i < k ==> !StartsWith(lines[i], CategoryTag)
    decreases |lines| - k
    ensures start <= r.0 < r.1 <= |lines| && StartsWith(lines[r.0], prefix)
    ensures forall i :: r.0 < i < r.1 ==> !StartsWith(lines[i], CategoryTag)
    ensures r.1 < |lines| ==> StartsWith(lines[r.1], CategoryTag) && !StartsWith(lines[r.1], prefix)
    ensures forall i :: start <= i < r.0 && StartsWith(lines[i], CategoryTag) ==> StartsWith(lines[i], prefix)
  {
    if k == |lines| then (start, k)
    else if StartsWith(lines[k], prefix) then RangeFrom(lines, prefix, k, k + 1)
    else if StartsWith(lines[k], CategoryTag) then (start, k)
    else RangeFrom(lines, prefix, start, k + 1)
  }

  /** The lines `delete_category` removes from a message: from the matching
      `CATEGORY:` line up to the next record's `CATEGORY:` line or the end. */
  function CategoryRange(lines: seq<string>, id: string): (r: Option<(nat, nat)>)
    ensures r.None? <==> forall k :: 0 <= k < |lines| ==> !StartsWith(lines[k], CategoryPrefix(id))
    ensures r.Some? ==> r.value.0 < r.value.1 <= |lines| && StartsWith(lines[r.value.0], CategoryPrefix(id))
    ensures r.Some? ==> forall i :: r.value.0 < i < r.value.1 ==> !StartsWith(lines[i], CategoryTag)
    ensures r.Some? && r.value.1 < |lines| ==>
      StartsWith(lines[r.value.1], CategoryTag) && !StartsWith(lines[r.value.1], CategoryPrefix(id))
  {
    StartsWithConcat(CategoryTag, id);
    match FirstMatch(lines, CategoryPrefix(id), 0)
    case None => None
    case Some(s) => Some(RangeFrom(lines, CategoryPrefix(id), s, s + 1))
  }

  /** The lines left in a message after `delete_category`, or `None` when it
      passes the message by. */
  function DeleteLines(text: string, id: string): Option<seq<string>> {
    if !Contains(text, CategoryPrefix(id)) then None
    else
      var lines := Split(text, '\n');
      match CategoryRange(lines, id)
      case None => None
      case Some(r) => Some(lines[..r.0] + lines[r.1..])
  }

  // ---------------------------------------------------------------------------
  // save_category_timer

  predicate HasTimerLine(lines: seq<string>) {
    exists k :: 0 <= k < |lines| && StartsWith(lines[k], TimerTag)
  }

  /** Every `TIMER:` line of a message becomes `TIMER:<seconds>`; if there was
      none, one is inserted after the first `CREATED_BY:` line. */
  function TimerEdit(lines: seq<string>, seconds: int): seq<string> {
    var timerLine := TimerTag + IntToString(seconds);
    var rewritten := seq(|lines|, k requires 0 <= k < |lines| =>
      if StartsWith(lines[k], TimerTag) then timerLine else lines[k]);
    if HasTimerLine(lines) then rewritten
    else
      match FirstMatch(rewritten, CreatedByTag, 0)
      case None => rewritten
      case Some(i) => InsertAt(rewritten, i + 1, timerLine)
  }

  /** The new body `save_category_timer` writes, or `None` when it passes the
      message by. */
  function TimerText(text: string, id: string, seconds: int): Option<string> {
    if !Contains(text, CategoryPrefix(id)) then None
    else Some(Join(TimerEdit(Split(text, '\n'), seconds), '\n'))
  }

  // ---------------------------------------------------------------------------
  // _find_message_for_category

  /** The position `_find_message_for_category` reports for a block: the index,
      counted in the lines after the header, of the first line starting with
      `CATEGORY:<id>`; failing that, the number of those lines when it is
      below `CategoriesPerMessage`. */
  function SlotIn(text: string, id: string): (r: Option<nat>)
    ensures r.Some? ==> StartsWith(text, BlockHeader) && r.value < |Split(text, '\n')|
    ensures r.Some? ==> forall j :: 0 < j <= r.value ==> !StartsWith(Split(text, '\n')[j], CategoryPrefix(id))
    ensures r.Some? && r.value + 1 < |Split(text, '\n')| ==>
      StartsWith(Split(text, '\n')[r.value + 1], CategoryPrefix(id))
    ensures r.Some? && r.value + 1 == |Split(text, '\n')| ==> r.value < CategoriesPerMessage
    ensures r.None? && StartsWith(text, BlockHeader) ==>
      |Split(text, '\n')| > CategoriesPerMessage &&
      forall j :: 0 < j < |Split(text, '\n')| ==> !StartsWith(Split(text, '\n')[j], CategoryPrefix(id))
  {
    if !StartsWith(text, BlockHeader) then None
    else
      var cats := Split(text, '\n')[1..];
      match FirstMatch(cats, CategoryPrefix(id), 0)
      case Some(i) => Some(i)
      case None => if |cats| < CategoriesPerMessage then Some(|cats|) else None
  }

  // ---------------------------------------------------------------------------
  // get_category

  /** One file line as `get_category` reads it; `None` for a line with fewer
      than two `|`-separated fields. */
  function ParseFileLine(line: string): Option<FileRecord> {
    var parts := Split(line, '|');
    if |parts| < 2 then None
    else Some(FileRecord(parts[0], parts[1], if |parts| > 2 then parts[2] else ""))
  }

  /** Whether the file walk of `get_category` goes on past this line. */
  predicate ContinuesFiles(line: string) {
    line != "" && !StartsWith(line, CategoryTag)
  }

  /** The files `get_category` collects from the lines it walks. */
  function ParseFiles(lines: seq<string>): seq<FileRecord>
    decreases |lines|
  {
    if |lines| == 0 || !ContinuesFiles(lines[0]) then []
    else
      match ParseFileLine(lines[0])
      case Some(f) => [f] + ParseFiles(lines[1..])
      case None => ParseFiles(lines[1..])
  }

  /** `get_category`'s reading of the record at `start`; `None` where an index
      is out of range or a name line has no colon (Python's `IndexError`). */
  function ParseCategoryAt(lines: seq<string>, start: nat, globalTimer: int): Option<Category>
    requires start < |lines|
  {
    if start + 2 >= |lines| then None
    else
      match Field(lines[start + 1], ':', 1)
      case None => None
      case Some(name) =>
        var timer :=
          if StartsWith(lines[start + 2], TimerTag) then
            match Field(lines[start + 2], ':', 1)
            case Some(v) => (match ParseInt(v) case Some(n) => n case None => globalTimer)
            case None => globalTimer
          else globalTimer;
        var from := if start + 4 <= |lines| then start + 4 else |lines|;
        Some(Category(name, timer, ParseFiles(lines[from..])))
  }

  /** What `get_category` makes of one message. */
  function CategoryIn(text: string, id: string, globalTimer: int): Step<Category> {
    if !Contains(text, CategoryPrefix(id)) then Skip
    else CategoryInLines(Split(text, '\n'), id, globalTimer)
  }

  /** What `get_category` makes of the lines of a message that contains the
      prefix somewhere. */
  function CategoryInLines(lines: seq<string>, id: string, globalTimer: int): Step<Category> {
    match FirstMatch(lines, CategoryPrefix(id), 0)
    case None => Skip
    case Some(s) =>
      match ParseCategoryAt(lines, s, globalTimer)
      case None => Abort
      case Some(c) => Hit(c)
  }

  // ---------------------------------------------------------------------------
  // load_global_timer

  /** The timer `load_global_timer` takes from one message, if any. */
  function GlobalTimerIn(text: string): Option<int> {
    if !Contains(text, GlobalTimerMarker) then None
    else
      var lines := Split(text, '\n');
      if |lines| > 1 then ParseInt(lines[1]) else None
  }

  // ---------------------------------------------------------------------------
  // get_categories

  /** The first index holding `x`: Python's `lines.index(x)`. */
  function IndexOf(lines: seq<string>, x: string): (r: nat)
    requires x in lines
    ensures r < |lines| && lines[r] == x && forall k :: 0 <= k < r ==> lines[k] != x
  {
    if lines[0] == x then 0
    else
      assert x in lines[1..];
      1 + IndexOf(lines[1..], x)
  }

  /** The map `get_categories` builds from lines `k..` of one block, starting
      from `acc`; the flag tells whether an `IndexError` ended the walk. */
  function CatalogFrom(lines: seq<string>, k: nat, acc: map<string, string>): (map<string, string>, bool)
    decreases |lines| - k
  {
    if k >= |lines| then (acc, false)
    else if !StartsWith(lines[k], CategoryTag) then CatalogFrom(lines, k + 1, acc)
    else
      match Field(lines[k], ':', 1)
      case None => (acc, true)
      case Some(id) =>
        var at := IndexOf(lines, lines[k]);
        if at + 1 >= |lines| then (acc, true)
        else
          match Field(lines[at + 1], ':', 1)
          case None => (acc, true)
          case Some(name) => CatalogFrom(lines, k + 1, acc[id := name])
  }

  /** What `get_categories` makes of one message. */
  function BlockCatalog(text: string, acc: map<string, string>): (map<string, string>, bool) {
    if !StartsWith(text, BlockHeader) then (acc, false)
    else CatalogFrom(Split(text, '\n'), 1, acc)
  }

  // ---------------------------------------------------------------------------
  // load_category_timers

  /** The timer cache `load_category_timers` builds from lines `k..` of one
      message, `current` being the id of the last `CATEGORY:` line seen
      (empty: none, which Python treats as false). */
  function MetaTimersFrom(lines: seq<string>, k: nat, current: string, acc: map<string, int>): (map<string, int>, bool)
    decreases |lines| - k
  {
    if k >= |lines| then (acc, false)
    else if StartsWith(lines[k], CategoryTag) then
      match Field(lines[k], ':', 1)
      case None => (acc, true)
      case Some(id) => MetaTimersFrom(lines, k + 1, id, acc)
    else if StartsWith(lines[k], TimerTag) && current != "" then
      match Field(lines[k], ':', 1)
      case None => (acc, true)
      case Some(v) =>
        match ParseInt(v)
        case None => MetaTimersFrom(lines, k + 1, current, acc)
        case Some(n) => MetaTimersFrom(lines, k + 1, current, acc[current := n])
    else MetaTimersFrom(lines, k + 1, current, acc)
  }

  /** What `load_category_timers` makes of one message. */
  function MetaTimers(text: string, acc: map<string, int>): (map<string, int>, bool) {
    if !Contains(text, MetaMarker) then (acc, false)
    else MetaTimersFrom(Split(text, '\n'), 0, "", acc)
  }
}
