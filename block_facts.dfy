/** Properties of the per-message edits and parsers of `Records`: what each
    edit leaves in place, and what the parsers read back from lines the edits
    (or `add_category`) wrote. */
module BlockFacts {
  import opened Wrappers
  import opened Text
  import opened Records

  lemma Differs(s: string, p: string, i: nat)
    requires i < |p| && (i >= |s| || s[i] != p[i])
    ensures !StartsWith(s, p)
  {
    if |p| <= |s| {
      assert s[..|p|][i] == s[i];
    }
  }

  /** The block header holds no line break. */
  lemma HeaderHasNoNewline()
    ensures '\n' !in BlockHeader
  {
    assert forall i :: 0 <= i < |BlockHeader| ==> BlockHeader[i] != '\n';
  }

  /** No record tag holds a line break, a `|` or a second colon. */
  lemma TagsHaveNoNewline()
    ensures '\n' !in CategoryTag && '\n' !in NameTag && '\n' !in CreatedByTag
    ensures '\n' !in TimerTag && '\n' !in FilesTag
    ensures '|' !in FilesTag
  {
    assert forall i :: 0 <= i < |CategoryTag| ==> CategoryTag[i] != '\n';
    assert forall i :: 0 <= i < |NameTag| ==> NameTag[i] != '\n';
    assert forall i :: 0 <= i < |CreatedByTag| ==> CreatedByTag[i] != '\n';
    assert forall i :: 0 <= i < |TimerTag| ==> TimerTag[i] != '\n';
    assert forall i :: 0 <= i < |FilesTag| ==> FilesTag[i] != '\n' && FilesTag[i] != '|';
  }

  /** The record tags end in their only colon. */
  lemma TagsEndInColon()
    ensures |CategoryTag| > 0 && CategoryTag[|CategoryTag| - 1] == ':' && ':' !in CategoryTag[..|CategoryTag| - 1]
    ensures |NameTag| > 0 && NameTag[|NameTag| - 1] == ':' && ':' !in NameTag[..|NameTag| - 1]
    ensures |TimerTag| > 0 && TimerTag[|TimerTag| - 1] == ':' && ':' !in TimerTag[..|TimerTag| - 1]
  {
    var c, n, t := CategoryTag[..8], NameTag[..4], TimerTag[..5];
    assert forall i :: 0 <= i < |c| ==> c[i] != ':';
    assert forall i :: 0 <= i < |n| ==> n[i] != ':';
    assert forall i :: 0 <= i < |t| ==> t[i] != ':';
  }

  /** The block header line cannot be taken for a record line. */
  lemma HeaderLineIsNoRecordLine(line: string)
    requires StartsWith(line, BlockHeader)
    ensures !StartsWith(line, CategoryTag) && !StartsWith(line, TimerTag)
  {
    assert line[..|BlockHeader|] == BlockHeader;
    assert line[7] == BlockHeader[7] == 'I' && line[0] == 'C';
    Differs(line, CategoryTag, 7);
    Differs(line, TimerTag, 0);
  }

  /** The tags a `CATEGORY:<id>` line starts with. */
  lemma CategoryLineTags(id: string)
    ensures StartsWith(CategoryTag + id, CategoryTag) && !StartsWith(CategoryTag + id, TimerTag)
  {
    StartsWithConcat(CategoryTag, id);
    Differs(CategoryTag + id, TimerTag, 0);
  }

  /** The tags a line of another field starts with. */
  lemma FieldLineTags(tag: string, v: string)
    requires tag == NameTag || tag == CreatedByTag || tag == FilesTag
    ensures !StartsWith(tag + v, CategoryTag) && !StartsWith(tag + v, TimerTag)
  {
    var line := tag + v;
    assert line[0] == tag[0] && line[1] == tag[1];
    if tag == CreatedByTag {
      Differs(line, CategoryTag, 1);
    } else {
      Differs(line, CategoryTag, 0);
    }
    Differs(line, TimerTag, 0);
  }

  /** The tags a `TIMER:<seconds>` line starts with. */
  lemma TimerLineTags(v: string)
    ensures !StartsWith(TimerTag + v, CategoryTag) && StartsWith(TimerTag + v, TimerTag)
  {
    StartsWithConcat(TimerTag, v);
    Differs(TimerTag + v, CategoryTag, 0);
  }

  /** Which tags the five lines of a written record start with. */
  lemma RecordLinesTags(id: string, name: string, createdBy: int, timer: int)
    ensures var r := RecordLines(id, name, createdBy, timer);
      StartsWith(r[0], CategoryPrefix(id)) && StartsWith(r[0], CategoryTag) &&
      !StartsWith(r[0], TimerTag) &&
      !StartsWith(r[1], CategoryTag) && !StartsWith(r[1], TimerTag) &&
      !StartsWith(r[2], CategoryTag) && !StartsWith(r[2], TimerTag) &&
      !StartsWith(r[3], CategoryTag) && StartsWith(r[3], TimerTag) &&
      !StartsWith(r[4], CategoryTag) && !StartsWith(r[4], TimerTag)
  {
    CategoryLineTags(id);
    StartsWithConcat(CategoryPrefix(id), "");
    assert CategoryPrefix(id) + "" == CategoryPrefix(id);
    FieldLineTags(NameTag, name);
    FieldLineTags(CreatedByTag, IntToString(createdBy));
    FieldLineTags(FilesTag, "");
    assert FilesTag + "" == FilesTag;
    TimerLineTags(IntToString(timer));
  }

  lemma RecordLinesHaveNoNewline(id: string, name: string, createdBy: int, timer: int)
    requires '\n' !in id && '\n' !in name
    ensures var r := RecordLines(id, name, createdBy, timer);
      |r| == 5 && forall k :: 0 <= k < 5 ==> '\n' !in r[k]
  {
    IntToStringHasNo(createdBy, '\n');
    IntToStringHasNo(timer, '\n');
    TagsHaveNoNewline();
  }

  // ---------------------------------------------------------------------------
  // File lines

  /** A line is skipped as a file line exactly when it has no `|`. */
  lemma ParseFileLineNone(line: string)
    ensures ParseFileLine(line).None? <==> '|' !in line
  {
    if '|' in line {
      SplitHasTwo(line, '|');
    } else {
      SplitNoSeparator(line, '|');
    }
  }

  /** The file line `add_file` writes reads back as the same file record. */
  lemma FileLineRoundTrip(f: FileRecord)
    requires '|' !in f.fileId && '|' !in f.fileType && '|' !in f.caption
    ensures ParseFileLine(FileLine(f)) == Some(f)
  {
    var parts := [f.fileId, f.fileType, f.caption];
    assert Join(parts, '|') == FileLine(f) by {
      assert parts[1..] == [f.fileType, f.caption];
      assert Join(parts[1..], '|') == f.fileType + "|" + f.caption;
    }
    SplitOfJoin(parts, '|');
  }

  /** A file line with only two fields reads back with an empty caption. */
  lemma TwoFieldFileLine(fileId: string, fileType: string)
    requires '|' !in fileId && '|' !in fileType
    ensures ParseFileLine(fileId + "|" + fileType) == Some(FileRecord(fileId, fileType, ""))
  {
    var parts := [fileId, fileType];
    assert Join(parts, '|') == fileId + "|" + fileType by {
      assert parts[1..] == [fileType];
    }
    SplitOfJoin(parts, '|');
  }

  /** A file line whose id has no colon never looks like a record line. */
  lemma FileLineContinues(f: FileRecord)
    requires ':' !in f.fileId
    ensures ContinuesFiles(FileLine(f))
  {
    var line := FileLine(f);
    var n := |f.fileId|;
    assert line[n] == '|';
    if n < 9 {
      Differs(line, CategoryTag, n);
    } else {
      assert line[8] == f.fileId[8] != ':';
      Differs(line, CategoryTag, 8);
    }
  }

  // ---------------------------------------------------------------------------
  // add_category

  /** Where `add_category` puts a record in an existing block, seen in the
      lines of the re-split text: right before the first existing
      `CATEGORY:` line, or at the end of a block that has none. */
  lemma AddCategoryPlacement(text: string, pos: nat, id: string, name: string, createdBy: int, timer: int)
    requires SlotIn(text, "") == Some(pos)
    requires '\n' !in id && '\n' !in name
    ensures var lines := Split(text, '\n');
      var placed := Join(InsertAt(lines, pos + 1, CategoryRecord(id, name, createdBy, timer)), '\n');
      Split(placed, '\n') == lines[..pos + 1] + RecordLines(id, name, createdBy, timer) + lines[pos + 1..] &&
      (forall j :: 0 < j <= pos ==> !StartsWith(lines[j], CategoryTag)) &&
      (pos + 1 < |lines| ==> StartsWith(lines[pos + 1], CategoryTag))
  {
    var lines := Split(text, '\n');
    var r := RecordLines(id, name, createdBy, timer);
    assert CategoryPrefix("") == CategoryTag;
    var m := lines[..pos + 1] + r + lines[pos + 1..];
    assert InsertAt(lines, pos + 1, Join(r, '\n')) == lines[..pos + 1] + [Join(r, '\n')] + lines[pos + 1..];
    JoinSplice(lines[..pos + 1], r, lines[pos + 1..], '\n');
    RecordLinesHaveNoNewline(id, name, createdBy, timer);
    PlacedLinesHaveNoNewline(lines, pos, r);
    SplitOfJoin(m, '\n');
  }

  /** A line the file walk passes over without reading a file from it. */
  lemma SkipPlainLine(line: string, rest: seq<string>)
    requires ContinuesFiles(line) && '|' !in line
    ensures ParseFiles([line] + rest) == ParseFiles(rest)
  {
    ParseFileLineNone(line);
    assert ([line] + rest)[1..] == rest;
  }

  /** A file line at the head of the walk is the first file read. */
  lemma ReadFileLine(line: string, f: FileRecord, rest: seq<string>)
    requires ContinuesFiles(line) && ParseFileLine(line) == Some(f)
    ensures ParseFiles([line] + rest) == [f] + ParseFiles(rest)
  {
    assert ([line] + rest)[1..] == rest;
  }

  /** A line that starts with `FILES:` does not end the file walk. */
  lemma FilesLineContinues(line: string)
    requires StartsWith(line, FilesTag)
    ensures ContinuesFiles(line)
  {
    assert line[0] == FilesTag[0];
    Differs(line, CategoryTag, 0);
  }

  /** A `FILES:` line opens a file list but is no file itself. */
  lemma FilesLineIsNoFile(rest: seq<string>)
    ensures ParseFiles([FilesTag] + rest) == ParseFiles(rest)
  {
    TagsHaveNoNewline();
    StartsWithConcat(FilesTag, "");
    assert FilesTag + "" == FilesTag;
    FilesLineContinues(FilesTag);
    SkipPlainLine(FilesTag, rest);
  }

  /** `get_category`'s reading of a record in the written format that is
      followed by another record or by the end of the block. */
  lemma ParseWrittenRecord(m: seq<string>, k: nat, name: string, globalTimer: int)
    requires k + 4 < |m| && ':' !in name
    requires m[k + 1] == NameTag + name && !StartsWith(m[k + 2], TimerTag) && m[k + 4] == FilesTag
    requires k + 5 == |m| || StartsWith(m[k + 5], CategoryTag)
    ensures ParseCategoryAt(m, k, globalTimer) == Some(Category(name, globalTimer, []))
  {
    TagsEndInColon();
    FieldAfterTag(NameTag, name);
    assert m[k + 4..] == [FilesTag] + m[k + 5..];
    FilesLineIsNoFile(m[k + 5..]);
  }

  /** A line sequence free of newlines survives a join and a split. */
  lemma ReSplit(m: seq<string>)
    requires |m| >= 1 && forall k :: 0 <= k < |m| ==> '\n' !in m[k]
    ensures Split(Join(m, '\n'), '\n') == m
  {
    SplitOfJoin(m, '\n');
  }

  /** The lines of a block after `add_category` inserted a record at `pos + 1`. */
  lemma PlacedLinesHaveNoNewline(lines: seq<string>, pos: nat, r: seq<string>)
    requires pos + 1 <= |lines| && |r| == 5
    requires forall k :: 0 <= k < |lines| ==> '\n' !in lines[k]
    requires forall k :: 0 <= k < 5 ==> '\n' !in r[k]
    ensures var m := lines[..pos + 1] + r + lines[pos + 1..];
      |m| >= 1 && forall k :: 0 <= k < |m| ==> '\n' !in m[k]
  {
    var m := lines[..pos + 1] + r + lines[pos + 1..];
    forall k | 0 <= k < |m| ensures '\n' !in m[k] {
      if k <= pos {
        assert m[k] == lines[k];
      } else if k < pos + 6 {
        assert m[k] == r[k - pos - 1];
      } else {
        assert m[k] == lines[k - 5];
      }
    }
  }

  /** The text `add_category` writes into an existing block splits into the
      old lines with the record's five lines spliced in, and contains the
      record's `CATEGORY:` line. */
  lemma PlacedText(text: string, pos: nat, id: string, name: string, createdBy: int, timer: int)
    requires SlotIn(text, "") == Some(pos)
    requires '\n' !in id && '\n' !in name
    ensures var lines := Split(text, '\n');
      var placed := Join(InsertAt(lines, pos + 1, CategoryRecord(id, name, createdBy, timer)), '\n');
      var m := lines[..pos + 1] + RecordLines(id, name, createdBy, timer) + lines[pos + 1..];
      Split(placed, '\n') == m && Contains(placed, CategoryPrefix(id))
  {
    var lines := Split(text, '\n');
    var r := RecordLines(id, name, createdBy, timer);
    var placed := Join(InsertAt(lines, pos + 1, CategoryRecord(id, name, createdBy, timer)), '\n');
    AddCategoryPlacement(text, pos, id, name, createdBy, timer);
    var m := lines[..pos + 1] + r + lines[pos + 1..];
    JoinOfSplit(placed, '\n');
    assert m[pos + 1] == r[0] == CategoryPrefix(id);
    StartsWithConcat(CategoryTag, id);
    ContainsLine(m, pos + 1, CategoryPrefix(id), '\n');
  }

  /** In the spliced lines, the record's own line is the first one with its prefix. */
  lemma PlacedFirstMatch(lines: seq<string>, pos: nat, r: seq<string>, id: string)
    requires pos + 1 <= |lines| && |r| == 5 && r[0] == CategoryPrefix(id)
    requires StartsWith(lines[0], BlockHeader)
    requires forall j :: 0 < j <= pos ==> !StartsWith(lines[j], CategoryTag)
    ensures FirstMatch(lines[..pos + 1] + r + lines[pos + 1..], CategoryPrefix(id), 0) == Some(pos + 1)
  {
    var m := lines[..pos + 1] + r + lines[pos + 1..];
    var p := CategoryPrefix(id);
    HeaderLineIsNoRecordLine(lines[0]);
    forall k | 0 <= k <= pos ensures !StartsWith(m[k], p) {
      assert m[k] == lines[k];
      if StartsWith(m[k], p) {
        StartsWithPrefixOfPrefix(m[k], CategoryTag, id);
      }
    }
    assert m[pos + 1] == p;
    StartsWithConcat(CategoryTag, id);
  }

  /** A category just added to an existing block reads back, through
      `get_category`, with its name, the current global timer and no files. */
  lemma AddCategoryReadBack(text: string, pos: nat, id: string, name: string, createdBy: int, timer: int, globalTimer: int)
    requires SlotIn(text, "") == Some(pos)
    requires '\n' !in id && '\n' !in name && ':' !in name
    ensures var placed := Join(InsertAt(Split(text, '\n'), pos + 1, CategoryRecord(id, name, createdBy, timer)), '\n');
      CategoryIn(placed, id, globalTimer) == Hit(Category(name, globalTimer, []))
  {
    var lines := Split(text, '\n');
    var r := RecordLines(id, name, createdBy, timer);
    var m := lines[..pos + 1] + r + lines[pos + 1..];
    PlacedText(text, pos, id, name, createdBy, timer);
    AddCategoryPlacement(text, pos, id, name, createdBy, timer);
    assert StartsWith(lines[0], BlockHeader) by {
      HeaderHasNoNewline();
      SplitKeepsPrefix(text, BlockHeader, '\n');
    }
    PlacedReadBack(lines, pos, id, name, createdBy, timer, globalTimer);
    var placed := Join(InsertAt(lines, pos + 1, CategoryRecord(id, name, createdBy, timer)), '\n');
    CategoryInOfLines(placed, m, id, globalTimer);
  }

  /** `get_category` on a message is its reading of the message's lines. */
  lemma CategoryInOfLines(text: string, lines: seq<string>, id: string, globalTimer: int)
    requires Split(text, '\n') == lines && Contains(text, CategoryPrefix(id))
    ensures CategoryIn(text, id, globalTimer) == CategoryInLines(lines, id, globalTimer)
  {
  }

  lemma PlacedReadBack(lines: seq<string>, pos: nat, id: string, name: string, createdBy: int, timer: int, globalTimer: int)
    requires pos + 1 <= |lines| && ':' !in name
    requires StartsWith(lines[0], BlockHeader)
    requires forall j :: 0 < j <= pos ==> !StartsWith(lines[j], CategoryTag)
    requires pos + 1 < |lines| ==> StartsWith(lines[pos + 1], CategoryTag)
    ensures var m := lines[..pos + 1] + RecordLines(id, name, createdBy, timer) + lines[pos + 1..];
      CategoryInLines(m, id, globalTimer) == Hit(Category(name, globalTimer, []))
  {
    var r := RecordLines(id, name, createdBy, timer);
    var m := lines[..pos + 1] + r + lines[pos + 1..];
    PlacedFirstMatch(lines, pos, r, id);
    RecordLinesTags(id, name, createdBy, timer);
    assert m[pos + 2] == r[1] && m[pos + 3] == r[2] && m[pos + 5] == r[4];
    assert pos + 6 < |m| ==> m[pos + 6] == lines[pos + 1];
    ParseWrittenRecord(m, pos + 1, name, globalTimer);
  }

  /** A block created for one record: its lines, and what both readers make of it. */
  lemma NewBlockLines(id: string, name: string, createdBy: int, timer: int)
    requires '\n' !in id && '\n' !in name
    ensures Split(NewBlockText(CategoryRecord(id, name, createdBy, timer)), '\n') ==
            [BlockHeader] + RecordLines(id, name, createdBy, timer)
    ensures SlotIn(BlockHeader, "") == Some(0)
    ensures Join(InsertAt(Split(BlockHeader, '\n'), 1, CategoryRecord(id, name, createdBy, timer)), '\n') ==
            NewBlockText(CategoryRecord(id, name, createdBy, timer))
  {
    HeaderHasNoNewline();
    RecordLinesHaveNoNewline(id, name, createdBy, timer);
    LineAboveLines(BlockHeader, RecordLines(id, name, createdBy, timer), '\n');
    HeaderSlot();
  }

  /** The empty block header offers its first slot. */
  lemma HeaderSlot()
    ensures SlotIn(BlockHeader, "") == Some(0)
  {
    HeaderHasNoNewline();
    SplitNoSeparator(BlockHeader, '\n');
    StartsWithConcat(BlockHeader, "");
    assert BlockHeader + "" == BlockHeader;
  }

  /** A line without `c` written above lines without `c`: how the text
      splits, and that inserting the joined lines below the line builds it. */
  lemma LineAboveLines(h: string, r: seq<string>, c: char)
    requires c !in h && |r| > 0
    requires forall k :: 0 <= k < |r| ==> c !in r[k]
    ensures Split(h + [c] + Join(r, c), c) == [h] + r
    ensures Join(InsertAt(Split(h, c), 1, Join(r, c)), c) == h + [c] + Join(r, c)
  {
    SplitNoSeparator(h, c);
    assert InsertAt([h], 1, Join(r, c)) == [h, Join(r, c)];
    assert Join([h, Join(r, c)], c) == h + [c] + Join(r, c) by {
      assert [h, Join(r, c)][1..] == [Join(r, c)];
    }
    JoinSplice([h], r, [], c);
    assert [h] + [Join(r, c)] + [] == [h, Join(r, c)];
    assert [h] + r + [] == [h] + r;
    forall k | 0 <= k < |[h] + r| ensures c !in ([h] + r)[k] {
      if k > 0 {
        assert ([h] + r)[k] == r[k - 1];
      }
    }
    SplitOfJoin([h] + r, c);
  }

  /** A new block's record reads back through `get_category`. */
  lemma NewBlockReadBack(id: string, name: string, createdBy: int, timer: int, globalTimer: int)
    requires '\n' !in id && '\n' !in name && ':' !in name
    ensures CategoryIn(NewBlockText(CategoryRecord(id, name, createdBy, timer)), id, globalTimer) ==
            Hit(Category(name, globalTimer, []))
  {
    NewBlockLines(id, name, createdBy, timer);
    AddCategoryReadBack(BlockHeader, 0, id, name, createdBy, timer, globalTimer);
  }

  /** Lines with no `CATEGORY:` line add nothing to `get_categories`. */
  lemma {:induction false} CatalogSkipsPlainLines(lines: seq<string>, k: nat, acc: map<string, string>)
    requires forall i :: k <= i < |lines| ==> !StartsWith(lines[i], CategoryTag)
    ensures CatalogFrom(lines, k, acc) == (acc, false)
    decreases |lines| - k
  {
    if k < |lines| {
      CatalogSkipsPlainLines(lines, k + 1, acc);
    }
  }

  /** `get_categories` on the lines of a block written for one record. */
  lemma RecordCatalog(id: string, name: string, createdBy: int, timer: int, acc: map<string, string>)
    requires ':' !in name && ':' !in id
    ensures CatalogFrom([BlockHeader] + RecordLines(id, name, createdBy, timer), 1, acc) == (acc[id := name], false)
  {
    var r := RecordLines(id, name, createdBy, timer);
    var m := [BlockHeader] + r;
    RecordLinesTags(id, name, createdBy, timer);
    TagsEndInColon();
    FieldAfterTag(CategoryTag, id);
    FieldAfterTag(NameTag, name);
    assert m[1] == r[0] && m[2] == r[1];
    assert m[0] != m[1] by {
      StartsWithConcat(BlockHeader, "");
      assert BlockHeader + "" == BlockHeader;
      HeaderLineIsNoRecordLine(BlockHeader);
    }
    assert IndexOf(m, m[1]) == 1;
    assert forall i :: 2 <= i < |m| ==> !StartsWith(m[i], CategoryTag) by {
      assert m[3] == r[2] && m[4] == r[3] && m[5] == r[4];
    }
    CatalogSkipsPlainLines(m, 2, acc[id := name]);
  }

  /** A new block's record reads back through `get_categories`. */
  lemma NewBlockCatalog(id: string, name: string, createdBy: int, timer: int, acc: map<string, string>)
    requires '\n' !in id && '\n' !in name && ':' !in name && ':' !in id
    ensures BlockCatalog(NewBlockText(CategoryRecord(id, name, createdBy, timer)), acc) == (acc[id := name], false)
  {
    var record := CategoryRecord(id, name, createdBy, timer);
    NewBlockLines(id, name, createdBy, timer);
    NewBlockHasHeader(record);
    BlockCatalogOfLines(NewBlockText(record), [BlockHeader] + RecordLines(id, name, createdBy, timer), acc);
    RecordCatalog(id, name, createdBy, timer, acc);
  }

  /** A new block starts with the block header. */
  lemma NewBlockHasHeader(record: string)
    ensures StartsWith(NewBlockText(record), BlockHeader)
  {
    StartsWithConcat(BlockHeader, "\n" + record);
    assert NewBlockText(record) == BlockHeader + ("\n" + record);
  }

  /** `get_categories` on a block is the walk over its lines. */
  lemma BlockCatalogOfLines(text: string, lines: seq<string>, acc: map<string, string>)
    requires StartsWith(text, BlockHeader) && Split(text, '\n') == lines
    ensures BlockCatalog(text, acc) == CatalogFrom(lines, 1, acc)
  {
  }

  // ---------------------------------------------------------------------------
  // save_category_timer

  /** What `save_category_timer` does to the lines of a message: with a
      `TIMER:` line present, exactly the `TIMER:` lines change; without one,
      a single line is inserted after the first `CREATED_BY:` line. */
  lemma TimerEditShape(lines: seq<string>, seconds: int)
    ensures var r := TimerEdit(lines, seconds);
      var timerLine := TimerTag + IntToString(seconds);
      (HasTimerLine(lines) ==>
         |r| == |lines| &&
         forall k :: 0 <= k < |lines| ==>
           r[k] == if StartsWith(lines[k], TimerTag) then timerLine else lines[k]) &&
      (!HasTimerLine(lines) && FirstMatch(lines, CreatedByTag, 0).Some? ==>
         r == InsertAt(lines, FirstMatch(lines, CreatedByTag, 0).value + 1, timerLine)) &&
      (!HasTimerLine(lines) && FirstMatch(lines, CreatedByTag, 0).None? ==> r == lines)
  {
    if HasTimerLine(lines) {
      TimerEditWithTimer(lines, seconds);
    } else {
      TimerEditWithout(lines, seconds);
    }
  }

  /** With a `TIMER:` line present, exactly the `TIMER:` lines change. */
  lemma TimerEditWithTimer(lines: seq<string>, seconds: int)
    requires HasTimerLine(lines)
    ensures |TimerEdit(lines, seconds)| == |lines|
    ensures forall k :: 0 <= k < |lines| ==>
      TimerEdit(lines, seconds)[k] == if StartsWith(lines[k], TimerTag) then TimerTag + IntToString(seconds) else lines[k]
  {
  }

  /** Without a `TIMER:` line, one goes in after the first `CREATED_BY:` line. */
  lemma TimerEditWithout(lines: seq<string>, seconds: int)
    requires !HasTimerLine(lines)
    ensures FirstMatch(lines, CreatedByTag, 0).Some? ==>
      TimerEdit(lines, seconds) == InsertAt(lines, FirstMatch(lines, CreatedByTag, 0).value + 1, TimerTag + IntToString(seconds))
    ensures FirstMatch(lines, CreatedByTag, 0).None? ==> TimerEdit(lines, seconds) == lines
  {
    var timerLine := TimerTag + IntToString(seconds);
    var rewritten := seq(|lines|, k requires 0 <= k < |lines| =>
      if StartsWith(lines[k], TimerTag) then timerLine else lines[k]);
    assert rewritten == lines;
  }

  /** A `TIMER:<seconds>` line reads back as `seconds`. */
  lemma TimerLineReads(seconds: int)
    ensures Field(TimerTag + IntToString(seconds), ':', 1) == Some(IntToString(seconds))
    ensures ParseInt(IntToString(seconds)) == Some(seconds)
  {
    IntToStringHasNo(seconds, ':');
    TagsEndInColon();
    FieldAfterTag(TimerTag, IntToString(seconds));
    ParseIntOfIntToString(seconds);
  }

  /** After `save_category_timer`, every `TIMER:` line of the message reads
      as `seconds`, and there is one whenever there was a `TIMER:` or a
      `CREATED_BY:` line to begin with. */
  lemma TimerEditReadBack(lines: seq<string>, seconds: int)
    ensures var r := TimerEdit(lines, seconds);
      (forall k :: 0 <= k < |r| && StartsWith(r[k], TimerTag) ==>
         r[k] == TimerTag + IntToString(seconds)) &&
      (HasTimerLine(lines) || FirstMatch(lines, CreatedByTag, 0).Some? ==> HasTimerLine(r))
    ensures Field(TimerTag + IntToString(seconds), ':', 1) == Some(IntToString(seconds))
    ensures ParseInt(IntToString(seconds)) == Some(seconds)
  {
    var r := TimerEdit(lines, seconds);
    var timerLine := TimerTag + IntToString(seconds);
    StartsWithConcat(TimerTag, IntToString(seconds));
    TimerLineReads(seconds);
    if HasTimerLine(lines) {
      TimerEditWithTimer(lines, seconds);
      var k :| 0 <= k < |lines| && StartsWith(lines[k], TimerTag);
      assert StartsWith(r[k], TimerTag);
    } else {
      TimerEditWithout(lines, seconds);
      if FirstMatch(lines, CreatedByTag, 0).Some? {
        var i := FirstMatch(lines, CreatedByTag, 0).value;
        InsertedTimerLine(lines, i + 1, timerLine);
        assert StartsWith(r[i + 1], TimerTag);
      }
    }
  }

  /** Lines without a `TIMER:` line and one `TIMER:` line inserted: that is
      the only `TIMER:` line. */
  lemma InsertedTimerLine(lines: seq<string>, k: nat, x: string)
    requires k <= |lines| && !HasTimerLine(lines)
    ensures forall i :: 0 <= i < |InsertAt(lines, k, x)| && StartsWith(InsertAt(lines, k, x)[i], TimerTag) ==>
      InsertAt(lines, k, x)[i] == x
  {
  }

  /** On the lines of a block written for one record, the timer edit
      replaces the record's `TIMER:` line and nothing else. */
  lemma TimerEditOfRecord(id: string, name: string, createdBy: int, timer: int, seconds: int)
    ensures TimerEdit([BlockHeader] + RecordLines(id, name, createdBy, timer), seconds) ==
            [BlockHeader] + RecordLines(id, name, createdBy, seconds)
  {
    var r := RecordLines(id, name, createdBy, timer);
    RecordLinesTags(id, name, createdBy, timer);
    assert !StartsWith(BlockHeader, TimerTag) by {
      StartsWithConcat(BlockHeader, "");
      assert BlockHeader + "" == BlockHeader;
      HeaderLineIsNoRecordLine(BlockHeader);
    }
    assert forall k :: 0 <= k < |r| && k != 3 ==> !StartsWith(r[k], TimerTag);
    TimerEditBelowHeader(BlockHeader, r, 3, seconds);
    assert r[3 := TimerTag + IntToString(seconds)] == RecordLines(id, name, createdBy, seconds);
  }

  /** The timer edit of lines under a header line, with one `TIMER:` line among them. */
  lemma TimerEditBelowHeader(h: string, r: seq<string>, t: nat, seconds: int)
    requires !StartsWith(h, TimerTag) && t < |r| && StartsWith(r[t], TimerTag)
    requires forall k :: 0 <= k < |r| && k != t ==> !StartsWith(r[k], TimerTag)
    ensures TimerEdit([h] + r, seconds) == [h] + r[t := TimerTag + IntToString(seconds)]
  {
    var lines := [h] + r;
    forall k | 0 <= k < |lines| && k != t + 1
      ensures !StartsWith(lines[k], TimerTag)
    {
      if k > 0 {
        assert lines[k] == r[k - 1];
      }
    }
    TimerEditOneLine(lines, t + 1, seconds);
    assert lines[t + 1 := TimerTag + IntToString(seconds)] == [h] + r[t := TimerTag + IntToString(seconds)];
  }

  /** With exactly one `TIMER:` line, the timer edit replaces that line only. */
  lemma TimerEditOneLine(lines: seq<string>, t: nat, seconds: int)
    requires t < |lines| && StartsWith(lines[t], TimerTag)
    requires forall k :: 0 <= k < |lines| && k != t ==> !StartsWith(lines[k], TimerTag)
    ensures TimerEdit(lines, seconds) == lines[t := TimerTag + IntToString(seconds)]
  {
    TimerEditShape(lines, seconds);
    assert HasTimerLine(lines);
  }

  /** A new block contains its record's `CATEGORY:` line. */
  lemma NewBlockContainsPrefix(id: string, name: string, createdBy: int, timer: int)
    requires '\n' !in id && '\n' !in name
    ensures Contains(NewBlockText(CategoryRecord(id, name, createdBy, timer)), CategoryPrefix(id))
  {
    var text := NewBlockText(CategoryRecord(id, name, createdBy, timer));
    var r := RecordLines(id, name, createdBy, timer);
    NewBlockLines(id, name, createdBy, timer);
    RecordLinesTags(id, name, createdBy, timer);
    assert Split(text, '\n')[1] == r[0];
    SplitLineContains(text, 1, CategoryPrefix(id), '\n');
  }

  /** A text contains whatever one of its lines starts with. */
  lemma SplitLineContains(s: string, k: nat, p: string, c: char)
    requires k < |Split(s, c)| && StartsWith(Split(s, c)[k], p)
    ensures Contains(s, p)
  {
    ContainsLine(Split(s, c), k, p, c);
    JoinOfSplit(s, c);
  }

  /** On a block written by `add_category`, `save_category_timer` gives the
      same text `add_category` would have written with the new timer. */
  lemma SaveTimerOnNewBlock(id: string, name: string, createdBy: int, timer: int, seconds: int)
    requires '\n' !in id && '\n' !in name
    ensures TimerText(NewBlockText(CategoryRecord(id, name, createdBy, timer)), id, seconds) ==
            Some(NewBlockText(CategoryRecord(id, name, createdBy, seconds)))
  {
    var after := NewBlockText(CategoryRecord(id, name, createdBy, seconds));
    NewBlockContainsPrefix(id, name, createdBy, timer);
    NewBlockLines(id, name, createdBy, timer);
    NewBlockLines(id, name, createdBy, seconds);
    TimerEditOfRecord(id, name, createdBy, timer, seconds);
    JoinOfSplit(after, '\n');
  }

  /** `get_category` reads the timer from the line two below `CATEGORY:`,
      which in the written format is `CREATED_BY:`; so after
      `save_category_timer(id, seconds)` a new block's category still reads
      back with the global timer, not `seconds`. */
  lemma SavedTimerIsNotReadBack(id: string, name: string, createdBy: int, timer: int, seconds: int, globalTimer: int)
    requires '\n' !in id && '\n' !in name && ':' !in name
    ensures var saved := TimerText(NewBlockText(CategoryRecord(id, name, createdBy, timer)), id, seconds);
      saved.Some? && CategoryIn(saved.value, id, globalTimer) == Hit(Category(name, globalTimer, []))
  {
    SaveTimerOnNewBlock(id, name, createdBy, timer, seconds);
    NewBlockReadBack(id, name, createdBy, seconds, globalTimer);
  }

  // ---------------------------------------------------------------------------
  // add_file

  /** The first match of a prefix is determined by the lines up to it. */
  lemma FirstMatchAt(lines: seq<string>, p: string, s: nat)
    requires s < |lines| && StartsWith(lines[s], p)
    requires forall k :: 0 <= k < s ==> !StartsWith(lines[k], p)
    ensures FirstMatch(lines, p, 0) == Some(s)
  {
  }

  /** Inserting a line without `c` into lines without `c` keeps `c` out of
      every line. */
  lemma InsertKeepsOut(lines: seq<string>, k: nat, x: string, c: char)
    requires k <= |lines| && c !in x
    requires forall i :: 0 <= i < |lines| ==> c !in lines[i]
    ensures forall i :: 0 <= i < |InsertAt(lines, k, x)| ==> c !in InsertAt(lines, k, x)[i]
  {
    var m := InsertAt(lines, k, x);
    forall i | 0 <= i < |m| ensures c !in m[i] {
      if i < k {
        assert m[i] == lines[i];
      } else if i > k {
        assert m[i] == lines[i - 1];
      }
    }
  }

  /** The body `add_file` writes is the old line sequence with the file line
      inserted right after the `FILES:` line it located. */
  lemma AddFileLines(text: string, id: string, f: FileRecord)
    requires AddFileText(text, id, f).Some?
    requires '\n' !in f.fileId && '\n' !in f.fileType && '\n' !in f.caption
    ensures var lines := Split(text, '\n');
      FilesLineIndex(lines, id).Some? &&
      Split(AddFileText(text, id, f).value, '\n') == InsertAt(lines, FilesLineIndex(lines, id).value + 1, FileLine(f))
  {
    var lines := Split(text, '\n');
    AddFileTextIsJoin(text, id, f);
    var j := FilesLineIndex(lines, id).value;
    FileLineHasNo(f, '\n');
    SplitOfInsert(lines, j + 1, FileLine(f), '\n');
  }

  /** The text `add_file` writes is the joined lines with the file line inserted. */
  lemma AddFileTextIsJoin(text: string, id: string, f: FileRecord)
    requires AddFileText(text, id, f).Some?
    ensures FilesLineIndex(Split(text, '\n'), id).Some?
    ensures AddFileText(text, id, f).value ==
      Join(InsertAt(Split(text, '\n'), FilesLineIndex(Split(text, '\n'), id).value + 1, FileLine(f)), '\n')
  {
  }

  /** A file line holds no character its fields lack, other than `|`. */
  lemma FileLineHasNo(f: FileRecord, c: char)
    requires c != '|' && c !in f.fileId && c !in f.fileType && c !in f.caption
    ensures c !in FileLine(f)
  {
  }

  /** Splitting the joined lines after an insertion gives them back. */
  lemma SplitOfInsert(lines: seq<string>, k: nat, x: string, c: char)
    requires k <= |lines| && c !in x
    requires forall i :: 0 <= i < |lines| ==> c !in lines[i]
    ensures Split(Join(InsertAt(lines, k, x), c), c) == InsertAt(lines, k, x)
  {
    InsertKeepsOut(lines, k, x, c);
    SplitOfJoin(InsertAt(lines, k, x), c);
  }

  /** The file walk from the `FILES:` line of a record after a file line
      was inserted right below it. */
  lemma FilesAfterInsert(lines: seq<string>, s: nat, f: FileRecord)
    requires s + 4 < |lines| && StartsWith(lines[s + 4], FilesTag) && '|' !in lines[s + 4]
    requires ContinuesFiles(FileLine(f)) && ParseFileLine(FileLine(f)) == Some(f)
    ensures ParseFiles(InsertAt(lines, s + 5, FileLine(f))[s + 4..]) == [f] + ParseFiles(lines[s + 4..])
  {
    var m := InsertAt(lines, s + 5, FileLine(f));
    assert m[s + 4..] == [lines[s + 4]] + ([FileLine(f)] + lines[s + 5..]);
    assert lines[s + 4..] == [lines[s + 4]] + lines[s + 5..];
    FilesLineContinues(lines[s + 4]);
    SkipPlainLine(lines[s + 4], [FileLine(f)] + lines[s + 5..]);
    SkipPlainLine(lines[s + 4], lines[s + 5..]);
    ReadFileLine(FileLine(f), f, lines[s + 5..]);
  }

  /** `get_category`'s reading at `s` after that insertion. */
  lemma ParseAfterInsert(lines: seq<string>, s: nat, f: FileRecord, globalTimer: int)
    requires s + 4 < |lines| && StartsWith(lines[s + 4], FilesTag) && '|' !in lines[s + 4]
    requires ParseCategoryAt(lines, s, globalTimer).Some?
    requires ContinuesFiles(FileLine(f)) && ParseFileLine(FileLine(f)) == Some(f)
    ensures var c := ParseCategoryAt(lines, s, globalTimer).value;
      ParseCategoryAt(InsertAt(lines, s + 5, FileLine(f)), s, globalTimer) == Some(Category(c.name, c.timer, [f] + c.files))
  {
    var m := InsertAt(lines, s + 5, FileLine(f));
    assert m[s + 1] == lines[s + 1] && m[s + 2] == lines[s + 2];
    FilesAfterInsert(lines, s, f);
  }

  /** On lines: inserting a file line right below the `FILES:` line of a
      record in the written format puts that file first in the record's
      file list and leaves its name and timer alone. */
  lemma AddFileLinesReadBack(lines: seq<string>, id: string, f: FileRecord, s: nat, globalTimer: int)
    requires FirstMatch(lines, CategoryPrefix(id), 0) == Some(s)
    requires s + 4 < |lines| && StartsWith(lines[s + 4], FilesTag) && '|' !in lines[s + 4]
    requires ParseCategoryAt(lines, s, globalTimer).Some?
    requires ContinuesFiles(FileLine(f)) && ParseFileLine(FileLine(f)) == Some(f)
    ensures var c := ParseCategoryAt(lines, s, globalTimer).value;
      CategoryInLines(InsertAt(lines, s + 5, FileLine(f)), id, globalTimer) == Hit(Category(c.name, c.timer, [f] + c.files))
  {
    var m := InsertAt(lines, s + 5, FileLine(f));
    var p := CategoryPrefix(id);
    forall k | 0 <= k < s ensures !StartsWith(m[k], p) {
      assert m[k] == lines[k];
    }
    FirstMatchAt(m, p, s);
    ParseAfterInsert(lines, s, f, globalTimer);
  }

  /** `add_file` on a record in the written format: `get_category` then reads
      the same name and timer, and the new file ahead of the old ones. */
  lemma AddFileReadBack(text: string, id: string, f: FileRecord, s: nat, globalTimer: int)
    requires FirstMatch(Split(text, '\n'), CategoryPrefix(id), 0) == Some(s)
    requires FilesLineIndex(Split(text, '\n'), id) == Some(s + 4) && Split(text, '\n')[s + 4] == FilesTag
    requires CategoryIn(text, id, globalTimer).Hit?
    requires AddFileText(text, id, f).Some?
    requires '|' !in f.fileId && '|' !in f.fileType && '|' !in f.caption
    requires '\n' !in f.fileId && '\n' !in f.fileType && '\n' !in f.caption && ':' !in f.fileId
    ensures var c := CategoryIn(text, id, globalTimer).value;
      CategoryIn(AddFileText(text, id, f).value, id, globalTimer) == Hit(Category(c.name, c.timer, [f] + c.files))
  {
    var lines := Split(text, '\n');
    var t := AddFileText(text, id, f).value;
    AddFileLines(text, id, f);
    StartsWithConcat(FilesTag, "");
    assert FilesTag + "" == FilesTag;
    TagsHaveNoNewline();
    FileLineRoundTrip(f);
    FileLineContinues(f);
    AddFileLinesReadBack(lines, id, f, s, globalTimer);
    var m := InsertAt(lines, s + 5, FileLine(f));
    assert m[s] == lines[s];
    StartsWithConcat(CategoryTag, id);
    ContainsLine(m, s, CategoryPrefix(id), '\n');
    JoinOfSplit(t, '\n');
    CategoryInOfLines(t, m, id, globalTimer);
  }

  // ---------------------------------------------------------------------------
  // delete_category

  /** At most one line starts with `p`. */
  predicate SingleLineWith(lines: seq<string>, p: string) {
    forall i, j :: 0 <= i < j < |lines| && StartsWith(lines[i], p) ==> !StartsWith(lines[j], p)
  }

  /** With a single line carrying the prefix, no remaining line carries it
      once `delete_category` cut its range out. */
  lemma DeleteLeavesNoPrefix(lines: seq<string>, id: string)
    requires CategoryRange(lines, id).Some?
    requires SingleLineWith(lines, CategoryPrefix(id))
    ensures var r := CategoryRange(lines, id).value;
      var rest := lines[..r.0] + lines[r.1..];
      forall k :: 0 <= k < |rest| ==> !StartsWith(rest[k], CategoryPrefix(id))
  {
    var r := CategoryRange(lines, id).value;
    var rest := lines[..r.0] + lines[r.1..];
    forall k | 0 <= k < |rest| ensures !StartsWith(rest[k], CategoryPrefix(id)) {
      if k < r.0 {
        assert rest[k] == lines[k];
      } else {
        assert rest[k] == lines[k - r.0 + r.1];
      }
    }
  }

  /** After `delete_category` edited a message in which one line carried the
      prefix, `get_category` passes the edited message by. */
  lemma DeleteThenGone(text: string, id: string, globalTimer: int)
    requires DeleteLines(text, id).Some? && |DeleteLines(text, id).value| >= 1
    requires SingleLineWith(Split(text, '\n'), CategoryPrefix(id))
    ensures CategoryIn(Join(DeleteLines(text, id).value, '\n'), id, globalTimer) == Skip
  {
    var lines := Split(text, '\n');
    var r := CategoryRange(lines, id).value;
    var rest := DeleteLines(text, id).value;
    assert rest == lines[..r.0] + lines[r.1..];
    DeleteLeavesNoPrefix(lines, id);
    forall k | 0 <= k < |rest| ensures '\n' !in rest[k] {
      if k < r.0 {
        assert rest[k] == lines[k];
      } else {
        assert rest[k] == lines[k - r.0 + r.1];
      }
    }
    SplitOfJoin(rest, '\n');
    var t := Join(rest, '\n');
    if Contains(t, CategoryPrefix(id)) {
      CategoryInOfLines(t, rest, id, globalTimer);
    }
  }

  // ---------------------------------------------------------------------------
  // Global timer message

  /** The message `save_global_timer` sends reads back, through
      `load_global_timer`, as the saved number of seconds. */
  lemma GlobalTimerReadBack(seconds: int)
    ensures GlobalTimerIn(GlobalTimerText(seconds)) == Some(seconds)
  {
    var digits := IntToString(seconds);
    var text := GlobalTimerText(seconds);
    assert forall i :: 0 <= i < |GlobalTimerMarker| ==> GlobalTimerMarker[i] != '\n';
    assert text == GlobalTimerMarker + ['\n'] + digits;
    StartsWithConcat(GlobalTimerMarker, ['\n'] + digits);
    assert GlobalTimerMarker + (['\n'] + digits) == text;
    SplitAfterPiece(GlobalTimerMarker, '\n', digits);
    IntToStringHasNo(seconds, '\n');
    SplitNoSeparator(digits, '\n');
    ParseIntOfIntToString(seconds);
  }

  /** `load_category_timers` on the lines of a META message holding one
      `CATEGORY:<id>` line followed by its `TIMER:<n>` line: the cache gets
      `id -> n` and nothing else. */
  lemma MetaRecordLines(id: string, n: int, acc: map<string, int>)
    requires ':' !in id && id != ""
    ensures MetaTimersFrom([MetaMarker, CategoryTag + id, TimerTag + IntToString(n)], 0, "", acc) == (acc[id := n], false)
  {
    Differs(MetaMarker, CategoryTag, 0);
    Differs(MetaMarker, TimerTag, 0);
    TagsEndInColon();
    FieldAfterTag(CategoryTag, id);
    CategoryLineTags(id);
    TimerLineTags(IntToString(n));
    TimerLineReads(n);
    var lines := [MetaMarker, CategoryTag + id, TimerTag + IntToString(n)];
    assert MetaTimersFrom(lines, 3, id, acc[id := n]) == (acc[id := n], false);
    assert MetaTimersFrom(lines, 2, id, acc) == MetaTimersFrom(lines, 3, id, acc[id := n]);
    assert MetaTimersFrom(lines, 1, "", acc) == MetaTimersFrom(lines, 2, id, acc);
    assert MetaTimersFrom(lines, 0, "", acc) == MetaTimersFrom(lines, 1, "", acc);
  }

  /** The text of a META message with one `CATEGORY:<id>` / `TIMER:<n>` pair. */
  function MetaRecordText(id: string, n: int): string {
    MetaMarker + (['\n'] + (CategoryTag + id + (['\n'] + (TimerTag + IntToString(n)))))
  }

  lemma MetaRecordTextSplits(id: string, n: int)
    requires '\n' !in id
    ensures Split(MetaRecordText(id, n), '\n') == [MetaMarker, CategoryTag + id, TimerTag + IntToString(n)]
  {
    assert '\n' !in MetaMarker by {
      assert forall i :: 0 <= i < |MetaMarker| ==> MetaMarker[i] != '\n';
    }
    TagsHaveNoNewline();
    IntToStringHasNo(n, '\n');
    SplitThree(MetaMarker, CategoryTag + id, TimerTag + IntToString(n), '\n');
  }

  lemma MetaRecordTextMarked(id: string, n: int)
    ensures Contains(MetaRecordText(id, n), MetaMarker)
  {
    ContainsPrefix(MetaMarker, ['\n'] + (CategoryTag + id + (['\n'] + (TimerTag + IntToString(n)))));
  }

  /** A META message written as the marker, a `CATEGORY:<id>` line and a
      `TIMER:<n>` line, one per line, loads the timer `n` for `id`. */
  lemma MetaRecordReadBack(id: string, n: int, acc: map<string, int>)
    requires ':' !in id && '\n' !in id && id != ""
    ensures MetaTimers(MetaRecordText(id, n), acc) == (acc[id := n], false)
  {
    MetaRecordTextMarked(id, n);
    MetaRecordTextSplits(id, n);
    MetaRecordLines(id, n, acc);
  }
}
