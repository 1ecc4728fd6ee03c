/** The per-user state of the bot (`BotManager`): uploads in progress,
    categories waiting for a timer reply, and the delete countdown started
    for each user; plus the membership check with its retries. */
module Sessions {
  import opened Wrappers
  import opened Text
  import opened Records
  import opened Handlers
  import opened Countdown

  /** `{'category_id': ..., 'files': [...]}`. */
  datatype Upload = Upload(categoryId: string, files: seq<FileInfo>)

  /** The arguments `delete_messages_after_delay` was started with. */
  datatype DeleteTask = DeleteTask(chat: int, messageIds: seq<nat>, delay: int)

  /** One `send_document`/`send_photo`/`send_video`/`send_audio` call. */
  datatype SendRequest = SendRequest(chat: int, kind: MediaKind, fileId: string, caption: string)

  /** The requests `send_category_files` makes: one per file whose type has
      a send function, in order, with the caption cut to 1024 characters. */
  function Sends(chat: int, files: seq<FileRecord>): (r: seq<SendRequest>)
    ensures |r| <= |files|
    ensures forall k :: 0 <= k < |r| ==> |r[k].caption| <= MaxCaptionLength && r[k].chat == chat
    decreases |files|
  {
    if |files| == 0 then []
    else
      var f := files[|files| - 1];
      var before := Sends(chat, files[..|files| - 1]);
      match KindOf(f.fileType)
      case None => before
      case Some(kind) => before + [SendRequest(chat, kind, f.fileId, TruncateCaption(f.caption))]
  }

  /** The ids of the messages that were sent: `results[k]` is what the send
      for `files[k]` returned, `None` where it raised. */
  function SentIds(files: seq<FileRecord>, results: seq<Option<nat>>): (r: seq<nat>)
    requires |results| == |files|
    ensures |r| <= |files|
    decreases |files|
  {
    if |files| == 0 then []
    else
      var n := |files| - 1;
      var before := SentIds(files[..n], results[..n]);
      if KindOf(files[n].fileType).Some? && results[n].Some? then before + [results[n].value] else before
  }

  /** The `for file in category['files']` loop of `send_category_files`. */
  method SendFiles(chat: int, files: seq<FileRecord>, results: seq<Option<nat>>)
    returns (sends: seq<SendRequest>, sent: seq<nat>)
    requires |results| == |files|
    ensures sends == Sends(chat, files)
    ensures sent == SentIds(files, results)
  {
    sends := [];
    sent := [];
    var i := 0;
    while i < |files|
      invariant 0 <= i <= |files|
      invariant sends == Sends(chat, files[..i])
      invariant sent == SentIds(files[..i], results[..i])
    {
      var f := files[i];
      var kind := KindOf(f.fileType);
      SendStep(chat, files, results, i, kind);
      if kind.Some? {
        sends := sends + [SendRequest(chat, kind.value, f.fileId, TruncateCaption(f.caption))];
        if results[i].Some? {
          sent := sent + [results[i].value];
        }
      }
      i := i + 1;
    }
    assert files[..i] == files && results[..i] == results;
  }

  /** What one more file adds to the requests and to the sent ids. */
  lemma SendStep(chat: int, files: seq<FileRecord>, results: seq<Option<nat>>, i: nat, kind: Option<MediaKind>)
    requires |results| == |files| && i < |files| && kind == KindOf(files[i].fileType)
    ensures kind.None? ==>
      Sends(chat, files[..i + 1]) == Sends(chat, files[..i]) &&
      SentIds(files[..i + 1], results[..i + 1]) == SentIds(files[..i], results[..i])
    ensures kind.Some? ==>
      Sends(chat, files[..i + 1]) == Sends(chat, files[..i]) +
        [SendRequest(chat, kind.value, files[i].fileId, TruncateCaption(files[i].caption))]
    ensures kind.Some? && results[i].Some? ==>
      SentIds(files[..i + 1], results[..i + 1]) == SentIds(files[..i], results[..i]) + [results[i].value]
    ensures kind.Some? && results[i].None? ==>
      SentIds(files[..i + 1], results[..i + 1]) == SentIds(files[..i], results[..i])
  {
    assert files[..i + 1][..i] == files[..i] && results[..i + 1][..i] == results[..i];
  }

  /** Every collected id is what the send of some file with a known type
      returned. */
  lemma {:induction false} SentIdsAreResults(files: seq<FileRecord>, results: seq<Option<nat>>)
    requires |results| == |files|
    ensures forall x :: x in SentIds(files, results) ==>
      exists k :: 0 <= k < |files| && KindOf(files[k].fileType).Some? && results[k] == Some(x)
    decreases |files|
  {
    if |files| > 0 {
      var n := |files| - 1;
      SentIdsAreResults(files[..n], results[..n]);
      forall x | x in SentIds(files, results)
        ensures exists k :: 0 <= k < |files| && KindOf(files[k].fileType).Some? && results[k] == Some(x)
      {
        if x in SentIds(files[..n], results[..n]) {
          var k :| 0 <= k < n && KindOf(files[..n][k].fileType).Some? && results[..n][k] == Some(x);
          assert files[..n][k] == files[k] && results[..n][k] == results[k];
        } else {
          assert KindOf(files[n].fileType).Some? && results[n] == Some(x);
        }
      }
    }
  }

  /** The message ids of sends that all went through, in order. */
  function Returned(results: seq<Option<nat>>): (r: seq<nat>)
    requires forall k :: 0 <= k < |results| ==> results[k].Some?
    ensures |r| == |results| && forall k :: 0 <= k < |results| ==> r[k] == results[k].value
    decreases |results|
  {
    if |results| == 0 then []
    else Returned(results[..|results| - 1]) + [results[|results| - 1].value]
  }

  /** When every file has a known type and every send went through, the
      collected ids are the returned ones, one per file, in order. */
  lemma {:induction false} SentIdsAllSent(files: seq<FileRecord>, results: seq<Option<nat>>)
    requires |results| == |files|
    requires forall k :: 0 <= k < |files| ==> KindOf(files[k].fileType).Some? && results[k].Some?
    ensures SentIds(files, results) == Returned(results)
    ensures |SentIds(files, results)| == |files|
    ensures forall k :: 0 <= k < |files| ==> SentIds(files, results)[k] == results[k].value
    decreases |files|
  {
    if |files| > 0 {
      var n := |files| - 1;
      var fs, rs := files[..n], results[..n];
      forall k | 0 <= k < n
        ensures KindOf(fs[k].fileType).Some? && rs[k].Some?
      {
        assert fs[k] == files[k] && rs[k] == results[k];
      }
      SentIdsAllSent(fs, rs);
      assert SentIds(files, results) == SentIds(fs, rs) + [results[n].value];
    }
  }

  /** `q` is the send request for file `f`. */
  predicate SendsFile(q: SendRequest, f: FileRecord) {
    KindOf(f.fileType) == Some(q.kind) && q.fileId == f.fileId && q.caption == TruncateCaption(f.caption)
  }

  /** When every file has a known type, the files are sent one to one, in order. */
  lemma {:induction false} SendsOnePerKnownFile(chat: int, files: seq<FileRecord>)
    requires forall k :: 0 <= k < |files| ==> KindOf(files[k].fileType).Some?
    ensures |Sends(chat, files)| == |files|
    ensures forall k :: 0 <= k < |files| ==> SendsFile(Sends(chat, files)[k], files[k])
    decreases |files|
  {
    if |files| > 0 {
      var n := |files| - 1;
      var before := files[..n];
      assert forall k :: 0 <= k < |before| ==> before[k] == files[k];
      SendsOnePerKnownFile(chat, before);
      var f := files[n];
      var q := SendRequest(chat, KindOf(f.fileType).value, f.fileId, TruncateCaption(f.caption));
      assert SendsFile(q, f);
      assert Sends(chat, files) == Sends(chat, before) + [q];
      assert files == before + [f];
      AppendSend(Sends(chat, before), before, q, f);
    }
  }

  /** Appending a request for an appended file keeps the two in step. */
  lemma AppendSend(done: seq<SendRequest>, before: seq<FileRecord>, q: SendRequest, f: FileRecord)
    requires |done| == |before| && SendsFile(q, f)
    requires forall k :: 0 <= k < |before| ==> SendsFile(done[k], before[k])
    ensures forall k :: 0 <= k < |before + [f]| ==> SendsFile((done + [q])[k], (before + [f])[k])
  {
    forall k | 0 <= k < |before + [f]|
      ensures SendsFile((done + [q])[k], (before + [f])[k])
    {
      if k < |before| {
        assert (done + [q])[k] == done[k] && (before + [f])[k] == before[k];
      }
    }
  }

  /** The records `finish_upload` hands to the store for the uploaded files. */
  function StoredRecords(infos: seq<FileInfo>): (r: seq<FileRecord>)
    ensures |r| == |infos| && forall k :: 0 <= k < |infos| ==> r[k] == RecordOf(infos[k])
  {
    seq(|infos|, k requires 0 <= k < |infos| => RecordOf(infos[k]))
  }

  /** Files extracted from incoming messages, once stored as records, are
      sent one to one and in order, each with its id and truncated caption. */
  lemma SentWhatWasUploaded(chat: int, infos: seq<FileInfo>, msgs: seq<IncomingMessage>)
    requires |infos| == |msgs|
    requires forall k :: 0 <= k < |msgs| ==> ExtractFileInfo(msgs[k]) == Some(infos[k])
    ensures |Sends(chat, StoredRecords(infos))| == |infos|
    ensures forall k :: 0 <= k < |infos| ==>
      SendsFile(Sends(chat, StoredRecords(infos))[k], RecordOf(infos[k])) &&
      Sends(chat, StoredRecords(infos))[k].fileId == infos[k].fileId
  {
    var files := StoredRecords(infos);
    forall k | 0 <= k < |files|
      ensures KindOf(files[k].fileType).Some?
    {
      ExtractedKindIsSendable(msgs[k]);
    }
    SendsOnePerKnownFile(chat, files);
  }

  /** The countdown of a task started for a warning message always updates
      that warning: the k-th status edit shows `timer - 10(k + 1)` on it. */
  lemma CountdownUpdatesWarning(sent: seq<nat>, warning: nat, timer: int, k: nat)
    requires k < TickCount(timer)
    ensures var log := CountdownLog(sent + [warning], timer);
      2 * k + 1 < |log| && log[2 * k + 1] == StatusEdit(warning, timer - 10 * (k + 1))
  {
    var ids := sent + [warning];
    TickAt(ids, timer, k);
  }

  // ---------------------------------------------------------------------------
  // Membership (`is_user_member`)

  const MembershipAttempts: nat := 3
  const RetryDelay: nat := 2

  /** The outcome of one `get_chat_member` call. */
  datatype Attempt = Answered(status: string) | Failed

  predicate Accepts(a: Attempt) {
    a.Answered? && (a.status == "member" || a.status == "administrator" || a.status == "creator")
  }

  /** `is_user_member`: up to three calls, a two-second sleep after each one
      that did not show membership.  `attempts[k]` is the outcome of call k. */
  method IsUserMember(attempts: seq<Attempt>) returns (member: bool, calls: nat, slept: nat)
    requires |attempts| >= MembershipAttempts
    ensures member <==> exists k :: 0 <= k < MembershipAttempts && Accepts(attempts[k])
    ensures 1 <= calls <= MembershipAttempts
    ensures forall k :: 0 <= k < calls - 1 ==> !Accepts(attempts[k])
    ensures member ==> Accepts(attempts[calls - 1]) && slept == RetryDelay * (calls - 1)
    ensures !member ==> calls == MembershipAttempts && slept == RetryDelay * MembershipAttempts
  {
    calls := 0;
    slept := 0;
    while calls < MembershipAttempts
      invariant 0 <= calls <= MembershipAttempts
      invariant forall k :: 0 <= k < calls ==> !Accepts(attempts[k])
      invariant slept == RetryDelay * calls
    {
      var outcome := attempts[calls];
      calls := calls + 1;
      if Accepts(outcome) {
        return true, calls, slept;
      }
      slept := slept + RetryDelay;
    }
    return false, calls, slept;
  }

  // ---------------------------------------------------------------------------
  // The registry

  /** The key `send_category_files` files a countdown under: the id of the
      sender of the message it answers, or that message's chat when it has
      no sender. */
  function TaskKey(author: Option<int>, chat: int): (r: int)
    ensures author.Some? ==> r == author.value
    ensures author.None? ==> r == chat
  {
    if author.Some? then author.value else chat
  }

  class BotManager {
    const admins: seq<int>
    var pendingUploads: map<int, Upload>
    /** Never written in the bot; `cancel` clears it. */
    var pendingChannels: map<int, string>
    var pendingTimers: map<int, string>
    var deleteTasks: map<int, DeleteTask>

    constructor (admins: seq<int>)
      ensures this.admins == admins
      ensures pendingUploads == map[] && pendingChannels == map[] && pendingTimers == map[] && deleteTasks == map[]
    {
      this.admins := admins;
      pendingUploads := map[];
      pendingChannels := map[];
      pendingTimers := map[];
      deleteTasks := map[];
    }

    /** `is_admin`. */
    predicate IsAdmin(user: int) {
      user in admins
    }

    /** `cancel`: the user's upload, channel and timer entries are dropped, and
        so is the user's countdown, which is returned as the task cancelled. */
    method Cancel(user: int) returns (cancelled: Option<DeleteTask>)
      modifies this
      ensures pendingUploads == old(pendingUploads) - {user}
      ensures pendingChannels == old(pendingChannels) - {user}
      ensures pendingTimers == old(pendingTimers) - {user}
      ensures deleteTasks == old(deleteTasks) - {user}
      ensures cancelled == if user in old(deleteTasks) then Some(old(deleteTasks)[user]) else None
    {
      if user in pendingUploads {
        pendingUploads := pendingUploads - {user};
      }
      if user in pendingChannels {
        pendingChannels := pendingChannels - {user};
      }
      if user in pendingTimers {
        pendingTimers := pendingTimers - {user};
      }
      cancelled := None;
      if user in deleteTasks {
        cancelled := Some(deleteTasks[user]);
        deleteTasks := deleteTasks - {user};
      }
    }

    /** What `send_category_files` does, with its countdown filed under
        `key`: nothing for a missing or empty category; otherwise the files
        go out, and for a positive timer the countdown over the sent ids and
        the warning replaces the entry under `key`. */
    twostate predicate FilesSent(key: int, chat: int, category: Option<Category>, timer: int,
                                 results: seq<Option<nat>>, warning: nat,
                                 new sends: seq<SendRequest>, new scheduled: Option<DeleteTask>)
      requires category.Some? ==> |results| == |category.value.files|
      reads this
    {
      (category.None? || |category.value.files| == 0 ==> sends == [] && scheduled == None) &&
      (category.Some? && |category.value.files| > 0 ==>
         sends == Sends(chat, category.value.files) &&
         scheduled == (if timer > 0 then Some(DeleteTask(chat, SentIds(category.value.files, results) + [warning], timer))
                       else None)) &&
      (scheduled.None? ==> deleteTasks == old(deleteTasks)) &&
      (scheduled.Some? ==> deleteTasks == old(deleteTasks)[key := scheduled.value])
    }

    /** `send_category_files` once the category has been read and its timer
        looked up.  `author` is the sender of the message it answers and
        `chat` that message's chat; the countdown is filed under
        `TaskKey(author, chat)`. */
    method SendCategoryFiles(author: Option<int>, chat: int, category: Option<Category>, timer: int,
                             results: seq<Option<nat>>, warning: nat)
      returns (sends: seq<SendRequest>, scheduled: Option<DeleteTask>)
      requires category.Some? ==> |results| == |category.value.files|
      modifies this
      ensures pendingUploads == old(pendingUploads) && pendingChannels == old(pendingChannels)
      ensures pendingTimers == old(pendingTimers)
      ensures FilesSent(TaskKey(author, chat), chat, category, timer, results, warning, sends, scheduled)
    {
      var user := TaskKey(author, chat);
      sends, scheduled := [], None;
      if category.None? || |category.value.files| == 0 {
        return;
      }
      var sent;
      sends, sent := SendFiles(chat, category.value.files, results);
      if timer > 0 {
        var task := DeleteTask(chat, sent + [warning], timer);
        deleteTasks := deleteTasks[user := task];
        scheduled := Some(task);
      }
    }

    /** `upload_command`: an admin naming an existing category starts an empty upload. */
    method UploadCommand(user: int, args: seq<string>, categoryExists: bool) returns (started: bool)
      modifies this
      ensures started <==> IsAdmin(user) && |args| > 0 && categoryExists
      ensures started ==> pendingUploads == old(pendingUploads)[user := Upload(args[0], [])]
      ensures !started ==> pendingUploads == old(pendingUploads)
      ensures pendingChannels == old(pendingChannels) && pendingTimers == old(pendingTimers)
      ensures deleteTasks == old(deleteTasks)
    {
      if !IsAdmin(user) || |args| == 0 || !categoryExists {
        return false;
      }
      pendingUploads := pendingUploads[user := Upload(args[0], [])];
      return true;
    }

    /** `handle_file`: a supported file joins the user's upload, if one is in
        progress; the count of files so far is returned. */
    method HandleFile(user: int, msg: IncomingMessage) returns (count: Option<nat>)
      modifies this
      ensures user in old(pendingUploads) && ExtractFileInfo(msg).Some? ==>
        var u := old(pendingUploads)[user];
        pendingUploads == old(pendingUploads)[user := Upload(u.categoryId, u.files + [ExtractFileInfo(msg).value])] &&
        count == Some(|u.files| + 1)
      ensures user !in old(pendingUploads) || ExtractFileInfo(msg).None? ==>
        pendingUploads == old(pendingUploads) && count == None
      ensures pendingChannels == old(pendingChannels) && pendingTimers == old(pendingTimers)
      ensures deleteTasks == old(deleteTasks)
    {
      if user !in pendingUploads {
        return None;
      }
      var info := ExtractFileInfo(msg);
      if info.None? {
        return None;
      }
      var u := pendingUploads[user];
      pendingUploads := pendingUploads[user := Upload(u.categoryId, u.files + [info.value])];
      return Some(|u.files| + 1);
    }

    /** `finish_upload`: the user's upload is taken out of the registry; the
        records to store are returned, none when the upload was empty. */
    method FinishUpload(user: int) returns (categoryId: Option<string>, toStore: seq<FileRecord>)
      modifies this
      ensures pendingUploads == old(pendingUploads) - {user}
      ensures user !in old(pendingUploads) ==> categoryId == None && toStore == []
      ensures user in old(pendingUploads) ==>
        var u := old(pendingUploads)[user];
        categoryId == (if |u.files| == 0 then None else Some(u.categoryId)) &&
        |toStore| == |u.files| && forall k :: 0 <= k < |u.files| ==> toStore[k] == RecordOf(u.files[k])
      ensures pendingChannels == old(pendingChannels) && pendingTimers == old(pendingTimers)
      ensures deleteTasks == old(deleteTasks)
    {
      if user !in pendingUploads {
        return None, [];
      }
      var u := pendingUploads[user];
      pendingUploads := pendingUploads - {user};
      if |u.files| == 0 {
        return None, [];
      }
      toStore := StoredRecords(u.files);
      categoryId := Some(u.categoryId);
    }

    /** `button_handler`: `view_` sends the category's files, answering the
        menu message (chat `menuChat`, sent by `menuAuthor`), so the
        countdown is filed under that message's author; `add_` starts an
        empty upload; `timer_` waits for a timer reply; a non-admin changes
        nothing.  `viewed` is what `get_category` returned for the id. */
    method PressButton(user: int, data: string, menuChat: int, menuAuthor: Option<int>,
                       viewed: Option<Category>, timer: int, results: seq<Option<nat>>, warning: nat)
      returns (action: CallbackAction, sends: seq<SendRequest>, scheduled: Option<DeleteTask>)
      requires viewed.Some? ==> |results| == |viewed.value.files|
      modifies this
      ensures action == if IsAdmin(user) then DecodeCallback(data) else Unknown
      ensures action.AddFiles? ==> pendingUploads == old(pendingUploads)[user := Upload(action.categoryId, [])]
      ensures !action.AddFiles? ==> pendingUploads == old(pendingUploads)
      ensures action.SetTimer? ==> pendingTimers == old(pendingTimers)[user := action.categoryId]
      ensures !action.SetTimer? ==> pendingTimers == old(pendingTimers)
      ensures pendingChannels == old(pendingChannels)
      ensures action.ViewFiles? ==>
        FilesSent(TaskKey(menuAuthor, menuChat), menuChat, viewed, timer, results, warning, sends, scheduled)
      ensures !action.ViewFiles? ==> sends == [] && scheduled == None && deleteTasks == old(deleteTasks)
    {
      sends, scheduled := [], None;
      if !IsAdmin(user) {
        return Unknown, sends, scheduled;
      }
      action := DecodeCallback(data);
      match action
      case ViewFiles(id) =>
        sends, scheduled := SendCategoryFiles(menuAuthor, menuChat, viewed, timer, results, warning);
      case AddFiles(id) =>
        pendingUploads := pendingUploads[user := Upload(id, [])];
      case SetTimer(id) =>
        pendingTimers := pendingTimers[user := id];
      case _ =>
    }

    /** `handle_category_timer`: a number answering a `timer_` button is
        saved for that category, clamped at 0.  The entry is dropped only
        when the category is then found; otherwise the handler fails on the
        missing name and the entry stays. */
    method HandleCategoryTimer(user: int, text: string, categoryFound: bool)
      returns (saved: Option<(string, nat)>)
      modifies this
      ensures user !in old(pendingTimers) || TimerReply(text).None? ==>
        saved == None && pendingTimers == old(pendingTimers)
      ensures user in old(pendingTimers) && TimerReply(text).Some? ==>
        saved == Some((old(pendingTimers)[user], TimerReply(text).value)) &&
        pendingTimers == (if categoryFound then old(pendingTimers) - {user} else old(pendingTimers))
      ensures pendingUploads == old(pendingUploads) && pendingChannels == old(pendingChannels)
      ensures deleteTasks == old(deleteTasks)
    {
      if user !in pendingTimers {
        return None;
      }
      var id := pendingTimers[user];
      var seconds := TimerReply(text);
      if seconds.None? {
        return None;
      }
      saved := Some((id, seconds.value));
      if categoryFound {
        pendingTimers := pendingTimers - {user};
      }
    }
  }
}
