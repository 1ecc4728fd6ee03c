/** The pure helpers of the bot's handlers: the callback data of the admin
    menu buttons, the `cat_` start parameter of a category link, timer
    arguments, caption truncation and the choice of the file a message
    carries. */
module Handlers {
  import opened Wrappers
  import opened Text
  import opened Records

  // ---------------------------------------------------------------------------
  // Callback data of the admin menu (`admin_category_menu`, `button_handler`)

  datatype CallbackAction =
    | ViewFiles(categoryId: string)
    | AddFiles(categoryId: string)
    | SetTimer(categoryId: string)
    | DeleteCategory(categoryId: string)
    | Unknown

  const ViewPrefix: string := "view_"
  const AddPrefix: string := "add_"
  const TimerPrefix: string := "timer_"
  const DeletePrefix: string := "delcat_"

  /** The `callback_data` a button of the admin menu carries. */
  function EncodeCallback(a: CallbackAction): string
    requires !a.Unknown?
  {
    match a
    case ViewFiles(id) => ViewPrefix + id
    case AddFiles(id) => AddPrefix + id
    case SetTimer(id) => TimerPrefix + id
    case DeleteCategory(id) => DeletePrefix + id
  }

  /** The `startswith` chain of `button_handler`, the id being what follows
      the prefix; data matching no prefix does nothing. */
  function DecodeCallback(data: string): (r: CallbackAction)
    ensures r.ViewFiles? <==> StartsWith(data, ViewPrefix)
    ensures r.Unknown? <==>
      !StartsWith(data, ViewPrefix) && !StartsWith(data, AddPrefix) &&
      !StartsWith(data, TimerPrefix) && !StartsWith(data, DeletePrefix)
    ensures !r.Unknown? ==> |r.categoryId| < |data| && data[|data| - |r.categoryId|..] == r.categoryId
  {
    if StartsWith(data, ViewPrefix) then ViewFiles(data[5..])
    else if StartsWith(data, AddPrefix) then AddFiles(data[4..])
    else if StartsWith(data, TimerPrefix) then SetTimer(data[6..])
    else if StartsWith(data, DeletePrefix) then DeleteCategory(data[7..])
    else Unknown
  }

  /** Every button decodes to the action it was made for. */
  lemma DecodeEncode(a: CallbackAction)
    requires !a.Unknown?
    ensures DecodeCallback(EncodeCallback(a)) == a
  {
    var data := EncodeCallback(a);
    var id := a.categoryId;
    match a
    case ViewFiles(_) =>
      assert data[5..] == id;
    case AddFiles(_) =>
      assert data[0] == 'a';
      assert data[4..] == id;
    case SetTimer(_) =>
      assert data[0] == 't';
      assert data[..4] != AddPrefix by { assert data[1] == 'i'; }
      assert data[6..] == id;
    case DeleteCategory(_) =>
      assert data[0] == 'd';
      assert data[7..] == id;
  }

  /** Whatever data the handler acts on is the data of the button for that action. */
  lemma EncodeDecode(data: string)
    requires !DecodeCallback(data).Unknown?
    ensures EncodeCallback(DecodeCallback(data)) == data
  {
    var a := DecodeCallback(data);
    match a
    case ViewFiles(id) => assert data == data[..5] + data[5..];
    case AddFiles(id) => assert data == data[..4] + data[4..];
    case SetTimer(id) => assert data == data[..6] + data[6..];
    case DeleteCategory(id) => assert data == data[..7] + data[7..];
  }

  // ---------------------------------------------------------------------------
  // Category links (`generate_link`, `start`)

  const StartTag: string := "cat_"
  const LinkHost: string := "https://t.me/"
  const StartQuery: string := "?start="

  /** The start parameter of the link to a category. */
  function StartParameter(id: string): string {
    StartTag + id
  }

  /** The category a `/start` with these arguments opens: the first argument
      without its `cat_` prefix. */
  function DeepLinkCategory(args: seq<string>): (r: Option<string>)
    ensures r.Some? <==> |args| > 0 && StartsWith(args[0], StartTag)
    ensures r.Some? ==> args[0] == StartParameter(r.value)
  {
    if |args| > 0 && StartsWith(args[0], StartTag) then
      assert args[0] == args[0][..4] + args[0][4..];
      Some(args[0][4..])
    else None
  }

  /** The name the link addresses: the bot's username, or when it is unknown
      (`None` or empty) the text of the token before its first colon. */
  function LinkName(botUsername: string, botToken: string): string {
    if |botUsername| > 0 then botUsername else Split(botToken, ':')[0]
  }

  /** `generate_link`. */
  function GenerateLink(botUsername: string, botToken: string, id: string): (r: string)
    ensures StartsWith(r, LinkHost + LinkName(botUsername, botToken) + StartQuery)
    ensures |r| >= |StartParameter(id)| && r[|r| - |StartParameter(id)|..] == StartParameter(id)
    ensures |r| == |LinkHost + LinkName(botUsername, botToken) + StartQuery| + |StartParameter(id)|
  {
    var base := LinkHost + LinkName(botUsername, botToken) + StartQuery;
    StartsWithConcat(base, StartParameter(id));
    base + StartParameter(id)
  }

  /** Following a category link starts the bot with the text after
      `?start=` as its argument, and that argument opens the same category. */
  lemma LinkOpensCategory(botUsername: string, botToken: string, id: string)
    ensures var link := GenerateLink(botUsername, botToken, id);
      var base := LinkHost + LinkName(botUsername, botToken) + StartQuery;
      StartsWith(link, base) && DeepLinkCategory([link[|base|..]]) == Some(id)
  {
    var link := GenerateLink(botUsername, botToken, id);
    var base := LinkHost + LinkName(botUsername, botToken) + StartQuery;
    assert link[|base|..] == StartParameter(id);
    assert StartsWith(StartParameter(id), StartTag) by { StartsWithConcat(StartTag, id); }
    assert StartParameter(id)[4..] == id;
  }

  /** Without a username the link uses the numeric bot id of a token `<id>:<secret>`. */
  lemma FallbackLinkName(botId: string, secret: string)
    requires ':' !in botId
    ensures LinkName("", botId + ":" + secret) == botId
  {
    assert botId + ":" + secret == botId + [':'] + secret;
    SplitAfterPiece(botId, ':', secret);
  }

  // ---------------------------------------------------------------------------
  // Timer arguments (`set_timer_command`, `handle_category_timer`)

  /** A negative number of seconds becomes 0. */
  function ClampTimer(n: int): (r: nat)
    ensures r >= n && (r == 0 || r == n)
  {
    if n < 0 then 0 else n
  }

  /** The seconds of `/timer <n>`: `None` where the handler answers with the
      usage text (no argument, or one `int()` refuses). */
  function TimerArgument(args: seq<string>): (r: Option<nat>)
    ensures r.Some? <==> |args| > 0 && ParseInt(args[0]).Some?
    ensures r.Some? ==> r.value == ClampTimer(ParseInt(args[0]).value)
  {
    if |args| == 0 then None
    else
      match ParseInt(args[0])
      case None => None
      case Some(n) => Some(ClampTimer(n))
  }

  /** The seconds a timer reply sets, `None` where `int()` refuses the text. */
  function TimerReply(text: string): (r: Option<nat>)
    ensures r.Some? <==> ParseInt(text).Some?
    ensures r.Some? ==> r.value == ClampTimer(ParseInt(text).value)
  {
    match ParseInt(text)
    case None => None
    case Some(n) => Some(ClampTimer(n))
  }

  /** `/timer <n>` with `n` written out sets `max(n, 0)` seconds. */
  lemma TimerArgumentOfNumber(n: int, more: seq<string>)
    ensures TimerArgument([IntToString(n)] + more) == Some(ClampTimer(n))
    ensures TimerReply(IntToString(n)) == Some(ClampTimer(n))
    ensures n >= 0 ==> TimerArgument([IntToString(n)] + more) == Some(n)
  {
    ParseIntOfIntToString(n);
    assert ([IntToString(n)] + more)[0] == IntToString(n);
  }

  // ---------------------------------------------------------------------------
  // Captions (`send_category_files`)

  const MaxCaptionLength: nat := 1024

  /** `caption[:1024]`. */
  function TruncateCaption(caption: string): (r: string)
    ensures |r| <= MaxCaptionLength
    ensures StartsWith(caption, r)
    ensures |caption| <= MaxCaptionLength ==> r == caption
    ensures |caption| >= MaxCaptionLength ==> |r| == MaxCaptionLength
  {
    if |caption| <= MaxCaptionLength then caption else caption[..MaxCaptionLength]
  }

  // ---------------------------------------------------------------------------
  // The file a message carries (`extract_file_info`)

  datatype MediaKind = Document | Photo | Video | Audio

  /** The `file_type` string stored for a kind. */
  function KindName(k: MediaKind): string {
    match k
    case Document => "document"
    case Photo => "photo"
    case Video => "video"
    case Audio => "audio"
  }

  /** The lookup `{'document': ..., 'photo': ..., 'video': ..., 'audio': ...}.get(file_type)`. */
  function KindOf(fileType: string): (r: Option<MediaKind>)
    ensures r.Some? ==> KindName(r.value) == fileType
  {
    if fileType == "document" then Some(Document)
    else if fileType == "photo" then Some(Photo)
    else if fileType == "video" then Some(Video)
    else if fileType == "audio" then Some(Audio)
    else None
  }

  /** Every stored type name is looked up to its own kind. */
  lemma KindOfName(k: MediaKind)
    ensures KindOf(KindName(k)) == Some(k)
  {
    match k
    case Document =>
    case Photo => assert KindName(k)[0] == 'p';
    case Video => assert KindName(k)[0] == 'v';
    case Audio => assert KindName(k)[0] == 'a';
  }

  /** The priority of `extract_file_info`: document, photo, video, audio. */
  function Rank(k: MediaKind): nat {
    match k
    case Document => 0
    case Photo => 1
    case Video => 2
    case Audio => 3
  }

  /** One attachment; `fileName` is empty where Telegram gives none. */
  datatype Media = Media(fileId: string, fileName: string, fileSize: Option<int>)

  /** The attachments of an incoming message; `photo` lists the sizes of a
      photo, smallest first, and `caption` is empty where there is none. */
  datatype IncomingMessage = IncomingMessage(
    document: Option<Media>, photo: seq<Media>, video: Option<Media>, audio: Option<Media>,
    caption: string)

  datatype FileInfo = FileInfo(fileId: string, fileName: string, fileSize: Option<int>, fileType: string, caption: string)

  /** Whether the message carries an attachment of that kind. */
  predicate Carries(msg: IncomingMessage, k: MediaKind) {
    match k
    case Document => msg.document.Some?
    case Photo => |msg.photo| > 0
    case Video => msg.video.Some?
    case Audio => msg.audio.Some?
  }

  /** The attachment of that kind; for a photo its last, largest size. */
  function Attachment(msg: IncomingMessage, k: MediaKind): Media
    requires Carries(msg, k)
  {
    match k
    case Document => msg.document.value
    case Photo => msg.photo[|msg.photo| - 1]
    case Video => msg.video.value
    case Audio => msg.audio.value
  }

  /** `file_id[:8]`. */
  function ShortId(fileId: string): (r: string)
    ensures StartsWith(fileId, r)
    ensures |r| == if |fileId| <= 8 then |fileId| else 8
  {
    if |fileId| <= 8 then fileId else fileId[..8]
  }

  /** The file name recorded for an attachment. */
  function NameFor(k: MediaKind, m: Media): string {
    match k
    case Document => if |m.fileName| > 0 then m.fileName else "document_" + ShortId(m.fileId)
    case Photo => "photo_" + ShortId(m.fileId) + ".jpg"
    case Video => "video_" + ShortId(m.fileId) + ".mp4"
    case Audio => "audio_" + ShortId(m.fileId) + ".mp3"
  }

  /** The kind `extract_file_info` takes: the first one the message carries. */
  function ChosenKind(msg: IncomingMessage): (r: Option<MediaKind>)
    ensures r.None? <==> forall k: MediaKind :: !Carries(msg, k)
    ensures r.Some? ==> Carries(msg, r.value)
    ensures r.Some? ==> forall j: MediaKind :: Rank(j) < Rank(r.value) ==> !Carries(msg, j)
  {
    if msg.document.Some? then assert Carries(msg, Document); Some(Document)
    else if |msg.photo| > 0 then assert Carries(msg, Photo); Some(Photo)
    else if msg.video.Some? then assert Carries(msg, Video); Some(Video)
    else if msg.audio.Some? then assert Carries(msg, Audio); Some(Audio)
    else None
  }

  /** `extract_file_info`: the attachment of the highest-priority kind the
      message carries, `None` for a message with none. */
  function ExtractFileInfo(msg: IncomingMessage): (r: Option<FileInfo>)
    ensures r.None? <==> forall k: MediaKind :: !Carries(msg, k)
    ensures r.Some? ==>
      exists k: MediaKind ::
        Carries(msg, k) && r.value.fileType == KindName(k) &&
        (forall j: MediaKind :: Rank(j) < Rank(k) ==> !Carries(msg, j)) &&
        r.value.fileId == Attachment(msg, k).fileId && r.value.fileSize == Attachment(msg, k).fileSize &&
        r.value.fileName == NameFor(k, Attachment(msg, k))
    ensures r.Some? ==> r.value.caption == msg.caption
  {
    match ChosenKind(msg)
    case None => None
    case Some(k) =>
      var m := Attachment(msg, k);
      Some(FileInfo(m.fileId, NameFor(k, m), m.fileSize, KindName(k), msg.caption))
  }

  /** The file record `add_file` stores for an extracted file. */
  function RecordOf(info: FileInfo): (r: FileRecord)
    ensures r.fileId == info.fileId && r.fileType == info.fileType && r.caption == info.caption
  {
    FileRecord(info.fileId, info.fileType, info.caption)
  }

  /** A document wins over every other attachment of the same message. */
  lemma DocumentFirst(msg: IncomingMessage)
    requires msg.document.Some?
    ensures ExtractFileInfo(msg).Some? && ExtractFileInfo(msg).value.fileType == "document"
    ensures ExtractFileInfo(msg).value.fileId == msg.document.value.fileId
  {
    var r := ExtractFileInfo(msg);
    var k :| Carries(msg, k) && r.value.fileType == KindName(k) &&
      (forall j: MediaKind :: Rank(j) < Rank(k) ==> !Carries(msg, j)) &&
      r.value.fileId == Attachment(msg, k).fileId;
    assert Rank(Document) < Rank(k) ==> !Carries(msg, Document);
  }

  /** Of a photo, the last (largest) size is kept. */
  lemma PhotoKeepsLargest(msg: IncomingMessage)
    requires msg.document.None? && |msg.photo| > 0
    ensures ExtractFileInfo(msg).Some? && ExtractFileInfo(msg).value.fileType == "photo"
    ensures ExtractFileInfo(msg).value.fileId == msg.photo[|msg.photo| - 1].fileId
  {
    var r := ExtractFileInfo(msg);
    var k :| Carries(msg, k) && r.value.fileType == KindName(k) &&
      (forall j: MediaKind :: Rank(j) < Rank(k) ==> !Carries(msg, j)) &&
      r.value.fileId == Attachment(msg, k).fileId;
    assert Rank(Photo) < Rank(k) ==> !Carries(msg, Photo);
    assert k != Document;
  }

  /** The type an extracted file is stored under is one `send_category_files`
      knows how to send. */
  lemma ExtractedKindIsSendable(msg: IncomingMessage)
    requires ExtractFileInfo(msg).Some?
    ensures KindOf(ExtractFileInfo(msg).value.fileType).Some?
  {
    var r := ExtractFileInfo(msg);
    var k :| Carries(msg, k) && r.value.fileType == KindName(k);
    KindOfName(k);
  }
}
