/**
 * The emergency chat window: the thread of one alert kept in sync by a fetch and by insert
 * pushes, text messages sent to the store, media uploads that post a labelled message, and
 * how each message is laid out.
 */
module ChatWindow {
  import opened Wrappers
  import opened Text
  import opened Seqs
  import Remote

  /** A row of `messages`; `createdAt` in milliseconds since the epoch. */
  datatype MessageRow = MessageRow(
    id: string, alertId: string, senderId: string, content: string,
    mediaUrl: Option<string>, createdAt: int)

  /** `.order('created_at', { ascending: true })`. */
  function OldestFirst(rows: seq<MessageRow>): (r: seq<MessageRow>)
    ensures multiset(r) == multiset(rows)
    ensures forall m :: m in r <==> m in rows
    ensures forall i, j :: 0 <= i < j < |r| ==> r[i].createdAt <= r[j].createdAt
  {
    var sorted := SortBy(rows, (m: MessageRow) => Known(m.createdAt));
    assert forall m :: m in sorted <==> m in multiset(sorted);
    assert forall m :: m in rows <==> m in multiset(rows);
    assert forall i, j :: 0 <= i < j < |sorted| ==> RankLe(Known(sorted[i].createdAt), Known(sorted[j].createdAt));
    sorted
  }

  /** `fetchMessages`' query: the alert's messages, oldest first. */
  function ThreadOf(table: seq<MessageRow>, alertId: string): (r: seq<MessageRow>)
    ensures forall m :: m in r <==> m in table && m.alertId == alertId
    ensures forall m :: multiset(r)[m] == if m.alertId == alertId then multiset(table)[m] else 0
    ensures forall i, j :: 0 <= i < j < |r| ==> r[i].createdAt <= r[j].createdAt
  {
    var mine := Filter(table, (m: MessageRow) => m.alertId == alertId);
    FilterCounts(table, (m: MessageRow) => m.alertId == alertId);
    assert forall m :: m in table && m.alertId == alertId ==> m in mine by {
      forall m | m in table && m.alertId == alertId ensures m in mine {
        var i :| 0 <= i < |table| && table[i] == m;
      }
    }
    OldestFirst(mine)
  }

  /** `file.name.split('.').pop()`: the text after the last dot, or the whole name. */
  function Extension(fileName: string): (ext: string)
    ensures '.' !in ext
    ensures '.' !in fileName ==> ext == fileName
    ensures EndsWith(fileName, ext)
  {
    LastPieceIsSuffix(fileName, '.');
    LastPiece(fileName, '.')
  }

  /**
   * With a dot in the name, the extension is exactly the text after the last dot: it follows
   * a dot at the end of the name, and no other dot-free text does.
   */
  lemma ExtensionIsAfterLastDot(fileName: string, e: string)
    requires '.' in fileName
    ensures EndsWith(fileName, "." + Extension(fileName))
    ensures '.' !in e && EndsWith(fileName, "." + e) ==> e == Extension(fileName)
  {
    var x := Extension(fileName);
    LastPieceIsSuffix(fileName, '.');
    assert EndsWith(fileName, "." + x);
    if '.' !in e && EndsWith(fileName, "." + e) {
      var n := |fileName|;
      if |e| < |x| {
        DotBeforeShorterSuffix(fileName, e, x);
        assert false;
      } else if |x| < |e| {
        DotBeforeShorterSuffix(fileName, x, e);
        assert false;
      }
      assert e == fileName[n - |e|..] == x;
    }
  }

  /** Of two dotted suffixes of one name, the longer one holds the dot before the shorter. */
  lemma DotBeforeShorterSuffix(s: string, short: string, long: string)
    requires EndsWith(s, "." + short) && EndsWith(s, "." + long) && |short| < |long|
    ensures '.' in long
  {
    var j := |s| - |short| - 1;
    assert s[j] == ("." + short)[0];
    assert long[j - (|s| - |long|)] == ("." + long)[j - (|s| - |long|) + 1] == s[j];
  }

  /** `chat-media/<alertId>/<random>.<ext>`. */
  function UploadPath(alertId: string, random: string, fileName: string): (path: string)
    ensures StartsWith(path, "chat-media/" + alertId + "/")
    ensures EndsWith(path, "." + Extension(fileName))
  {
    var prefix := "chat-media/" + alertId + "/";
    var path := prefix + random + "." + Extension(fileName);
    assert path[..|prefix|] == prefix;
    assert path[|path| - |"." + Extension(fileName)|..] == "." + Extension(fileName);
    path
  }

  /** The stored file keeps the uploaded file's extension, whatever the random part holds. */
  lemma UploadKeepsExtension(alertId: string, random: string, fileName: string)
    ensures LastPiece(UploadPath(alertId, random, fileName), '.') == Extension(fileName)
  {
    var a := "chat-media/" + alertId + "/" + random;
    assert UploadPath(alertId, random, fileName) == a + ['.'] + Extension(fileName);
    LastPieceAfterSeparator(a, Extension(fileName), '.');
  }

  const ImageLabel: string := "\U{1F4F7} Image"
  const FileLabel: string := "\U{1F4CE} File"

  /** The content of a media message: an image label iff the MIME type starts with `image/`. */
  function MediaLabel(mimeType: string): (caption: string)
    ensures caption == ImageLabel <==> StartsWith(mimeType, "image/")
    ensures caption == FileLabel <==> !StartsWith(mimeType, "image/")
  {
    if StartsWith(mimeType, "image/") then ImageLabel else FileLabel
  }

  datatype Alignment = Right | Left

  /** A message sits on the right exactly when the viewer sent it. */
  function AlignmentOf(m: MessageRow, userId: string): (a: Alignment)
    ensures a == Right <==> m.senderId == userId
  {
    if m.senderId == userId then Right else Left
  }

  datatype MediaView = NoMedia | InlineImage(src: string) | AttachmentLink(href: string)

  /** `/\.(jpg|jpeg|png|gif)$/i`: the URL ends in one of the four image extensions, in any case. */
  predicate HasImageExtension(url: string) {
    var l := Lower(url);
    EndsWith(l, ".jpg") || EndsWith(l, ".jpeg") || EndsWith(l, ".png") || EndsWith(l, ".gif")
  }

  /** How a message's media renders: nothing without a URL, an image for image extensions, else a link. */
  function MediaOf(m: MessageRow): (v: MediaView)
    ensures !Truthy(m.mediaUrl) <==> v == NoMedia
    ensures v.InlineImage? <==> Truthy(m.mediaUrl) && HasImageExtension(m.mediaUrl.value)
    ensures v != NoMedia ==> (v.InlineImage? && v.src == m.mediaUrl.value) || (v.AttachmentLink? && v.href == m.mediaUrl.value)
  {
    if !Truthy(m.mediaUrl) then NoMedia
    else if HasImageExtension(m.mediaUrl.value) then InlineImage(m.mediaUrl.value)
    else AttachmentLink(m.mediaUrl.value)
  }

  /** The extension test ignores case: a URL and its lower-cased form render alike. */
  lemma ImageExtensionIgnoresCase(url: string)
    ensures HasImageExtension(url) <==> HasImageExtension(Lower(url))
  {
    LowerIdempotent(url);
  }

  /** The file picked for upload: its name and MIME type. */
  datatype PickedFile = PickedFile(name: string, mimeType: string)

  /** An upload in flight: where the file goes and what it is. */
  datatype PendingUpload = PendingUpload(path: string, file: PickedFile)

  class ChatWindow {
    const alertId: string
    const userId: string
    var messages: seq<MessageRow>
    var newMessage: string
    var isUploading: bool
    var pending: Option<PendingUpload>
    var requests: seq<Remote.Request>

    /** An upload is in flight exactly while the window says it is uploading. */
    predicate Valid()
      reads this
    {
      isUploading <==> pending.Some?
    }

    /** Mounting subscribes to the alert's inserts and fetches the thread. */
    constructor (alertId: string, userId: string)
      ensures Valid()
      ensures this.alertId == alertId && this.userId == userId
      ensures messages == [] && newMessage == "" && !isUploading && pending.None?
      ensures requests == [Remote.SelectMessages(alertId)]
    {
      this.alertId, this.userId := alertId, userId;
      messages, newMessage, isUploading, pending := [], "", false, None;
      requests := [Remote.SelectMessages(alertId)];
    }

    /** An INSERT pushed for this alert: the row goes at the end. */
    method OnInsertPush(row: MessageRow)
      requires Valid()
      modifies this
      ensures Valid()
      ensures messages == old(messages) + [row]
      ensures newMessage == old(newMessage) && isUploading == old(isUploading)
      ensures pending == old(pending) && requests == old(requests)
    {
      messages := messages + [row];
    }

    /** `fetchMessages` answered: `table` is what the query ran on, None when it returned no data. */
    method FetchDone(table: Option<seq<MessageRow>>)
      requires Valid()
      modifies this
      ensures Valid()
      ensures table.None? ==> messages == old(messages)
      ensures table.Some? ==> messages == ThreadOf(table.value, alertId)
      ensures newMessage == old(newMessage) && isUploading == old(isUploading)
      ensures pending == old(pending) && requests == old(requests)
    {
      if table.Some? {
        messages := ThreadOf(table.value, alertId);
      }
    }

    method SetNewMessage(text: string)
      requires Valid() && !isUploading
      modifies this
      ensures Valid()
      ensures newMessage == text
      ensures messages == old(messages) && isUploading == old(isUploading)
      ensures pending == old(pending) && requests == old(requests)
    {
      newMessage := text;
    }

    /**
     * `sendMessage` (the send button and Enter; both disabled while uploading): blank text is
     * ignored; otherwise a row is inserted and the box is cleared only when the insert
     * reports no error. The local thread is left to the insert push.
     */
    method SendMessage(insertFails: bool)
      requires Valid() && !isUploading
      modifies this
      ensures Valid()
      ensures messages == old(messages) && isUploading == old(isUploading) && pending == old(pending)
      ensures IsBlank(old(newMessage)) ==> requests == old(requests) && newMessage == old(newMessage)
      ensures !IsBlank(old(newMessage)) ==>
        && requests == old(requests) + [Remote.InsertMessage(Remote.NewMessage(alertId, userId, old(newMessage), None))]
        && newMessage == (if insertFails then old(newMessage) else "")
    {
      if IsBlank(newMessage) {
        return;
      }
      requests := requests + [Remote.InsertMessage(Remote.NewMessage(alertId, userId, newMessage, None))];
      if !insertFails {
        newMessage := "";
      }
    }

    /** `handleFileUpload` up to the upload call: no file, no change; otherwise uploading starts. */
    method StartUpload(file: Option<PickedFile>, random: string)
      requires Valid() && !isUploading
      modifies this
      ensures Valid()
      ensures messages == old(messages) && newMessage == old(newMessage)
      ensures file.None? ==> isUploading == old(isUploading) && pending == old(pending) && requests == old(requests)
      ensures file.Some? ==>
        var path := UploadPath(alertId, random, file.value.name);
        && isUploading && pending == Some(PendingUpload(path, file.value))
        && requests == old(requests) + [Remote.UploadMedia(path)]
    {
      if file.None? {
        return;
      }
      var path := UploadPath(alertId, random, file.value.name);
      isUploading, pending, requests := true, Some(PendingUpload(path, file.value)), requests + [Remote.UploadMedia(path)];
    }

    /**
     * The rest of `handleFileUpload`: a media message is inserted only when the upload
     * succeeded, and uploading ends on every path.
     */
    method FinishUpload(uploadFails: bool, publicUrl: string)
      requires Valid() && isUploading
      modifies this
      ensures Valid()
      ensures !isUploading && pending.None?
      ensures messages == old(messages) && newMessage == old(newMessage)
      ensures uploadFails ==> requests == old(requests)
      ensures !uploadFails ==>
        requests == old(requests) + [Remote.InsertMessage(Remote.NewMessage(alertId, userId, MediaLabel(old(pending).value.file.mimeType), Some(publicUrl)))]
    {
      if !uploadFails {
        var caption := MediaLabel(pending.value.file.mimeType);
        requests := requests + [Remote.InsertMessage(Remote.NewMessage(alertId, userId, caption, Some(publicUrl)))];
      }
      isUploading := false;
      pending := None;
    }
  }
}
