/**
 * The rules of src/components/UploadForm.js: extension-based type classification, the per-type
 * size limit, the records a file or link upload adds to `uploads`, and the link-preview state.
 * Storage and store calls are modelled by their effects, recorded in the form's `storedFiles`
 * and `records`; the first call of a handler that throws is given by `failAt` (calls numbered
 * from 0 in the order made). Server timestamps are not modelled.
 */
module UploadForm {
  import opened Common
  import UrlPreview

  datatype FileKind = Audio | Link | Video | Image | Document | Other

  /** The `FILE_TYPES` keys, in object order: the order `getFileType` tries them. */
  const FileTypeOrder: seq<FileKind> := [Audio, Link, Video, Image, Document, Other]

  /** Where a kind sits in `FileTypeOrder`. */
  function Position(k: FileKind): (i: nat)
    ensures i < |FileTypeOrder| && FileTypeOrder[i] == k
  {
    match k
    case Audio => 0
    case Link => 1
    case Video => 2
    case Image => 3
    case Document => 4
    case Other => 5
  }

  /** The stored `type` string. */
  function KindName(k: FileKind): string
  {
    match k
    case Audio => "audio"
    case Link => "link"
    case Video => "video"
    case Image => "image"
    case Document => "document"
    case Other => "other"
  }

  /** `FILE_TYPES[k].extensions`; `link` and `other` have none. */
  function Extensions(k: FileKind): Option<seq<string>>
  {
    match k
    case Audio => Some([".mp3", ".wav", ".m4a", ".flac", ".aac"])
    case Link => None
    case Video => Some([".mp4", ".mov", ".avi"])
    case Image => Some([".jpg", ".jpeg", ".png", ".gif"])
    case Document => Some([".pdf", ".doc", ".docx", ".txt"])
    case Other => None
  }

  const MiB: int := 1024 * 1024

  /** `FILE_TYPES[k].maxSize`; `link` has none. */
  function MaxSize(k: FileKind): Option<int>
  {
    match k
    case Audio => Some(20 * MiB)
    case Link => None
    case _ => Some(10 * MiB)
  }

  /** `config.extensions?.includes(ext)`. */
  predicate Listed(k: FileKind, ext: string)
  {
    Extensions(k).Some? && ext in Extensions(k).value
  }

  /** `fileName.toLowerCase().substring(fileName.lastIndexOf('.'))`; -1 clamps to 0. */
  function Extension(fileName: string): string
  {
    var i := LastIndexOf(fileName, '.');
    Lower(fileName)[if i < 0 then 0 else i..]
  }

  /** The first kind of `kinds` listing `ext`, `Other` when none does. */
  function FirstListed(ext: string, kinds: seq<FileKind>): FileKind
  {
    if kinds == [] then Other
    else if Listed(kinds[0], ext) then kinds[0]
    else FirstListed(ext, kinds[1..])
  }

  /** The type `getFileType(fileName)` gives. */
  function FileTypeOf(fileName: string): FileKind
  {
    FirstListed(Extension(fileName), FileTypeOrder)
  }

  /** `getFileType`: the loop over `FILE_TYPES` with its early return. */
  method GetFileType(fileName: string) returns (k: FileKind)
    ensures k == FileTypeOf(fileName)
  {
    var ext := Extension(fileName);
    var i := 0;
    while i < |FileTypeOrder|
      invariant 0 <= i <= |FileTypeOrder|
      invariant FirstListed(ext, FileTypeOrder[i..]) == FirstListed(ext, FileTypeOrder)
    {
      assert FileTypeOrder[i..][1..] == FileTypeOrder[i + 1..];
      if Listed(FileTypeOrder[i], ext) {
        return FileTypeOrder[i];
      }
      i := i + 1;
    }
    return Other;
  }

  lemma {:induction false} FirstListedSpec(ext: string, kinds: seq<FileKind>, start: nat)
    requires start <= |FileTypeOrder| && kinds == FileTypeOrder[start..]
    ensures var k := FirstListed(ext, kinds);
      && (k == Other || (Listed(k, ext) && start <= Position(k)))
      && forall j :: start <= j < |FileTypeOrder| && j < Position(k) ==> !Listed(FileTypeOrder[j], ext)
    decreases |FileTypeOrder| - start
  {
    if kinds != [] {
      assert kinds[0] == FileTypeOrder[start];
      assert kinds[1..] == FileTypeOrder[start + 1..];
      if !Listed(kinds[0], ext) {
        FirstListedSpec(ext, kinds[1..], start + 1);
      }
    }
  }

  /**
   * The kind found is listed for the extension (or is `Other`), and no kind before it in
   * `FILE_TYPES` order lists it; so `Other` means no kind lists it at all.
   */
  lemma FileTypeIsFirstMatch(fileName: string)
    ensures var k := FileTypeOf(fileName);
      && (k == Other || Listed(k, Extension(fileName)))
      && forall j :: 0 <= j < Position(k) ==> !Listed(FileTypeOrder[j], Extension(fileName))
  {
    FirstListedSpec(Extension(fileName), FileTypeOrder, 0);
  }

  /** `link` has no extension list, so it is never the classification of a file. */
  lemma FileTypeNeverLink(fileName: string)
    ensures FileTypeOf(fileName) != Link
  {
    FileTypeIsFirstMatch(fileName);
  }

  /** A name without '.' is `other`: every listed extension starts with '.'. */
  lemma NoDotIsOther(fileName: string)
    requires forall i :: 0 <= i < |fileName| ==> fileName[i] != '.'
    ensures FileTypeOf(fileName) == Other
  {
    var ext := Extension(fileName);
    assert ext == Lower(fileName);
    assert ext == [] || ext[0] != '.';
    FileTypeIsFirstMatch(fileName);
    var k := FileTypeOf(fileName);
    if k != Other {
      ListedStartsWithDot(k, ext);
    }
  }

  lemma ListedStartsWithDot(k: FileKind, ext: string)
    requires Listed(k, ext)
    ensures ext != [] && ext[0] == '.'
  {
  }

  /** The classification ignores ASCII case and looks only after the last '.'. */
  lemma FileTypeExample()
    ensures FileTypeOf("a.b.MP3") == Audio
  {
    assert LastIndexOf("a.b.MP3", '.') == 3;
    assert Lower("a.b.MP3")[3..] == ".mp3";
  }

  /** Audio may be 20 MiB, every other file kind 10 MiB. */
  lemma SizeLimits(k: FileKind)
    ensures k == Audio ==> MaxSize(k) == Some(20 * 1024 * 1024)
    ensures k != Audio && k != Link ==> MaxSize(k) == Some(10 * 1024 * 1024)
    ensures k == Link <==> MaxSize(k).None?
  {
  }

  // ---------------------------------------------------------------------------------------
  // Records and outcomes

  /** `{ '👍': 0, '🔥': 0, '❤️': 0, '🎵': 0, '💩': 0 }`. */
  const ZeroReactions: Counters := map[ThumbsUp := 0, Fire := 0, Heart := 0, Note := 0, Poo := 0]

  /** Every one of the five counters is present and 0. */
  predicate AllZero(c: Counters)
  {
    forall e: Emoji :: e in c && c[e] == 0
  }

  lemma ZeroReactionsAllZero()
    ensures AllZero(ZeroReactions)
  {
    forall e: Emoji
      ensures e in ZeroReactions && ZeroReactions[e] == 0
    {
      match e
      case ThumbsUp =>
      case Fire =>
      case Heart =>
      case Note =>
      case Poo =>
    }
  }

  datatype Content =
    | FileContent(fileName: string, fileUrl: string, fileSize: int)
    | LinkContent(linkUrl: string, linkTitle: string, details: Option<LinkDetails>)

  /** The preview fields a link record copies besides the title. */
  datatype LinkDetails = LinkDetails(description: string, image: string, domain: string,
                                     linkType: string)

  /** A document added to `uploads` (its server timestamp left out). */
  datatype NewUpload = NewUpload(userId: string, userName: string, kind: string,
                                 content: Content, reactions: Counters)

  /** The path `uploads/{uid}/{timestamp}_{name}` a file is stored under. */
  datatype StoragePath = StoragePath(uid: string, timestamp: int, fileName: string)

  datatype FileInfo = FileInfo(name: string, size: int)

  datatype Alert = FileTooLarge(maxMiB: int, kind: FileKind) | UploadFailed | InvalidUrl

  /** What `handleFileUpload` does: the blob it stores, the record it adds, the alert. */
  datatype FileOutcome = FileOutcome(blob: Option<StoragePath>, record: Option<NewUpload>,
                                     alert: Option<Alert>)

  predicate Succeeds(failAt: Option<nat>, k: nat)
  {
    failAt.None? || k < failAt.value
  }

  /** `size > maxSize`, as JavaScript compares against a missing limit (never). */
  predicate TooLarge(kind: FileKind, size: int)
  {
    MaxSize(kind).Some? && size > MaxSize(kind).value
  }

  /**
   * `handleFileUpload` for the chosen file at time `now`; `fileUrl` is the download URL the
   * store hands back. Calls: 0 upload, 1 download URL, 2 add the record.
   */
  function FileUpload(user: User, file: Option<FileInfo>, now: int, fileUrl: string,
                      failAt: Option<nat>): FileOutcome
  {
    if file.None? then FileOutcome(None, None, None)
    else
      var f := file.value;
      var kind := FileTypeOf(f.name);
      if TooLarge(kind, f.size) then
        FileOutcome(None, None, Some(FileTooLarge(MaxSize(kind).value / MiB, kind)))
      else
        var blob := if Succeeds(failAt, 0) then Some(StoragePath(user.uid, now, f.name)) else None;
        var record := if Succeeds(failAt, 2) then
          Some(NewUpload(user.uid, user.displayName, KindName(kind),
                         FileContent(f.name, fileUrl, f.size), ZeroReactions))
        else None;
        FileOutcome(blob, record, if Succeeds(failAt, 2) then None else Some(UploadFailed))
  }

  /**
   * Every file has a limit; a file up to it (exactly at it included) goes through, one over
   * it is refused with no store call at all.
   */
  lemma SizeBoundary(user: User, f: FileInfo, now: int, fileUrl: string)
    ensures MaxSize(FileTypeOf(f.name)).Some?
    ensures var max := MaxSize(FileTypeOf(f.name)).value;
      var o := FileUpload(user, Some(f), now, fileUrl, None);
      && (f.size <= max ==> o.blob.Some? && o.record.Some? && o.alert.None?)
      && (f.size > max ==> o.blob.None? && o.record.None? && o.alert.Some?)
  {
    FileTypeNeverLink(f.name);
  }

  /** The size alert names the limit in MiB: 20 for audio, 10 for the rest. */
  lemma TooLargeAlert(user: User, f: FileInfo, now: int, fileUrl: string, failAt: Option<nat>)
    requires TooLarge(FileTypeOf(f.name), f.size)
    ensures var o := FileUpload(user, Some(f), now, fileUrl, failAt);
      && o.blob.None? && o.record.None?
      && o.alert == Some(FileTooLarge(if FileTypeOf(f.name) == Audio then 20 else 10,
                                      FileTypeOf(f.name)))
  {
    FileTypeNeverLink(f.name);
  }

  /**
   * A file record carries the uploader, the classified type, the name, URL and size, and all
   * five counters at 0; it is only added after the file itself was stored.
   */
  lemma FileRecordShape(user: User, f: FileInfo, now: int, fileUrl: string, failAt: Option<nat>)
    requires FileUpload(user, Some(f), now, fileUrl, failAt).record.Some?
    ensures var o := FileUpload(user, Some(f), now, fileUrl, failAt);
      && o.blob == Some(StoragePath(user.uid, now, f.name))
      && o.record.value.userId == user.uid
      && o.record.value.kind == KindName(FileTypeOf(f.name))
      && o.record.value.kind != "link"
      && o.record.value.content == FileContent(f.name, fileUrl, f.size)
      && AllZero(o.record.value.reactions)
      && o.alert.None?
  {
    FileTypeNeverLink(f.name);
    ZeroReactionsAllZero();
  }

  /** A record write that throws after the upload leaves the stored file without a record. */
  lemma FailedRecordLeavesStoredFile(user: User, f: FileInfo, now: int, fileUrl: string, k: nat)
    requires !TooLarge(FileTypeOf(f.name), f.size) && 1 <= k <= 2
    ensures var o := FileUpload(user, Some(f), now, fileUrl, Some(k));
      o.blob.Some? && o.record.None? && o.alert == Some(UploadFailed)
  {
  }

  /** What `handleLinkUpload` does: the record it adds, the alert, whether it clears the preview. */
  datatype LinkOutcome = LinkOutcome(record: Option<NewUpload>, alert: Option<Alert>,
                                     clearsPreview: bool)

  /** The link record: preview fields copied when one is shown, else the URL's hostname. */
  function LinkRecord(user: User, linkUrl: string, preview: Option<UrlPreview.Preview>,
                      hostname: Option<string>): Option<NewUpload>
  {
    if preview.Some? then
      var p := preview.value;
      Some(NewUpload(user.uid, user.displayName, "link",
        LinkContent(linkUrl, p.title, Some(LinkDetails(p.description, p.image, p.domain, p.kind))),
        ZeroReactions))
    else if hostname.Some? then
      Some(NewUpload(user.uid, user.displayName, "link",
        LinkContent(linkUrl, hostname.value, None), ZeroReactions))
    else None   // `new URL(linkUrl)` throws
  }

  /**
   * `handleLinkUpload` with the preview currently shown; `hostname` is `new URL(linkUrl)`'s,
   * None when it throws, and `addOk` whether the record write goes through.
   */
  function LinkUpload(user: User, linkUrl: string, preview: Option<UrlPreview.Preview>,
                      hostname: Option<string>, addOk: bool): LinkOutcome
  {
    if linkUrl == "" then LinkOutcome(None, None, false)
    else
      var record := LinkRecord(user, linkUrl, preview, hostname);
      if record.Some? && addOk then LinkOutcome(record, None, true)
      else LinkOutcome(None, Some(InvalidUrl), false)
  }

  /** An empty link does nothing. */
  lemma EmptyLinkIsNoOp(user: User, preview: Option<UrlPreview.Preview>, hostname: Option<string>,
                        addOk: bool)
    ensures LinkUpload(user, "", preview, hostname, addOk) == LinkOutcome(None, None, false)
  {
  }

  /** With a preview shown, its title, description, image, domain and type are copied. */
  lemma LinkRecordFromPreview(user: User, linkUrl: string, p: UrlPreview.Preview,
                              hostname: Option<string>)
    requires linkUrl != ""
    ensures var o := LinkUpload(user, linkUrl, Some(p), hostname, true);
      && o.record.Some? && o.clearsPreview
      && o.record.value.userId == user.uid && o.record.value.kind == "link"
      && o.record.value.content ==
           LinkContent(linkUrl, p.title, Some(LinkDetails(p.description, p.image, p.domain, p.kind)))
      && AllZero(o.record.value.reactions)
  {
    ZeroReactionsAllZero();
  }

  /** Without a preview the title is the hostname; a URL that does not parse writes nothing. */
  lemma LinkRecordWithoutPreview(user: User, linkUrl: string, hostname: Option<string>,
                                 addOk: bool)
    requires linkUrl != ""
    ensures hostname.Some? && addOk ==>
      var o := LinkUpload(user, linkUrl, None, hostname, addOk);
      o.record.Some? && o.record.value.content == LinkContent(linkUrl, hostname.value, None)
      && AllZero(o.record.value.reactions)
    ensures hostname.None? ==>
      LinkUpload(user, linkUrl, None, hostname, addOk) == LinkOutcome(None, Some(InvalidUrl), false)
  {
    ZeroReactionsAllZero();
  }

  /** `url.length > 10 && url.includes('.')`: when the preview fetch is scheduled. */
  predicate PreviewTrigger(url: string)
  {
    Utf16Length(url) > 10 && Contains(url, ".")
  }

  lemma {:induction false} ContainsAt(s: string, i: nat, c: char)
    requires i < |s| && s[i] == c
    ensures Contains(s, [c])
  {
    if i > 0 {
      ContainsAt(s[1..], i - 1, c);
    }
  }

  /** Over ten characters with a '.' always schedules; a '.'-free or short input never does. */
  lemma PreviewTriggerBounds(url: string)
    ensures |url| > 10 && (exists i :: 0 <= i < |url| && url[i] == '.') ==> PreviewTrigger(url)
    ensures Utf16Length(url) <= 10 ==> !PreviewTrigger(url)
  {
    if |url| > 10 && exists i :: 0 <= i < |url| && url[i] == '.' {
      var i :| 0 <= i < |url| && url[i] == '.';
      ContainsAt(url, i, '.');
    }
  }

  // ---------------------------------------------------------------------------------------
  // The form

  function AsSeq<T>(o: Option<T>): seq<T>
  {
    if o.Some? then [o.value] else []
  }

  /** The form's state for a signed-in user, with the store effects it causes. */
  class Form {
    const user: User
    var uploading: bool
    var linkPreview: Option<UrlPreview.Preview>
    var fetchingPreview: bool
    var storedFiles: seq<StoragePath>
    var records: seq<NewUpload>
    var alerts: seq<Alert>

    constructor (user: User)
      ensures this.user == user && !uploading && linkPreview.None? && !fetchingPreview
      ensures storedFiles == [] && records == [] && alerts == []
    {
      this.user := user;
      uploading := false;
      linkPreview := None;
      fetchingPreview := false;
      storedFiles := [];
      records := [];
      alerts := [];
    }

    /** `handleFileUpload`, step by step. */
    method HandleFileUpload(file: Option<FileInfo>, now: int, fileUrl: string,
                            failAt: Option<nat>)
      modifies this
      ensures var o := FileUpload(user, file, now, fileUrl, failAt);
        && storedFiles == old(storedFiles) + AsSeq(o.blob)
        && records == old(records) + AsSeq(o.record)
        && alerts == old(alerts) + AsSeq(o.alert)
      ensures file.None? || TooLarge(FileTypeOf(file.value.name), file.value.size) ==>
        uploading == old(uploading)
      ensures file.Some? && !TooLarge(FileTypeOf(file.value.name), file.value.size) ==> !uploading
      ensures linkPreview == old(linkPreview) && fetchingPreview == old(fetchingPreview)
    {
      if file.None? {
        return;
      }
      var f := file.value;
      var kind := GetFileType(f.name);
      var maxSize := MaxSize(kind);
      if maxSize.Some? && f.size > maxSize.value {
        alerts := alerts + [FileTooLarge(maxSize.value / MiB, kind)];
        return;
      }
      uploading := true;
      if !Succeeds(failAt, 0) {
        alerts := alerts + [UploadFailed];
        uploading := false;
        return;
      }
      storedFiles := storedFiles + [StoragePath(user.uid, now, f.name)];
      if !Succeeds(failAt, 1) || !Succeeds(failAt, 2) {
        alerts := alerts + [UploadFailed];
        uploading := false;
        return;
      }
      records := records + [NewUpload(user.uid, user.displayName, KindName(kind),
                                      FileContent(f.name, fileUrl, f.size), ZeroReactions)];
      uploading := false;
    }

    /** `handleLinkInputChange`: returns whether the (debounced) preview fetch is scheduled. */
    method HandleLinkInputChange(url: string) returns (scheduled: bool)
      modifies this
      ensures scheduled == PreviewTrigger(url)
      ensures linkPreview == (if scheduled then old(linkPreview) else None)
      ensures uploading == old(uploading) && fetchingPreview == old(fetchingPreview)
      ensures storedFiles == old(storedFiles) && records == old(records) && alerts == old(alerts)
    {
      scheduled := Utf16Length(url) > 10 && Contains(url, ".");
      if !scheduled {
        linkPreview := None;
      }
    }

    /**
     * `handleLinkPreview(url)`, with the fetch's `hostname` and `page` as
     * `UrlPreview.FetchUrlPreview` takes them.
     */
    method HandleLinkPreview(url: string, hostname: Option<string>,
                             page: Option<UrlPreview.Page>)
      modifies this
      ensures linkPreview == (if url == "" then None
                              else UrlPreview.FetchUrlPreview(url, hostname, page))
      ensures fetchingPreview == (if url == "" then old(fetchingPreview) else false)
      ensures uploading == old(uploading)
      ensures storedFiles == old(storedFiles) && records == old(records) && alerts == old(alerts)
    {
      if url == "" {
        linkPreview := None;
        return;
      }
      fetchingPreview := true;
      linkPreview := UrlPreview.FetchUrlPreview(url, hostname, page);
      fetchingPreview := false;
    }

    /** `handleLinkUpload`, step by step, with the preview currently shown. */
    method HandleLinkUpload(linkUrl: string, hostname: Option<string>, addOk: bool)
      modifies this
      ensures var o := LinkUpload(user, linkUrl, old(linkPreview), hostname, addOk);
        && records == old(records) + AsSeq(o.record)
        && alerts == old(alerts) + AsSeq(o.alert)
        && linkPreview == (if o.clearsPreview then None else old(linkPreview))
      ensures uploading == (if linkUrl == "" then old(uploading) else false)
      ensures storedFiles == old(storedFiles) && fetchingPreview == old(fetchingPreview)
    {
      if linkUrl == "" {
        return;
      }
      uploading := true;
      var content: Content;
      if linkPreview.Some? {
        var p := linkPreview.value;
        content := LinkContent(linkUrl, p.title,
                               Some(LinkDetails(p.description, p.image, p.domain, p.kind)));
      } else if hostname.Some? {
        content := LinkContent(linkUrl, hostname.value, None);
      } else {
        alerts := alerts + [InvalidUrl];
        uploading := false;
        return;
      }
      if !addOk {
        alerts := alerts + [InvalidUrl];
        uploading := false;
        return;
      }
      records := records + [NewUpload(user.uid, user.displayName, "link", content, ZeroReactions)];
      linkPreview := None;
      uploading := false;
    }
  }
}
