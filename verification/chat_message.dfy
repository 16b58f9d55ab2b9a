/** The attachment handling and content test of
    components/chat/ChatMessage.tsx: where the displayed name and type come
    from, how a stored data URL is parsed, which preview a type gets, the
    lifetime of the object URLs the component creates, and the test that
    decides whether content is rendered as HTML. */
module ChatMessage {

  import opened Wrappers
  import opened Text
  import opened AiService

  /** The two pieces of a data URL the component reads. */
  datatype DataUrlParts = DataUrlParts(mimeType: string, payload: string)

  const NoPayload := "the data URL has no comma, so atob receives undefined"
  const NoColon := "the data URL header has no colon, so its MIME part is undefined"

  /** `data.split(',')[1]` is decoded and
      `data.split(',')[0].split(':')[1].split(';')[0]` is the blob's type;
      a missing piece makes the effect throw. Decoding the base64 payload
      itself is not modelled. */
  function ParseDataUrl(data: string): (r: Result<DataUrlParts>)
    ensures ',' !in data ==> r == Err(NoPayload)
    ensures r.Ok? ==> ',' in data && ':' in data
    ensures r.Ok? ==> ',' !in r.value.payload && ';' !in r.value.mimeType && ',' !in r.value.mimeType
  {
    var commaParts := Split(data, ',');
    SplitPieces(data, ',');
    if |commaParts| < 2 then Err(NoPayload)
    else
      var header := commaParts[0];
      var colonParts := Split(header, ':');
      SplitPieces(header, ':');
      if |colonParts| < 2 then Err(NoColon)
      else
        assert ':' in data by {
          assert data == Join(commaParts, ',');
          JoinHeadIn(commaParts, ',', ':');
        }
        assert ',' !in colonParts[1] by { JoinPieceIn(colonParts, ':', 1, ','); }
        var mime := Split(colonParts[1], ';')[0];
        assert ',' !in mime by { JoinPieceIn(Split(colonParts[1], ';'), ';', 0, ','); }
        Ok(DataUrlParts(mime, commaParts[1]))
  }

  /** A character of a piece is a character of the joined string. */
  lemma {:induction false} JoinPieceIn(parts: seq<string>, sep: char, i: nat, c: char)
    requires |parts| >= 1 && i < |parts|
    ensures c in parts[i] ==> c in Join(parts, sep)
    decreases i
  {
    if c in parts[i] && |parts| > 1 {
      if i > 0 {
        JoinPieceIn(parts[1..], sep, i - 1, c);
        assert parts[1..][i - 1] == parts[i];
      }
    }
  }

  lemma JoinHeadIn(parts: seq<string>, sep: char, c: char)
    requires |parts| >= 1
    ensures c in parts[0] ==> c in Join(parts, sep)
  {
    JoinPieceIn(parts, sep, 0, c);
  }

  /** The data URLs the chat writes, `data:<type>;base64,<payload>`, parse
      back to their type and payload. */
  lemma DataUrlRoundTrip(m: string, p: string)
    requires ',' !in m && ':' !in m && ';' !in m
    requires ',' !in p
    ensures ParseDataUrl("data:" + m + ";base64," + p) == Ok(DataUrlParts(m, p))
  {
    var header := "data:" + m + ";base64";
    var s := "data:" + m + ";base64," + p;
    assert ',' !in header by {
      assert forall i :: 0 <= i < |header| ==> header[i] != ',' by {
        forall i | 0 <= i < |header| ensures header[i] != ',' {
          if 5 <= i < 5 + |m| { assert header[i] == m[i - 5]; }
        }
      }
    }
    assert Join([header, p], ',') == s;
    SplitJoin([header, p], ',');
    var tail := m + ";base64";
    assert ':' !in tail by {
      forall i | 0 <= i < |tail| ensures tail[i] != ':' {
        if i < |m| { assert tail[i] == m[i]; }
      }
    }
    assert Join(["data", tail], ':') == header;
    SplitJoin(["data", tail], ':');
    assert Join([m, "base64"], ';') == tail;
    SplitJoin([m, "base64"], ';');
  }

  /** Which preview an attachment gets, the prefixes checked in order. */
  datatype Kind = AudioKind | ImageKind | PdfKind | GenericKind

  const PdfType := "application/pdf"

  function KindOf(mimeType: string): (k: Kind)
    ensures k == AudioKind <==> StartsWith(mimeType, "audio/")
    ensures k == ImageKind <==> StartsWith(mimeType, "image/") && !StartsWith(mimeType, "audio/")
    ensures k == PdfKind <==>
      mimeType == PdfType && !StartsWith(mimeType, "audio/") && !StartsWith(mimeType, "image/")
  {
    if StartsWith(mimeType, "audio/") then AudioKind
    else if StartsWith(mimeType, "image/") then ImageKind
    else if mimeType == PdfType then PdfKind
    else GenericKind
  }

  /** The tests cannot overlap: PDF is exactly `application/pdf`, and image
      is exactly the `image/` prefix. */
  lemma KindsDisjoint(mimeType: string)
    ensures KindOf(mimeType) == PdfKind <==> mimeType == PdfType
    ensures KindOf(mimeType) == ImageKind <==> StartsWith(mimeType, "image/")
  {
    if StartsWith(mimeType, "image/") {
      assert mimeType[0] == 'i';
    }
    if mimeType == PdfType {
      assert mimeType[0] == 'a' && mimeType[1] == 'p';
    }
  }

  /** The blobs object URLs point at. */
  datatype Blob = FileBlob(file: File) | DataBlob(mimeType: string, payload: string)

  /** The browser's table of live object URLs; `next` is a URL never handed
      out before. */
  datatype Registry = Registry(live: map<nat, Blob>, next: nat)

  predicate Fresh(reg: Registry) {
    forall u :: u in reg.live ==> u < reg.next
  }

  /** `fileURL`, `fileName`, `fileType`. */
  datatype Display = Display(url: Option<nat>, name: string, mimeType: string)

  const NoDisplay := Display(None, "", "")

  /** One run of the effect: the display it sets, the registry after it, and
      the URL its cleanup revokes. */
  datatype EffectRun = EffectRun(display: Display, registry: Registry, cleanup: Option<nat>)

  /** `URL.createObjectURL(b)`: a URL not handed out before, now live and
      pointing at `b`; the other live URLs are kept. */
  function CreateUrl(reg: Registry, b: Blob): (r: (nat, Registry))
    requires Fresh(reg)
    ensures r.0 !in reg.live && Fresh(r.1)
    ensures r.1.live.Keys == reg.live.Keys + {r.0} && r.1.live[r.0] == b
    ensures forall u :: u in reg.live ==> r.1.live[u] == reg.live[u]
  {
    (reg.next, Registry(reg.live[reg.next := b], reg.next + 1))
  }

  /** The effect on `message.file`. */
  function RunEffect(file: Option<Attachment>, display: Display, reg: Registry): (r: Result<EffectRun>)
    requires Fresh(reg)
    ensures r.Ok? ==> Fresh(r.value.registry)
    ensures file.None? ==> r == Ok(EffectRun(display, reg, None))
    ensures file.Some? && file.value.LiveFile? ==>
      && r.Ok?
      && r.value.display.name == file.value.file.name
      && r.value.display.mimeType == file.value.file.mimeType
      && r.value.display.url == r.value.cleanup == Some(reg.next)
      && r.value.registry.live == reg.live[reg.next := FileBlob(file.value.file)]
    ensures file.Some? && file.value.Stored? ==>
      var fd := file.value.stored;
      && (r.Ok? <==> ParseDataUrl(fd.data).Ok?)
      && (r.Ok? ==>
            && r.value.display.name == fd.name
            && r.value.display.mimeType == fd.mimeType
            && r.value.display.url == r.value.cleanup == Some(reg.next)
            && r.value.registry.live == reg.live[reg.next := DataBlob(
                 ParseDataUrl(fd.data).value.mimeType, ParseDataUrl(fd.data).value.payload)])
  {
    match file
    case None => Ok(EffectRun(display, reg, None))
    case Some(LiveFile(f)) =>
      var (url, reg') := CreateUrl(reg, FileBlob(f));
      Ok(EffectRun(Display(Some(url), f.name, f.mimeType), reg', Some(url)))
    case Some(Stored(fd)) =>
      match ParseDataUrl(fd.data)
      case Err(e) => Err(e)
      case Ok(parts) =>
        var (url, reg') := CreateUrl(reg, DataBlob(parts.mimeType, parts.payload));
        Ok(EffectRun(Display(Some(url), fd.name, fd.mimeType), reg', Some(url)))
  }

  /** `URL.revokeObjectURL` in the cleanup, if the run set one up. */
  function Cleanup(reg: Registry, cleanup: Option<nat>): (r: Registry)
    ensures cleanup.Some? ==> cleanup.value !in r.live
    ensures cleanup.Some? ==> r.live.Keys == reg.live.Keys - {cleanup.value}
    ensures cleanup.None? ==> r == reg
    ensures forall u :: u in r.live ==> u in reg.live && r.live[u] == reg.live[u]
    ensures r.next == reg.next
  {
    if cleanup.Some? then reg.(live := reg.live - {cleanup.value}) else reg
  }

  /** Every object URL an effect run creates is revoked by that run's
      cleanup: the live URLs return to what they were before the run. */
  lemma CleanupRevokesCreatedUrl(file: Option<Attachment>, display: Display, reg: Registry)
    requires Fresh(reg)
    requires RunEffect(file, display, reg).Ok?
    ensures var run := RunEffect(file, display, reg).value;
      Cleanup(run.registry, run.cleanup).live == reg.live
  {
    var run := RunEffect(file, display, reg).value;
    if run.cleanup.Some? {
      assert reg.next !in reg.live;
    }
  }

  /** What `renderFileAttachment` produces. */
  datatype AttachmentView =
    | AudioPlayer(url: nat, name: string, mimeType: string)
    | ImagePreview(url: nat, name: string)
    | PdfLink(url: nat, name: string)
    | DownloadLink(url: nat, name: string, caption: string)

  function ViewKind(v: AttachmentView): Kind {
    match v
    case AudioPlayer(_, _, _) => AudioKind
    case ImagePreview(_, _) => ImageKind
    case PdfLink(_, _) => PdfKind
    case DownloadLink(_, _, _) => GenericKind
  }

  /** `message.file && renderFileAttachment()`: nothing without an
      attachment or before an object URL exists. */
  function RenderAttachment(file: Option<Attachment>, d: Display): (r: Option<AttachmentView>)
    ensures r.Some? <==> file.Some? && d.url.Some?
    ensures r.Some? ==> ViewKind(r.value) == KindOf(d.mimeType) && r.value.url == d.url.value
    ensures r.Some? && r.value.DownloadLink? ==>
      r.value.caption == (if d.mimeType == "" then "Unknown type" else d.mimeType)
  {
    if file.None? || d.url.None? then None
    else
      var url := d.url.value;
      Some(match KindOf(d.mimeType)
        case AudioKind => AudioPlayer(url, d.name, d.mimeType)
        case ImageKind => ImagePreview(url, d.name)
        case PdfKind => PdfLink(url, d.name)
        case GenericKind => DownloadLink(url, d.name, if d.mimeType != "" then d.mimeType else "Unknown type"))
  }

  /** The preview a message shows once its effect has run: a live file is
      shown under its own name and type, a stored one under the stored name
      and type. */
  lemma PreviewFollowsAttachment(a: Attachment, reg: Registry)
    requires Fresh(reg)
    requires RunEffect(Some(a), NoDisplay, reg).Ok?
    ensures var v := RenderAttachment(Some(a), RunEffect(Some(a), NoDisplay, reg).value.display);
      && v.Some?
      && ViewKind(v.value) == KindOf(if a.LiveFile? then a.file.mimeType else a.stored.mimeType)
  {
  }

  /** `/<[a-z][\s\S]*>/i`: a `<`, a letter, then a `>` somewhere later. */
  ghost predicate ContainsTag(s: string) {
    exists i, j :: 0 <= i && i + 1 < j < |s| && s[i] == '<' && IsAsciiLetter(s[i + 1]) && s[j] == '>'
  }

  /** An opening `<letter` starts at `i`. */
  predicate OpensTag(s: string, i: int) {
    0 <= i && i + 1 < |s| && s[i] == '<' && IsAsciiLetter(s[i + 1])
  }

  /** The HTML test in one left-to-right pass: remember whether a `<letter`
      has been seen and accept at the first `>` after it. */
  method HasHtml(s: string) returns (found: bool)
    ensures found <==> ContainsTag(s)
  {
    var seenOpen := false;
    var k := 0;
    while k < |s|
      invariant 0 <= k <= |s|
      invariant seenOpen <==> exists i :: 0 <= i < k && OpensTag(s, i)
      invariant !exists i, j :: 0 <= i && i + 1 < j < k && OpensTag(s, i) && s[j] == '>'
    {
      if seenOpen && s[k] == '>' {
        var i :| 0 <= i < k && OpensTag(s, i);
        assert i + 1 < k by { assert s[i + 1] != '>'; }
        assert s[i] == '<' && IsAsciiLetter(s[i + 1]) && s[k] == '>';
        return true;
      }
      if OpensTag(s, k) {
        seenOpen := true;
      }
      k := k + 1;
    }
    assert !ContainsTag(s) by {
      if ContainsTag(s) {
        var i, j :| 0 <= i && i + 1 < j < |s| && s[i] == '<' && IsAsciiLetter(s[i + 1]) && s[j] == '>';
        assert OpensTag(s, i);
      }
    }
    found := false;
  }
}
