/** The file-list helpers of components/chat/FileUploadZone.tsx. */
module FileUploadZone {

  import opened Text
  import opened AiService

  /** The `maxSize` default, 10 MiB in bytes. */
  const DefaultMaxSize: nat := 10 * 1024 * 1024

  /** `onDrop(accepted)`: the accepted files go after the current ones. */
  function OnDrop(files: seq<File>, accepted: seq<File>): (r: seq<File>)
    ensures |r| == |files| + |accepted|
    ensures r[..|files|] == files && r[|files|..] == accepted
  {
    files + accepted
  }

  /** `files.filter((_, i) => i !== index)`; the index may be any number. */
  function RemoveAt<T>(files: seq<T>, index: int): (r: seq<T>)
    ensures 0 <= index < |files| ==> r == files[..index] + files[index + 1..]
    ensures !(0 <= index < |files|) ==> r == files
    decreases |files|
  {
    if |files| == 0 then []
    else
      var rest := RemoveAt(files[1..], index - 1);
      if index == 0 then rest else [files[0]] + rest
  }

  /** Removing an index takes exactly that one file out of the list. */
  lemma RemoveAtTakesOneOut<T>(files: seq<T>, index: int)
    requires 0 <= index < |files|
    ensures multiset(RemoveAt(files, index)) + multiset{files[index]} == multiset(files)
  {
    SliceAround(files, index);
  }

  lemma SliceAround<T>(files: seq<T>, index: int)
    requires 0 <= index < |files|
    ensures multiset(files[..index] + files[index + 1..]) + multiset{files[index]} == multiset(files)
  {
    assert files == files[..index] + [files[index]] + files[index + 1..];
  }

  /** Dropping files and then removing one of the dropped ones leaves the
      earlier files in place. */
  lemma DropThenRemoveKeepsEarlier(files: seq<File>, accepted: seq<File>, j: int)
    requires 0 <= j < |accepted|
    ensures RemoveAt(OnDrop(files, accepted), |files| + j)[..|files|] == files
  {
  }

  /** The icon `getFileIcon` picks, the prefixes checked in this order. */
  datatype Icon = ImageIcon | MusicIcon | FilmIcon | DocumentIcon

  function FileIcon(mimeType: string): (r: Icon)
    ensures r == ImageIcon <==> StartsWith(mimeType, "image/")
    ensures r == MusicIcon <==> StartsWith(mimeType, "audio/") && !StartsWith(mimeType, "image/")
    ensures r == FilmIcon <==>
      StartsWith(mimeType, "video/") && !StartsWith(mimeType, "image/") && !StartsWith(mimeType, "audio/")
  {
    if StartsWith(mimeType, "image/") then ImageIcon
    else if StartsWith(mimeType, "audio/") then MusicIcon
    else if StartsWith(mimeType, "video/") then FilmIcon
    else DocumentIcon
  }

  /** The three prefixes exclude one another, so the order of the tests
      does not matter: each prefix alone decides its icon. */
  lemma FileIconByPrefix(mimeType: string)
    ensures StartsWith(mimeType, "audio/") ==> FileIcon(mimeType) == MusicIcon
    ensures StartsWith(mimeType, "video/") ==> FileIcon(mimeType) == FilmIcon
    ensures FileIcon(mimeType) == DocumentIcon <==>
      !StartsWith(mimeType, "image/") && !StartsWith(mimeType, "audio/") && !StartsWith(mimeType, "video/")
  {
    if StartsWith(mimeType, "audio/") {
      assert mimeType[0] == 'a';
    }
    if StartsWith(mimeType, "video/") {
      assert mimeType[0] == 'v';
    }
  }

  /** `formatFileSize(bytes)`. Zero is written out as "0 Bytes"; any other
      size goes through a logarithm and floating-point rounding, which are
      the parameter `scaled`. */
  function FormatFileSize(bytes: nat, scaled: nat -> string): (r: string)
    ensures bytes == 0 ==> r == "0 Bytes"
    ensures bytes > 0 ==> r == scaled(bytes)
  {
    if bytes == 0 then "0 Bytes" else scaled(bytes)
  }
}
