/** The object-storage helpers of lib/supabase/storage.ts: the object path an
    upload is stored under, the public URL it is served from, and the path a
    deletion recovers from such a URL. The storage service itself is replaced
    by the error (if any) each of its calls reports. */
module Storage {
  import opened Base
  import opened Text

  const BUCKET_NAME := "drape-images"
  /** The path prefix of every public object URL of the bucket. */
  const PUBLIC_MARKER := "/storage/v1/object/public/drape-images/"
  const INVALID_FILE_URL := "Invalid file URL"
  const UPLOAD_PREFIX := "Failed to upload file: "
  const DELETE_PREFIX := "Failed to delete file: "

  datatype ImageKind = Person | Cloth | ResultImage

  function KindName(k: ImageKind): string
  {
    match k
    case Person => "person"
    case Cloth => "cloth"
    case ResultImage => "result"
  }

  /** What is uploaded: a browser file with its name, or the URL of an image to fetch first. */
  datatype Source = FileSource(name: string) | UrlSource(url: string)

  /** `file instanceof File ? file.name.split('.').pop() : 'jpg'`. */
  function Extension(src: Source): (ext: string)
    ensures src.UrlSource? ==> ext == "jpg"
    ensures src.FileSource? ==> '.' !in ext && |ext| <= |src.name| && src.name[|src.name| - |ext|..] == ext
    ensures src.FileSource? && '.' !in src.name ==> ext == src.name
    ensures src.FileSource? && '.' in src.name ==> |ext| < |src.name| && src.name[|src.name| - |ext| - 1] == '.'
  {
    match src
    case UrlSource(_) => "jpg"
    case FileSource(name) =>
      assert '.' !in name ==> AfterLast(name, '.') == name by {
        if '.' !in name { AfterLastNoSep(name, '.'); }
      }
      AfterLast(name, '.')
  }

  /** `${userId}/${type}/${timestamp}-${randomId}.${extension}`. */
  function ObjectPath(userId: string, kind: ImageKind, timestamp: nat, randomId: string, ext: string): string
  {
    userId + "/" + KindName(kind) + "/" + NatToString(timestamp) + "-" + randomId + "." + ext
  }

  /** An object path starts with the owner's folder and the image kind, and
      ends with a dot and the extension. */
  lemma ObjectPathShape(userId: string, kind: ImageKind, timestamp: nat, randomId: string, ext: string)
    ensures userId + "/" + KindName(kind) + "/" <= ObjectPath(userId, kind, timestamp, randomId, ext)
    ensures var p := ObjectPath(userId, kind, timestamp, randomId, ext);
      |ext| < |p| && p[|p| - |ext| - 1..] == "." + ext
  {
  }

  /** `getPublicUrl(path)` for a project served from `origin`. */
  function PublicUrl(origin: string, path: string): string
  {
    origin + PUBLIC_MARKER + path
  }

  /** `uploadToSupabase(file, userId, type)`. `fetchError` is what fetching a
      URL source throws, if it does; `uploadError` is the error the storage
      service reports for the upload, if any. */
  function Upload(src: Source, userId: string, kind: ImageKind, timestamp: nat, randomId: string,
                  origin: string, fetchError: Option<string>, uploadError: Option<string>): (r: Result<string, string>)
    ensures src.UrlSource? && fetchError.Some? ==> r == Err(fetchError.value)
    ensures (src.FileSource? || fetchError.None?) && uploadError.Some? ==>
      r == Err(UPLOAD_PREFIX + uploadError.value)
    ensures (src.FileSource? || fetchError.None?) && uploadError.None? ==>
      r == Ok(origin + PUBLIC_MARKER + ObjectPath(userId, kind, timestamp, randomId, Extension(src)))
  {
    var path := ObjectPath(userId, kind, timestamp, randomId, Extension(src));
    if src.UrlSource? && fetchError.Some? then Err(fetchError.value)
    else if uploadError.Some? then Err(UPLOAD_PREFIX + uploadError.value)
    else Ok(PublicUrl(origin, path))
  }

  /** `pathname.split(marker)[1]`, or None where that piece is missing or empty:
      the text between the first occurrence of the marker and the next one. */
  function ExtractPath(pathname: string): (r: Option<string>)
    ensures !Includes(pathname, PUBLIC_MARKER) ==> r.None?
    ensures r.Some? ==> r.value != "" && !Includes(r.value, PUBLIC_MARKER)
    ensures r.Some? ==>
      exists i :: (0 <= i && i + |PUBLIC_MARKER| + |r.value| <= |pathname|
        && OccursAt(pathname, PUBLIC_MARKER, i)
        && pathname[i + |PUBLIC_MARKER|..i + |PUBLIC_MARKER| + |r.value|] == r.value)
  {
    match IndexOf(pathname, PUBLIC_MARKER)
    case None => None
    case Some(i) =>
      var rest := pathname[i + |PUBLIC_MARKER|..];
      var piece := BeforeFirst(rest, PUBLIC_MARKER);
      if piece == "" then None
      else
        assert Includes(piece, PUBLIC_MARKER) ==> false by {
          if Includes(piece, PUBLIC_MARKER) {
            var j := IndexOf(piece, PUBLIC_MARKER).value;
            assert rest[j..j + |PUBLIC_MARKER|] == piece[j..j + |PUBLIC_MARKER|];
            assert OccursAt(rest, PUBLIC_MARKER, j);
          }
        }
        assert pathname[i + |PUBLIC_MARKER|..i + |PUBLIC_MARKER| + |piece|] == piece;
        Some(piece)
  }

  /** `deleteFromSupabase(url)` on the URL's pathname: the object path removed,
      or the error thrown. No remove request is made for an invalid URL. */
  function Delete(pathname: string, removeError: Option<string>): (r: Result<string, string>)
    ensures ExtractPath(pathname).None? ==> r == Err(INVALID_FILE_URL)
    ensures ExtractPath(pathname).Some? && removeError.Some? ==> r == Err(DELETE_PREFIX + removeError.value)
    ensures ExtractPath(pathname).Some? && removeError.None? ==> r == Ok(ExtractPath(pathname).value)
  {
    match ExtractPath(pathname)
    case None => Err(INVALID_FILE_URL)
    case Some(path) => if removeError.Some? then Err(DELETE_PREFIX + removeError.value) else Ok(path)
  }

  /** Extraction undoes the public URL's path: for a non-empty object path that
      does not itself contain the marker, `marker + p` gives back `p`. */
  lemma ExtractPublicPath(p: string)
    requires p != "" && !Includes(p, PUBLIC_MARKER)
    ensures ExtractPath(PUBLIC_MARKER + p) == Some(p)
  {
    var s := PUBLIC_MARKER + p;
    assert OccursAt(s, PUBLIC_MARKER, 0);
    assert s[|PUBLIC_MARKER|..] == p;
  }

  /** A file uploaded by `Upload` is the one `Delete` removes when handed the
      pathname of the returned URL, provided the object path has no marker in it. */
  lemma UploadThenDelete(src: Source, userId: string, kind: ImageKind, timestamp: nat, randomId: string,
                         origin: string, fetchError: Option<string>)
    requires !Includes(ObjectPath(userId, kind, timestamp, randomId, Extension(src)), PUBLIC_MARKER)
    requires src.FileSource? || fetchError.None?
    ensures Upload(src, userId, kind, timestamp, randomId, origin, fetchError, None).Ok?
    ensures Delete(PUBLIC_MARKER + ObjectPath(userId, kind, timestamp, randomId, Extension(src)), None)
      == Ok(ObjectPath(userId, kind, timestamp, randomId, Extension(src)))
  {
    ExtractPublicPath(ObjectPath(userId, kind, timestamp, randomId, Extension(src)));
  }

  /** An occurrence in a suffix is an occurrence in the whole text, shifted. */
  lemma OccursInSuffix(s: string, start: nat, k: nat)
    requires start <= |s|
    ensures OccursAt(s[start..], PUBLIC_MARKER, k) <==> OccursAt(s, PUBLIC_MARKER, start + k)
  {
    if start + k + |PUBLIC_MARKER| <= |s| {
      assert s[start..][k..k + |PUBLIC_MARKER|] == s[start + k..start + k + |PUBLIC_MARKER|];
    }
  }

  /** The piece extracted is the one after the FIRST occurrence of the marker,
      and it runs up to the next occurrence or to the end of the pathname; the
      pathname is refused exactly when that piece is empty. */
  lemma ExtractPathPiece(pathname: string)
    requires Includes(pathname, PUBLIC_MARKER)
    ensures var start := IndexOf(pathname, PUBLIC_MARKER).value + |PUBLIC_MARKER|;
      var r := ExtractPath(pathname);
      && start <= |pathname|
      && (r.Some? ==> start + |r.value| <= |pathname| && pathname[start..start + |r.value|] == r.value
                      && (start + |r.value| == |pathname| || OccursAt(pathname, PUBLIC_MARKER, start + |r.value|)))
      && (r.None? <==> start == |pathname| || OccursAt(pathname, PUBLIC_MARKER, start))
  {
    var start := IndexOf(pathname, PUBLIC_MARKER).value + |PUBLIC_MARKER|;
    var rest := pathname[start..];
    var piece := BeforeFirst(rest, PUBLIC_MARKER);
    assert ExtractPath(pathname) == if piece == "" then None else Some(piece);
    OccursInSuffix(pathname, start, 0);
    var found := IndexOf(rest, PUBLIC_MARKER);
    if found.Some? {
      OccursInSuffix(pathname, start, found.value);
      assert pathname[start..start + found.value] == rest[..found.value];
    }
  }

  /** A pathname without the marker, or with nothing between its first
      occurrence of the marker and the next occurrence or the end, is refused
      with no remove request. */
  lemma MarkerOnlyRefused(pathname: string, removeError: Option<string>)
    ensures !Includes(pathname, PUBLIC_MARKER) ==> Delete(pathname, removeError) == Err(INVALID_FILE_URL)
    ensures Includes(pathname, PUBLIC_MARKER) ==>
      var start := IndexOf(pathname, PUBLIC_MARKER).value + |PUBLIC_MARKER|;
      (start == |pathname| || OccursAt(pathname, PUBLIC_MARKER, start)) ==> Delete(pathname, removeError) == Err(INVALID_FILE_URL)
    ensures Delete(PUBLIC_MARKER, removeError) == Err(INVALID_FILE_URL)
    ensures Delete("/" + BUCKET_NAME + "/x.jpg", removeError) == Err(INVALID_FILE_URL)
  {
    if Includes(pathname, PUBLIC_MARKER) {
      ExtractPathPiece(pathname);
    }
    assert OccursAt(PUBLIC_MARKER, PUBLIC_MARKER, 0);
    ExtractPathPiece(PUBLIC_MARKER);
    var other := "/" + BUCKET_NAME + "/x.jpg";
    assert |other| < |PUBLIC_MARKER|;
    assert !Includes(other, PUBLIC_MARKER);
  }
}
