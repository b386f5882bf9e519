/** The image upload component: accepts one image file by MIME type and
    size, reads it as a data URL while reporting progress, and hands the
    base64 payload (the part after the data URL's header) to its caller.

    The browser's file reader is not modelled; its callbacks (load start,
    progress, load, error) are methods the environment calls in order. */
module ImageUpload {
  import opened Common

  const DefaultAcceptedFormats: seq<string> := ["image/jpeg", "image/png", "image/webp"]
  const DefaultMaxSizeKB: nat := 5000

  const InvalidTypePrefix: string := "Invalid file type. Accepted formats: "
  const TooLargePrefix: string := "File size too large. Maximum size: "
  const ReadErrorMessage: string := "Error reading file. Please try again."

  datatype File = File(name: string, size: nat, mimeType: string)

  /** What the component shows about the chosen file; `size` is the
      human-readable size produced by the size formatter. */
  datatype ImageInfo = ImageInfo(name: string, size: string, mimeType: string)

  /** A file is accepted iff its type is listed and its size in bytes is at
      most the limit in KB times 1024. */
  predicate Accepts(formats: seq<string>, maxSizeKB: nat, file: File) {
    file.mimeType in formats && file.size <= maxSizeKB * 1024
  }

  /** The error a file is rejected with; the type is checked before the
      size, so a file failing both reports its type. */
  function Rejection(formats: seq<string>, maxSizeKB: nat, file: File, sizeLabel: nat -> string): (r: Option<string>)
    ensures r.None? <==> Accepts(formats, maxSizeKB, file)
    ensures file.mimeType !in formats ==> r == Some(InvalidTypePrefix + Join(formats, ", "))
    ensures file.mimeType in formats && file.size > maxSizeKB * 1024 ==>
      r == Some(TooLargePrefix + sizeLabel(maxSizeKB * 1024))
  {
    if file.mimeType !in formats then Some(InvalidTypePrefix + Join(formats, ", "))
    else if file.size > maxSizeKB * 1024 then Some(TooLargePrefix + sizeLabel(maxSizeKB * 1024))
    else None
  }

  /** With the default limit, a file of exactly 5000 KB is accepted and one
      byte more is rejected. */
  lemma SizeLimitInclusive(mimeType: string)
    requires mimeType in DefaultAcceptedFormats
    ensures Accepts(DefaultAcceptedFormats, DefaultMaxSizeKB, File("a", 5120000, mimeType))
    ensures !Accepts(DefaultAcceptedFormats, DefaultMaxSizeKB, File("a", 5120001, mimeType))
  {
  }

  /** Progress while reading: `Math.round(loaded / total * 80) + 10`. */
  function ReadingProgress(loaded: nat, total: nat): (p: nat)
    requires total > 0
    ensures p >= 10
    ensures loaded <= total ==> p <= 90
    ensures loaded == 0 ==> p == 10
    ensures loaded == total ==> p == 90
  {
    var r := RoundHalfUp(80 * loaded, total);
    ShareBounds(loaded, total, r);
    r + 10
  }

  /** Bounds on the rounded share `loaded / total * 80`. */
  lemma ShareBounds(loaded: nat, total: nat, r: nat)
    requires 0 < total
    requires 2 * total * r <= 2 * (80 * loaded) + total < 2 * total * (r + 1)
    ensures loaded <= total ==> r <= 80
    ensures loaded == 0 ==> r == 0
    ensures loaded == total ==> r == 80
  {
    var t2 := 2 * total;
    if loaded <= total {
      assert t2 * 81 == 162 * total;
      ScaleCancel(t2, r, 81);
    }
    if loaded == 0 {
      ScaleCancel(t2, r, 1);
    }
    if loaded == total {
      assert t2 * 80 == 160 * total;
      ScaleCancel(t2, 80, r + 1);
    }
  }

  /** Dividing both sides of a strict inequality by the same factor. */
  lemma ScaleCancel(k: nat, a: nat, b: nat)
    requires k * a < k * b
    ensures a < b
  {
  }

  /** Position of the first `c` in `s`. */
  function IndexOf(s: string, c: char): (i: nat)
    requires c in s
    ensures i < |s| && s[i] == c && c !in s[..i]
  {
    if s[0] == c then 0
    else
      assert s[1..] + [] == s[1..];
      var j := IndexOf(s[1..], c);
      assert s[..j + 1] == [s[0]] + s[1..][..j];
      j + 1
  }

  /** `s.split(sep)` for a one-character separator. */
  function Split(s: string, sep: char): (parts: seq<string>)
    ensures |parts| >= 1
    ensures forall k :: 0 <= k < |parts| ==> sep !in parts[k]
    decreases |s|
  {
    if sep !in s then [s]
    else
      var i := IndexOf(s, sep);
      [s[..i]] + Split(s[i + 1..], sep)
  }

  /** Joining from the front: `[a] + rest` joins to `a`, the separator and
      the join of `rest`. */
  lemma {:induction false} JoinFront(a: string, rest: seq<string>, sep: string)
    requires |rest| >= 1
    ensures Join([a] + rest, sep) == a + sep + Join(rest, sep)
    decreases |rest|
  {
    var all := [a] + rest;
    if |rest| > 1 {
      assert all[..|all| - 1] == [a] + rest[..|rest| - 1];
      JoinFront(a, rest[..|rest| - 1], sep);
      assert all[|all| - 1] == rest[|rest| - 1];
    } else {
      assert all == [a, rest[0]];
      assert all[..1] == [a];
    }
  }

  /** Splitting and joining back with the same separator gives the string. */
  lemma {:induction false} SplitThenJoin(s: string, sep: char)
    ensures Join(Split(s, sep), [sep]) == s
    decreases |s|
  {
    if sep in s {
      var i := IndexOf(s, sep);
      var rest := Split(s[i + 1..], sep);
      SplitThenJoin(s[i + 1..], sep);
      JoinFront(s[..i], rest, [sep]);
      assert s == s[..i] + [sep] + s[i + 1..];
    }
  }

  /** Joining parts that do not contain the separator and splitting again
      gives the parts back. */
  lemma {:induction false} JoinThenSplit(parts: seq<string>, sep: char)
    requires |parts| >= 1
    requires forall k :: 0 <= k < |parts| ==> sep !in parts[k]
    ensures Split(Join(parts, [sep]), sep) == parts
    decreases |parts|
  {
    if |parts| > 1 {
      var rest := parts[1..];
      assert parts == [parts[0]] + rest;
      JoinFront(parts[0], rest, [sep]);
      var s := Join(parts, [sep]);
      var a := parts[0];
      assert s == a + [sep] + Join(rest, [sep]);
      assert sep in s by { assert s[|a|] == sep; }
      assert IndexOf(s, sep) == |a|;
      assert s[..|a|] == a;
      assert s[|a| + 1..] == Join(rest, [sep]);
      JoinThenSplit(rest, sep);
    } else {
      assert Join(parts, [sep]) == parts[0];
    }
  }

  /** `dataUrl.split(',')[1]`: the text between the first comma and the
      next one, or nothing when there is no comma. */
  function Payload(dataUrl: string): (r: Option<string>)
    ensures r.None? <==> ',' !in dataUrl
    ensures r.Some? ==> ',' !in r.value
  {
    var parts := Split(dataUrl, ',');
    if |parts| > 1 then Some(parts[1])
    else
      None
  }

  /** A base64 data URL as the file reader produces it (section 3 of
      RFC 2397, with the `;base64` extension). */
  function DataUrl(mediaType: string, data: string): string {
    "data:" + mediaType + ";base64," + data
  }

  /** For a media type without commas and base64 data (whose alphabet has
      no comma), the payload handed on is exactly the encoded data. */
  lemma PayloadOfDataUrl(mediaType: string, data: string)
    requires ',' !in mediaType && ',' !in data
    ensures Payload(DataUrl(mediaType, data)) == Some(data)
  {
    var header := "data:" + mediaType + ";base64";
    assert ',' !in header;
    assert DataUrl(mediaType, data) == header + [','] + data;
    JoinFront(header, [data], [',']);
    assert Join([header, data], [',']) == DataUrl(mediaType, data) by {
      assert [header, data] == [header] + [data];
    }
    JoinThenSplit([header, data], ',');
  }

  class ImageUploader {
    const acceptedFormats: seq<string>
    const maxSizeKB: nat
    var selectedImage: Option<string>
    var imageInfo: Option<ImageInfo>
    var uploadProgress: nat
    var error: Option<string>

    /** Omitted props take their defaults; the component starts empty. */
    constructor (formats: Option<seq<string>>, maxKB: Option<nat>)
      ensures acceptedFormats == if formats.Some? then formats.value else DefaultAcceptedFormats
      ensures maxSizeKB == if maxKB.Some? then maxKB.value else DefaultMaxSizeKB
      ensures selectedImage.None? && imageInfo.None? && uploadProgress == 0 && error.None?
    {
      acceptedFormats := if formats.Some? then formats.value else DefaultAcceptedFormats;
      maxSizeKB := if maxKB.Some? then maxKB.value else DefaultMaxSizeKB;
      selectedImage := None;
      imageInfo := None;
      uploadProgress := 0;
      error := None;
    }

    /** Clears the error, then checks type and size in that order. */
    method ValidateFile(file: File, sizeLabel: nat -> string) returns (ok: bool)
      modifies this
      ensures ok == Accepts(acceptedFormats, maxSizeKB, file)
      ensures error == Rejection(acceptedFormats, maxSizeKB, file, sizeLabel)
      ensures selectedImage == old(selectedImage) && imageInfo == old(imageInfo)
      ensures uploadProgress == old(uploadProgress)
    {
      error := None;
      if file.mimeType !in acceptedFormats {
        error := Some(InvalidTypePrefix + Join(acceptedFormats, ", "));
        return false;
      }
      if file.size > maxSizeKB * 1024 {
        error := Some(TooLargePrefix + sizeLabel(maxSizeKB * 1024));
        return false;
      }
      return true;
    }

    /** A rejected file only sets the error; an accepted one resets the
        progress, records the file's details and starts reading. */
    method ProcessFile(file: File, sizeLabel: nat -> string) returns (reading: bool)
      modifies this
      ensures reading == Accepts(acceptedFormats, maxSizeKB, file)
      ensures error == Rejection(acceptedFormats, maxSizeKB, file, sizeLabel)
      ensures selectedImage == old(selectedImage)
      ensures !reading ==> imageInfo == old(imageInfo) && uploadProgress == old(uploadProgress)
      ensures reading ==> uploadProgress == 0
      ensures reading ==> imageInfo == Some(ImageInfo(file.name, sizeLabel(file.size), file.mimeType))
    {
      reading := ValidateFile(file, sizeLabel);
      if !reading {
        return;
      }
      uploadProgress := 0;
      imageInfo := Some(ImageInfo(file.name, sizeLabel(file.size), file.mimeType));
    }

    method OnLoadStart()
      modifies this
      ensures uploadProgress == 10
      ensures selectedImage == old(selectedImage) && imageInfo == old(imageInfo) && error == old(error)
    {
      uploadProgress := 10;
    }

    /** Progress events without a known total leave the bar alone. */
    method OnProgress(lengthComputable: bool, loaded: nat, total: nat)
      requires lengthComputable ==> total > 0
      modifies this
      ensures uploadProgress == if lengthComputable then ReadingProgress(loaded, total) else old(uploadProgress)
      ensures selectedImage == old(selectedImage) && imageInfo == old(imageInfo) && error == old(error)
    {
      if lengthComputable {
        uploadProgress := ReadingProgress(loaded, total);
      }
    }

    /** The full data URL becomes the preview, the bar completes, and the
        payload after the header is returned for the caller's callback. */
    method OnLoad(dataUrl: string) returns (payload: Option<string>)
      modifies this
      ensures selectedImage == Some(dataUrl)
      ensures uploadProgress == 100
      ensures payload == Payload(dataUrl)
      ensures imageInfo == old(imageInfo) && error == old(error)
    {
      uploadProgress := 90;
      payload := Payload(dataUrl);
      selectedImage := Some(dataUrl);
      uploadProgress := 100;
    }

    method OnError()
      modifies this
      ensures error == Some(ReadErrorMessage) && uploadProgress == 0
      ensures selectedImage == old(selectedImage) && imageInfo == old(imageInfo)
    {
      error := Some(ReadErrorMessage);
      uploadProgress := 0;
    }

    method RemoveImage()
      modifies this
      ensures selectedImage.None? && imageInfo.None? && uploadProgress == 0 && error.None?
    {
      selectedImage := None;
      imageInfo := None;
      uploadProgress := 0;
      error := None;
    }
  }
}
