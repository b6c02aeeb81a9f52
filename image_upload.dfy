/**
 * The image picker: a chosen file is checked (an image type, at most 5 MiB),
 * read into a data URL, shown as the preview and handed to the parent form;
 * removing the image hands the parent an empty string.
 */
module Upload {
  import opened Wrappers
  import opened Storage

  /** The two properties of a chosen file that are checked. */
  datatype FileInfo = FileInfo(mimeType: string, size: int)

  const MaxImageBytes: int := 5 * 1024 * 1024

  datatype FileVerdict = Accepted | NotAnImage | TooLarge

  predicate StartsWith(s: string, prefix: string)
  {
    |prefix| <= |s| && s[..|prefix|] == prefix
  }

  /** The type is checked first, then the size; a file of exactly 5 MiB passes. */
  function CheckFile(f: FileInfo): (v: FileVerdict)
    ensures v == Accepted <==> StartsWith(f.mimeType, "image/") && f.size <= MaxImageBytes
    ensures v == NotAnImage <==> !StartsWith(f.mimeType, "image/")
    ensures v == TooLarge <==> StartsWith(f.mimeType, "image/") && f.size > MaxImageBytes
  {
    if !StartsWith(f.mimeType, "image/") then NotAnImage
    else if f.size > MaxImageBytes then TooLarge
    else Accepted
  }

  /** The size bound is inclusive and not one byte more. */
  lemma SizeBoundary()
    ensures CheckFile(FileInfo("image/png", 5242880)) == Accepted
    ensures CheckFile(FileInfo("image/png", 5242881)) == TooLarge
    ensures CheckFile(FileInfo("application/pdf", 10)) == NotAnImage
  {
    assert "image/png"[..6] == "image/";
    assert "application/pdf"[..6] != "image/" by {
      assert "application/pdf"[0] != "image/"[0];
    }
  }

  /** What one `handleFileChange` call came to. */
  datatype UploadOutcome = NoFile | Rejected(verdict: FileVerdict) | Uploaded(url: string) | UploadFailed

  class ImageUpload {
    var isUploading: bool
    var previewUrl: Option<string>
    /** Every value handed to `onImageUploaded`, oldest first. */
    var delivered: seq<string>

    constructor (currentImage: Option<string>)
      ensures !isUploading && previewUrl == currentImage && delivered == []
    {
      isUploading := false;
      previewUrl := currentImage;
      delivered := [];
    }

    /**
     * `handleFileChange`. `file` is the first chosen file, if any; `read` is
     * what the file reader reports for it. An accepted file whose read fails
     * leaves the preview and the parent as they were.
     */
    method HandleFileChange(file: Option<FileInfo>, read: ReaderOutcome) returns (outcome: UploadOutcome)
      modifies this
      ensures file.None? ==> outcome == NoFile && unchanged(this)
      ensures file.Some? && CheckFile(file.value) != Accepted ==>
        outcome == Rejected(CheckFile(file.value)) && unchanged(this)
      ensures file.Some? && CheckFile(file.value) == Accepted && read.TextResult? ==>
        && outcome == Uploaded(read.text) && previewUrl == Some(read.text)
        && delivered == old(delivered) + [read.text] && !isUploading
      ensures file.Some? && CheckFile(file.value) == Accepted && !read.TextResult? ==>
        && outcome == UploadFailed && previewUrl == old(previewUrl)
        && delivered == old(delivered) && !isUploading
    {
      if file.None? {
        return NoFile;
      }
      var verdict := CheckFile(file.value);
      if verdict != Accepted {
        return Rejected(verdict);
      }
      isUploading := true;
      var uploaded := UploadImage(read);
      if uploaded.Success? {
        previewUrl := Some(uploaded.value);
        delivered := delivered + [uploaded.value];
        outcome := Uploaded(uploaded.value);
      } else {
        outcome := UploadFailed;
      }
      isUploading := false;
    }

    /** `handleRemoveImage`. */
    method RemoveImage()
      modifies this`previewUrl, this`delivered
      ensures previewUrl == None && delivered == old(delivered) + [""]
    {
      previewUrl := None;
      delivered := delivered + [""];
    }
  }
}
