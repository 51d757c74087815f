/**
 * The logo upload: a file is accepted when its MIME type is PNG, JPEG or
 * SVG and its size is at most 10 MiB; the type is checked first. An
 * accepted file becomes the preview, addressed by an object URL.
 *
 * Creating the object URL is the one step that can throw; the model takes
 * its outcome as a parameter (`None` for a throw). The simulated progress
 * timer between the start and the end of an upload is not modelled: the
 * store is observed when the upload call has finished.
 */
module LogoUpload {
  import opened Base

  /** The parts of a `File` the upload reads. */
  datatype UploadFile = UploadFile(mimeType: string, size: nat)

  /** `ALLOWED_TYPES` */
  const AllowedTypes: seq<string> := ["image/png", "image/jpeg", "image/svg+xml"]

  /** `MAX_FILE_SIZE`: 10 MiB. */
  const MaxFileSize: nat := 10 * 1024 * 1024

  const InvalidTypeMessage := "Invalid file type. Please upload a PNG, JPG, or SVG file."
  const TooLargeMessage := "File is too large. Maximum size is 10MB."
  const UploadFailedMessage := "Failed to upload logo. Please try again."

  /** The validation error of a file, if any: the type is checked before the size. */
  function ValidationError(file: UploadFile): (e: Option<string>)
    ensures e == Some(InvalidTypeMessage) <==> file.mimeType !in AllowedTypes
    ensures e == Some(TooLargeMessage) <==> file.mimeType in AllowedTypes && file.size > MaxFileSize
    ensures e.None? <==> file.mimeType in AllowedTypes && file.size <= MaxFileSize
  {
    if file.mimeType !in AllowedTypes then Some(InvalidTypeMessage)
    else if file.size > MaxFileSize then Some(TooLargeMessage)
    else None
  }

  /** Exactly 10 MiB is accepted and one byte more is rejected. */
  lemma SizeLimitInclusive(mimeType: string)
    requires mimeType in AllowedTypes
    ensures ValidationError(UploadFile(mimeType, 10485760)).None?
    ensures ValidationError(UploadFile(mimeType, 10485761)) == Some(TooLargeMessage)
  {
  }

  /** A file bad on both counts reports the type. */
  lemma TypeCheckedFirst(file: UploadFile)
    requires file.mimeType !in AllowedTypes && file.size > MaxFileSize
    ensures ValidationError(file) == Some(InvalidTypeMessage)
  {
  }

  /** The logo upload store (`useLogoUpload`). */
  class LogoUploadStore {
    var isUploading: bool
    var uploadProgress: int
    var previewUrl: Option<string>
    var error: Option<string>

    constructor()
      ensures !isUploading && uploadProgress == 0 && previewUrl == None && error == None
    {
      isUploading := false;
      uploadProgress := 0;
      previewUrl := None;
      error := None;
    }

    /**
     * `uploadLogo(file)`: clears the error and progress, validates, then
     * uploads. A rejected file leaves the uploading flag and the preview
     * as they were.
     */
    method UploadLogo(file: UploadFile, objectUrl: Option<string>) returns (result: Option<string>)
      modifies this
      ensures ValidationError(file).Some? ==>
        && result == None && error == ValidationError(file) && uploadProgress == 0
        && isUploading == old(isUploading) && previewUrl == old(previewUrl)
      ensures ValidationError(file).None? && objectUrl.Some? ==>
        && result == objectUrl && error == None && uploadProgress == 100
        && !isUploading && previewUrl == objectUrl
      ensures ValidationError(file).None? && objectUrl.None? ==>
        && result == None && error == Some(UploadFailedMessage) && uploadProgress == 0
        && !isUploading && previewUrl == old(previewUrl)
    {
      error := None;
      uploadProgress := 0;
      if file.mimeType !in AllowedTypes {
        error := Some(InvalidTypeMessage);
        return None;
      }
      if file.size > MaxFileSize {
        error := Some(TooLargeMessage);
        return None;
      }
      isUploading := true;
      if objectUrl.None? {
        error := Some(UploadFailedMessage);
        isUploading := false;
        return None;
      }
      uploadProgress := 100;
      previewUrl := objectUrl;
      isUploading := false;
      return objectUrl;
    }
  }
}
