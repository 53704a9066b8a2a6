/**
 * The check applied to a reference image before it is read: the MIME type must be
 * one of four image types (tested first) and the size must not exceed 10 MiB.
 */
module ReferenceValidation {
  import opened Wrappers

  /** 10 * 1024 * 1024 bytes. */
  const MaxFileSize: nat := 10485760
  const AllowedTypes: seq<string> := ["image/png", "image/jpeg", "image/jpg", "image/webp"]
  const UnsupportedTypeMessage: string := "Unsupported file type. Please upload PNG, JPG, or WebP images."
  const FileTooLargeMessage: string := "File size exceeds 10MB limit. Please choose a smaller image."

  datatype ValidationResult = ValidationResult(valid: bool, error: Option<string>)

  /**
   * `validateReferenceImage(file)` on the file's `type` and `size`. Valid exactly
   * when the type is allowed and the size is at most the limit; an error message is
   * present exactly when invalid, and it names the type when the type is wrong,
   * whatever the size.
   */
  function ValidateReferenceImage(mimeType: string, size: nat): (r: ValidationResult)
    ensures r.valid <==> mimeType in AllowedTypes && size <= MaxFileSize
    ensures r.error.None? <==> r.valid
    ensures mimeType !in AllowedTypes ==> r.error == Some(UnsupportedTypeMessage)
    ensures mimeType in AllowedTypes && size > MaxFileSize ==> r.error == Some(FileTooLargeMessage)
  {
    if mimeType !in AllowedTypes then
      ValidationResult(false, Some(UnsupportedTypeMessage))
    else if size > MaxFileSize then
      ValidationResult(false, Some(FileTooLargeMessage))
    else
      ValidationResult(true, None)
  }

  /** The limit itself is accepted, one byte more is refused. */
  lemma SizeBoundary(mimeType: string)
    requires mimeType in AllowedTypes
    ensures ValidateReferenceImage(mimeType, 10 * 1024 * 1024).valid
    ensures ValidateReferenceImage(mimeType, 10 * 1024 * 1024 + 1) == ValidationResult(false, Some(FileTooLargeMessage))
  {
  }

  /** Type matching is exact: an upper-case spelling of an allowed type is refused. */
  lemma NoCaseFolding(size: nat)
    ensures ValidateReferenceImage("image/PNG", size) == ValidationResult(false, Some(UnsupportedTypeMessage))
  {
    assert forall k :: 0 <= k < |AllowedTypes| ==> AllowedTypes[k] != "image/PNG" by {
      assert AllowedTypes[0][6] != "image/PNG"[6];
      assert |AllowedTypes[1]| != 9 && |AllowedTypes[3]| != 9;
      assert AllowedTypes[2][6] != "image/PNG"[6];
    }
  }
}
