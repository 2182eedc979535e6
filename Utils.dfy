/**
 * Upload validation: the accepted image types, the 10 MiB size cap, and the
 * message shown for the first check a file fails.
 */
module Utils {
  import opened Wrappers

  /** The browser's `File` as the validators see it (`file.type`, `file.size`). */
  datatype File = File(mimeType: string, size: nat)

  const ValidImageTypes: seq<string> := ["image/jpeg", "image/png", "image/heic", "image/heif", "image/webp"]

  /** 10 * 1024 * 1024 bytes. */
  const MaxImageSize: nat := 10 * 1024 * 1024

  const InvalidTypeMessage: string := "Invalid file type. Please upload a JPEG, PNG, HEIC, or WebP image."
  const TooLargePrefix: string := "File too large ("
  const TooLargeSuffix: string := "). Maximum size is 10MB."

  /**
   * `formatFileSize`. Only the zero case is exact here: a non-zero size is
   * rendered by floating-point arithmetic, which `scaled` stands for.
   */
  function FormatFileSize(bytes: nat, scaled: nat -> string): (s: string)
    ensures bytes == 0 ==> s == "0 Bytes"
  {
    if bytes == 0 then "0 Bytes" else scaled(bytes)
  }

  /** `validTypes.includes(file.type)`. */
  predicate IsValidImageType(file: File)
    ensures IsValidImageType(file) <==>
      file.mimeType in {"image/jpeg", "image/png", "image/heic", "image/heif", "image/webp"}
  {
    file.mimeType in ValidImageTypes
  }

  /** At most 10MB, the limit included. */
  predicate IsValidImageSize(file: File)
    ensures IsValidImageSize(file) <==> file.size <= 10485760
  {
    file.size <= MaxImageSize
  }

  function TooLargeMessage(file: File, scaled: nat -> string): string
  {
    TooLargePrefix + FormatFileSize(file.size, scaled) + TooLargeSuffix
  }

  /** `getFileValidationError`: None stands for `null`. */
  function GetFileValidationError(file: File, scaled: nat -> string): (r: Option<string>)
    ensures r.None? <==> IsValidImageType(file) && IsValidImageSize(file)
    ensures !IsValidImageType(file) ==> r == Some(InvalidTypeMessage)
    ensures IsValidImageType(file) && !IsValidImageSize(file) ==>
      r.Some? && |r.value| >= |TooLargePrefix| + |TooLargeSuffix|
      && r.value[..|TooLargePrefix|] == TooLargePrefix
      && r.value[|r.value| - |TooLargeSuffix|..] == TooLargeSuffix
      && r.value[|TooLargePrefix|..|r.value| - |TooLargeSuffix|] == scaled(file.size)
  {
    if !IsValidImageType(file) then Some(InvalidTypeMessage)
    else if !IsValidImageSize(file) then Some(TooLargeMessage(file, scaled))
    else None
  }

  /** "image/heif" passes although the message does not name it; "image/jpg" and "image/gif" do not. */
  lemma ValidImageTypesAreExactly(size: nat)
    ensures IsValidImageType(File("image/heif", size))
    ensures !IsValidImageType(File("image/jpg", size))
    ensures !IsValidImageType(File("image/gif", size))
  {
  }

  /** The cap is inclusive: 10 MiB passes, one byte more does not. */
  lemma SizeCapIsInclusive(mimeType: string)
    ensures IsValidImageSize(File(mimeType, 10485760))
    ensures !IsValidImageSize(File(mimeType, 10485761))
  {
  }

  /** The type is checked first: a wrong type wins over an oversize file. */
  lemma TypeCheckedBeforeSize(file: File, scaled: nat -> string)
    requires !IsValidImageType(file) && !IsValidImageSize(file)
    ensures GetFileValidationError(file, scaled) == Some(InvalidTypeMessage)
  {
  }
}
