/**
 * `validarImagen` (frontend/src/utils/imageUtils.js): the checks a picked
 * profile image must pass before it is compressed and uploaded.
 */
module ImageUtils {

  /** The two properties of a browser `File` the checks read. */
  datatype ImageFile = ImageFile(mimeType: string, size: nat)

  /** `validarImagen` either returns true or throws one of two messages. */
  datatype Validation = Valid | Invalid(message: string)

  const AcceptedTypes: seq<string> := ["image/jpeg", "image/png", "image/gif", "image/webp"]

  /** 5 MiB. */
  const MaxImageBytes: nat := 5 * 1024 * 1024

  // The two messages are written around the upper-case letters of their
  // first sentence, which the uploader's case-insensitive lookup folds.
  const FormatWords: string := "ormato de imagen no válido"
  const FormatError: string := "F" + FormatWords + ". Use JPEG, PNG, GIF o WebP"
  const SizeWords: string := "a imagen no puede ser mayor a 5"
  const SizeError: string := "L" + SizeWords + "MB"

  function ValidateImage(file: ImageFile): (r: Validation)
    ensures r == Valid <==> file.mimeType in AcceptedTypes && file.size <= MaxImageBytes
    ensures file.mimeType !in AcceptedTypes ==> r == Invalid(FormatError)
    ensures file.mimeType in AcceptedTypes && file.size > MaxImageBytes ==> r == Invalid(SizeError)
  {
    if file.mimeType !in AcceptedTypes then Invalid(FormatError)
    else if file.size > MaxImageBytes then Invalid(SizeError)
    else Valid
  }

  /** The type check comes first: an oversized file of the wrong type gets
      the format error. */
  lemma TypeCheckedFirst(file: ImageFile)
    requires file.mimeType !in AcceptedTypes && file.size > MaxImageBytes
    ensures ValidateImage(file) == Invalid(FormatError)
  {
  }

  /** The size limit is inclusive: 5 MiB passes, one byte more does not. */
  lemma SizeBoundary(mimeType: string)
    requires mimeType in AcceptedTypes
    ensures ValidateImage(ImageFile(mimeType, 5242880)) == Valid
    ensures ValidateImage(ImageFile(mimeType, 5242881)) == Invalid(SizeError)
  {
  }
}
