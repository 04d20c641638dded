/**
 * The profile-image uploader (frontend/src/componentes/SubirImagen.jsx):
 * validation, the compression threshold, the two remote steps taken as
 * given replies, the state the component ends in, and `obtenerClaveError`,
 * which picks the translation key for a failure message.
 */
module SubirImagen {
  import opened Optional
  import opened Strings
  import opened Classifier
  import opened Entities
  import opened ImageUtils

  const GenericKey: string := "generic.somethingWrong"
  const InvalidFormatKey: string := "images.invalidFormat"
  const TooLargeKey: string := "images.tooLarge"
  const UpdateErrorKey: string := "images.updateError"
  const NotFoundKey: string := "images.notFound"
  const ProcessingErrorKey: string := "images.processingError"

  const FormatPattern: string := "f" + FormatWords
  const SizePattern: string := "l" + SizeWords + "mb"

  /** The branches of `obtenerClaveError`, in the order they are tried. */
  const KeyRules: seq<Rule<string>> := [
    Rule(AnyOf([FormatPattern, "invalid image format"]), InvalidFormatKey),
    Rule(AnyOf([SizePattern, "image too large"]), TooLargeKey),
    Rule(AnyOf(["error al actualizar la imagen de perfil", "error updating profile image"]), UpdateErrorKey),
    Rule(AnyOf(["imagen no encontrada", "image not found"]), NotFoundKey),
    Rule(AnyOf(["no se puede procesar la imagen", "cannot process image"]), ProcessingErrorKey)
  ]

  predicate IsErrorKey(k: string) {
    k in {GenericKey, InvalidFormatKey, TooLargeKey, UpdateErrorKey, NotFoundKey, ProcessingErrorKey}
  }

  /** `obtenerClaveError(mensajeError)`; `None` is a missing message. */
  function ErrorKey(message: Option<string>): (r: string)
    ensures IsErrorKey(r)
    ensures message.None? || message.value == [] ==> r == GenericKey
    ensures message.Some? && FirstMatch(KeyRules, ToLower(message.value)).None? ==> r == GenericKey
  {
    if message.None? || message.value == [] then GenericKey
    else
      match FirstMatch(KeyRules, ToLower(message.value))
      case Some(k) => KeyRules[k].outcome
      case None => GenericKey
  }

  /** Classification reads only the lower-case form of the message. */
  lemma ErrorKeyCaseInsensitive(a: string, b: string)
    requires ToLower(a) == ToLower(b)
    ensures ErrorKey(Some(a)) == ErrorKey(Some(b))
  {
  }

  /** The lower-case words of the format error hold no upper-case letter. */
  lemma FormatWordsLower()
    ensures forall i :: 0 <= i < |FormatWords| ==> !IsUpperLetter(FormatWords[i])
  {
  }

  /** The lower-case words of the size error hold no upper-case letter. */
  lemma SizeWordsLower()
    ensures forall i :: 0 <= i < |SizeWords| ==> !IsUpperLetter(SizeWords[i])
  {
  }

  /** The lower-case form of the format error begins with the format pattern. */
  lemma LowerFormatError()
    ensures ToLower(FormatError)[..|FormatPattern|] == FormatPattern
  {
    FormatWordsLower();
    assert ToLower("F") == "f";
    var tail := ". Use JPEG, PNG, GIF o WebP";
    ToLowerPieces(FormatError, "F", FormatWords, tail, "f");
  }

  /** The lower-case form of the size error is the size pattern. */
  lemma LowerSizeError()
    ensures ToLower(SizeError) == SizePattern
  {
    SizeWordsLower();
    assert ToLower("L") == "l";
    assert ToLower("MB") == "mb";
    ToLowerPieces(SizeError, "L", SizeWords, "MB", "l");
  }

  /** A text holding the format pattern takes the first branch. */
  lemma FormatBranch(text: string)
    requires Contains(text, FormatPattern)
    ensures FirstMatch(KeyRules, text) == Some(0)
  {
    AnyOfMatches([FormatPattern, "invalid image format"], text, 0);
    MatchingRuleBounds(KeyRules, text, 0);
  }

  /** A text holding the size pattern and no 'f' takes the second branch:
      both alternatives of the first branch contain an 'f'. */
  lemma SizeBranch(text: string)
    requires Contains(text, SizePattern) && 'f' !in text
    ensures FirstMatch(KeyRules, text) == Some(1)
  {
    assert FormatPattern[0] == 'f';
    assert "invalid image format"[14] == 'f';
    MissingCharNotContained(text, FormatPattern, 'f');
    MissingCharNotContained(text, "invalid image format", 'f');
    AnyOfMatches([SizePattern, "image too large"], text, 0);
    MatchingRuleBounds(KeyRules, text, 1);
  }

  /** The size pattern has no 'f'. */
  lemma SizePatternHasNoF()
    ensures 'f' !in SizePattern
  {
    assert forall i :: 0 <= i < |SizeWords| ==> SizeWords[i] != 'f';
    assert 'f' !in "l" && 'f' !in "mb";
  }

  /** A recognised message gets the key of the branch it takes. */
  lemma KeyOfBranch(message: string, k: nat)
    requires message != [] && FirstMatch(KeyRules, ToLower(message)) == Some(k)
    ensures ErrorKey(Some(message)) == KeyRules[k].outcome
  {
  }

  /** The format error `validarImagen` throws gets the invalid-format key. */
  lemma FormatErrorKey()
    ensures ErrorKey(Some(FormatError)) == InvalidFormatKey
  {
    var text := ToLower(FormatError);
    LowerFormatError();
    ContainsAt(text, FormatPattern, 0);
    FormatBranch(text);
    KeyOfBranch(FormatError, 0);
  }

  /** The size error `validarImagen` throws gets the too-large key once it is
      lower-cased ("5MB" becomes "5mb"). */
  lemma SizeErrorKey()
    ensures ErrorKey(Some(SizeError)) == TooLargeKey
  {
    LowerSizeError();
    SizePatternKey(SizeError);
  }

  /** Any message that lower-cases to the size pattern gets the too-large key. */
  lemma SizePatternKey(message: string)
    requires ToLower(message) == SizePattern
    ensures ErrorKey(Some(message)) == TooLargeKey
  {
    SizePatternHasNoF();
    ContainsSelf(SizePattern);
    SizeBranch(ToLower(message));
  }

  // ---------------------------------------------------------------------------
  // Selecting a file
  // ---------------------------------------------------------------------------

  /** Files above 1 MiB are compressed before upload. */
  const CompressAbove: nat := 1024 * 1024

  /** Compression applies to files above 1 MiB; since the size limit is
      5 MiB, a file too small to be compressed never fails the size check. */
  function NeedsCompression(file: ImageFile): (r: bool)
    ensures r <==> file.size > 1048576
    ensures !r ==> ValidateImage(file) != Invalid(SizeError)
    ensures ValidateImage(file) == Invalid(SizeError) ==> r
  {
    file.size > CompressAbove
  }

  /** What the image host answered: the JSON it returned (its `secure_url`,
      if any), or the exception the request threw. */
  datatype HostReply = HostAnswered(secureUrl: Option<string>) | HostThrew(message: string)

  /** What the API answered when asked to store the new image URL. */
  datatype ApiReply = ApiSaved | ApiRefused(error: Option<string>) | ApiThrew(message: string)

  datatype UploadState = UploadState(preview: string, loading: bool, error: string)

  /** How the `await comprimirImagen(archivo, 0.7)` ends. `comprimirImagen`
      sets no error handler on its reader or its image, so a file the browser
      cannot decode leaves the promise pending forever (`Unsettled`). When
      `toBlob` yields null, `crearUrlImagen(null)` throws before the upload;
      `message` is that exception's text. */
  datatype Compression = Blob | NullBlob(message: string) | Unsettled

  /** The end of `manejarSeleccionArchivo`: the state it leaves, whether the
      file went through compression, whether it was posted to the image host,
      and the URL handed to `onImagenSubida`. */
  datatype UploadRun = UploadRun(final: UploadState, compressed: bool, sentToHost: bool,
                                 published: Option<string>)

  /** The catch block: show the translation key, restore the previous image. */
  function Failed(current: Option<string>, message: string, compressed: bool, sentToHost: bool): (r: UploadRun)
    ensures r.final.preview == OrElse(current, "")
    ensures !r.final.loading && r.published.None?
    ensures r.final.error == "errors." + ErrorKey(Some(message))
    ensures r.compressed == compressed && r.sentToHost == sentToHost
  {
    UploadRun(UploadState(OrElse(current, ""), false, "errors." + ErrorKey(Some(message))),
              compressed, sentToHost, None)
  }

  /** The selection is stuck at the compression step: the file is valid and
      large, and the compression promise never settles. */
  predicate Hangs(file: ImageFile, compression: Compression) {
    ValidateImage(file) == Valid && NeedsCompression(file) && compression == Unsettled
  }

  /** `manejarSeleccionArchivo(archivo)` started from the state `before`, with
      `imagenActual` as `current`, the compression outcome and the two remote
      replies as parameters, and `updateErrorText` standing for the translated
      "errors.images.updateError" message it throws. */
  function SelectFile(before: UploadState, current: Option<string>, file: ImageFile,
                      compression: Compression, host: HostReply, api: ApiReply,
                      updateErrorText: string): (r: UploadRun)
    ensures r.final.loading <==> Hangs(file, compression)
    ensures Hangs(file, compression) ==> r.final == Start(before) && !r.sentToHost && r.published.None?
    ensures r.compressed <==> ValidateImage(file) == Valid && NeedsCompression(file)
    ensures r.sentToHost <==> ValidateImage(file) == Valid && (!NeedsCompression(file) || compression == Blob)
    ensures r.published.Some? <==>
              r.sentToHost && host.HostAnswered? && host.secureUrl.Some?
              && host.secureUrl.value != [] && api.ApiSaved?
    ensures r.published.Some? ==> r.final == UploadState(r.published.value, false, "")
    ensures r.published.None? && !Hangs(file, compression) ==>
              r.final.preview == OrElse(current, "") && r.final.error != []
  {
    match ValidateImage(file)
    case Invalid(message) => Failed(current, message, false, false)
    case Valid =>
      var compressed := NeedsCompression(file);
      if compressed && compression == Unsettled then UploadRun(Start(before), true, false, None)
      else if compressed && compression.NullBlob? then Failed(current, compression.message, true, false)
      else
        match host
        case HostThrew(message) => Failed(current, message, compressed, true)
        case HostAnswered(secureUrl) =>
          if secureUrl.None? || secureUrl.value == [] then Failed(current, updateErrorText, compressed, true)
          else
            match api
            case ApiSaved =>
              UploadRun(UploadState(secureUrl.value, false, ""), compressed, true, Some(secureUrl.value))
            case ApiRefused(error) => Failed(current, OrElse(error, updateErrorText), compressed, true)
            case ApiThrew(message) => Failed(current, message, compressed, true)
  }

  /** A file of the wrong type is never compressed or sent, and shows the
      invalid-format key; a supported but oversized one shows the too-large key. */
  lemma RejectedFileKeys(before: UploadState, current: Option<string>, file: ImageFile,
                         compression: Compression, host: HostReply, api: ApiReply, updateErrorText: string)
    ensures file.mimeType !in AcceptedTypes ==>
              SelectFile(before, current, file, compression, host, api, updateErrorText).final.error
                == "errors." + InvalidFormatKey
    ensures file.mimeType in AcceptedTypes && file.size > MaxImageBytes ==>
              SelectFile(before, current, file, compression, host, api, updateErrorText).final.error
                == "errors." + TooLargeKey
    ensures ValidateImage(file) != Valid ==>
              !SelectFile(before, current, file, compression, host, api, updateErrorText).compressed
              && !SelectFile(before, current, file, compression, host, api, updateErrorText).sentToHost
  {
    FormatErrorKey();
    SizeErrorKey();
  }

  /** `abrirSelector`: the file picker opens only while nothing is loading. */
  function OpensSelector(state: UploadState): (r: bool)
    ensures r <==> !state.loading
  {
    !state.loading
  }

  /** The start of `manejarSeleccionArchivo`: clear the error, show the spinner. */
  function Start(state: UploadState): (r: UploadState)
    ensures r.loading && r.error == [] && r.preview == state.preview
    ensures !OpensSelector(r)
  {
    UploadState(state.preview, true, "")
  }

  /** The picker is closed for the whole upload and opens again once
      `manejarSeleccionArchivo` ends, whichever way it ends; only a
      compression that never settles keeps it closed for good. */
  lemma SelectorReopens(before: UploadState, current: Option<string>, file: ImageFile,
                        compression: Compression, host: HostReply, api: ApiReply, updateErrorText: string)
    ensures !OpensSelector(Start(before))
    ensures var run := SelectFile(before, current, file, compression, host, api, updateErrorText);
            OpensSelector(run.final) <==> !Hangs(file, compression)
  {
  }
}
