/** The picker's metadata check on a chosen document: the lower-cased name must end in ".fit",
    the size must lie between 0.1 KB and 50000 KB (a missing size counts as 0), and a MIME type,
    when there is one, must not be an image, video or audio type. The first failing check, in
    that order, decides the message. */
module FitFilePicker {
  import opened Optional
  import opened Text

  /** The fields of the picked document that the check reads. */
  datatype FileAsset = FileAsset(name: string, size: Option<int>, mimeType: Option<string>)

  /** `{isValid, errorMessage?}`. */
  datatype Validation = Validation(isValid: bool, errorMessage: Option<string>)

  const InvalidTypeMessage: string :=
    "Invalid file type. Only .fit files are allowed.\n\nSupported devices:\n\U{2022} Garmin Edge series\n"
    + "\U{2022} Wahoo BOLT/ROAM\n\U{2022} Polar cycling computers\n\U{2022} SRM, Quarq, Stages power meters"

  const EmptyFileMessage: string := "File appears to be empty. Please select a valid .fit file from your workout."

  const TooLargeMessage: string :=
    "File is too large. FIT files are typically under 50MB. Please check if this is a valid workout file."

  /** The message for a media file, naming the part of the MIME type before '/'. */
  function MediaTypeMessage(mimeType: string): string {
    "This appears to be a " + PrefixBefore(mimeType, '/')
    + " file, not a .fit file.\n\nPlease select a .fit file from your cycling computer or power meter."
  }

  predicate HasFitExtension(name: string) {
    EndsWith(ToLower(name), ".fit")
  }

  /** `file.size || 0`: a missing size counts as 0 bytes. */
  function SizeInBytes(file: FileAsset): int {
    if file.size.Some? then file.size.value else 0
  }

  predicate IsMediaType(mimeType: string) {
    StartsWith(mimeType, "image/") || StartsWith(mimeType, "video/") || StartsWith(mimeType, "audio/")
  }

  /** The check itself, in the order the component performs it. */
  function ValidateFitFile(file: FileAsset): (v: Validation)
    ensures v.isValid <==> v.errorMessage.None?
    ensures v.isValid <==>
              HasFitExtension(file.name) && 102 < SizeInBytes(file) <= 51_200_000
              && !(file.mimeType.Some? && IsMediaType(file.mimeType.value))
  {
    var fileSizeKB := SizeInBytes(file) as real / 1024.0;
    TooSmallInBytes(SizeInBytes(file));
    TooLargeInBytes(SizeInBytes(file));
    if !HasFitExtension(file.name) then Validation(false, Some(InvalidTypeMessage))
    else if fileSizeKB < 0.1 then Validation(false, Some(EmptyFileMessage))
    else if fileSizeKB > 50000.0 then Validation(false, Some(TooLargeMessage))
    else if file.mimeType.Some? && IsMediaType(file.mimeType.value) then
      Validation(false, Some(MediaTypeMessage(file.mimeType.value)))
    else Validation(true, None)
  }

  // ---- Size bounds in whole bytes ----

  /** Under 0.1 KB means at most 102 bytes. */
  lemma TooSmallInBytes(bytes: int)
    ensures bytes as real / 1024.0 < 0.1 <==> bytes <= 102
  {
    if bytes <= 102 {
      assert bytes as real <= 102.0;
    } else {
      assert bytes as real >= 103.0;
    }
  }

  /** Over 50000 KB means more than 51 200 000 bytes. */
  lemma TooLargeInBytes(bytes: int)
    ensures bytes as real / 1024.0 > 50000.0 <==> bytes > 51_200_000
  {
    if bytes > 51_200_000 {
      assert bytes as real >= 51_200_001.0;
    } else {
      assert bytes as real <= 51_200_000.0;
    }
  }

  // ---- Properties of the check ----

  /** A name that does not end in ".fit", in any letter case, is refused as the wrong type,
      whatever the size and MIME type. */
  lemma ExtensionCheckedFirst(file: FileAsset)
    requires !HasFitExtension(file.name)
    ensures ValidateFitFile(file) == Validation(false, Some(InvalidTypeMessage))
  {
  }

  /** With the right extension, a size of at most 102 bytes, or no size at all, is refused as empty. */
  lemma SmallOrMissingSizeIsEmpty(file: FileAsset)
    requires HasFitExtension(file.name) && (file.size.None? || file.size.value <= 102)
    ensures ValidateFitFile(file) == Validation(false, Some(EmptyFileMessage))
  {
    TooSmallInBytes(SizeInBytes(file));
  }

  /** With the right extension, a size over 51 200 000 bytes is refused as too large. */
  lemma LargeSizeIsTooLarge(file: FileAsset)
    requires HasFitExtension(file.name) && file.size.Some? && file.size.value > 51_200_000
    ensures ValidateFitFile(file) == Validation(false, Some(TooLargeMessage))
  {
    TooSmallInBytes(SizeInBytes(file));
    TooLargeInBytes(SizeInBytes(file));
  }

  /** A name and size that pass, with a MIME type `kind/rest` for kind image, video or audio:
      refused, and the message names the kind. */
  lemma MediaTypeNamed(file: FileAsset, kind: string, rest: string)
    requires HasFitExtension(file.name) && 102 < SizeInBytes(file) <= 51_200_000
    requires kind == "image" || kind == "video" || kind == "audio"
    requires file.mimeType == Some(kind + "/" + rest)
    ensures ValidateFitFile(file) == Validation(false, Some(MediaTypeMessage(kind + "/" + rest)))
    ensures PrefixBefore(kind + "/" + rest, '/') == kind
  {
    MediaKind(kind, rest);
    MediaTypeRefused(file);
  }

  /** A name and size that pass, with a media MIME type: refused with the media message. */
  lemma MediaTypeRefused(file: FileAsset)
    requires HasFitExtension(file.name) && 102 < SizeInBytes(file) <= 51_200_000
    requires file.mimeType.Some? && IsMediaType(file.mimeType.value)
    ensures ValidateFitFile(file) == Validation(false, Some(MediaTypeMessage(file.mimeType.value)))
  {
    TooSmallInBytes(SizeInBytes(file));
    TooLargeInBytes(SizeInBytes(file));
  }

  /** `kind/rest` is a media type for the three media kinds, and its part before '/' is `kind`. */
  lemma MediaKind(kind: string, rest: string)
    requires kind == "image" || kind == "video" || kind == "audio"
    ensures IsMediaType(kind + "/" + rest)
    ensures PrefixBefore(kind + "/" + rest, '/') == kind
  {
    assert kind + "/" + rest == kind + ['/'] + rest;
    StartsWithConcat(kind + "/", rest);
    PrefixBeforeSeparator(kind, '/', rest);
  }

  /** A missing MIME type never causes a refusal: the name and size alone decide. */
  lemma MissingMimeTypeNeverRefuses(file: FileAsset)
    requires file.mimeType.None?
    ensures ValidateFitFile(file).isValid <==> HasFitExtension(file.name) && 102 < SizeInBytes(file) <= 51_200_000
  {
  }

  /** An upper-case ".FIT" extension counts as ".fit". */
  lemma UpperCaseExtension(stem: string)
    ensures HasFitExtension(stem + ".FIT")
  {
    var name := stem + ".FIT";
    var n := |name|;
    assert name[n - 4] == '.' && name[n - 3] == 'F' && name[n - 2] == 'I' && name[n - 1] == 'T';
    var lower := ToLower(name);
    assert LowerChar('.') == '.' && LowerChar('F') == 'f' && LowerChar('I') == 'i' && LowerChar('T') == 't';
    assert lower[n - 4] == '.' && lower[n - 3] == 'f' && lower[n - 2] == 'i' && lower[n - 1] == 't';
    assert lower[n - 4..] == [lower[n - 4], lower[n - 3], lower[n - 2], lower[n - 1]];
  }

  /** The check ignores letter case in the name. */
  lemma CaseInsensitive(file: FileAsset)
    ensures ValidateFitFile(file.(name := ToLower(file.name))) == ValidateFitFile(file)
  {
    ToLowerIdempotent(file.name);
  }
}
