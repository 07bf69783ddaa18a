/** The server's quick test of a path before parsing: a regular file, named ".fit" in any letter
    case, of more than 100 bytes. The file system is a parameter: what `fs.statSync` reports
    about the path, or nothing when it throws. */
module FitFileCheck {
  import opened Optional
  import opened Text
  import opened FitFilePicker

  datatype FileStat = FileStat(isFile: bool, size: int)

  /** `isFitFile(filePath)`, with the path's stat given. */
  predicate IsFitFile(path: string, stat: Option<FileStat>): (ok: bool)
    ensures ok <==> stat.Some? && stat.value.isFile && HasFitExtension(path) && stat.value.size > 100
  {
    match stat
    case None => false
    case Some(stats) =>
      if !stats.isFile then false
      else if !EndsWith(ToLower(path), ".fit") then false
      else stats.size > 100
  }

  /** A regular file the picker accepts passes the server's test too. */
  lemma PickerAcceptedPassesServer(path: string, size: int, mimeType: Option<string>)
    requires ValidateFitFile(FileAsset(path, Some(size), mimeType)).isValid
    ensures IsFitFile(path, Some(FileStat(true, size)))
  {
  }

  /** The server's test is looser than the picker's: a 101-byte "RIDE.FIT" passes the server's
      test, while the picker refuses it as empty. */
  lemma ServerAcceptsWhatPickerCallsEmpty()
    ensures IsFitFile("RIDE.FIT", Some(FileStat(true, 101)))
    ensures ValidateFitFile(FileAsset("RIDE.FIT", Some(101), None)) == Validation(false, Some(EmptyFileMessage))
  {
    UpperCaseExtension("RIDE");
    assert "RIDE" + ".FIT" == "RIDE.FIT";
    SmallOrMissingSizeIsEmpty(FileAsset("RIDE.FIT", Some(101), None));
  }

  /** A path whose stat fails, or that is not a regular file, never passes. */
  lemma StatFailureRefused(path: string, stat: Option<FileStat>)
    requires stat.None? || !stat.value.isFile
    ensures !IsFitFile(path, stat)
  {
  }
}
