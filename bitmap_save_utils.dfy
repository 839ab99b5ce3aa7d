/** BitmapSaveUtils, the part that is not I/O: which MIME type and file extension a
    compress format is saved with, which WEBP variant to use on a given API level, and how
    the saved file's name is put together. The API level (`Build.VERSION.SDK_INT`) and
    the clock-generated default name are parameters. */
module BitmapSave {
  import opened KotlinStd

  /** `Bitmap.CompressFormat`. */
  datatype CompressFormat = JPEG | PNG | WEBP | WEBP_LOSSY | WEBP_LOSSLESS

  /** `Build.VERSION_CODES.P` and `Build.VERSION_CODES.R`. */
  const P: int := 28
  const R: int := 30

  /** A (MIME type, extension) pair. */
  datatype FormatInfo = FormatInfo(mimeType: string, extension: string)

  const JPEG_INFO: FormatInfo := FormatInfo("image/jpeg", ".jpg")
  const PNG_INFO: FormatInfo := FormatInfo("image/png", ".png")
  const WEBP_INFO: FormatInfo := FormatInfo("image/webp", ".webp")

  /** `isWebpFormat`: the legacy WEBP always; the lossy and lossless variants only from
      API level 30 (R) on. */
  function IsWebpFormat(format: CompressFormat, sdkInt: int): (b: bool)
    ensures format == WEBP ==> b
    ensures format == WEBP_LOSSY || format == WEBP_LOSSLESS ==> (b <==> sdkInt >= R)
    ensures format == JPEG || format == PNG ==> !b
  {
    if format == WEBP then true
    else if sdkInt >= R && (format == WEBP_LOSSY || format == WEBP_LOSSLESS) then true
    else false
  }

  /** `getFormatInfo`: JPEG and PNG have their own; a format recognised as WEBP maps to
      WEBP; anything else falls back to JPEG. */
  function GetFormatInfo(format: CompressFormat, sdkInt: int): (info: FormatInfo)
    ensures format == JPEG ==> info == JPEG_INFO
    ensures format == PNG ==> info == PNG_INFO
    ensures format != JPEG && format != PNG ==>
      info == (if IsWebpFormat(format, sdkInt) then WEBP_INFO else JPEG_INFO)
    ensures info == WEBP_INFO <==> IsWebpFormat(format, sdkInt)
  {
    match format
    case JPEG => JPEG_INFO
    case PNG => PNG_INFO
    case _ => if IsWebpFormat(format, sdkInt) then WEBP_INFO else JPEG_INFO
  }

  /** `getWebpFormat(lossless)`: the lossless or lossy variant from API level 30 on, the
      legacy (lossy) WEBP below it whatever `lossless` says. */
  function GetWebpFormat(lossless: bool, sdkInt: int): (format: CompressFormat)
    ensures sdkInt >= R && lossless ==> format == WEBP_LOSSLESS
    ensures sdkInt >= R && !lossless ==> format == WEBP_LOSSY
    ensures sdkInt < R ==> format == WEBP
  {
    if sdkInt >= R then (if lossless then WEBP_LOSSLESS else WEBP_LOSSY) else WEBP
  }

  /** `"$name$extension"`: the caller's name, or the generated one, followed by the
      format's extension. */
  function SavedFileName(fileName: Option<string>, generatedName: string, format: CompressFormat, sdkInt: int)
    : (n: string)
    ensures var base := if fileName.Some? then fileName.value else generatedName;
      var ext := GetFormatInfo(format, sdkInt).extension;
      |n| == |base| + |ext| && n[..|base|] == base && n[|base|..] == ext
  {
    fileName.GetOr(generatedName) + GetFormatInfo(format, sdkInt).extension
  }

  /** The MediaStore record `saveBitmapToMediaStore` inserts. */
  datatype MediaStoreValues = MediaStoreValues(displayName: string, mimeType: string, relativePath: Option<string>)

  /** The record for a MediaStore save: always the generated name, the format's MIME type,
      and a "Pictures/<folder>" relative path only above API level 28 (P). */
  function MediaStoreRecord(generatedName: string, folderName: string, format: CompressFormat, sdkInt: int)
    : (v: MediaStoreValues)
    ensures v.displayName == SavedFileName(None, generatedName, format, sdkInt)
    ensures v.mimeType == GetFormatInfo(format, sdkInt).mimeType
    ensures v.relativePath.Some? <==> sdkInt > P
    ensures v.relativePath.Some? ==> v.relativePath.value == "Pictures/" + folderName
  {
    var info := GetFormatInfo(format, sdkInt);
    MediaStoreValues(generatedName + info.extension, info.mimeType,
                     if sdkInt > P then Some("Pictures/" + folderName) else None)
  }

  // ------------------------------------------------------------ lemmas

  /** The format `getWebpFormat` picks is always saved as WEBP on the same API level. */
  lemma WebpFormatIsSavedAsWebp(lossless: bool, sdkInt: int)
    ensures GetFormatInfo(GetWebpFormat(lossless, sdkInt), sdkInt) == WEBP_INFO
  {
  }

  /** Below API level 30 the new WEBP variants are not recognised and are saved with the
      JPEG type and extension. */
  lemma NewWebpVariantsFallBackBelowR(format: CompressFormat, sdkInt: int)
    requires format == WEBP_LOSSY || format == WEBP_LOSSLESS
    requires sdkInt < R
    ensures GetFormatInfo(format, sdkInt) == JPEG_INFO
  {
  }

  /** Every format is saved with one of three pairs, and two saves with the same
      extension have the same MIME type. */
  lemma ExtensionDecidesMimeType(f1: CompressFormat, s1: int, f2: CompressFormat, s2: int)
    ensures GetFormatInfo(f1, s1) in {JPEG_INFO, PNG_INFO, WEBP_INFO}
    ensures GetFormatInfo(f1, s1).extension == GetFormatInfo(f2, s2).extension ==>
      GetFormatInfo(f1, s1).mimeType == GetFormatInfo(f2, s2).mimeType
  {
  }

  /** Removing the extension from a saved name gives back the name it was built from. */
  lemma StripExtensionRecoversName(fileName: string, format: CompressFormat, sdkInt: int, generatedName: string)
    ensures var n := SavedFileName(Some(fileName), generatedName, format, sdkInt);
      n[..|n| - |GetFormatInfo(format, sdkInt).extension|] == fileName
  {
  }
}
