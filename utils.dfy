/** The file-type helpers of the file list: the extension of a file name, the
    colour class shown for an extension and the icon drawn for it. */
module Utils {
  import opened Text

  /** `getFileExtension`: the text after the last '.', lowercased. */
  function GetFileExtension(filename: string): (r: string)
    ensures '.' !in r
    ensures forall i :: 0 <= i < |r| ==> !IsUpper(r[i])
    ensures '.' !in filename ==> r == Lower(filename)
    ensures |filename| > 0 && filename[|filename| - 1] == '.' ==> r == ""
  {
    var seg := LastSegment(filename, '.');
    assert '.' !in filename ==> seg == filename;
    var r := Lower(seg);
    assert forall i :: 0 <= i < |r| ==> r[i] == LowerChar(seg[i]) && seg[i] != '.';
    r
  }

  /** The extension of `stem + "." + ext` is `ext` lowercased whenever `ext`
      holds no '.' itself, whatever the stem. */
  lemma {:induction false} ExtensionOfJoin(stem: string, ext: string)
    requires '.' !in ext
    ensures GetFileExtension(stem + "." + ext) == Lower(ext)
  {
    LastSegmentOfJoin(stem, '.', ext);
  }

  const DefaultColor: string := "text-gray-400"

  /** The colour table for the listed extensions. */
  const ColorMap: map<string, string> := map[
    "pdf" := "text-red-400", "doc" := "text-blue-400", "docx" := "text-blue-400",
    "txt" := "text-gray-400", "rtf" := "text-gray-400",
    "xls" := "text-green-400", "xlsx" := "text-green-400", "csv" := "text-green-400",
    "ppt" := "text-orange-400", "pptx" := "text-orange-400",
    "jpg" := "text-pink-400", "jpeg" := "text-pink-400", "png" := "text-pink-400",
    "gif" := "text-pink-400", "svg" := "text-pink-400", "webp" := "text-pink-400",
    "mp3" := "text-purple-400", "wav" := "text-purple-400", "ogg" := "text-purple-400",
    "mp4" := "text-indigo-400", "mov" := "text-indigo-400", "avi" := "text-indigo-400",
    "mkv" := "text-indigo-400",
    "zip" := "text-yellow-400", "rar" := "text-yellow-400", "7z" := "text-yellow-400",
    "js" := "text-yellow-400", "ts" := "text-blue-400", "jsx" := "text-blue-400",
    "tsx" := "text-blue-400", "html" := "text-orange-400", "css" := "text-blue-400",
    "json" := "text-yellow-400", "py" := "text-green-400", "java" := "text-red-400",
    "cpp" := "text-blue-400", "c" := "text-blue-400",
    "sql" := "text-blue-400", "md" := "text-blue-400"]

  /** The Tailwind colours the table uses. */
  const Palette: set<string> :=
    {"red", "blue", "gray", "green", "orange", "pink", "purple", "indigo", "yellow"}

  /** `getFileTypeColor`: the listed class for a listed extension, the grey
      default for anything else; the lookup is exact, not case-folded. */
  function GetFileTypeColor(ext: string): (r: string)
    ensures ext in ColorMap ==> r == ColorMap[ext]
    ensures ext !in ColorMap ==> r == DefaultColor
  {
    if ext in ColorMap && ColorMap[ext] != "" then ColorMap[ext] else DefaultColor
  }

  /** The class `text-<c>-400` of colour `c`. */
  function ClassOf(c: string): string {
    "text-" + c + "-400"
  }

  /** Every result is a class `text-<colour>-400` of the palette. */
  lemma ColorIsPaletteClass(ext: string)
    ensures exists c :: c in Palette && GetFileTypeColor(ext) == ClassOf(c)
  {
    ColorMapUsesPalette();
    if ext in ColorMap {
      ClassOfPalette(ColorMap[ext]);
    } else {
      ClassOfPalette(DefaultColor);
    }
  }

  lemma ClassOfPalette(r: string)
    requires r in PaletteClasses
    ensures exists c :: c in Palette && r == ClassOf(c)
  {
  }

  /** The classes of the palette. */
  const PaletteClasses: set<string> :=
    {ClassOf("red"), ClassOf("blue"), ClassOf("gray"), ClassOf("green"), ClassOf("orange"),
     ClassOf("pink"), ClassOf("purple"), ClassOf("indigo"), ClassOf("yellow")}

  /** The table and the default use only classes of the palette. */
  lemma ColorMapUsesPalette()
    ensures DefaultColor in PaletteClasses
    ensures forall k :: k in ColorMap ==> ColorMap[k] in PaletteClasses
  {
    ClassLiterals();
  }

  lemma ClassLiterals()
    ensures ClassOf("red") == "text-red-400" && ClassOf("blue") == "text-blue-400"
    ensures ClassOf("gray") == "text-gray-400" && ClassOf("green") == "text-green-400"
    ensures ClassOf("orange") == "text-orange-400" && ClassOf("pink") == "text-pink-400"
    ensures ClassOf("purple") == "text-purple-400" && ClassOf("indigo") == "text-indigo-400"
    ensures ClassOf("yellow") == "text-yellow-400"
  {
  }

  /** The colour lookup is case-sensitive: an upper-case extension of a listed
      type falls back to the default. */
  lemma ColorIsCaseSensitive()
    ensures GetFileTypeColor("pdf") == "text-red-400"
    ensures GetFileTypeColor("PDF") == DefaultColor
  {
    assert "PDF" !in ColorMap;
  }

  /** The icon groups of `getFileTypeIcon`, standing for its SVG strings. */
  datatype IconCategory = DocumentIcon | PdfIcon | ImageIcon | CodeIcon | SheetIcon | TextIcon | DefaultIcon

  const DocumentExts: seq<string> := ["doc", "docx"]
  const PdfExts: seq<string> := ["pdf"]
  const ImageExts: seq<string> := ["jpg", "jpeg", "png", "gif", "bmp", "webp"]
  const CodeExts: seq<string> := ["js", "jsx", "ts", "tsx"]
  const SheetExts: seq<string> := ["xls", "xlsx", "csv"]
  const TextExts: seq<string> := ["txt", "md"]
  const IconExts: seq<string> := DocumentExts + PdfExts + ImageExts + CodeExts + SheetExts + TextExts

  /** `getFileTypeIcon`: lowercase, then the first group that lists the
      extension; the default icon when none does. */
  function GetFileTypeIcon(extension: string): (r: IconCategory)
    ensures r == DocumentIcon <==> Lower(extension) in DocumentExts
    ensures r == PdfIcon <==> Lower(extension) in PdfExts
    ensures r == ImageIcon <==> Lower(extension) in ImageExts
    ensures r == CodeIcon <==> Lower(extension) in CodeExts
    ensures r == SheetIcon <==> Lower(extension) in SheetExts
    ensures r == TextIcon <==> Lower(extension) in TextExts
    ensures r == DefaultIcon <==> Lower(extension) !in IconExts
  {
    var ext := Lower(extension);
    if ext in DocumentExts then DocumentIcon
    else if ext in PdfExts then PdfIcon
    else if ext in ImageExts then ImageIcon
    else if ext in CodeExts then CodeIcon
    else if ext in SheetExts then SheetIcon
    else if ext in TextExts then TextIcon
    else DefaultIcon
  }

  /** Unlike the colour lookup, the icon does not depend on letter case. */
  lemma {:induction false} IconIgnoresCase(extension: string)
    ensures GetFileTypeIcon(extension) == GetFileTypeIcon(Lower(extension))
  {
    LowerIdempotent(extension);
  }
}
