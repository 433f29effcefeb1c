/** Writing and reading text files: internal/filesystem/filewriter.go and filereader.go. */
module TextFiles {
  import opened Unicode

  const LF: Byte := 10
  const CR: Byte := 13
  const BOM: Rune := 0xFEFF
  const BINARY_WINDOW := 8192

  // strings.ReplaceAll, for a non-empty `what`.
  function ReplaceAll<T(==)>(s: seq<T>, what: seq<T>, put: seq<T>): seq<T>
    requires what != []
    decreases |s|
  {
    if s == [] then []
    else if what <= s then put + ReplaceAll(s[|what|..], what, put)
    else [s[0]] + ReplaceAll(s[1..], what, put)
  }

  // ----- writing --------------------------------------------------------------------------------

  function Normalized(content: seq<Byte>): seq<Byte> { ReplaceAll(ReplaceAll(content, [CR, LF], [LF]), [CR], [LF]) }

  // convertLineEndings; an empty target is no conversion at all.
  function Convert(content: seq<Byte>, target: string): seq<Byte> {
    if target == "crlf" then ReplaceAll(Normalized(content), [LF], [CR, LF])
    else if target == "lf" then Normalized(content)
    else content
  }

  function Encoded(content: seq<Byte>, encoding: string): seq<Byte> {
    if encoding == "utf-8-bom" then [0xEF, 0xBB, 0xBF] + content
    else if encoding == "utf-16le" then [0xFF, 0xFE] + UnitBytes(Utf16(Runes(content)), false)
    else if encoding == "utf-16be" then [0xFE, 0xFF] + UnitBytes(Utf16(Runes(content)), true)
    else content
  }

  method EncodeContent(content: seq<Byte>, encoding: string) returns (data: seq<Byte>)
    ensures data == Encoded(content, encoding)
  {
    match encoding {
      case "utf-8-bom" =>
        return [0xEF, 0xBB, 0xBF] + content;
      case "utf-16le" =>
        var a := EncodeUTF16(content, false);
        return a[..];
      case "utf-16be" =>
        var a := EncodeUTF16(content, true);
        return a[..];
      case _ =>
        return content;
    }
  }

  // ----- reading --------------------------------------------------------------------------------

  datatype FileContent = FileContent(content: seq<Byte>, encoding: string, lineEndings: string, size: nat, isBinary: bool)

  predicate HasCrlf(s: seq<Byte>) { exists i :: 0 <= i < |s| - 1 && s[i] == CR && s[i + 1] == LF }

  predicate Binary(content: seq<Byte>) { 0 in content[..if |content| < BINARY_WINDOW then |content| else BINARY_WINDOW] }

  function LineEndings(content: seq<Byte>): string {
    if HasCrlf(content) then
      var rest := ReplaceAll(content, [CR, LF], []);
      if LF in rest || CR in rest then "mixed" else "crlf"
    else if LF in content && CR in content then "mixed"
    else if LF in content then "lf"
    else if CR in content then "cr"
    else "none"
  }

  function Latin1(data: seq<Byte>): seq<Rune> { seq(|data|, i requires 0 <= i < |data| => data[i] as int) }

  // detectAndDecode: the content as UTF-8, and the name of its encoding.
  function Detected(data: seq<Byte>): (seq<Byte>, string) {
    if [0xEF, 0xBB, 0xBF] <= data then (data[3..], "utf-8-bom")
    else if [0xFF, 0xFE] <= data then (Utf8(FromUtf16(UnitsOf(data[2..], false))), "utf-16le")
    else if [0xFE, 0xFF] <= data then (Utf8(FromUtf16(UnitsOf(data[2..], true))), "utf-16be")
    else if ValidUtf8(data) then (data, "utf-8")
    else (Utf8(Latin1(data)), "latin-1")
  }

  function Decoded(data: seq<Byte>): FileContent {
    if data == [] then FileContent([], "utf-8", "none", 0, false)
    else
      var (content, encoding) := Detected(data);
      FileContent(content, encoding, if Binary(content) then "none" else LineEndings(content), |data|, Binary(content))
  }

  method DetectAndDecode(data: seq<Byte>) returns (content: seq<Byte>, encoding: string)
    ensures (content, encoding) == Detected(data)
  {
    hide Utf8, FromUtf16, ValidUtf8, Latin1, UnitsOf;
    if |data| >= 3 && data[0] == 0xEF && data[1] == 0xBB && data[2] == 0xBF {
      return data[3..], "utf-8-bom";
    }
    if |data| >= 2 {
      if data[0] == 0xFF && data[1] == 0xFE {
        content := DecodeUTF16(data[2..], false);
        return content, "utf-16le";
      }
      if data[0] == 0xFE && data[1] == 0xFF {
        content := DecodeUTF16(data[2..], true);
        return content, "utf-16be";
      }
    }
    if ValidUtf8(data) {
      return data, "utf-8";
    }
    content := DecodeLatin1(data);
    return content, "latin-1";
  }

  method DecodeLatin1(data: seq<Byte>) returns (content: seq<Byte>)
    ensures content == Utf8(Latin1(data))
  {
    hide Utf8;
    var runes := new Rune[|data|](_ => 0);
    for i := 0 to |data|
      invariant forall k :: 0 <= k < i ==> runes[k] == data[k] as int
    {
      runes[i] := data[i] as int;
    }
    assert runes[..] == Latin1(data);
    content := Utf8(runes[..]);
  }

  method DecodeBytes(data: seq<Byte>) returns (r: FileContent)
    ensures r == Decoded(data)
  {
    hide Detected, LineEndings;
    if |data| == 0 {
      return FileContent([], "utf-8", "none", 0, false);
    }
    var content, encoding := DetectAndDecode(data);
    var isBinary := Binary(content);
    var endings := if !isBinary then LineEndings(content) else "none";
    r := FileContent(content, encoding, endings, |data|, isBinary);
  }
}
