/** Text written by internal/filesystem/filewriter.go is read back by filereader.go as it was written. */
module TextRoundTrip {
  import opened Unicode
  import opened TextFiles

  // ----- replacing in UTF-8 is replacing in the text ---------------------------------------------

  ghost predicate Ascii(rs: seq<Rune>) { forall r :: r in rs ==> r < 0x80 }

  lemma {:induction false} AsciiBytes(rs: seq<Rune>)
    requires Ascii(rs)
    ensures |Utf8(rs)| == |rs| && forall i :: 0 <= i < |rs| ==> Utf8(rs)[i] == rs[i]
  {
    if rs != [] {
      assert rs[0] in rs;
      LeadByte(rs[0]);
      hide Utf8Rune;
      assert forall r :: r in rs[1..] ==> r in rs;
      AsciiBytes(rs[1..]);
    }
  }

  lemma {:induction false} AsciiPrefix(rs: seq<Rune>, what: seq<Rune>)
    requires Ascii(what)
    ensures Utf8(what) <= Utf8(rs) <==> what <= rs
  {
    if what != [] {
      assert what[0] in what;
      LeadByte(what[0]);
      if rs != [] {
        LeadByte(rs[0]);
        hide Utf8Rune;
        assert forall r :: r in what[1..] ==> r in what;
        AsciiPrefix(rs[1..], what[1..]);
        var b, more := Utf8Rune(rs[0]), Utf8(rs[1..]);
        assert Utf8(what) == [what[0]] + Utf8(what[1..]) && Utf8(rs) == b + more;
        if rs[0] == what[0] {
          assert Utf8(what) <= Utf8(rs) <==> Utf8(what[1..]) <= more by { ConsPrefix(what[0], Utf8(what[1..]), more); }
          assert what <= rs <==> what[1..] <= rs[1..] by {
            ConsPrefix(what[0], what[1..], rs[1..]);
            assert what == [what[0]] + what[1..] && rs == [rs[0]] + rs[1..];
          }
        } else {
          assert Utf8(what)[0] == what[0] && Utf8(rs)[0] == b[0];
        }
      }
    }
  }

  lemma ConsPrefix<T>(x: T, a: seq<T>, b: seq<T>)
    ensures [x] + a <= [x] + b <==> a <= b
  {
    if [x] + a <= [x] + b {
      assert a == ([x] + a)[1..] && b == ([x] + b)[1..];
    }
  }

  lemma {:induction false} SkipBytes(b: seq<Byte>, more: seq<Byte>, what: seq<Byte>, put: seq<Byte>)
    requires what != [] && what[0] < 0x80 && forall i :: 0 <= i < |b| ==> b[i] >= 0x80
    ensures ReplaceAll(b + more, what, put) == b + ReplaceAll(more, what, put)
  {
    if b == [] {
      assert b + more == more;
    } else {
      SkipBytes(b[1..], more, what, put);
      assert (b + more)[0] == b[0] && (b + more)[1..] == b[1..] + more;
    }
  }

  lemma {:induction false} ReplaceInText(rs: seq<Rune>, what: seq<Rune>, put: seq<Rune>)
    requires what != [] && Ascii(what)
    ensures Utf8(what) != [] && ReplaceAll(Utf8(rs), Utf8(what), Utf8(put)) == Utf8(ReplaceAll(rs, what, put))
    decreases |rs|
  {
    hide Utf8Rune;
    AsciiBytes(what);
    assert what[0] in what;
    if rs != [] {
      AsciiPrefix(rs, what);
      LeadByte(rs[0]);
      if what <= rs {
        var rest := rs[|what|..];
        assert rs == what + rest;
        Utf8Append(what, rest);
        assert Utf8(rs)[|what|..] == Utf8(rest);
        ReplaceInText(rest, what, put);
        Utf8Append(put, ReplaceAll(rest, what, put));
      } else {
        ReplaceInText(rs[1..], what, put);
        NoMatchStep(rs, what, put);
      }
    }
  }

  lemma NoMatchStep(rs: seq<Rune>, what: seq<Rune>, put: seq<Rune>)
    requires what != [] && Ascii(what) && rs != [] && !(what <= rs) && Utf8(what) != [] && !(Utf8(what) <= Utf8(rs))
    requires ReplaceAll(Utf8(rs[1..]), Utf8(what), Utf8(put)) == Utf8(ReplaceAll(rs[1..], what, put))
    ensures ReplaceAll(Utf8(rs), Utf8(what), Utf8(put)) == Utf8(ReplaceAll(rs, what, put))
  {
    AsciiBytes(what);
    assert what[0] in what;
    LeadByte(rs[0]);
    hide Utf8Rune;
    var b, more := Utf8Rune(rs[0]), Utf8(rs[1..]);
    assert Utf8(rs) == b + more;
    var replaced := ReplaceAll(rs[1..], what, put);
    assert ([rs[0]] + replaced)[1..] == replaced;
    assert Utf8([rs[0]] + replaced) == b + Utf8(replaced);
    if rs[0] < 0x80 {
      assert (b + more)[0] == b[0] && (b + more)[1..] == more;
    } else {
      SkipBytes(b, more, Utf8(what), Utf8(put));
    }
  }

  // ----- the converted text ---------------------------------------------------------------------

  const LF_TEXT: seq<Rune> := [10]
  const CR_TEXT: seq<Rune> := [13]
  const CRLF_TEXT: seq<Rune> := [13, 10]

  function ConvertText(rs: seq<Rune>, target: string): seq<Rune> {
    var normalized := ReplaceAll(ReplaceAll(rs, CRLF_TEXT, LF_TEXT), CR_TEXT, LF_TEXT);
    if target == "crlf" then ReplaceAll(normalized, LF_TEXT, CRLF_TEXT) else if target == "lf" then normalized else rs
  }

  lemma EndingBytes()
    ensures Utf8(LF_TEXT) == [LF] && Utf8(CR_TEXT) == [CR] && Utf8(CRLF_TEXT) == [CR, LF]
    ensures Ascii(LF_TEXT) && Ascii(CR_TEXT) && Ascii(CRLF_TEXT)
  {
    AsciiBytes(LF_TEXT);
    AsciiBytes(CR_TEXT);
    AsciiBytes(CRLF_TEXT);
  }

  /** Converting line endings in the bytes is converting them in the text. */
  lemma ConvertIsText(rs: seq<Rune>, target: string)
    ensures Convert(Utf8(rs), target) == Utf8(ConvertText(rs, target))
  {
    hide Utf8, ReplaceAll, Ascii;
    EndingBytes();
    ReplaceInText(rs, CRLF_TEXT, LF_TEXT);
    var once := ReplaceAll(rs, CRLF_TEXT, LF_TEXT);
    ReplaceInText(once, CR_TEXT, LF_TEXT);
    ReplaceInText(ReplaceAll(once, CR_TEXT, LF_TEXT), LF_TEXT, CRLF_TEXT);
  }

  predicate StartsBom(rs: seq<Rune>) { rs != [] && rs[0] == BOM }

  lemma ReplaceKeepsStart(rs: seq<Rune>, what: seq<Rune>, put: seq<Rune>)
    requires what != [] && put != [] && BOM != what[0] && BOM != put[0]
    ensures StartsBom(ReplaceAll(rs, what, put)) <==> StartsBom(rs)
  {
  }

  lemma ConvertKeepsStart(rs: seq<Rune>, target: string)
    ensures StartsBom(ConvertText(rs, target)) <==> StartsBom(rs)
  {
    hide ReplaceAll;
    var once := ReplaceAll(rs, CRLF_TEXT, LF_TEXT);
    ReplaceKeepsStart(rs, CRLF_TEXT, LF_TEXT);
    ReplaceKeepsStart(once, CR_TEXT, LF_TEXT);
    ReplaceKeepsStart(ReplaceAll(once, CR_TEXT, LF_TEXT), LF_TEXT, CRLF_TEXT);
  }

  // ----- line endings ---------------------------------------------------------------------------

  lemma {:induction false} NoCr(s: seq<Byte>)
    ensures CR !in ReplaceAll(s, [CR], [LF])
    decreases |s|
  {
    if s != [] { NoCr(s[1..]); }
  }

  lemma {:induction false} CrlfOnly(n: seq<Byte>)
    requires CR !in n
    ensures var w := ReplaceAll(n, [LF], [CR, LF]);
            && (HasCrlf(w) <==> LF in n) && (LF in w <==> LF in n)
            && LF !in ReplaceAll(w, [CR, LF], []) && CR !in ReplaceAll(w, [CR, LF], []) && (CR in w <==> LF in n)
    decreases |n|
  {
    if n != [] {
      CrlfOnly(n[1..]);
      var w, more := ReplaceAll(n, [LF], [CR, LF]), ReplaceAll(n[1..], [LF], [CR, LF]);
      assert n == [n[0]] + n[1..];
      if n[0] == LF {
        assert w == [CR, LF] + more && w[2..] == more && w[0] == CR && w[1] == LF;
      } else {
        assert w == [n[0]] + more && w[1..] == more && w[0] != CR;
        HasCrlfCons(n[0], more);
      }
    }
  }

  lemma HasCrlfCons(x: Byte, s: seq<Byte>)
    requires x != CR
    ensures HasCrlf([x] + s) <==> HasCrlf(s)
  {
    var w := [x] + s;
    if i :| 0 <= i < |w| - 1 && w[i] == CR && w[i + 1] == LF {
      assert s[i - 1] == CR && s[i - 1 + 1] == LF;
    }
    if i :| 0 <= i < |s| - 1 && s[i] == CR && s[i + 1] == LF {
      assert w[i + 1] == CR && w[i + 1 + 1] == LF;
    }
  }

  /** Converted text reports the chosen ending, or none when it has a single line. */
  lemma EndingsReported(content: seq<Byte>, target: string)
    requires target == "lf" || target == "crlf"
    ensures LineEndings(Convert(content, target)) == if LF in Convert(content, target) then target else "none"
  {
    var once := ReplaceAll(content, [CR, LF], [LF]);
    hide ReplaceAll;
    NoCr(once);
    CrlfOnly(Normalized(content));
  }

  // Every line end is CR LF: none of the two bytes stands without the other.
  ghost predicate Paired(s: seq<Byte>) {
    && (forall i :: 0 <= i < |s| && s[i] == LF ==> 0 < i && s[i - 1] == CR)
    && (forall i :: 0 <= i < |s| && s[i] == CR ==> i + 1 < |s| && s[i + 1] == LF)
  }

  lemma PairedAfter(s: seq<Byte>)
    requires [CR, LF] <= s
    ensures Paired(s) <==> Paired(s[2..])
  {
    var t := s[2..];
    assert s[0] == CR && s[1] == LF;
    assert forall i :: 0 <= i < |t| ==> t[i] == s[i + 2];
    if Paired(t) {
      forall i | 0 <= i < |s| && s[i] == LF ensures 0 < i && s[i - 1] == CR { if i >= 2 { assert t[i - 2] == LF; } }
      forall i | 0 <= i < |s| && s[i] == CR ensures i + 1 < |s| && s[i + 1] == LF { if i >= 2 { assert t[i - 2] == CR; } }
    }
    if Paired(s) {
      forall i | 0 <= i < |t| && t[i] == LF ensures 0 < i && t[i - 1] == CR { assert s[i + 2] == LF; }
      forall i | 0 <= i < |t| && t[i] == CR ensures i + 1 < |t| && t[i + 1] == LF { assert s[i + 2] == CR; }
    }
  }

  lemma PairedPlain(s: seq<Byte>)
    requires s != [] && s[0] != CR && s[0] != LF
    ensures Paired(s) <==> Paired(s[1..])
  {
    var t := s[1..];
    assert forall i :: 0 <= i < |t| ==> t[i] == s[i + 1];
    if Paired(t) {
      forall i | 0 <= i < |s| && s[i] == LF ensures 0 < i && s[i - 1] == CR { assert t[i - 1] == LF; }
      forall i | 0 <= i < |s| && s[i] == CR ensures i + 1 < |s| && s[i + 1] == LF { assert t[i - 1] == CR; }
    }
    if Paired(s) {
      forall i | 0 <= i < |t| && t[i] == LF ensures 0 < i && t[i - 1] == CR { assert s[i + 1] == LF; }
      forall i | 0 <= i < |t| && t[i] == CR ensures i + 1 < |t| && t[i + 1] == LF { assert s[i + 1] == CR; }
    }
  }

  lemma {:induction false} PairsRemoved(s: seq<Byte>)
    ensures Paired(s) <==> CR !in ReplaceAll(s, [CR, LF], []) && LF !in ReplaceAll(s, [CR, LF], [])
    decreases |s|
  {
    hide Paired;
    if s == [] {
      assert Paired([]) by { EmptyPaired(); }
    } else if [CR, LF] <= s {
      PairedAfter(s);
      PairsRemoved(s[2..]);
    } else {
      PairsRemoved(s[1..]);
      if s[0] == CR || s[0] == LF { Unpaired(s); } else { PairedPlain(s); }
    }
  }

  lemma EmptyPaired()
    ensures Paired([])
  {
  }

  lemma Unpaired(s: seq<Byte>)
    requires s != [] && (s[0] == CR || s[0] == LF) && !([CR, LF] <= s)
    ensures !Paired(s)
  {
  }

  /** What each reported ending means, for any content. */
  lemma EndingMeans(s: seq<Byte>)
    ensures LineEndings(s) == "none" <==> LF !in s && CR !in s
    ensures LineEndings(s) == "lf" <==> LF in s && CR !in s
    ensures LineEndings(s) == "cr" <==> CR in s && LF !in s
    ensures LineEndings(s) == "crlf" <==> CR in s && Paired(s)
    ensures LineEndings(s) in {"none", "lf", "cr", "crlf", "mixed"}
  {
    PairsRemoved(s);
    hide ReplaceAll;
    if i :| 0 <= i < |s| - 1 && s[i] == CR && s[i + 1] == LF { assert s[i] in s && s[i + 1] in s; }
    if i :| 0 <= i < |s| && s[i] == CR {
      if Paired(s) { CrlfAt(s, i); }
    }
  }

  lemma CrlfAt(s: seq<Byte>, i: nat)
    requires i + 1 < |s| && s[i] == CR && s[i + 1] == LF
    ensures HasCrlf(s)
  {
  }

  // ----- the round trip -------------------------------------------------------------------------

  lemma Utf8Start(rs: seq<Rune>)
    requires rs != []
    ensures var b := Utf8(rs); b != [] && b[0] < 0xF5 && ([0xEF, 0xBB, 0xBF] <= b <==> StartsBom(rs))
  {
    LeadByte(rs[0]);
    var b := Utf8(rs);
    WidthOfRune(rs[0], Utf8(rs[1..]));
    RuneReadsBack(rs[0], Utf8(rs[1..]));
    assert Utf8Rune(BOM) == [0xEF, 0xBB, 0xBF];
    if [0xEF, 0xBB, 0xBF] <= b {
      assert b[0] == 0xEF && b[1] == 0xBB && b[2] == 0xBF;
      assert Width(b) == 3;
    }
  }

  lemma Utf16RoundTrip(rs: seq<Rune>, big: bool)
    ensures Utf8(FromUtf16(UnitsOf(UnitBytes(Utf16(Runes(Utf8(rs))), big), big))) == Utf8(rs)
  {
    hide Utf8, Runes, UnitsOf, UnitBytes, Utf16, FromUtf16, ValidUtf8;
    Utf8ReadsBack(rs);
    Utf16Bytes(rs, big);
  }

  /**
   Valid Unicode text, its line endings converted or not, is read back exactly as converted and with its encoding:
   always with a byte order mark, and in plain UTF-8 if and only if the text does not start with U+FEFF.
   */
  lemma WriteThenRead(rs: seq<Rune>, target: string, encoding: string)
    ensures var written := Convert(Utf8(rs), target);
            var read := Decoded(Encoded(written, encoding));
            if encoding == "utf-8-bom" || encoding == "utf-16le" || encoding == "utf-16be"
            then read.content == written && read.encoding == encoding
            else read.content == written && read.encoding == "utf-8" <==> !StartsBom(rs)
  {
    hide Convert, ConvertText, Utf8, Utf8Rune, Runes, UnitsOf, UnitBytes, Utf16, FromUtf16, ValidUtf8, LineEndings, Binary, Latin1;
    var text := ConvertText(rs, target);
    ConvertIsText(rs, target);
    ConvertKeepsStart(rs, target);
    ReadsBack(text, encoding);
  }

  lemma ReadsBack(rs: seq<Rune>, encoding: string)
    ensures var written := Utf8(rs);
            var read := Decoded(Encoded(written, encoding));
            if encoding == "utf-8-bom" || encoding == "utf-16le" || encoding == "utf-16be"
            then read.content == written && read.encoding == encoding
            else read.content == written && read.encoding == "utf-8" <==> !StartsBom(rs)
  {
    Utf8ReadsBack(rs);
    if rs != [] { Utf8Start(rs); }
    EmptyText();
    var written := Utf8(rs);
    hide Utf8, Utf8Rune, Runes, Utf16, FromUtf16, ValidUtf8, LineEndings, Binary, Detected;
    if encoding == "utf-16le" || encoding == "utf-16be" {
      var big := encoding == "utf-16be";
      DetectsUtf16(UnitBytes(Utf16(Runes(written)), big), big);
      Utf16RoundTrip(rs, big);
    } else if encoding == "utf-8-bom" {
      DetectsBom(written);
    } else {
      DetectsPlain(written);
    }
  }

  lemma DetectsUtf16(payload: seq<Byte>, big: bool)
    ensures Detected((if big then [0xFE, 0xFF] else [0xFF, 0xFE]) + payload)
            == (Utf8(FromUtf16(UnitsOf(payload, big))), if big then "utf-16be" else "utf-16le")
  {
    hide Utf8, FromUtf16, UnitsOf;
    var data := (if big then [0xFE, 0xFF] else [0xFF, 0xFE]) + payload;
    assert data[2..] == payload && data[0] == (if big then 0xFE else 0xFF) && data[1] == (if big then 0xFF else 0xFE);
  }

  lemma DetectsBom(content: seq<Byte>)
    ensures Detected([0xEF, 0xBB, 0xBF] + content) == (content, "utf-8-bom")
  {
    assert ([0xEF, 0xBB, 0xBF] + content)[3..] == content;
  }

  lemma DetectsPlain(content: seq<Byte>)
    requires ValidUtf8(content) && (content != [] ==> content[0] < 0xF5)
    ensures Detected(content) == if [0xEF, 0xBB, 0xBF] <= content then (content[3..], "utf-8-bom") else (content, "utf-8")
  {
    hide ValidUtf8;
  }

  lemma EmptyText()
    ensures Utf8([]) == []
  {
  }

  /** Whenever the content comes back, the reader reports the ending chosen, or none if there is none or it is binary. */
  lemma ReportsChosenEnding(rs: seq<Rune>, target: string, encoding: string)
    requires target == "lf" || target == "crlf"
    requires encoding == "utf-8-bom" || encoding == "utf-16le" || encoding == "utf-16be" || !StartsBom(rs)
    ensures var written := Convert(Utf8(rs), target);
            var read := Decoded(Encoded(written, encoding));
            read.lineEndings == if read.isBinary || LF !in written then "none" else target
  {
    WriteThenRead(rs, target, encoding);
    EndingsReported(Utf8(rs), target);
    hide Convert, Encoded, LineEndings, Utf8;
    var data := Encoded(Convert(Utf8(rs), target), encoding);
    if data == [] { EmptyWritten(rs, target, encoding); }
  }

  lemma EmptyWritten(rs: seq<Rune>, target: string, encoding: string)
    requires Encoded(Convert(Utf8(rs), target), encoding) == []
    ensures Convert(Utf8(rs), target) == []
  {
    hide Convert;
  }
}
