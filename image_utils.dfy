// backend/utils/image.go: the initials that prefix a stored image's file
// name, and the removal of a data-URI header before base64 decoding.

module ImageUtils {
  import opened Common

  /**
   * Go's string(w[0]): the first UTF-8 byte of a word, read back as the
   * code point of that byte value. ASCII characters come through as they
   * are; any other character turns into its lead byte 0xC2..0xF4, which is
   * never an ASCII letter or digit.
   */
  function LeadByte(c: char): (b: char)
    ensures c as int < 0x80 ==> b == c
    ensures c as int >= 0x80 ==> 0xC0 <= b as int <= 0xF4 && !IsAsciiAlnum(b)
  {
    var n := c as int;
    if n < 0x80 then c
    else if n < 0x800 then (0xC0 + n / 64) as char
    else if n < 0x1_0000 then (0xE0 + n / 4096) as char
    else (0xF0 + n / 262144) as char
  }

  /** The first byte of every non-empty word, in order. */
  function FirstBytes(words: seq<string>): (s: string)
    ensures |s| <= |words|
    ensures (forall k :: 0 <= k < |words| ==> |words[k]| > 0) ==> |s| == |words|
  {
    if words == [] then ""
    else
      var last := words[|words| - 1];
      FirstBytes(words[..|words| - 1]) + (if |last| > 0 then [LeadByte(last[0])] else "")
  }

  /** regexp `[^a-zA-Z0-9]+` replaced by "": only the ASCII letters and digits survive, in order. */
  function KeepAlnum(s: string): (r: string)
    ensures |r| <= |s|
    ensures forall i :: 0 <= i < |r| ==> IsAsciiAlnum(r[i])
    ensures (forall i :: 0 <= i < |s| ==> IsAsciiAlnum(s[i])) ==> r == s
    ensures (forall i :: 0 <= i < |s| ==> !IsAsciiAlnum(s[i])) ==> r == ""
  {
    if s == [] then ""
    else (if IsAsciiAlnum(s[0]) then [s[0]] else "") + KeepAlnum(s[1..])
  }

  /** Upper-case ASCII letter or digit: the alphabet of an initials string. */
  predicate IsUpperAlnum(c: char) { 'A' <= c <= 'Z' || IsDigit(c) }

  /**
   * GetInitials as a value: the first bytes of the words, "LOC" when there
   * are none, then the non-alphanumerics removed and the rest upper-cased.
   */
  function Initials(name: string): string
  {
    InitialsOf(Fields(name))
  }

  /** The same, given the words of the name. */
  function InitialsOf(words: seq<string>): string
  {
    var firsts := FirstBytes(words);
    ToUpper(KeepAlnum(if firsts == "" then "LOC" else firsts))
  }

  /** GetInitials: the loop over strings.Fields appends one byte per word. */
  method GetInitials(name: string) returns (r: string)
    ensures r == Initials(name)
  {
    var words := Fields(name);
    var initials := "";
    var i := 0;
    while i < |words|
      invariant 0 <= i <= |words|
      invariant initials == FirstBytes(words[..i])
    {
      FirstBytesStep(words, i);
      if |words[i]| > 0 {
        initials := initials + [LeadByte(words[i][0])];
      }
      i := i + 1;
    }
    assert words[..|words|] == words;
    if initials == "" {
      initials := "LOC";
    }
    initials := KeepAlnum(initials);
    r := ToUpper(initials);
  }

  lemma FirstBytesStep(words: seq<string>, i: int)
    requires 0 <= i < |words|
    ensures FirstBytes(words[..i + 1])
      == FirstBytes(words[..i]) + (if |words[i]| > 0 then [LeadByte(words[i][0])] else "")
  {
    assert words[..i + 1][..i] == words[..i];
  }

  lemma UpperOfAlnum(s: string)
    requires forall i :: 0 <= i < |s| ==> IsAsciiAlnum(s[i])
    ensures forall i :: 0 <= i < |ToUpper(s)| ==> IsUpperAlnum(ToUpper(s)[i])
  {
    forall i | 0 <= i < |s|
      ensures IsUpperAlnum(ToUpper(s)[i])
    {
      assert ToUpper(s)[i] == UpperAscii(s[i]);
    }
  }

  /** Initials consist of upper-case ASCII letters and digits only. */
  lemma InitialsAlphabet(words: seq<string>)
    ensures forall i :: 0 <= i < |InitialsOf(words)| ==> IsUpperAlnum(InitialsOf(words)[i])
  {
    var firsts := FirstBytes(words);
    UpperOfAlnum(KeepAlnum(if firsts == "" then "LOC" else firsts));
  }

  /** At most one character per word, or the three of "LOC". */
  lemma InitialsLength(words: seq<string>)
    ensures |InitialsOf(words)| <= if |words| > 3 then |words| else 3
  {
  }

  /** A name without words gets "LOC". */
  lemma InitialsOfNoWords()
    ensures InitialsOf([]) == "LOC"
  {
    assert "LOC"[1..] == "OC" && "OC"[1..] == "C" && "C"[1..] == "";
    assert KeepAlnum("C") == "C";
    assert KeepAlnum("OC") == "OC";
    assert KeepAlnum("LOC") == "LOC";
    assert ToUpper("LOC") == "LOC" by {
      assert forall i :: 0 <= i < 3 ==> UpperAscii("LOC"[i]) == "LOC"[i];
    }
  }

  lemma {:induction false} FirstBytesOfAlnumWords(words: seq<string>)
    requires forall k :: 0 <= k < |words| ==> |words[k]| > 0 && IsAsciiAlnum(words[k][0])
    ensures |FirstBytes(words)| == |words|
    ensures forall k :: 0 <= k < |words| ==> FirstBytes(words)[k] == words[k][0]
  {
    if words != [] {
      FirstBytesOfAlnumWords(words[..|words| - 1]);
    }
  }

  /** Words that all start with an ASCII letter or digit give exactly their first letters, upper-cased. */
  lemma InitialsOfAlnumWords(words: seq<string>)
    requires words != []
    requires forall k :: 0 <= k < |words| ==> |words[k]| > 0 && IsAsciiAlnum(words[k][0])
    ensures |InitialsOf(words)| == |words|
    ensures forall k :: 0 <= k < |words| ==> InitialsOf(words)[k] == UpperAscii(words[k][0])
  {
    FirstBytesOfAlnumWords(words);
    var firsts := FirstBytes(words);
    assert forall i :: 0 <= i < |firsts| ==> IsAsciiAlnum(firsts[i]);
    assert KeepAlnum(firsts) == firsts;
  }

  lemma {:induction false} FirstBytesOfSymbolWords(words: seq<string>)
    requires forall k :: 0 <= k < |words| ==> |words[k]| > 0 && !IsAsciiAlnum(words[k][0])
    ensures |FirstBytes(words)| == |words|
    ensures forall i :: 0 <= i < |FirstBytes(words)| ==> !IsAsciiAlnum(FirstBytes(words)[i])
  {
    if words != [] {
      FirstBytesOfSymbolWords(words[..|words| - 1]);
      var last := words[|words| - 1];
      assert !IsAsciiAlnum(LeadByte(last[0]));
    }
  }

  /**
   * "LOC" replaces an empty initials string before the clean-up, not after:
   * a name whose words all start with a symbol or a non-ASCII letter gets
   * the empty string.
   */
  lemma InitialsOfSymbolWords(words: seq<string>)
    requires words != []
    requires forall k :: 0 <= k < |words| ==> |words[k]| > 0 && !IsAsciiAlnum(words[k][0])
    ensures InitialsOf(words) == ""
  {
    FirstBytesOfSymbolWords(words);
  }

  const Base64Marker := ";base64,"

  /**
   * ProcessBase64Image's header removal: the text after the first
   * ";base64," when there is one, the whole input otherwise.
   */
  function StripBase64Header(data: string): (raw: string)
    ensures !Contains(data, Base64Marker) ==> raw == data
    ensures Contains(data, Base64Marker) ==>
      exists i :: OccursAt(data, Base64Marker, i) && raw == data[i + 8..] &&
        forall j :: 0 <= j < i ==> !OccursAt(data, Base64Marker, j)
  {
    var idx := IndexOf(data, Base64Marker);
    if idx != -1 then data[idx + 8..] else data
  }

  lemma NoMarkerBefore(mt: string, payload: string)
    requires ';' !in mt
    ensures forall j :: 0 <= j < |"data:" + mt| ==> !OccursAt("data:" + mt + Base64Marker + payload, Base64Marker, j)
  {
    var s := "data:" + mt + Base64Marker + payload;
    forall j | 0 <= j < |"data:" + mt|
      ensures !OccursAt(s, Base64Marker, j)
    {
      assert s[j] == ("data:" + mt)[j] != ';';
    }
  }

  /**
   * Round trip with RFC 2397 section 3: a data URI whose media type has no
   * parameters, "data:<mediatype>;base64,<data>", gives back exactly <data>.
   */
  lemma StripDataUri(mt: string, payload: string)
    requires ';' !in mt
    ensures StripBase64Header("data:" + mt + Base64Marker + payload) == payload
  {
    var s := "data:" + mt + Base64Marker + payload;
    var p := |"data:" + mt|;
    assert s[p..p + 8] == Base64Marker;
    assert OccursAt(s, Base64Marker, p);
    NoMarkerBefore(mt, payload);
    assert IndexOf(s, Base64Marker) == p;
    assert s[p + 8..] == payload;
  }
}
