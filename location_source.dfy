// backend/models/location_source.go: the video or picture attached to a
// location, the base64 clean-up and header removal applied to uploaded
// pictures, and the rule that a camera snapshot never replaces a link.

module LocationSourceModel {
  import opened Common
  import ImageUtils

  const SourceTypeLink := "link"
  const SourceTypeImage := "image"
  const SourceTypeOptions: seq<string> := [SourceTypeLink, SourceTypeImage]

  datatype LocationSource = LocationSource(id: string, locationId: string, sourceType: string, sourceData: string)

  /** IsValidSourceType: the loop over SourceTypeOptions with early return. */
  method IsValidSourceType(value: string) returns (ok: bool)
    ensures ok <==> value == SourceTypeLink || value == SourceTypeImage
  {
    ok := LinearSearch(SourceTypeOptions, value);
  }

  /** The value the method above computes, for use in specifications. */
  predicate IsSourceType(value: string)
  {
    value in SourceTypeOptions
  }

  /** The characters processBase64ToImage removes after trimming. */
  predicate IsStripped(c: char) { c == '\n' || c == '\r' || c == ' ' || c == '\t' }

  /** Trimmed, then every '\n', '\r', ' ' and '\t' removed, in that order. */
  function CleanedBase64(data: string): string
  {
    RemoveChar(RemoveChar(RemoveChar(RemoveChar(TrimSpace(data), '\n'), '\r'), ' '), '\t')
  }

  /**
   * processBase64ToImage's clean-up: base64Data is reassigned by
   * strings.TrimSpace and then one strings.ReplaceAll per character.
   */
  method CleanBase64(data: string) returns (r: string)
    ensures r == CleanedBase64(data)
    ensures forall i :: 0 <= i < |r| ==> !IsStripped(r[i])
    ensures forall c :: c in r ==> c in data
  {
    r := TrimSpace(data);
    ReplaceCharByNothing(r, '\n');
    r := ReplaceAll(r, "\n", "");
    ReplaceCharByNothing(r, '\r');
    r := ReplaceAll(r, "\r", "");
    ReplaceCharByNothing(r, ' ');
    r := ReplaceAll(r, " ", "");
    ReplaceCharByNothing(r, '\t');
    r := ReplaceAll(r, "\t", "");
    assert forall i :: 0 <= i < |r| ==> r[i] in r;
    TrimSpaceChars(data);
  }

  lemma TrimSpaceChars(s: string)
    ensures forall c :: c in TrimSpace(s) ==> c in s
  {
    var t := TrimLeftSpace(s);
    forall c | c in TrimSpace(s)
      ensures c in s
    {
      var i :| 0 <= i < |TrimSpace(s)| && TrimSpace(s)[i] == c;
      assert c == t[i];
      assert c == s[|s| - |t| + i];
    }
  }

  lemma {:induction false} RemoveAbsent(s: string, c: char)
    requires c !in s
    ensures RemoveChar(s, c) == s
  {
    if s != [] {
      RemoveAbsent(s[1..], c);
      assert s == [s[0]] + s[1..];
    }
  }

  lemma TrimSpaceOfNonSpaceEnds(s: string)
    requires s != [] ==> !IsSpace(s[0]) && !IsSpace(s[|s| - 1])
    ensures TrimSpace(s) == s
  {
  }

  lemma {:induction false} RemoveKeepsEnds(s: string, c: char)
    requires s != [] && s[0] != c && s[|s| - 1] != c
    ensures RemoveChar(s, c) != []
    ensures RemoveChar(s, c)[0] == s[0]
    ensures RemoveChar(s, c)[|RemoveChar(s, c)| - 1] == s[|s| - 1]
  {
    var r := RemoveChar(s[1..], c);
    assert RemoveChar(s, c) == [s[0]] + r;
    if |s| > 1 {
      RemoveLast(s[1..], c);
      assert s[1..][|s[1..]| - 1] == s[|s| - 1];
    }
  }

  lemma {:induction false} RemoveLast(s: string, c: char)
    requires s != [] && s[|s| - 1] != c
    ensures RemoveChar(s, c) != []
    ensures RemoveChar(s, c)[|RemoveChar(s, c)| - 1] == s[|s| - 1]
  {
    if |s| > 1 {
      RemoveLast(s[1..], c);
    }
  }

  /** Cleaning an already cleaned string changes nothing. */
  lemma CleanIdempotent(data: string)
    ensures CleanedBase64(CleanedBase64(data)) == CleanedBase64(data)
  {
    var r := CleanedBase64(data);
    CleanedEnds(data);
    TrimSpaceOfNonSpaceEnds(r);
    CleanedLacksStripped(data);
    RemoveAbsent(r, '\n');
    RemoveAbsent(r, '\r');
    RemoveAbsent(r, ' ');
    RemoveAbsent(r, '\t');
  }

  /** Removing characters keeps the trimmed ends, which are not white space. */
  lemma CleanedEnds(data: string)
    ensures CleanedBase64(data) != [] ==>
      !IsSpace(CleanedBase64(data)[0]) && !IsSpace(CleanedBase64(data)[|CleanedBase64(data)| - 1])
  {
    var t := TrimSpace(data);
    var a := RemoveChar(t, '\n');
    var b := RemoveChar(a, '\r');
    var c := RemoveChar(b, ' ');
    if t != [] {
      RemoveKeepsEnds(t, '\n');
      RemoveKeepsEnds(a, '\r');
      RemoveKeepsEnds(b, ' ');
      RemoveKeepsEnds(c, '\t');
    }
  }

  lemma CleanedLacksStripped(data: string)
    ensures '\n' !in CleanedBase64(data) && '\r' !in CleanedBase64(data)
    ensures ' ' !in CleanedBase64(data) && '\t' !in CleanedBase64(data)
  {
    var t := TrimSpace(data);
    var a := RemoveChar(t, '\n');
    var b := RemoveChar(a, '\r');
    var c := RemoveChar(b, ' ');
    assert '\n' !in a;
    assert '\n' !in b && '\r' !in b;
    assert '\n' !in c && '\r' !in c && ' ' !in c;
  }

  const DataImagePrefix := "data:image/"

  /**
   * The header removal of processBase64ToImage: after the first ";base64,"
   * if present; else, for text starting with "data:image/", after the
   * first ','; otherwise the text as it is.
   */
  function StripImageHeader(data: string): (raw: string)
    ensures raw == data || (|raw| < |data| && raw == data[|data| - |raw|..])
    ensures Contains(data, ImageUtils.Base64Marker) ==> raw == ImageUtils.StripBase64Header(data)
    ensures !Contains(data, ImageUtils.Base64Marker) && HasPrefix(data, DataImagePrefix) && Contains(data, ",") ==>
      exists i :: OccursAt(data, ",", i) && raw == data[i + 1..] &&
        forall j :: 0 <= j < i ==> !OccursAt(data, ",", j)
    ensures !Contains(data, ImageUtils.Base64Marker) && !(HasPrefix(data, DataImagePrefix) && Contains(data, ",")) ==>
      raw == data
  {
    if Contains(data, ImageUtils.Base64Marker) then
      var idx := IndexOf(data, ImageUtils.Base64Marker);
      data[idx + 8..]
    else if HasPrefix(data, DataImagePrefix) then
      var idx := IndexOf(data, ",");
      if idx != -1 then data[idx + 1..] else data
    else data
  }

  /** With a ";base64," marker both header removals agree. */
  lemma StripAgreesWithUtils(data: string)
    requires Contains(data, ImageUtils.Base64Marker)
    ensures StripImageHeader(data) == ImageUtils.StripBase64Header(data)
  {
  }

  lemma NoCommaBefore(sub: string, payload: string)
    requires ',' !in sub
    ensures forall j :: 0 <= j < |DataImagePrefix + sub| ==> !OccursAt(DataImagePrefix + sub + "," + payload, ",", j)
  {
    var s := DataImagePrefix + sub + "," + payload;
    forall j | 0 <= j < |DataImagePrefix + sub|
      ensures !OccursAt(s, ",", j)
    {
      assert s[j] == (DataImagePrefix + sub)[j] != ',';
    }
  }

  lemma NoSemicolon(s: string)
    requires ';' !in s
    ensures !Contains(s, ImageUtils.Base64Marker)
  {
    forall i | 0 <= i <= |s|
      ensures !OccursAt(s, ImageUtils.Base64Marker, i)
    {
      assert i < |s| ==> s[i] != ';';
    }
  }

  /**
   * Without the ";base64," marker a data URI of an image,
   * "data:image/<subtype>,<data>", gives back exactly <data>.
   */
  lemma StripPlainDataUri(sub: string, payload: string)
    requires ',' !in sub && ';' !in sub && ';' !in payload
    ensures StripImageHeader(DataImagePrefix + sub + "," + payload) == payload
  {
    var s := DataImagePrefix + sub + "," + payload;
    var p := |DataImagePrefix + sub|;
    assert ';' !in s by {
      assert forall i :: 0 <= i < |s| ==> s[i] in DataImagePrefix || s[i] in sub || s[i] == ',' || s[i] in payload;
    }
    NoSemicolon(s);
    assert s[..|DataImagePrefix|] == DataImagePrefix;
    assert OccursAt(s, ",", p);
    NoCommaBefore(sub, payload);
    assert IndexOf(s, ",") == p;
    assert s[p + 1..] == payload;
  }

  /** What a camera snapshot does to the stored source (UpdateLocationSourceImage). */
  datatype SnapshotOutcome =
    | KeptLink
    | LocationMissing
    | ProcessingFailed
    | Replaced(path: string, removeOld: Option<string>)

  /**
   * UpdateLocationSourceImage: a link source is left alone; otherwise,
   * once the location is found and the picture stored under `processed`,
   * the source becomes that image and an old image file is removed.
   */
  function SnapshotUpdate(existing: Option<LocationSource>, locationFound: bool,
                          processed: Option<string>): (o: SnapshotOutcome)
    ensures o == KeptLink <==> existing.Some? && existing.value.sourceType == SourceTypeLink
    ensures o.Replaced? <==>
      !(existing.Some? && existing.value.sourceType == SourceTypeLink) && locationFound && processed.Some?
    ensures o.Replaced? ==> o.path == processed.value
    ensures o.Replaced? ==> (o.removeOld.Some? <==> existing.Some? && existing.value.sourceType == SourceTypeImage)
    ensures o.Replaced? && o.removeOld.Some? ==> o.removeOld.value == existing.value.sourceData
  {
    if existing.Some? && existing.value.sourceType == SourceTypeLink then KeptLink
    else if !locationFound then LocationMissing
    else if processed.None? then ProcessingFailed
    else Replaced(processed.value,
                  if existing.Some? && existing.value.sourceType == SourceTypeImage
                  then Some(existing.value.sourceData) else None)
  }
}
