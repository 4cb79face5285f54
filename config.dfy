/** The CORS part of the application settings: `ALLOWED_ORIGINS` is one
    comma-separated string, `allowed_origins_list` turns it into the list of
    origins the CORS middleware is given. */
module Config {
  import opened Text

  const DEFAULT_ALLOWED_ORIGINS: string := "http://localhost:3000,http://localhost:19006"

  /** `[origin.strip() for origin in ALLOWED_ORIGINS.split(",")]`. */
  function AllowedOriginsList(allowedOrigins: string): (origins: seq<string>)
  {
    var segments := SplitOn(allowedOrigins, ",");
    seq(|segments|, i requires 0 <= i < |segments| => Strip(segments[i]))
  }

  /** There is one origin more than there are commas. */
  lemma OriginsCount(allowedOrigins: string)
    ensures |AllowedOriginsList(allowedOrigins)| == multiset(allowedOrigins)[','] + 1
  {
    SplitCount(allowedOrigins, ',');
  }

  /** The origins are the comma-free segments whose comma-join is the setting,
      each stripped, in their order: any way of cutting the setting at every
      comma gives exactly the list's entries. */
  lemma OriginsAreStrippedSegments(allowedOrigins: string, segments: seq<string>)
    requires segments != []
    requires forall i :: 0 <= i < |segments| ==> ',' !in segments[i]
    requires Join(segments, ",") == allowedOrigins
    ensures |AllowedOriginsList(allowedOrigins)| == |segments|
    ensures forall i :: 0 <= i < |segments| ==> AllowedOriginsList(allowedOrigins)[i] == Strip(segments[i])
  {
    JoinSplit(segments, ',');
  }

  /** No origin begins or ends with whitespace. */
  lemma OriginsTrimmed(allowedOrigins: string)
    ensures forall i :: 0 <= i < |AllowedOriginsList(allowedOrigins)| ==> Trimmed(AllowedOriginsList(allowedOrigins)[i])
  {
  }

  /** A setting without commas gives a single, stripped origin. */
  lemma {:induction false} OriginsSingle(allowedOrigins: string)
    requires ',' !in allowedOrigins
    ensures AllowedOriginsList(allowedOrigins) == [Strip(allowedOrigins)]
  {
    CharIndex(allowedOrigins, ',');
  }

  /** The empty setting gives one empty origin. */
  lemma OriginsOfEmpty()
    ensures AllowedOriginsList("") == [""]
  {
    OriginsSingle("");
  }

  lemma Pair(o: seq<string>, x: string, y: string)
    requires |o| == 2 && o[0] == x && o[1] == y
    ensures o == [x, y]
  {
  }

  lemma Triple(o: seq<string>, x: string, y: string, z: string)
    requires |o| == 3 && o[0] == x && o[1] == y && o[2] == z
    ensures o == [x, y, z]
  {
  }

  /** Two comma-free origins joined by a comma come back apart, stripped. */
  lemma OriginsOfTwo(a: string, b: string)
    requires ',' !in a && ',' !in b
    ensures AllowedOriginsList(a + "," + b) == [Strip(a), Strip(b)]
  {
    var segments := [a, b];
    assert segments[1..] == [b];
    assert Join(segments, ",") == a + "," + b;
    OriginsAreStrippedSegments(a + "," + b, segments);
    Pair(AllowedOriginsList(a + "," + b), Strip(a), Strip(b));
  }

  /** Three comma-free origins joined by commas come back apart, stripped. */
  lemma OriginsOfThree(a: string, b: string, c: string)
    requires ',' !in a && ',' !in b && ',' !in c
    ensures AllowedOriginsList(a + "," + b + "," + c) == [Strip(a), Strip(b), Strip(c)]
  {
    var segments := [a, b, c];
    assert segments[1..] == [b, c] && segments[1..][1..] == [c];
    assert Join([b, c], ",") == b + "," + c;
    assert Join(segments, ",") == a + "," + b + "," + c;
    OriginsAreStrippedSegments(a + "," + b + "," + c, segments);
    Triple(AllowedOriginsList(a + "," + b + "," + c), Strip(a), Strip(b), Strip(c));
  }

  /** Comma-free origins without surrounding whitespace are kept verbatim. */
  lemma OriginsOfTwoTrimmed(allowedOrigins: string, a: string, b: string)
    requires allowedOrigins == a + "," + b
    requires ',' !in a && ',' !in b && Trimmed(a) && Trimmed(b)
    ensures AllowedOriginsList(allowedOrigins) == [a, b]
  {
    OriginsOfTwo(a, b);
    StripTrimmed(a);
    StripTrimmed(b);
  }

  lemma OriginsOfThreeTrimmed(allowedOrigins: string, a: string, b: string, c: string)
    requires allowedOrigins == a + "," + b + "," + c
    requires ',' !in a && ',' !in b && ',' !in c && Trimmed(a) && Trimmed(b) && Trimmed(c)
    ensures AllowedOriginsList(allowedOrigins) == [a, b, c]
  {
    OriginsOfThree(a, b, c);
    StripTrimmed(a);
    StripTrimmed(b);
    StripTrimmed(c);
  }

  /** Whitespace padding around each of two origins is removed. */
  lemma OriginsOfTwoPadded(allowedOrigins: string, a: string, b: string, pad: string)
    requires allowedOrigins == pad + a + pad + "," + pad + b + pad
    requires ',' !in a && ',' !in b && ',' !in pad && AllSpace(pad)
    requires a != [] && b != [] && Trimmed(a) && Trimmed(b)
    ensures AllowedOriginsList(allowedOrigins) == [a, b]
  {
    assert allowedOrigins == (pad + a + pad) + "," + (pad + b + pad);
    OriginsOfTwo(pad + a + pad, pad + b + pad);
    StripPadded(pad, a, pad);
    StripPadded(pad, b, pad);
  }

  /** A trailing comma gives an empty last origin. */
  lemma OriginsWithTrailingComma()
    ensures AllowedOriginsList("http://localhost:3000,") == ["http://localhost:3000", ""]
  {
    OriginsOfTwoTrimmed("http://localhost:3000,", "http://localhost:3000", "");
  }

  /** A doubled comma gives an empty origin between the two. */
  lemma OriginsWithDoubledComma()
    ensures AllowedOriginsList("http://localhost:3000,,https://example.com")
         == ["http://localhost:3000", "", "https://example.com"]
  {
    OriginsOfThreeTrimmed("http://localhost:3000,,https://example.com", "http://localhost:3000", "", "https://example.com");
  }

  /** Spaces around the commas are dropped. */
  lemma OriginsWithSpaces()
    ensures AllowedOriginsList(" http://a.com , http://b.com ") == ["http://a.com", "http://b.com"]
  {
    OriginsOfTwoPadded(" http://a.com , http://b.com ", "http://a.com", "http://b.com", " ");
  }

  /** The default setting allows the two local development front ends. */
  lemma DefaultOrigins()
    ensures AllowedOriginsList(DEFAULT_ALLOWED_ORIGINS) == ["http://localhost:3000", "http://localhost:19006"]
  {
    OriginsOfTwoTrimmed(DEFAULT_ALLOWED_ORIGINS, "http://localhost:3000", "http://localhost:19006");
  }

  /** When no segment carries surrounding whitespace, joining the origins with
      commas gives back the setting. */
  lemma {:induction false} OriginsRoundTrip(allowedOrigins: string)
    requires forall i :: 0 <= i < |SplitOn(allowedOrigins, ",")| ==> Trimmed(SplitOn(allowedOrigins, ",")[i])
    ensures Join(AllowedOriginsList(allowedOrigins), ",") == allowedOrigins
  {
    var segments := SplitOn(allowedOrigins, ",");
    forall i | 0 <= i < |segments| ensures Strip(segments[i]) == segments[i] {
      StripTrimmed(segments[i]);
    }
    assert AllowedOriginsList(allowedOrigins) == segments;
    SplitJoin(allowedOrigins, ",");
  }
}
