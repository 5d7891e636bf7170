/**
 * The helpers of src/utils/helpers.js: the image-URL check, the annotation
 * record with its defaults, and the client-to-canvas offset.
 */
module Helpers {

  import opened Optional

  // ---------------------------------------------------------------------
  // validateImageUrl
  // ---------------------------------------------------------------------

  /** The alternatives of the URL pattern, in the order it lists them. */
  const ImageExtensions: seq<string> := ["jpeg", "jpg", "gif", "png", "svg"]

  /** ASCII lower-casing. Without the `u` flag, the pattern's `i` flag never
      folds a non-ASCII character onto an ASCII letter, so for the letters of
      the pattern this is exactly the folding it does. */
  function LowerAscii(c: char): char
  {
    if 'A' <= c <= 'Z' then (c as int + 32) as char else c
  }

  /** `s` spells the lower-case `word`, ignoring ASCII case. */
  predicate MatchesIgnoringCase(s: string, word: string)
  {
    |s| == |word| && forall i :: 0 <= i < |s| ==> LowerAscii(s[i]) == word[i]
  }

  /** `url` ends with a dot followed by `ext`, ignoring case. */
  predicate EndsWithDotExtension(url: string, ext: string)
  {
    |url| > |ext| && url[|url| - |ext| - 1] == '.' && MatchesIgnoringCase(url[|url| - |ext|..], ext)
  }

  /** `/\.(jpeg|jpg|gif|png|svg)$/i.test(url)`, decided by checking each
      alternative against the end of the string: accepted exactly when the
      URL ends with a dot and one of the listed extensions, ignoring case. */
  function ValidateImageUrl(url: string): (valid: bool)
    ensures valid <==> exists e :: e in ImageExtensions && EndsWithDotExtension(url, e)
  {
    assert ImageExtensions == ["jpeg", "jpg", "gif", "png", "svg"];
    assert ImageExtensions[0] == "jpeg" && ImageExtensions[1] == "jpg" && ImageExtensions[2] == "gif";
    assert ImageExtensions[3] == "png" && ImageExtensions[4] == "svg";
    || EndsWithDotExtension(url, "jpeg")
    || EndsWithDotExtension(url, "jpg")
    || EndsWithDotExtension(url, "gif")
    || EndsWithDotExtension(url, "png")
    || EndsWithDotExtension(url, "svg")
  }

  /** The unanchored pattern `\.(jpeg|jpg|gif|png|svg)` matches all of `s`. */
  predicate PatternMatches(s: string)
  {
    |s| > 0 && s[0] == '.' && exists e :: e in ImageExtensions && MatchesIgnoringCase(s[1..], e)
  }

  /** The search a regular expression test performs: some position k at
      which the pattern matches and, because of `$`, reaches the end. */
  ghost predicate MatchesAtEnd(url: string)
  {
    exists k :: 0 <= k <= |url| && PatternMatches(url[k..])
  }

  /** A dot-extension suffix is a match of the pattern that reaches the end. */
  lemma SuffixIsMatch(url: string, e: string)
    requires e in ImageExtensions && EndsWithDotExtension(url, e)
    ensures MatchesAtEnd(url)
  {
    var k := |url| - |e| - 1;
    assert url[k..][1..] == url[|url| - |e|..];
    assert PatternMatches(url[k..]);
  }

  /** A match that reaches the end is a dot-extension suffix. */
  lemma MatchIsSuffix(url: string, k: nat, e: string)
    requires k <= |url| && |url[k..]| > 0 && url[k..][0] == '.'
    requires MatchesIgnoringCase(url[k..][1..], e)
    ensures EndsWithDotExtension(url, e)
  {
    assert url[k..][1..] == url[|url| - |e|..];
  }

  /** Every URL validateImageUrl accepts has a match of the pattern at its end. */
  lemma ValidImpliesMatch(url: string)
    requires ValidateImageUrl(url)
    ensures MatchesAtEnd(url)
  {
    if EndsWithDotExtension(url, "jpeg") {
      SuffixIsMatch(url, "jpeg");
    } else if EndsWithDotExtension(url, "jpg") {
      SuffixIsMatch(url, "jpg");
    } else if EndsWithDotExtension(url, "gif") {
      SuffixIsMatch(url, "gif");
    } else if EndsWithDotExtension(url, "png") {
      SuffixIsMatch(url, "png");
    } else {
      SuffixIsMatch(url, "svg");
    }
  }

  /** Every URL with a match of the pattern at its end is accepted. */
  lemma MatchImpliesValid(url: string)
    requires MatchesAtEnd(url)
    ensures ValidateImageUrl(url)
  {
    var k :| 0 <= k <= |url| && PatternMatches(url[k..]);
    var e :| e in ImageExtensions && MatchesIgnoringCase(url[k..][1..], e);
    MatchIsSuffix(url, k, e);
    assert e == "jpeg" || e == "jpg" || e == "gif" || e == "png" || e == "svg";
  }

  /** The suffix check is exactly the regular expression's search. */
  lemma ValidateImageUrlIsSearch(url: string)
    ensures ValidateImageUrl(url) <==> MatchesAtEnd(url)
  {
    if ValidateImageUrl(url) {
      ValidImpliesMatch(url);
    }
    if MatchesAtEnd(url) {
      MatchImpliesValid(url);
    }
  }

  /** A '?' among the last four characters, as in "a.png?x", always fails
      validateImageUrl: the pattern is anchored at the end of the whole string. */
  lemma QueryStringRejected(url: string, k: nat)
    requires |url| - 4 <= k < |url| && url[k] == '?'
    ensures !ValidateImageUrl(url)
  {
    QueryMarkDefeats(url, k, "jpeg");
    QueryMarkDefeats(url, k, "jpg");
    QueryMarkDefeats(url, k, "gif");
    QueryMarkDefeats(url, k, "png");
    QueryMarkDefeats(url, k, "svg");
  }

  /** A '?' at the dot's place or after it defeats one alternative. */
  lemma QueryMarkDefeats(url: string, k: nat, e: string)
    requires |url| - |e| - 1 <= k < |url| && url[k] == '?'
    requires forall i :: 0 <= i < |e| ==> e[i] != '?'
    ensures !EndsWithDotExtension(url, e)
  {
    if |url| > |e| && k >= |url| - |e| {
      assert LowerAscii(url[|url| - |e|..][k - (|url| - |e|)]) == '?';
    }
  }

  /** The leading dot is required: a URL without any '.' is rejected,
      "png" included. */
  lemma DotRequired(url: string)
    requires forall i :: 0 <= i < |url| ==> url[i] != '.'
    ensures !ValidateImageUrl(url)
  {
  }

  /** Lower-casing maps only '.' itself to '.'. */
  lemma LowerAsciiDot(c: char)
    ensures LowerAscii(c) == '.' <==> c == '.'
  {
  }

  /** Each alternative ignores ASCII case. */
  lemma EndsWithDotExtensionIgnoresCase(u: string, v: string, e: string)
    requires |u| == |v|
    requires forall i :: 0 <= i < |u| ==> LowerAscii(u[i]) == LowerAscii(v[i])
    ensures EndsWithDotExtension(u, e) == EndsWithDotExtension(v, e)
  {
    if |u| > |e| {
      var n := |u| - |e|;
      LowerAsciiDot(u[n - 1]);
      LowerAsciiDot(v[n - 1]);
      var su, sv := u[n..], v[n..];
      assert forall i :: 0 <= i < |e| ==> LowerAscii(su[i]) == LowerAscii(sv[i]) by {
        forall i | 0 <= i < |e|
          ensures LowerAscii(su[i]) == LowerAscii(sv[i])
        {
          assert su[i] == u[n + i] && sv[i] == v[n + i];
        }
      }
      assert MatchesIgnoringCase(su, e) == MatchesIgnoringCase(sv, e);
    }
  }

  /** validateImageUrl ignores ASCII case throughout. */
  lemma ValidateImageUrlIgnoresCase(u: string, v: string)
    requires |u| == |v|
    requires forall i :: 0 <= i < |u| ==> LowerAscii(u[i]) == LowerAscii(v[i])
    ensures ValidateImageUrl(u) == ValidateImageUrl(v)
  {
    EndsWithDotExtensionIgnoresCase(u, v, "jpeg");
    EndsWithDotExtensionIgnoresCase(u, v, "jpg");
    EndsWithDotExtensionIgnoresCase(u, v, "gif");
    EndsWithDotExtensionIgnoresCase(u, v, "png");
    EndsWithDotExtensionIgnoresCase(u, v, "svg");
  }

  lemma ValidateImageUrlExamples()
    ensures ValidateImageUrl("photo.JPG")
    ensures ValidateImageUrl("a.b.jpeg")
    ensures !ValidateImageUrl("a.png?x")
    ensures !ValidateImageUrl("png")
  {
    QueryStringRejected("a.png?x", 5);
    DotRequired("png");
  }

  // ---------------------------------------------------------------------
  // formatAnnotationData
  // ---------------------------------------------------------------------

  /** The two fields of the argument that formatAnnotationData reads, each
      a string or absent (undefined or null). */
  datatype AnnotationInput = AnnotationInput(description: Option<string>, image: Option<string>)

  /** The record it returns, without its timestamp. */
  datatype Annotation = Annotation(description: string, image: Option<string>)

  /** `{ description: data.description || '', image: data.image || null }`. */
  function FormatAnnotationData(data: AnnotationInput): (a: Annotation)
    ensures a.description == "" <==> !Truthy(data.description)
    ensures a.description != "" ==> data.description == Some(a.description)
    ensures a.image.Some? <==> Truthy(data.image)
    ensures a.image.Some? ==> a.image == data.image
  {
    Annotation(
      if Truthy(data.description) then data.description.value else "",
      if Truthy(data.image) then data.image else None)
  }

  // ---------------------------------------------------------------------
  // calculateCanvasCoordinates
  // ---------------------------------------------------------------------

  /** The part of `canvas.getBoundingClientRect()` the offset uses. */
  datatype Rect = Rect(left: real, top: real)

  /** A position relative to the canvas's top-left corner. */
  datatype CanvasPoint = CanvasPoint(x: real, y: real)

  /** The client position (x, y) relative to the canvas's top-left corner. */
  function CalculateCanvasCoordinates(rect: Rect, x: real, y: real): (c: CanvasPoint)
    ensures rect.left + c.x == x && rect.top + c.y == y
  {
    CanvasPoint(x - rect.left, y - rect.top)
  }
}
