/**
 * The plain computations of my-app/lib/image-processing.ts: the MIME type read from
 * a data URL's header and the byte buffer filled from the decoded payload
 * (`dataURLToBlob`), and the downscaled dimensions chosen by `resizeImage`.
 */
module ImageProcessing {
  import opened DishTypes

  type Uint8 = x: int | 0 <= x < 256

  const DefaultMimeType := "image/png"

  /** The default `maxWidth` and `maxHeight` of `resizeImage`. */
  const DefaultMaxWidth: real := 1024.0
  const DefaultMaxHeight: real := 1024.0

  // ---------------------------------------------------------------------------
  // The MIME type of a data URL
  // ---------------------------------------------------------------------------

  /** `s.split(c)[0]`: the text before the first `c`, or all of `s`. */
  function BeforeFirst(s: string, c: char): (r: string)
    ensures |r| <= |s| && r == s[..|r|]
    ensures c !in r
    ensures |r| < |s| ==> s[|r|] == c
  {
    if s == [] || s[0] == c then [] else [s[0]] + BeforeFirst(s[1..], c)
  }

  /** The characters the regular-expression `.` does not match. */
  predicate IsLineTerminator(c: char)
  {
    c == '\n' || c == '\r' || c == '\U{2028}' || c == '\U{2029}'
  }

  /** `(.*?);` anchored at the start of `t`: the shortest run of non-line-terminators up to a `;`. */
  function LazyCaptureToSemicolon(t: string): (r: Option<string>)
    ensures r.Some? ==> |r.value| < |t| && t[..|r.value|] == r.value && t[|r.value|] == ';'
    ensures r.Some? ==> ';' !in r.value && forall c :: c in r.value ==> !IsLineTerminator(c)
    ensures r.None? ==> forall k :: 0 <= k < |t| && t[k] == ';' ==> exists j :: 0 <= j < k && IsLineTerminator(t[j])
  {
    if t == [] then None
    else if t[0] == ';' then Some([])
    else if IsLineTerminator(t[0]) then None
    else match LazyCaptureToSemicolon(t[1..])
      case None => None
      case Some(rest) => Some([t[0]] + rest)
  }

  /** `s.match(/:(.*?);/)?.[1]`: the capture of the leftmost match, if any. */
  function MatchMime(s: string): (r: Option<string>)
    ensures r.Some? ==> ';' !in r.value
    ensures ':' !in s ==> r.None?
  {
    if s == [] then None
    else if s[0] == ':' && LazyCaptureToSemicolon(s[1..]).Some? then LazyCaptureToSemicolon(s[1..])
    else MatchMime(s[1..])
  }

  /** The MIME type `dataURLToBlob` gives its blob; an absent or empty capture falls back to `image/png`. */
  function MimeType(dataURL: string): (mime: string)
    ensures mime != ""
    ensures ':' !in BeforeFirst(dataURL, ',') ==> mime == DefaultMimeType
  {
    match MatchMime(BeforeFirst(dataURL, ','))
    case Some(m) => if m == "" then DefaultMimeType else m
    case None => DefaultMimeType
  }

  /** A plain header without line breaks */
  predicate IsPlainMime(mime: string)
  {
    forall c :: c in mime ==> c != ',' && c != ';' && c != ':' && !IsLineTerminator(c)
  }

  /**
   * Reading back what a data URL header declares: the MIME type written between
   * `data:` and the first `;` is the one found, and an empty one falls back to `image/png`.
   */
  lemma {:induction false} MimeTypeOfDataURL(mime: string, rest: string)
    requires IsPlainMime(mime)
    ensures MimeType("data:" + mime + ";" + rest) == if mime == "" then DefaultMimeType else mime
  {
    var tail := BeforeFirst(rest, ',');
    HeaderOfDataURL(mime, rest);
    MatchOfHeader("data", mime, tail);
    assert "data" + ":" == "data:";
    assert MatchMime(BeforeFirst("data:" + mime + ";" + rest, ',')) == Some(mime);
  }

  /** The header of `data:<mime>;<rest>` ends where `rest` meets its first comma. */
  lemma HeaderOfDataURL(mime: string, rest: string)
    requires IsPlainMime(mime)
    ensures BeforeFirst("data:" + mime + ";" + rest, ',') == "data:" + mime + ";" + BeforeFirst(rest, ',')
  {
    BeforeFirstSkips("data:", mime + ";" + rest);
    BeforeFirstSkips(mime + ";", rest);
    assert "data:" + mime + ";" + rest == "data:" + ((mime + ";") + rest);
    assert "data:" + ((mime + ";") + BeforeFirst(rest, ',')) == "data:" + mime + ";" + BeforeFirst(rest, ',');
  }

  /**
   * In a header `<prefix>:<mime>;<tail>` whose prefix has no colon, the match captures
   * exactly `<mime>`; a data URL's prefix is `data`.
   */
  lemma MatchOfHeader(prefix: string, mime: string, tail: string)
    requires ':' !in prefix && IsPlainMime(mime)
    ensures MatchMime(prefix + ":" + mime + ";" + tail) == Some(mime)
  {
    var header := prefix + ":" + mime + ";" + tail;
    CaptureOfPlain(mime, tail);
    assert header[..|prefix|] == prefix && header[|prefix|] == ':';
    assert header[|prefix| + 1..] == mime + ";" + tail;
    MatchMimeSkips(header, |prefix|);
  }

  /** `BeforeFirst` passes over a prefix free of the separator. */
  lemma {:induction false} BeforeFirstSkips(prefix: string, s: string)
    requires ',' !in prefix
    ensures BeforeFirst(prefix + s, ',') == prefix + BeforeFirst(s, ',')
  {
    if prefix != [] {
      assert prefix[0] in prefix;
      assert (prefix + s)[0] == prefix[0];
      assert (prefix + s)[1..] == prefix[1..] + s;
      assert ',' !in prefix[1..] by {
        assert forall c :: c in prefix[1..] ==> c in prefix;
      }
      BeforeFirstSkips(prefix[1..], s);
      assert BeforeFirst(prefix + s, ',') == [prefix[0]] + BeforeFirst(prefix[1..] + s, ',');
      assert [prefix[0]] + (prefix[1..] + BeforeFirst(s, ',')) == prefix + BeforeFirst(s, ',');
    } else {
      assert prefix + s == s;
    }
  }

  /** A plain MIME type followed by `;` is captured whole. */
  lemma {:induction false} CaptureOfPlain(mime: string, rest: string)
    requires IsPlainMime(mime)
    ensures LazyCaptureToSemicolon(mime + ";" + rest) == Some(mime)
  {
    if mime != [] {
      assert (mime + ";" + rest)[1..] == mime[1..] + ";" + rest;
      assert mime[0] in mime;
      assert IsPlainMime(mime[1..]) by {
        assert forall c :: c in mime[1..] ==> c in mime;
      }
      CaptureOfPlain(mime[1..], rest);
      assert mime == [mime[0]] + mime[1..];
    }
  }

  /** The leftmost match skips a prefix that holds no `:`. */
  lemma {:induction false} MatchMimeSkips(s: string, k: nat)
    requires k <= |s| && ':' !in s[..k]
    ensures MatchMime(s) == MatchMime(s[k..])
  {
    if k > 0 {
      assert s[0] in s[..k];
      assert s[1..][..k - 1] == s[1..k];
      assert forall c :: c in s[1..k] ==> c in s[..k];
      MatchMimeSkips(s[1..], k - 1);
      assert s[1..][k - 1..] == s[k..];
    }
  }

  /** `data:;base64,...` declares an empty type, which `||` replaces by `image/png`. */
  lemma EmptyMimeFallsBack()
    ensures MimeType("data:;base64,AAAA") == DefaultMimeType
  {
    MimeTypeOfDataURL("", "base64,AAAA");
    assert "data:" + "" + ";" + "base64,AAAA" == "data:;base64,AAAA";
  }

  // ---------------------------------------------------------------------------
  // The byte buffer
  // ---------------------------------------------------------------------------

  /** `u8arr[n] = bstr.charCodeAt(n)`: the character code, reduced modulo 256 by the `Uint8Array`. */
  function CharCodeByte(c: char): (b: Uint8)
    ensures (c as int) < 256 ==> b == c as int
  {
    (c as int) % 256
  }

  /**
   * `dataURLToBlob`: the blob's type and bytes. `decoded` is what `atob` returns for the
   * payload; the `while (n--)` loop fills the buffer from the last index to the first.
   */
  method DataURLToBlob(dataURL: string, decoded: string) returns (mime: string, bytes: array<Uint8>)
    ensures mime == MimeType(dataURL)
    ensures bytes.Length == |decoded|
    ensures forall i :: 0 <= i < |decoded| ==> bytes[i] == CharCodeByte(decoded[i])
  {
    mime := MimeType(dataURL);
    var n := |decoded|;
    bytes := new Uint8[n];
    while n != 0
      invariant 0 <= n <= |decoded| == bytes.Length
      invariant forall i :: n <= i < |decoded| ==> bytes[i] == CharCodeByte(decoded[i])
    {
      n := n - 1;
      bytes[n] := CharCodeByte(decoded[n]);
    }
  }

  // ---------------------------------------------------------------------------
  // Downscaled dimensions
  // ---------------------------------------------------------------------------

  datatype Dimensions = Dimensions(width: real, height: real)

  function Min(a: real, b: real): real
  {
    if a <= b then a else b
  }

  /**
   * `Math.min(maxWidth / width, maxHeight / height)` when a bound is exceeded; a zero
   * side divides to `Infinity` in JavaScript and so never wins the minimum.
   */
  function ShrinkRatio(width: real, height: real, maxWidth: real, maxHeight: real): real
    requires width >= 0.0 && height >= 0.0 && maxWidth > 0.0 && maxHeight > 0.0
    requires width > maxWidth || height > maxHeight
  {
    if width == 0.0 then maxHeight / height
    else if height == 0.0 then maxWidth / width
    else Min(maxWidth / width, maxHeight / height)
  }

  /** The width and height `resizeImage` draws the image at. */
  function ResizeDimensions(width: real, height: real, maxWidth: real, maxHeight: real): (d: Dimensions)
    requires width >= 0.0 && height >= 0.0 && maxWidth > 0.0 && maxHeight > 0.0
    ensures width <= maxWidth && height <= maxHeight ==> d == Dimensions(width, height)
    ensures d.width <= maxWidth && d.height <= maxHeight
    ensures d.width * height == d.height * width
    ensures d.width <= width && d.height <= height
    ensures (width > maxWidth || height > maxHeight) ==> d.width == maxWidth || d.height == maxHeight
  {
    if width > maxWidth || height > maxHeight then
      var ratio := ShrinkRatio(width, height, maxWidth, maxHeight);
      ShrinkRatioFits(width, height, maxWidth, maxHeight);
      Dimensions(width * ratio, height * ratio)
    else
      Dimensions(width, height)
  }

  /** The ratio is below one, and scaling by it brings both sides within bounds, one onto its bound. */
  lemma ShrinkRatioFits(width: real, height: real, maxWidth: real, maxHeight: real)
    requires width >= 0.0 && height >= 0.0 && maxWidth > 0.0 && maxHeight > 0.0
    requires width > maxWidth || height > maxHeight
    ensures var ratio := ShrinkRatio(width, height, maxWidth, maxHeight);
      && 0.0 < ratio < 1.0
      && width * ratio <= maxWidth && height * ratio <= maxHeight
      && (width * ratio == maxWidth || height * ratio == maxHeight)
  {
    var ratio := ShrinkRatio(width, height, maxWidth, maxHeight);
    var rw := if width == 0.0 then 0.0 else maxWidth / width;
    var rh := if height == 0.0 then 0.0 else maxHeight / height;
    if width > 0.0 {
      assert width * rw == maxWidth;
      if width > maxWidth && rw >= 1.0 {
        ScaleMonotone(1.0, rw, width);
      }
    }
    if height > 0.0 {
      assert height * rh == maxHeight;
      if height > maxHeight && rh >= 1.0 {
        ScaleMonotone(1.0, rh, height);
      }
    }
    if width > 0.0 && height > 0.0 {
      if rw <= rh {
        ScaleMonotone(rw, rh, height);
      } else {
        ScaleMonotone(rh, rw, width);
      }
    }
  }

  /** Scaling by a non-negative factor keeps the order. */
  lemma ScaleMonotone(a: real, b: real, c: real)
    requires a <= b && c >= 0.0
    ensures c * a <= c * b
  {
  }

  /** A 4000 x 3000 photo is drawn at 1024 x 768 with the default bounds. */
  lemma ResizeLandscapePhoto()
    ensures ResizeDimensions(4000.0, 3000.0, DefaultMaxWidth, DefaultMaxHeight) == Dimensions(1024.0, 768.0)
  {
    ShrinkRatioFits(4000.0, 3000.0, DefaultMaxWidth, DefaultMaxHeight);
  }
}
