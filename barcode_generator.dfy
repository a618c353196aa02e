/** The barcode component: it turns its `gtin` property into a string with
    `String(...)`, trims it, and renders an EAN-13 barcode of the trimmed
    text when it is exactly 13 characters long, else the text "No valid
    GTIN". The 13-character length is that of a GTIN-13 in the GS1 General
    Specifications; the component checks nothing else (no digits, no check
    digit). */
module BarcodeGenerator {
  import opened Js

  /** A character `String.prototype.trim` removes: the ECMAScript WhiteSpace
      and LineTerminator code points. */
  predicate IsWhitespace(c: char)
  {
    c == '\t' || c == '\n' || c == '\U{0B}' || c == '\U{0C}' || c == '\r' || c == ' '
    || c == '\U{A0}' || c == '\U{1680}' || ('\U{2000}' <= c <= '\U{200A}')
    || c == '\U{2028}' || c == '\U{2029}' || c == '\U{202F}' || c == '\U{205F}'
    || c == '\U{3000}' || c == '\U{FEFF}'
  }

  predicate AllWhitespace(s: string)
  {
    forall i :: 0 <= i < |s| ==> IsWhitespace(s[i])
  }

  /** Leading whitespace removed: a suffix of `s`, everything before it is
      whitespace, and it starts with a non-whitespace character if any. */
  function TrimStart(s: string): (r: string)
    ensures |r| <= |s| && r == s[|s| - |r|..]
    ensures AllWhitespace(s[..|s| - |r|])
    ensures r != [] ==> !IsWhitespace(r[0])
  {
    if s != [] && IsWhitespace(s[0]) then TrimStart(s[1..]) else s
  }

  /** Trailing whitespace removed: a prefix of `s`, everything after it is
      whitespace, and it ends with a non-whitespace character if any. */
  function TrimEnd(s: string): (r: string)
    ensures |r| <= |s| && r == s[..|r|]
    ensures AllWhitespace(s[|r|..])
    ensures r != [] ==> !IsWhitespace(r[|r| - 1])
  {
    if s != [] && IsWhitespace(s[|s| - 1]) then TrimEnd(s[..|s| - 1]) else s
  }

  /** `String.prototype.trim`. */
  function Trim(s: string): string
  {
    TrimEnd(TrimStart(s))
  }

  /** `String(gtin)`: a missing property becomes the text "undefined". */
  function StringOf(gtin: Option<string>): string
  {
    if gtin.Some? then gtin.value else "undefined"
  }

  datatype GtinView = NoValidGtin | Ean13(value: string)

  /** The component's output for its `gtin` property. */
  function Render(gtin: Option<string>): GtinView
  {
    var cleaned := Trim(StringOf(gtin));
    if cleaned == "" || Utf16Length(cleaned) != 13 then NoValidGtin else Ean13(cleaned)
  }

  // ---------------------------------------------------------------------
  // Trimming

  lemma TrimStartNoLeading(s: string)
    requires s == [] || !IsWhitespace(s[0])
    ensures TrimStart(s) == s
  {
  }

  /** Trimming takes off whitespace only, from both ends, and leaves text
      that neither starts nor ends with whitespace. */
  lemma TrimSpec(s: string)
    ensures exists i, j {:trigger s[i..j]} :: 0 <= i <= j <= |s| && Trim(s) == s[i..j]
              && AllWhitespace(s[..i]) && AllWhitespace(s[j..])
    ensures Trim(s) != [] ==> !IsWhitespace(Trim(s)[0]) && !IsWhitespace(Trim(s)[|Trim(s)| - 1])
  {
    var i, j := TrimBounds(s);
  }

  /** Where `Trim` cuts `s`. */
  lemma TrimBounds(s: string) returns (i: nat, j: nat)
    ensures i <= j <= |s| && Trim(s) == s[i..j]
    ensures AllWhitespace(s[..i]) && AllWhitespace(s[j..])
  {
    var t := TrimStart(s);
    var r := TrimEnd(t);
    i := |s| - |t|;
    j := i + |r|;
    assert t == s[i..];
    assert r == t[..|r|];
    assert s[i..j] == t[..|r|];
    assert s[j..] == t[|r|..];
  }

  /** Trimming twice is trimming once. */
  lemma TrimIdempotent(s: string)
    ensures Trim(Trim(s)) == Trim(s)
  {
    TrimSpec(s);
    var r := Trim(s);
    TrimStartNoLeading(r);
    if r != [] {
      assert !IsWhitespace(r[|r| - 1]);
    }
  }

  /** Leading whitespace does not change what `TrimStart` leaves. */
  lemma {:induction false} TrimStartSkips(pre: string, s: string)
    requires AllWhitespace(pre)
    ensures TrimStart(pre + s) == TrimStart(s)
  {
    if pre != [] {
      assert (pre + s)[1..] == pre[1..] + s;
      TrimStartSkips(pre[1..], s);
    } else {
      assert pre + s == s;
    }
  }

  /** Trailing whitespace does not change what `TrimEnd` leaves. */
  lemma {:induction false} TrimEndSkips(s: string, post: string)
    requires AllWhitespace(post)
    ensures TrimEnd(s + post) == TrimEnd(s)
  {
    if post != [] {
      var p := post[..|post| - 1];
      assert (s + post)[..|s + post| - 1] == s + p;
      assert AllWhitespace(p);
      TrimEndSkips(s, p);
    } else {
      assert s + post == s;
    }
  }

  /** Text appended after a non-blank string is kept by `TrimStart`. */
  lemma {:induction false} TrimStartAppend(s: string, t: string)
    ensures TrimStart(s) != [] ==> TrimStart(s + t) == TrimStart(s) + t
    ensures TrimStart(s) == [] ==> TrimStart(s + t) == TrimStart(t)
  {
    if s == [] {
      assert s + t == t;
    } else if IsWhitespace(s[0]) {
      assert (s + t)[1..] == s[1..] + t;
      TrimStartAppend(s[1..], t);
    }
  }

  /** Surrounding whitespace does not change the trimmed text. */
  lemma TrimSurrounded(pre: string, s: string, post: string)
    requires AllWhitespace(pre) && AllWhitespace(post)
    ensures Trim(pre + s + post) == Trim(s)
  {
    assert pre + s + post == pre + (s + post);
    TrimStartSkips(pre, s + post);
    TrimStartAppend(s, post);
    if TrimStart(s) != [] {
      TrimEndSkips(TrimStart(s), post);
    } else {
      TrimStartSkips(post, []);
      assert post + [] == post;
    }
  }

  // ---------------------------------------------------------------------
  // Acceptance

  /** The barcode is rendered exactly when the trimmed text is 13 code units
      long, and what it renders is the trimmed text. */
  lemma RenderAcceptsIff(gtin: Option<string>)
    ensures Render(gtin).Ean13? <==> Utf16Length(Trim(StringOf(gtin))) == 13
    ensures Render(gtin).Ean13? ==> Render(gtin).value == Trim(StringOf(gtin))
  {
    if Trim(StringOf(gtin)) == "" {
      assert Utf16Length(Trim(StringOf(gtin))) == 0;
    }
  }

  /** Empty or blank input is rejected. */
  lemma BlankRejected(s: string)
    requires AllWhitespace(s)
    ensures Render(Some(s)) == NoValidGtin
  {
    TrimSpec(s);
  }

  /** A missing `gtin` is the 9-character text "undefined" and is rejected. */
  lemma MissingRejected()
    ensures Trim(StringOf(None)) == "undefined"
    ensures Render(None) == NoValidGtin
  {
    var u := "undefined";
    TrimStartNoLeading(u);
    assert TrimEnd(u) == u;
    Utf16LengthBmp(u);
  }

  /** Whitespace around the code changes neither the verdict nor the value
      rendered. */
  lemma SurroundingWhitespaceIrrelevant(pre: string, s: string, post: string)
    requires AllWhitespace(pre) && AllWhitespace(post)
    ensures Render(Some(pre + s + post)) == Render(Some(s))
  {
    TrimSurrounded(pre, s, post);
  }

  /** No digit or check-digit test is made: any 13 characters of the Basic
      Multilingual Plane that neither start nor end with whitespace are
      rendered as they are. */
  lemma AnyThirteenCharactersAccepted(s: string)
    requires |s| == 13 && forall i :: 0 <= i < |s| ==> s[i] as int <= 0xFFFF
    requires !IsWhitespace(s[0]) && !IsWhitespace(s[12])
    ensures Render(Some(s)) == Ean13(s)
  {
    TrimStartNoLeading(s);
    assert TrimEnd(s) == s;
    Utf16LengthBmp(s);
  }

  /** For instance, letters pass. */
  lemma LettersAccepted()
    ensures Render(Some("ABCDEFGHIJKLM")) == Ean13("ABCDEFGHIJKLM")
  {
    AnyThirteenCharactersAccepted("ABCDEFGHIJKLM");
  }
}
