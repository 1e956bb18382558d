/**
 * The textual address shapes that go_keepalived recognises with regular
 * expressions.  Each predicate follows the structure of its expression: a
 * repetition becomes a recursion over the matched prefix, a choice of split
 * point becomes a bounded existential.
 *
 * Strings are sequences of characters; every character these shapes accept is
 * ASCII, so matching characters instead of UTF-8 bytes accepts the same texts.
 */
module AddressShape {

  /** `\d` (ASCII digits only, as in Go's regexp syntax). */
  predicate IsDigit(c: char) { '0' <= c <= '9' }

  /** `(\d|a|b|c|d|e|f|A|B|C|D|E|F)` */
  predicate IsHexDigit(c: char) { IsDigit(c) || 'a' <= c <= 'f' || 'A' <= c <= 'F' }

  predicate AllDigits(s: string) { forall i :: 0 <= i < |s| ==> IsDigit(s[i]) }

  predicate AllHexDigits(s: string) { forall i :: 0 <= i < |s| ==> IsHexDigit(s[i]) }

  /** `^\d{1,}$`: the all-digits shape a service address may also take. */
  predicate IsNumber(s: string) { |s| >= 1 && AllDigits(s) }

  /** `\d{1,3}` */
  predicate IsDigitGroup(g: string) { 1 <= |g| <= 3 && AllDigits(g) }

  /** `(\d{1,3}\.){n}\d{1,3}`, matched against the whole of `s`. */
  predicate DottedGroups(s: string, n: nat)
    decreases n, 1
  {
    if n == 0 then IsDigitGroup(s)
    else exists i :: 1 <= i <= 3 && GroupThenDot(s, i, n)
  }

  /** The first `i` characters of `s` are a digit group, a dot follows, and the rest matches `n - 1` more groups. */
  predicate GroupThenDot(s: string, i: nat, n: nat)
    decreases n, 0
  {
    n > 0 && i < |s| && IsDigitGroup(s[..i]) && s[i] == '.' && DottedGroups(s[i + 1..], n - 1)
  }

  /** `^(\d{1,3}\.){3}\d{1,3}$`: dotted IPv4, with no range check on the groups. */
  predicate IsV4(s: string) { DottedGroups(s, 3) }

  /** One repetition of `(\d|a|…|F){0,4}\:?`: up to four hex digits, then an optional colon. */
  predicate IsHexPiece(p: string) {
    || (|p| <= 4 && AllHexDigits(p))
    || (1 <= |p| <= 5 && p[|p| - 1] == ':' && AllHexDigits(p[..|p| - 1]))
  }

  /**
   * `s` is a concatenation of at most `k` hex pieces.  Since a piece may be
   * empty, this is exactly what `(piece){1,k}` matches; empty pieces are left out.
   */
  predicate HexPieces(s: string, k: nat)
    decreases k
  {
    s == [] || (k > 0 && exists i :: 1 <= i <= |s| && IsHexPiece(s[..i]) && HexPieces(s[i..], k - 1))
  }

  /** `^\[(((\d|a|…|F){0,4}\:?){1,8})\]$`: an IPv6-looking text in brackets. */
  predicate IsV6Bracketed(s: string) {
    2 <= |s| && s[0] == '[' && s[|s| - 1] == ']' && HexPieces(s[1..|s| - 1], 8)
  }

  /** The first capture group of the bracketed shape: the text between the brackets. */
  function Inner(s: string): (r: string)
    requires IsV6Bracketed(s)
    ensures s == "[" + r + "]"
  {
    s[1..|s| - 1]
  }

  predicate IsDigitOrDot(c: char) { IsDigit(c) || c == '.' }

  predicate IsHexOrColon(c: char) { IsHexDigit(c) || c == ':' }

  predicate DigitsAndDots(s: string) { forall i :: 0 <= i < |s| ==> IsDigitOrDot(s[i]) }

  predicate HexAndColons(s: string) { forall i :: 0 <= i < |s| ==> IsHexOrColon(s[i]) }

  /** Every dotted IPv4 text is 7 to 15 characters of digits and dots and starts with a digit. */
  lemma V4Shape(s: string)
    requires IsV4(s)
    ensures 7 <= |s| <= 15 && IsDigit(s[0])
    ensures DigitsAndDots(s)
  {
    DottedGroupsShape(s, 3);
    DottedGroupsChars(s, 3);
  }

  lemma {:induction false} DottedGroupsShape(s: string, n: nat)
    requires DottedGroups(s, n)
    ensures 2 * n + 1 <= |s| <= 4 * n + 3
    decreases n
  {
    if n > 0 {
      var i :| 1 <= i <= 3 && GroupThenDot(s, i, n);
      DottedGroupsShape(s[i + 1..], n - 1);
    }
  }

  lemma {:induction false} DottedGroupsChars(s: string, n: nat)
    requires DottedGroups(s, n)
    ensures |s| > 0 && DigitsAndDots(s) && IsDigit(s[0])
    decreases n
  {
    if n > 0 {
      var i :| 1 <= i <= 3 && GroupThenDot(s, i, n);
      var g, rest := s[..i], s[i + 1..];
      DottedGroupsChars(rest, n - 1);
      assert s == g + "." + rest;
      DigitsAndDotsJoin(g, rest);
    }
  }

  /** A `.` occurs in every dotted text. */
  lemma DottedGroupsDot(s: string, n: nat)
    requires DottedGroups(s, n) && n > 0
    ensures exists i :: 0 <= i < |s| && s[i] == '.'
  {
    var i :| 1 <= i <= 3 && GroupThenDot(s, i, n);
    assert s[i] == '.';
  }

  lemma DigitsAndDotsJoin(g: string, rest: string)
    requires IsDigitGroup(g) && DigitsAndDots(rest)
    ensures DigitsAndDots(g + "." + rest) && IsDigit((g + "." + rest)[0])
  {
    var s := g + "." + rest;
    forall j | 0 <= j < |s| ensures IsDigitOrDot(s[j]) {
      if j < |g| {
        assert s[j] == g[j];
      } else if j > |g| {
        assert s[j] == rest[j - |g| - 1];
      }
    }
  }

  /** Every bracketed IPv6 text holds only hex digits and colons between its brackets, at most 40 of them. */
  lemma V6Shape(s: string)
    requires IsV6Bracketed(s)
    ensures |s| <= 42
    ensures HexAndColons(Inner(s))
  {
    HexPiecesShape(Inner(s), 8);
  }

  lemma {:induction false} HexPiecesShape(s: string, k: nat)
    requires HexPieces(s, k)
    ensures |s| <= 5 * k
    ensures HexAndColons(s)
    decreases k
  {
    if s != [] {
      var i :| 1 <= i <= |s| && IsHexPiece(s[..i]) && HexPieces(s[i..], k - 1);
      var p, rest := s[..i], s[i..];
      HexPiecesShape(rest, k - 1);
      HexPieceShape(p);
      forall j | 0 <= j < |s| ensures IsHexOrColon(s[j]) {
        if j < i {
          assert s[j] == p[j];
        } else {
          assert s[j] == rest[j - i];
        }
      }
    }
  }

  lemma HexPieceShape(p: string)
    requires IsHexPiece(p)
    ensures |p| <= 5 && HexAndColons(p)
  {
    if !(|p| <= 4 && AllHexDigits(p)) {
      var h := p[..|p| - 1];
      assert forall j :: 0 <= j < |h| ==> p[j] == h[j];
    }
  }

  /** A digit group, a dot and a match of `n` more groups match `n + 1` groups. */
  lemma DottedGroupsCons(g: string, rest: string, n: nat)
    requires IsDigitGroup(g) && DottedGroups(rest, n)
    ensures DottedGroups(g + "." + rest, n + 1)
  {
    var s := g + "." + rest;
    assert s[..|g|] == g && s[|g|] == '.' && s[|g| + 1..] == rest;
    assert GroupThenDot(s, |g|, n + 1);
  }

  /** Four groups of one to three digits joined by dots form a dotted IPv4 text. */
  lemma DottedQuad(a: string, b: string, c: string, d: string)
    requires IsDigitGroup(a) && IsDigitGroup(b) && IsDigitGroup(c) && IsDigitGroup(d)
    ensures IsV4(a + "." + (b + "." + (c + "." + d)))
  {
    DottedGroupsCons(c, d, 0);
    DottedTriple(b, c + "." + d);
    DottedQuadrant(a, b + "." + (c + "." + d));
  }

  lemma DottedTriple(b: string, rest: string)
    requires IsDigitGroup(b) && DottedGroups(rest, 1)
    ensures DottedGroups(b + "." + rest, 2)
  {
    DottedGroupsCons(b, rest, 1);
  }

  lemma DottedQuadrant(a: string, rest: string)
    requires IsDigitGroup(a) && DottedGroups(rest, 2)
    ensures IsV4(a + "." + rest)
  {
    DottedGroupsCons(a, rest, 2);
  }

  /** A non-empty hex piece followed by at most `k` pieces is at most `k + 1` pieces. */
  lemma HexPiecesCons(s: string, p: string, rest: string, k: nat)
    requires s == p + rest
    requires p != [] && IsHexPiece(p) && HexPieces(rest, k)
    ensures HexPieces(s, k + 1)
  {
    assert s[..|p|] == p && s[|p|..] == rest;
  }

  /** At most eight hex pieces in brackets form a bracketed IPv6 text, whose inner text they are. */
  lemma Bracketed(s: string, inner: string)
    requires s == "[" + inner + "]" && HexPieces(inner, 8)
    ensures IsV6Bracketed(s) && Inner(s) == inner
  {
    assert s[1..|s| - 1] == inner;
  }

  /** Four groups in a text that is their dotted concatenation make it dotted IPv4. */
  lemma V4Of(s: string, a: string, b: string, c: string, d: string)
    requires IsDigitGroup(a) && IsDigitGroup(b) && IsDigitGroup(c) && IsDigitGroup(d)
    requires s == a + "." + (b + "." + (c + "." + d))
    ensures IsV4(s)
  {
    DottedQuad(a, b, c, d);
  }

  /** The two shapes never overlap, so the order in which the source tests them does not matter. */
  lemma V4NotV6(s: string)
    ensures !(IsV4(s) && IsV6Bracketed(s))
  {
    if IsV4(s) {
      V4Shape(s);
    }
  }
}
