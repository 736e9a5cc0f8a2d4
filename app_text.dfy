/** The pure string helpers of the chat client (app.js): HTML escaping, the
    account-tag and channel-name normalisers, the display-name default and
    the avatar classifier. */
module AppText {
  import opened Wrappers
  import opened Text

  // ---------------------------------------------------------------
  // esc (app.js:950)
  // ---------------------------------------------------------------

  /** `esc(s)`: three global replacements, `&` first so that the entities
      introduced by the other two are not escaped again. */
  function Esc(s: string): string {
    ReplaceAll(ReplaceAll(ReplaceAll(s, "&", "&amp;"), "<", "&lt;"), ">", "&gt;")
  }

  /** The inverse the escaping is meant to have: decode `&lt;`, `&gt;` and
      then `&amp;`. */
  function Unescape(t: string): string {
    ReplaceAll(ReplaceAll(ReplaceAll(t, "&lt;", "<"), "&gt;", ">"), "&amp;", "&")
  }

  /** `s` with every character replaced by the string `f` gives for it. */
  function MapChars(s: string, f: char -> string): string {
    if s == [] then [] else f(s[0]) + MapChars(s[1..], f)
  }

  /** What each character becomes in the output of `Esc`. */
  function EscapeChar(c: char): string {
    if c == '&' then "&amp;" else if c == '<' then "&lt;" else if c == '>' then "&gt;" else [c]
  }

  // The intermediate per-character forms of the chain of replacements.
  function AmpOnly(c: char): string {
    if c == '&' then "&amp;" else [c]
  }

  function AmpAndLt(c: char): string {
    if c == '&' then "&amp;" else if c == '<' then "&lt;" else [c]
  }

  function AmpAndGt(c: char): string {
    if c == '&' then "&amp;" else if c == '>' then "&gt;" else [c]
  }

  function Keep(c: char): string {
    [c]
  }

  /** One replacement pass over a per-character image maps it to another
      per-character image when it does so for every character in front of
      any text. */
  lemma {:induction false} MapStep(s: string, f: char -> string, g: char -> string, pat: string, rep: string)
    requires |pat| > 0
    requires forall c, t :: ReplaceAll(f(c) + t, pat, rep) == g(c) + ReplaceAll(t, pat, rep)
    ensures ReplaceAll(MapChars(s, f), pat, rep) == MapChars(s, g)
    decreases |s|
  {
    if s != [] {
      MapStep(s[1..], f, g, pat, rep);
    }
  }

  lemma {:induction false} MapKeep(s: string)
    ensures MapChars(s, Keep) == s
  {
    if s != [] {
      MapKeep(s[1..]);
    }
  }

  /** A piece whose second character differs from the pattern's and which
      has the pattern's first character at most in front is kept whole. */
  lemma PieceMiss(piece: string, t: string, pat: string, rep: string)
    requires |piece| >= 2 && |pat| >= 2 && piece[1] != pat[1] && pat[0] !in piece[1..]
    ensures ReplaceAll(piece + t, pat, rep) == piece + ReplaceAll(t, pat, rep)
  {
    var s := piece + t;
    assert s[1] == piece[1] && s[0] == piece[0];
    assert !(|s| >= |pat| && s[..|pat|] == pat) by {
      if |s| >= |pat| { assert s[..|pat|][1] == s[1]; }
    }
    calc {
      ReplaceAll(s, pat, rep);
      { ReplaceAllNoMatch(s, pat, rep); }
      [s[0]] + ReplaceAll(s[1..], pat, rep);
      { assert s[1..] == piece[1..] + t; }
      [piece[0]] + ReplaceAll(piece[1..] + t, pat, rep);
      { ReplaceAllSkip(piece[1..], t, pat, rep); }
      [piece[0]] + (piece[1..] + ReplaceAll(t, pat, rep));
      { assert [piece[0]] + piece[1..] == piece; }
      piece + ReplaceAll(t, pat, rep);
    }
  }

  lemma EscapeStep1()
    ensures forall c, t :: ReplaceAll(Keep(c) + t, "&", "&amp;") == AmpOnly(c) + ReplaceAll(t, "&", "&amp;")
  {
    forall c, t ensures ReplaceAll(Keep(c) + t, "&", "&amp;") == AmpOnly(c) + ReplaceAll(t, "&", "&amp;") {
      if c == '&' { ReplaceAllHead(t, "&", "&amp;"); } else { ReplaceAllKeep(c, t, "&", "&amp;"); }
    }
  }

  lemma EscapeStep2()
    ensures forall c, t :: ReplaceAll(AmpOnly(c) + t, "<", "&lt;") == AmpAndLt(c) + ReplaceAll(t, "<", "&lt;")
  {
    forall c, t ensures ReplaceAll(AmpOnly(c) + t, "<", "&lt;") == AmpAndLt(c) + ReplaceAll(t, "<", "&lt;") {
      if c == '&' { ReplaceAllSkip("&amp;", t, "<", "&lt;"); }
      else if c == '<' { ReplaceAllHead(t, "<", "&lt;"); }
      else { ReplaceAllKeep(c, t, "<", "&lt;"); }
    }
  }

  lemma EscapeStep3()
    ensures forall c, t :: ReplaceAll(AmpAndLt(c) + t, ">", "&gt;") == EscapeChar(c) + ReplaceAll(t, ">", "&gt;")
  {
    forall c, t ensures ReplaceAll(AmpAndLt(c) + t, ">", "&gt;") == EscapeChar(c) + ReplaceAll(t, ">", "&gt;") {
      if c == '&' { ReplaceAllSkip("&amp;", t, ">", "&gt;"); }
      else if c == '<' { ReplaceAllSkip("&lt;", t, ">", "&gt;"); }
      else if c == '>' { ReplaceAllHead(t, ">", "&gt;"); }
      else { ReplaceAllKeep(c, t, ">", "&gt;"); }
    }
  }

  /** The three passes of `esc` amount to escaping each character on its own. */
  lemma EscIsCharwise(s: string)
    ensures Esc(s) == MapChars(s, EscapeChar)
  {
    MapKeep(s);
    EscapeStep1();
    MapStep(s, Keep, AmpOnly, "&", "&amp;");
    EscapeStep2();
    MapStep(s, AmpOnly, AmpAndLt, "<", "&lt;");
    EscapeStep3();
    MapStep(s, AmpAndLt, EscapeChar, ">", "&gt;");
  }

  lemma {:induction false} MapCharsNoAngle(s: string)
    ensures '<' !in MapChars(s, EscapeChar) && '>' !in MapChars(s, EscapeChar)
  {
    if s != [] {
      MapCharsNoAngle(s[1..]);
      var h := EscapeChar(s[0]);
      assert '<' !in h && '>' !in h;
      assert MapChars(s, EscapeChar) == h + MapChars(s[1..], EscapeChar);
    }
  }

  /** The output of `esc` can never open or close a tag. */
  lemma EscNoAngleBrackets(s: string)
    ensures '<' !in Esc(s) && '>' !in Esc(s)
  {
    EscIsCharwise(s);
    MapCharsNoAngle(s);
  }

  lemma UnescapeStep1()
    ensures forall c, t :: ReplaceAll(EscapeChar(c) + t, "&lt;", "<") == AmpAndGt(c) + ReplaceAll(t, "&lt;", "<")
  {
    forall c, t ensures ReplaceAll(EscapeChar(c) + t, "&lt;", "<") == AmpAndGt(c) + ReplaceAll(t, "&lt;", "<") {
      if c == '&' { PieceMiss("&amp;", t, "&lt;", "<"); }
      else if c == '<' { ReplaceAllHead(t, "&lt;", "<"); }
      else if c == '>' { PieceMiss("&gt;", t, "&lt;", "<"); }
      else { ReplaceAllKeep(c, t, "&lt;", "<"); }
    }
  }

  lemma UnescapeStep2()
    ensures forall c, t :: ReplaceAll(AmpAndGt(c) + t, "&gt;", ">") == AmpOnly(c) + ReplaceAll(t, "&gt;", ">")
  {
    forall c, t ensures ReplaceAll(AmpAndGt(c) + t, "&gt;", ">") == AmpOnly(c) + ReplaceAll(t, "&gt;", ">") {
      if c == '&' { PieceMiss("&amp;", t, "&gt;", ">"); }
      else if c == '>' { ReplaceAllHead(t, "&gt;", ">"); }
      else { ReplaceAllKeep(c, t, "&gt;", ">"); }
    }
  }

  lemma UnescapeStep3()
    ensures forall c, t :: ReplaceAll(AmpOnly(c) + t, "&amp;", "&") == Keep(c) + ReplaceAll(t, "&amp;", "&")
  {
    forall c, t ensures ReplaceAll(AmpOnly(c) + t, "&amp;", "&") == Keep(c) + ReplaceAll(t, "&amp;", "&") {
      if c == '&' { ReplaceAllHead(t, "&amp;", "&"); } else { ReplaceAllKeep(c, t, "&amp;", "&"); }
    }
  }

  /** Decoding `&lt;`, `&gt;` and then `&amp;` undoes `esc`. */
  lemma EscRoundTrip(s: string)
    ensures Unescape(Esc(s)) == s
  {
    EscIsCharwise(s);
    UnescapeStep1();
    MapStep(s, EscapeChar, AmpAndGt, "&lt;", "<");
    UnescapeStep2();
    MapStep(s, AmpAndGt, AmpOnly, "&gt;", ">");
    UnescapeStep3();
    MapStep(s, AmpOnly, Keep, "&amp;", "&");
    MapKeep(s);
  }

  // ---------------------------------------------------------------
  // Account tag (app.js:193)
  // ---------------------------------------------------------------

  /** `replace(/\D/g, '')`: the ASCII digits of `s`, in order. */
  function Digits(s: string): (r: string)
    ensures |r| <= |s|
    ensures forall i :: 0 <= i < |r| ==> IsDigit(r[i])
    ensures (forall i :: 0 <= i < |s| ==> IsDigit(s[i])) ==> r == s
  {
    if s == [] then [] else if IsDigit(s[0]) then [s[0]] + Digits(s[1..]) else Digits(s[1..])
  }

  /** The digits of a concatenation are the digits of each part, in order. */
  lemma {:induction false} DigitsConcat(a: string, b: string)
    ensures Digits(a + b) == Digits(a) + Digits(b)
    decreases |a|
  {
    if a == [] {
      assert a + b == b;
    } else {
      assert (a + b)[0] == a[0];
      assert (a + b)[1..] == a[1..] + b;
      DigitsConcat(a[1..], b);
    }
  }

  /** A single character is kept exactly when it is a digit. */
  lemma DigitsChar(c: char)
    ensures Digits([c]) == if IsDigit(c) then [c] else []
  {
    assert [c][1..] == [];
  }

  /** `padStart(n, '0')`. */
  function PadZeros(s: string, n: nat): (r: string)
    ensures |s| >= n ==> r == s
    ensures |s| < n ==> |r| == n && r[n - |s|..] == s && forall i :: 0 <= i < n - |s| ==> r[i] == '0'
    decreases n - |s|
  {
    if |s| >= n then s else PadZeros("0" + s, n)
  }

  /** The digits the tag keeps: the first four digits of the input. */
  function TagDigits(raw: string): string {
    var d := Digits(raw);
    if |d| <= 4 then d else d[..4]
  }

  /** The tag normaliser of `setupAccount`. `fallback` stands for the random
      tag after `||`, which a four-character string never selects. */
  function NormalizeTag(raw: string, fallback: string): (r: string)
    ensures |r| == 4
    ensures forall i :: 0 <= i < 4 ==> IsDigit(r[i])
    ensures var k := TagDigits(raw);
      r[4 - |k|..] == k && forall i :: 0 <= i < 4 - |k| ==> r[i] == '0'
  {
    var padded := PadZeros(TagDigits(raw), 4);
    if padded != "" then padded else fallback
  }

  /** The random fallback of the tag normaliser is unreachable. */
  lemma TagFallbackUnreachable(raw: string, f1: string, f2: string)
    ensures NormalizeTag(raw, f1) == NormalizeTag(raw, f2)
  {
  }

  /** A tag of four digits is kept as it is, so normalising twice is the
      same as normalising once. */
  lemma TagIdempotent(raw: string, f: string, g: string)
    ensures NormalizeTag(NormalizeTag(raw, f), g) == NormalizeTag(raw, f)
  {
    var t := NormalizeTag(raw, f);
    assert Digits(t) == t;
    assert TagDigits(t) == t;
  }

  // ---------------------------------------------------------------
  // Display name (app.js:192) and channel name (app.js:609)
  // ---------------------------------------------------------------

  /** `value.trim() || 'Utilisateur'`. */
  function DisplayName(raw: string): (r: string)
    ensures r != []
    ensures !IsSpace(r[0]) && !IsSpace(r[|r| - 1])
    ensures AllSpace(raw) ==> r == "Utilisateur"
    ensures !AllSpace(raw) ==> r == Trim(raw)
  {
    var t := Trim(raw);
    if t != "" then t else "Utilisateur"
  }

  /** `replace(/\s+/g, '-')`: every maximal run of white space becomes one
      dash. */
  function DashRuns(s: string): (r: string)
    ensures NoSpace(r)
    ensures r == [] <==> s == []
    ensures NoSpace(s) ==> r == s
    ensures NoUpper(s) ==> NoUpper(r)
    decreases |s|
  {
    if s == [] then []
    else if IsSpace(s[0]) then
      var d := DashRuns(s[1..][LeadSpaces(s[1..])..]);
      DashStep(s, d);
      "-" + d
    else
      var d := DashRuns(s[1..]);
      CopyStep(s, d);
      [s[0]] + d
  }

  /** The proof step of `DashRuns` for a leading run of white space, whose
      rest `d` is the result for the text after the run. */
  lemma DashStep(s: string, d: string)
    requires s != [] && IsSpace(s[0]) && NoSpace(d)
    requires NoUpper(s[1..][LeadSpaces(s[1..])..]) ==> NoUpper(d)
    ensures NoSpace("-" + d) && !NoSpace(s)
    ensures NoUpper(s) ==> NoUpper("-" + d)
  {
    SuffixChars(s, 1);
    SuffixChars(s[1..], LeadSpaces(s[1..]));
    ConsChars('-', d);
  }

  /** The proof step of `DashRuns` for a leading character that is copied,
      whose rest `d` is the result for the text after it. */
  lemma CopyStep(s: string, d: string)
    requires s != [] && !IsSpace(s[0]) && NoSpace(d)
    requires NoSpace(s[1..]) ==> d == s[1..]
    requires NoUpper(s[1..]) ==> NoUpper(d)
    ensures NoSpace([s[0]] + d)
    ensures NoSpace(s) ==> [s[0]] + d == s
    ensures NoUpper(s) ==> NoUpper([s[0]] + d)
  {
    SuffixChars(s, 1);
    ConsChars(s[0], d);
    assert [s[0]] + s[1..] == s;
  }

  /** A character that is not white space is copied. */
  lemma DashRunsCons(c: char, u: string)
    requires !IsSpace(c)
    ensures DashRuns([c] + u) == [c] + DashRuns(u)
  {
    var s := [c] + u;
    assert s[0] == c;
    assert s[1..] == u;
  }

  /** `f` copies a leading character that is not white space. */
  ghost predicate CopiesNonSpace(f: string -> string) {
    forall c, v :: !IsSpace(c) ==> f([c] + v) == [c] + f(v)
  }

  /** Such a function copies a whole prefix without white space. */
  lemma {:induction false} CopiesPrefix(f: string -> string, a: string, b: string)
    requires CopiesNonSpace(f) && NoSpace(a)
    ensures f(a + b) == a + f(b)
    decreases |a|
  {
    if a == [] {
      assert a + b == b;
    } else {
      var c, u := a[0], a[1..];
      assert NoSpace(u) by {
        forall i | 0 <= i < |u| ensures !IsSpace(u[i]) { assert u[i] == a[i + 1]; }
      }
      assert a + b == [c] + (u + b);
      CopiesPrefix(f, u, b);
      assert [c] + (u + f(b)) == a + f(b);
    }
  }

  /** Text without white space is copied as it is. */
  lemma DashRunsKeep(a: string, b: string)
    requires NoSpace(a)
    ensures DashRuns(a + b) == a + DashRuns(b)
  {
    forall c, v | !IsSpace(c) ensures DashRuns([c] + v) == [c] + DashRuns(v) {
      DashRunsCons(c, v);
    }
    CopiesPrefix(DashRuns, a, b);
  }

  /** A maximal run of white space becomes a single dash. */
  lemma DashRunsRun(w: string, b: string)
    requires w != [] && AllSpace(w) && (b == [] || !IsSpace(b[0]))
    ensures DashRuns(w + b) == "-" + DashRuns(b)
  {
    var s := w + b;
    assert IsSpace(s[0]);
    assert s[1..] == w[1..] + b;
    LeadSpacesRun(w[1..], b);
    assert s[1..][|w| - 1..] == b;
  }

  lemma LowerKeepsSpaces(s: string)
    ensures NoSpace(s) ==> NoSpace(Lower(s))
  {
  }

  lemma {:induction false} LowerIdentity(s: string)
    requires NoUpper(s)
    ensures Lower(s) == s
  {
    if s != [] {
      LowerIdentity(s[1..]);
    }
  }

  /** The channel-name normaliser of `createChannel`: `raw` is the input's
      value, `None` when the input element is missing. */
  function ChannelName(raw: Option<string>): (r: string)
    ensures r != []
    ensures NoSpace(r)
    ensures NoUpper(r)
    ensures raw.None? || AllSpace(raw.value) ==> r == "nouveau"
    ensures raw.Some? && !AllSpace(raw.value) ==> r == DashRuns(Lower(Trim(raw.value)))
  {
    match raw
    case None => "nouveau"
    case Some(v) =>
      var n := DashRuns(Lower(Trim(v)));
      if n != "" then n else "nouveau"
  }

  /** A normalised name is its own normal form. */
  lemma ChannelNameIdempotent(raw: Option<string>)
    ensures ChannelName(Some(ChannelName(raw))) == ChannelName(raw)
  {
    var n := ChannelName(raw);
    TrimIdentity(n);
    LowerIdentity(n);
  }

  // ---------------------------------------------------------------
  // formatAvatar (app.js:28-36)
  // ---------------------------------------------------------------

  predicate StartsWith(s: string, p: string) {
    |p| <= |s| && s[..|p|] == p
  }

  /** An avatar that is a URL, a rooted path or a data URL is an image. */
  predicate IsImageRef(av: string) {
    StartsWith(av, "http") || StartsWith(av, "/") || StartsWith(av, "data:")
  }

  const ImgOpen := "<img src=\""
  const ImgClose := "\" class=\"avatar-img\" alt=\"avatar\">"
  const SpanOpen := "<span style=\"font-size:15px\">"
  const SpanClose := "</span>"

  /** The markup for an avatar: nothing for a missing or empty one, an
      `<img>` for an image reference, otherwise the glyph in a `<span>`. */
  function FormatAvatar(av: Option<string>): (r: string)
    ensures r == "" <==> av.None? || av.value == ""
    ensures av.Some? && IsImageRef(av.value) ==>
      StartsWith(r, ImgOpen) && |r| == |ImgOpen| + |av.value| + |ImgClose|
      && r[|ImgOpen|..|ImgOpen| + |av.value|] == av.value && r[|r| - |ImgClose|..] == ImgClose
    ensures av.Some? && av.value != "" && !IsImageRef(av.value) ==>
      StartsWith(r, SpanOpen) && |r| == |SpanOpen| + |av.value| + |SpanClose|
      && r[|SpanOpen|..|SpanOpen| + |av.value|] == av.value && r[|r| - |SpanClose|..] == SpanClose
  {
    match av
    case None => ""
    case Some(v) =>
      if v == "" then ""
      else if IsImageRef(v) then ImgOpen + v + ImgClose
      else SpanOpen + v + SpanClose
  }
}
