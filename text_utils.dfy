/**
  The reply sanitiser of lib/textUtils.ts. `cleanMarkdown` is a fixed chain of
  global regular-expression rewrites followed by `trim`; each rewrite is a
  recursive function that scans the text left to right the way a global
  `String.prototype.replace` does: try a match at the current position, emit
  the replacement and resume after the match, or emit one character and move on.
 */
module TextUtils {
  import opened Wrappers
  import opened Strings

  // ---------------------------------------------------------------------------
  // Emphasis and inline code: /D(.*?)D/g -> '$1' for D in **, __, *, _, `
  // ---------------------------------------------------------------------------

  /** Where the lazy group `(.*?)` of `/D(.*?)D/` stops in `s` (the text after
      the opening delimiter): the first index at which the closing delimiter
      starts, provided no line terminator comes before it. */
  function CloseAt(s: string, d: string): (r: Option<nat>)
    requires d != []
    ensures r.Some? ==> r.value + |d| <= |s|
    decreases |s|
  {
    if StartsWith(s, d) then Some(0)
    else if s == [] || IsLineTerminator(s[0]) then None
    else match CloseAt(s[1..], d)
      case None => None
      case Some(k) =>
        assert s[1..][k..] == s[k + 1..];
        Some(k + 1)
  }

  /** The group is lazy and `.` stops at line ends: the closing delimiter
      found starts at the index found, no earlier index starts one, and the
      span before it is on one line. */
  lemma {:induction false} CloseAtIsFirst(s: string, d: string)
    requires d != []
    ensures CloseAt(s, d).Some? ==>
      var k := CloseAt(s, d).value;
      && StartsWith(s[k..], d)
      && NoLineTerminator(s[..k]) && forall j :: 0 <= j < k ==> !StartsWith(s[j..], d)
    decreases |s|
  {
    if !StartsWith(s, d) && s != [] && !IsLineTerminator(s[0]) {
      CloseAtIsFirst(s[1..], d);
      if CloseAt(s[1..], d).Some? {
        var k := CloseAt(s[1..], d).value;
        assert s[1..][k..] == s[k + 1..];
        assert s[..k + 1] == [s[0]] + s[1..][..k];
        forall j | 0 <= j < k + 1 ensures !StartsWith(s[j..], d) {
          if j > 0 { assert s[j..] == s[1..][j - 1..]; }
        }
      }
    }
  }

  /** When the lazy group finds no closing delimiter, none starts anywhere
      up to the first line terminator. */
  lemma {:induction false} CloseAtNotFound(s: string, d: string)
    requires d != [] && CloseAt(s, d).None?
    ensures forall j :: 0 <= j <= |s| && NoLineTerminator(s[..j]) ==> !StartsWith(s[j..], d)
    decreases |s|
  {
    if s == [] || IsLineTerminator(s[0]) {
      assert forall j :: 0 < j <= |s| ==> s[..j][0] == s[0];
    } else {
      CloseAtNotFound(s[1..], d);
      forall j | 0 <= j <= |s| && NoLineTerminator(s[..j]) ensures !StartsWith(s[j..], d) {
        if j > 0 {
          assert s[1..][..j - 1] == s[..j][1..] && s[1..][j - 1..] == s[j..];
        }
      }
    }
  }

  /** One global pass of `/D(.*?)D/g -> '$1'`: every delimited span on a
      single line loses its two delimiters. */
  function StripDelimited(s: string, d: string): (r: string)
    requires d != []
    ensures |r| <= |s|
    decreases |s|
  {
    if s == [] then []
    else if !StartsWith(s, d) then [s[0]] + StripDelimited(s[1..], d)
    else match CloseAt(s[|d|..], d)
      case Some(k) => s[|d|..|d| + k] + StripDelimited(s[|d| + k + |d|..], d)
      case None => [s[0]] + StripDelimited(s[1..], d)
  }

  /** Text in which the delimiter never starts is left as it is. */
  lemma {:induction false} StripWithoutDelimiter(s: string, d: string)
    requires d != []
    requires forall j :: 0 <= j <= |s| ==> !StartsWith(s[j..], d)
    ensures StripDelimited(s, d) == s
    decreases |s|
  {
    if s != [] {
      assert !StartsWith(s[0..], d);
      forall j | 0 <= j <= |s| - 1 ensures !StartsWith(s[1..][j..], d) {
        assert s[1..][j..] == s[j + 1..];
      }
      StripWithoutDelimiter(s[1..], d);
    }
  }

  /** A text free of the delimiter's first character is left as it is. */
  lemma {:induction false} StripWithoutDelimiterChar(s: string, d: string)
    requires d != [] && Excludes(s, d[0])
    ensures StripDelimited(s, d) == s
  {
    forall j | 0 <= j <= |s| ensures !StartsWith(s[j..], d) {
      if j < |s| { assert s[j..][0] == s[j]; }
    }
    StripWithoutDelimiter(s, d);
  }

  /** The closing delimiter is found right after a span that holds neither a
      line terminator nor the delimiter's first character. */
  lemma {:induction false} CloseAfterSpan(x: string, d: string, rest: string)
    requires d != [] && NoLineTerminator(x) && Excludes(x, d[0])
    ensures CloseAt(x + d + rest, d) == Some(|x|)
    decreases |x|
  {
    var s := x + d + rest;
    if x == [] {
      assert s[..|d|] == d;
    } else {
      assert s[1..] == x[1..] + d + rest;
      CloseAfterSpan(x[1..], d, rest);
      assert !StartsWith(s, d) by { assert s[0] == x[0]; }
    }
  }

  /** `D x D` becomes `x` when `x` is on one line and free of the delimiter's
      first character; what follows is rewritten on its own. */
  lemma {:induction false} StripWrapped(d: string, x: string, rest: string)
    requires d != [] && NoLineTerminator(x) && Excludes(x, d[0])
    ensures StripDelimited(d + x + d + rest, d) == x + StripDelimited(rest, d)
  {
    CloseAfterSpan(x, d, rest);
    StripAfterClose(d, x, rest);
  }

  /** When the closing delimiter right after `x` is the one the lazy group
      finds, `D x D` is rewritten to `x`. */
  lemma {:induction false} StripAfterClose(d: string, x: string, rest: string)
    requires d != [] && CloseAt(x + d + rest, d) == Some(|x|)
    ensures StripDelimited(d + x + d + rest, d) == x + StripDelimited(rest, d)
  {
    WrappedSlices(d, x, rest);
  }

  /** How `D x D rest` slices around its delimiters. */
  lemma {:induction false} WrappedSlices(d: string, x: string, rest: string)
    ensures var s := d + x + d + rest;
      && s[..|d|] == d
      && s[|d|..] == x + d + rest
      && s[|d|..|d| + |x|] == x
      && s[|d| + |x| + |d|..] == rest
  {
  }

  // ---------------------------------------------------------------------------
  // Links: /\[([^\]]+)\]\([^)]+\)/g -> '$1'
  // ---------------------------------------------------------------------------

  /** Length of the longest prefix of `s` that does not contain `c`. */
  function RunWithout(s: string, c: char): (n: nat)
    ensures n <= |s| && Excludes(s[..n], c)
    ensures n < |s| ==> s[n] == c
  {
    if s != [] && s[0] != c then 1 + RunWithout(s[1..], c) else 0
  }

  lemma {:induction false} RunWithoutUpTo(x: string, c: char, y: string)
    requires Excludes(x, c) && y != [] && y[0] == c
    ensures RunWithout(x + y, c) == |x|
    decreases |x|
  {
    if x != [] {
      assert (x + y)[1..] == x[1..] + y;
      RunWithoutUpTo(x[1..], c, y);
    }
  }

  /** A link at the start of `s`: `[`, one or more characters other than `]`
      (the kept text), `](`, one or more characters other than `)` (the URL),
      `)`. The character classes exclude the closing brackets, so each run is
      maximal and the match is unique. Yields the text length and the length
      of the whole match. */
  function LinkAt(s: string): (r: Option<(nat, nat)>)
    ensures r.Some? ==> 1 <= r.value.0 && r.value.0 + 5 <= r.value.1 <= |s|
    ensures r.Some? ==>
      var t, n := r.value.0, r.value.1;
      && s[0] == '[' && Excludes(s[1..1 + t], ']') && s[1 + t] == ']' && s[2 + t] == '('
      && Excludes(s[3 + t..n - 1], ')') && s[n - 1] == ')'
  {
    if s == [] || s[0] != '[' then None
    else
      var t := RunWithout(s[1..], ']');
      if t == 0 || 2 + t >= |s| || s[2 + t] != '(' then None
      else
        var u := RunWithout(s[3 + t..], ')');
        if u == 0 || 3 + t + u >= |s| then None
        else
          assert s[1..][..t] == s[1..1 + t] && s[3 + t..][..u] == s[3 + t..3 + t + u];
          Some((t, 4 + t + u))
  }

  /** One global pass of the link rewrite: every link becomes its text. */
  function LinkPass(s: string): (r: string)
    ensures |r| <= |s|
    decreases |s|
  {
    if s == [] then []
    else match LinkAt(s)
      case Some((t, n)) => s[1..1 + t] + LinkPass(s[n..])
      case None => [s[0]] + LinkPass(s[1..])
  }

  /** Text without `[` holds no link and is left as it is. */
  lemma {:induction false} LinkPassWithoutBracket(s: string)
    requires Excludes(s, '[')
    ensures LinkPass(s) == s
    decreases |s|
  {
    if s != [] {
      LinkPassWithoutBracket(s[1..]);
    }
  }

  /** `[text](url)` is replaced by `text` and the URL is dropped. */
  lemma {:induction false} LinkReplaced(text: string, url: string, rest: string)
    requires text != [] && Excludes(text, ']')
    requires url != [] && Excludes(url, ')')
    ensures LinkPass("[" + text + "](" + url + ")" + rest) == text + LinkPass(rest)
  {
    LinkFound(text, url, rest);
    LinkSlices(text, url, rest);
  }

  /** A link with a non-empty text free of `]` and a non-empty URL free of `)`
      is matched whole at the start of the text. */
  lemma {:induction false} LinkFound(text: string, url: string, rest: string)
    requires text != [] && Excludes(text, ']')
    requires url != [] && Excludes(url, ')')
    ensures LinkAt("[" + text + "](" + url + ")" + rest) == Some((|text|, 4 + |text| + |url|))
  {
    LinkSlices(text, url, rest);
    RunWithoutUpTo(text, ']', "](" + url + ")" + rest);
    RunWithoutUpTo(url, ')', ")" + rest);
  }

  /** How `[text](url)rest` slices around its brackets. */
  lemma {:induction false} LinkSlices(text: string, url: string, rest: string)
    ensures var s := "[" + text + "](" + url + ")" + rest;
      var t := |text|;
      && |s| == 4 + t + |url| + |rest|
      && s[0] == '['
      && s[1..] == text + ("](" + url + ")" + rest)
      && s[2 + t] == '('
      && s[3 + t..] == url + (")" + rest)
      && s[1..1 + t] == text
      && s[4 + t + |url|..] == rest
  {
    var s := "[" + text + "](" + url + ")" + rest;
    var t := |text|;
    assert s == "[" + (text + ("](" + (url + (")" + rest))));
  }

  // ---------------------------------------------------------------------------
  // Line-start markers: /^#+\s+/gm -> '' and /^[\-\*\+]\s+/gm -> '• '
  // ---------------------------------------------------------------------------

  datatype LineMarker = Heading | Bullet

  /** What a marker is replaced by. */
  function Replacement(m: LineMarker): string {
    match m
    case Heading => ""
    case Bullet => "• "
  }

  /** Every character of `s` is `c`. */
  predicate AllOf(s: string, c: char) {
    forall k :: 0 <= k < |s| ==> s[k] == c
  }

  /** Length of the longest prefix of `s` made of `c`. */
  function RunOf(s: string, c: char): (n: nat)
    ensures n <= |s| && AllOf(s[..n], c)
    ensures n < |s| ==> s[n] != c
  {
    if s != [] && s[0] == c then 1 + RunOf(s[1..], c) else 0
  }

  predicate IsBulletChar(c: char) {
    c == '-' || c == '*' || c == '+'
  }

  /** A marker at the start of `s`: one or more `#` (Heading) or one of
      `-`, `*`, `+` (Bullet), then a white-space run of length one or more.
      Both runs are greedy and `#` is not white space, so the match is the
      longest one. Yields the match length. */
  function MarkerAt(s: string, m: LineMarker): (r: Option<nat>)
    ensures r.Some? ==> 2 <= r.value <= |s| && IsSpace(s[r.value - 1])
    ensures r.Some? ==> |Replacement(m)| <= r.value
    ensures r.Some? && m == Heading ==>
      1 <= RunOf(s, '#') < r.value && AllSpace(s[RunOf(s, '#')..r.value])
    ensures r.Some? && m == Bullet ==> IsBulletChar(s[0]) && AllSpace(s[1..r.value])
    ensures r.Some? ==> r.value == |s| || !IsSpace(s[r.value])
  {
    match m
    case Heading =>
      var h := RunOf(s, '#');
      var w := SpaceRun(s[h..]);
      if h == 0 || w == 0 then None
      else
        assert s[h..][..w] == s[h..h + w];
        Some(h + w)
    case Bullet =>
      if s == [] || !IsBulletChar(s[0]) then None
      else
        var w := SpaceRun(s[1..]);
        if w == 0 then None
        else
          assert s[1..][..w] == s[1..1 + w];
          Some(1 + w)
  }

  /** One global multiline pass: a marker is rewritten wherever `^` matches,
      that is at the start of the text or right after a line terminator of
      the text being scanned. `lineStart` says whether `^` matches at the
      current position. */
  function LineStartPass(s: string, lineStart: bool, m: LineMarker): (r: string)
    ensures |r| <= |s|
    decreases |s|
  {
    if s == [] then []
    else if lineStart && MarkerAt(s, m).Some? then
      var n := MarkerAt(s, m).value;
      Replacement(m) + LineStartPass(s[n..], IsLineTerminator(s[n - 1]), m)
    else [s[0]] + LineStartPass(s[1..], IsLineTerminator(s[0]), m)
  }

  /** Away from a line start and without line terminators nothing changes. */
  lemma {:induction false} LineStartPassOneLine(s: string, m: LineMarker)
    requires NoLineTerminator(s)
    ensures LineStartPass(s, false, m) == s
    decreases |s|
  {
    if s != [] {
      LineStartPassOneLine(s[1..], m);
    }
  }

  /** A marker needs white space: text with none is left as it is. */
  lemma {:induction false} LineStartPassNoSpace(s: string, lineStart: bool, m: LineMarker)
    requires NoSpace(s)
    ensures LineStartPass(s, lineStart, m) == s
    decreases |s|
  {
    if s != [] {
      if m == Heading {
        var h := RunOf(s, '#');
        assert h < |s| ==> SpaceRun(s[h..]) == 0;
      }
      LineStartPassNoSpace(s[1..], false, m);
    }
  }

  /** A first line `#... text` loses its hashes and the white space after them. */
  lemma {:induction false} HeadingRemoved(hashes: string, w: string, x: string)
    requires hashes != [] && forall k :: 0 <= k < |hashes| ==> hashes[k] == '#'
    requires w != [] && AllSpace(w) && NoLineTerminator(w)
    requires NoLineTerminator(x) && (x == [] || !IsSpace(x[0]))
    ensures LineStartPass(hashes + w + x, true, Heading) == x
  {
    var s := hashes + w + x;
    MarkerSlices(hashes, w, x);
    HeadingFound(hashes, w, x);
    LineStartPassAtMarker(s, Heading);
    assert !IsLineTerminator(s[|hashes| + |w| - 1]);
    LineStartPassOneLine(x, Heading);
  }

  /** The heading marker of such a line spans the hashes and the white space. */
  lemma {:induction false} HeadingFound(hashes: string, w: string, x: string)
    requires hashes != [] && forall k :: 0 <= k < |hashes| ==> hashes[k] == '#'
    requires w != [] && AllSpace(w)
    requires x == [] || !IsSpace(x[0])
    ensures MarkerAt(hashes + w + x, Heading) == Some(|hashes| + |w|)
  {
    HeadingRuns(hashes, w, x);
  }

  /** The two runs of a heading marker: the hashes, then the white space. */
  lemma {:induction false} HeadingRuns(hashes: string, w: string, x: string)
    requires hashes != [] && forall k :: 0 <= k < |hashes| ==> hashes[k] == '#'
    requires w != [] && AllSpace(w)
    requires x == [] || !IsSpace(x[0])
    ensures RunOf(hashes + w + x, '#') == |hashes|
    ensures SpaceRun((hashes + w + x)[|hashes|..]) == |w|
  {
    MarkerSlices(hashes, w, x);
    RunOfUpTo(hashes, '#', w + x);
    SpaceRunUpTo(w, x);
  }

  /** A first line `- text` (or `*`, `+`) gets the bullet `• ` instead. */
  lemma {:induction false} BulletReplaced(c: char, w: string, x: string)
    requires IsBulletChar(c)
    requires w != [] && AllSpace(w) && NoLineTerminator(w)
    requires NoLineTerminator(x) && (x == [] || !IsSpace(x[0]))
    ensures LineStartPass([c] + w + x, true, Bullet) == "• " + x
  {
    MarkerSlices([c], w, x);
    BulletFound(c, w, x);
    assert !IsLineTerminator(w[|w| - 1]);
    LineStartPassOneLine(x, Bullet);
  }

  /** The bullet marker of such a line spans the bullet and the white space. */
  lemma {:induction false} BulletFound(c: char, w: string, x: string)
    requires IsBulletChar(c)
    requires w != [] && AllSpace(w)
    requires x == [] || !IsSpace(x[0])
    ensures MarkerAt([c] + w + x, Bullet) == Some(1 + |w|)
  {
    MarkerSlices([c], w, x);
    SpaceRunUpTo(w, x);
  }

  /** A line that ends on a character a marker cannot end on (neither white
      space, `#` nor a bullet character). */
  predicate EndsInText(p: string) {
    p != [] && !IsSpace(p[|p| - 1]) && p[|p| - 1] != '#' && !IsBulletChar(p[|p| - 1])
  }

  /** A marker at the start of such a line stays inside it: whatever follows
      the line, the marker found is the same. */
  lemma {:induction false} MarkerWithinLine(p: string, z: string, m: LineMarker)
    requires EndsInText(p)
    ensures MarkerAt(p + z, m) == MarkerAt(p, m)
    ensures MarkerAt(p, m).Some? ==> MarkerAt(p, m).value < |p|
  {
    var s := p + z;
    if m == Heading {
      var h := RunOf(p, '#');
      assert h < |p|;
      RunOfPrefix(p, z, '#');
      assert s[h..] == p[h..] + z;
      var x := p[h..];
      assert x[|x| - 1] == p[|p| - 1];
      SpaceRunPrefix(x, z);
    } else if |p| > 1 {
      assert s[0] == p[0] && s[1..] == p[1..] + z;
      var x := p[1..];
      assert x[|x| - 1] == p[|p| - 1];
      SpaceRunPrefix(x, z);
    }
  }

  /** A run of `c` that stops inside `x` is not lengthened by what follows. */
  lemma {:induction false} RunOfPrefix(x: string, z: string, c: char)
    requires RunOf(x, c) < |x|
    ensures RunOf(x + z, c) == RunOf(x, c)
    decreases |x|
  {
    assert (x + z)[0] == x[0];
    if x[0] == c {
      assert (x + z)[1..] == x[1..] + z;
      RunOfPrefix(x[1..], z, c);
    }
  }

  /** A white-space run that stops inside `x` is not lengthened by what
      follows, and a text ending in another character has such a run. */
  lemma {:induction false} SpaceRunPrefix(x: string, z: string)
    requires x != [] && !IsSpace(x[|x| - 1])
    ensures SpaceRun(x) < |x|
    ensures SpaceRun(x + z) == SpaceRun(x)
    decreases |x|
  {
    assert (x + z)[0] == x[0];
    if IsSpace(x[0]) {
      assert (x + z)[1..] == x[1..] + z;
      assert x[1..][|x[1..]| - 1] == x[|x| - 1];
      SpaceRunPrefix(x[1..], z);
    }
  }

  /** The multiline `^`: the pass handles a line that ends in text on its
      own, and starts afresh after the line break that follows it. */
  lemma {:induction false} LineStartPassAcrossLine(p: string, q: string, lineStart: bool, m: LineMarker)
    requires NoLineTerminator(p) && (p == [] || EndsInText(p))
    ensures LineStartPass(p + "\n" + q, lineStart, m)
         == LineStartPass(p, lineStart, m) + "\n" + LineStartPass(q, true, m)
  {
    if p == [] {
      assert p + "\n" + q == "\n" + q;
      LineStartPassAtBreak(q, lineStart, m);
    } else {
      assert p + "\n" + q == p + ("\n" + q);
      LineStartPassSplit(p, "\n" + q, lineStart, m);
      LineStartPassAtBreak(q, false, m);
      ConcatAssoc(LineStartPass(p, lineStart, m), [], "\n", LineStartPass(q, true, m));
    }
  }

  /** A line that ends in text is rewritten on its own: nothing after it
      changes how it is rewritten, and `^` does not match right after it. */
  lemma {:induction false} LineStartPassSplit(p: string, z: string, lineStart: bool, m: LineMarker)
    requires NoLineTerminator(p) && EndsInText(p)
    ensures LineStartPass(p + z, lineStart, m) == LineStartPass(p, lineStart, m) + LineStartPass(z, false, m)
    decreases |p|, 2
  {
    if lineStart && MarkerAt(p, m).Some? {
      SplitAtMarker(p, z, m);
    } else {
      SplitAtChar(p, z, lineStart, m);
    }
  }

  /** A line break is never part of a marker; after it `^` matches. */
  lemma {:induction false} LineStartPassAtBreak(q: string, lineStart: bool, m: LineMarker)
    ensures LineStartPass("\n" + q, lineStart, m) == "\n" + LineStartPass(q, true, m)
  {
    var s := "\n" + q;
    assert s[0] == '\n' && s[1..] == q;
    assert MarkerAt(s, m).None? by {
      if m == Heading { assert RunOf(s, '#') == 0; }
    }
  }

  /** `LineStartPassSplit` when the line opens with a marker. */
  lemma {:induction false} SplitAtMarker(p: string, z: string, m: LineMarker)
    requires NoLineTerminator(p) && EndsInText(p) && MarkerAt(p, m).Some?
    ensures LineStartPass(p + z, true, m) == LineStartPass(p, true, m) + LineStartPass(z, false, m)
    decreases |p|, 1
  {
    var n := MarkerStep(p, z, m);
    var r, b, c := Replacement(m), LineStartPass(p[n..], false, m), LineStartPass(z, false, m);
    LineStartPassSplit(p[n..], z, false, m);
    Regroup(r, b, c);
  }

  /** The marker step on a line ending in text, with and without what
      follows it: both drop the same prefix and continue away from a line
      start. */
  lemma MarkerStep(p: string, z: string, m: LineMarker) returns (n: nat)
    requires NoLineTerminator(p) && EndsInText(p) && MarkerAt(p, m).Some?
    ensures 0 < n < |p| && NoLineTerminator(p[n..]) && EndsInText(p[n..])
    ensures LineStartPass(p, true, m) == Replacement(m) + LineStartPass(p[n..], false, m)
    ensures LineStartPass(p + z, true, m) == Replacement(m) + LineStartPass(p[n..] + z, false, m)
  {
    n := MarkerInLine(p, z, m);
    LineStartPassAtMarker(p + z, m);
    LineStartPassAtMarker(p, m);
  }

  /** A marker at the start of a line ending in text: the same match with
      anything appended, and what is left of the line after it is again a
      line ending in text, with no line terminator before it. */
  lemma MarkerInLine(p: string, z: string, m: LineMarker) returns (n: nat)
    requires NoLineTerminator(p) && EndsInText(p) && MarkerAt(p, m).Some?
    ensures n == MarkerAt(p, m).value && MarkerAt(p + z, m) == Some(n) && 0 < n < |p|
    ensures (p + z)[n..] == p[n..] + z && (p + z)[n - 1] == p[n - 1] && !IsLineTerminator(p[n - 1])
    ensures NoLineTerminator(p[n..]) && EndsInText(p[n..])
  {
    MarkerWithinLine(p, z, m);
    n := MarkerAt(p, m).value;
    DropInside(p, z, n);
    assert p[n..][|p[n..]| - 1] == p[|p| - 1];
  }

  /** `LineStartPassSplit` when no marker is taken at the first character. */
  lemma {:induction false} SplitAtChar(p: string, z: string, lineStart: bool, m: LineMarker)
    requires NoLineTerminator(p) && EndsInText(p) && !(lineStart && MarkerAt(p, m).Some?)
    ensures LineStartPass(p + z, lineStart, m) == LineStartPass(p, lineStart, m) + LineStartPass(z, false, m)
    decreases |p|, 1
  {
    MarkerWithinLine(p, z, m);
    DropInside(p, z, 1);
    LineStartPassAtChar(p + z, lineStart, m);
    LineStartPassAtChar(p, lineStart, m);
    if |p| == 1 {
      SplitAtLastChar(p, z);
    } else {
      SplitAtInnerChar(p, z, m);
    }
  }

  /** The last character of a line that ends in text: `^` does not match
      after it. */
  lemma {:induction false} SplitAtLastChar(p: string, z: string)
    requires |p| == 1 && !IsLineTerminator(p[0])
    ensures (p + z)[1..] == z && p[1..] == [] && !IsLineTerminator(p[0])
  {
  }

  /** A character kept in the middle of a line: the rest of the line is
      split the same way. */
  lemma {:induction false} SplitAtInnerChar(p: string, z: string, m: LineMarker)
    requires |p| > 1 && NoLineTerminator(p) && EndsInText(p)
    ensures [p[0]] + LineStartPass((p + z)[1..], IsLineTerminator(p[0]), m)
         == [p[0]] + LineStartPass(p[1..], IsLineTerminator(p[0]), m) + LineStartPass(z, false, m)
    decreases |p|, 0
  {
    var rest := p[1..];
    assert (p + z)[1..] == rest + z;
    assert rest[|rest| - 1] == p[|p| - 1] && !IsLineTerminator(p[0]);
    LineStartPassSplit(rest, z, false, m);
    Regroup([p[0]], LineStartPass(rest, false, m), LineStartPass(z, false, m));
  }

  /** One step of the pass where a marker is taken. */
  lemma {:induction false} LineStartPassAtMarker(s: string, m: LineMarker)
    requires MarkerAt(s, m).Some?
    ensures var n := MarkerAt(s, m).value;
      LineStartPass(s, true, m) == Replacement(m) + LineStartPass(s[n..], IsLineTerminator(s[n - 1]), m)
  {
  }

  /** One step of the pass where the first character is kept. */
  lemma {:induction false} LineStartPassAtChar(s: string, lineStart: bool, m: LineMarker)
    requires s != [] && !(lineStart && MarkerAt(s, m).Some?)
    ensures LineStartPass(s, lineStart, m) == [s[0]] + LineStartPass(s[1..], IsLineTerminator(s[0]), m)
  {
  }

  /** A bullet line after a line break is rewritten too (`m` flag). */
  lemma {:induction false} BulletAfterLine(p: string, c: char, w: string, x: string)
    requires NoLineTerminator(p) && (p == [] || EndsInText(p))
    requires IsBulletChar(c)
    requires w != [] && AllSpace(w) && NoLineTerminator(w)
    requires NoLineTerminator(x) && (x == [] || !IsSpace(x[0]))
    ensures LineStartPass(p + "\n" + ([c] + w + x), true, Bullet)
         == LineStartPass(p, true, Bullet) + "\n" + ("• " + x)
  {
    LineStartPassAcrossLine(p, [c] + w + x, true, Bullet);
    BulletReplaced(c, w, x);
  }

  /** A heading line after a line break loses its marker too (`m` flag). */
  lemma {:induction false} HeadingAfterLine(p: string, hashes: string, w: string, x: string)
    requires NoLineTerminator(p) && (p == [] || EndsInText(p))
    requires hashes != [] && forall k :: 0 <= k < |hashes| ==> hashes[k] == '#'
    requires w != [] && AllSpace(w) && NoLineTerminator(w)
    requires NoLineTerminator(x) && (x == [] || !IsSpace(x[0]))
    ensures LineStartPass(p + "\n" + (hashes + w + x), true, Heading)
         == LineStartPass(p, true, Heading) + "\n" + x
  {
    LineStartPassAcrossLine(p, hashes + w + x, true, Heading);
    HeadingRemoved(hashes, w, x);
  }

  /** How a marker `a`, its white space `w` and the line `x` slice. */
  lemma {:induction false} MarkerSlices(a: string, w: string, x: string)
    requires w != []
    ensures var s := a + w + x;
      && s == a + (w + x)
      && s[..|a|] == a
      && s[|a|..] == w + x
      && s[|a| + |w|..] == x
      && s[|a| + |w| - 1] == w[|w| - 1]
  {
    var s := a + w + x;
    assert s == a + (w + x);
  }

  lemma {:induction false} RunOfUpTo(x: string, c: char, y: string)
    requires forall k :: 0 <= k < |x| ==> x[k] == c
    requires y == [] || y[0] != c
    ensures RunOf(x + y, c) == |x|
    decreases |x|
  {
    if x != [] {
      assert (x + y)[1..] == x[1..] + y;
      RunOfUpTo(x[1..], c, y);
    } else {
      assert x + y == y;
    }
  }

  lemma {:induction false} SpaceRunUpTo(w: string, x: string)
    requires AllSpace(w) && (x == [] || !IsSpace(x[0]))
    ensures SpaceRun(w + x) == |w|
    decreases |w|
  {
    if w != [] {
      assert (w + x)[1..] == w[1..] + x;
      SpaceRunUpTo(w[1..], x);
    } else {
      assert w + x == x;
    }
  }

  // ---------------------------------------------------------------------------
  // White space: /\s+/g -> ' '
  // ---------------------------------------------------------------------------

  /** One global pass of `/\s+/g -> ' '`: every maximal white-space run,
      line terminators included, becomes one space. */
  function CollapseSpaces(s: string): (r: string)
    ensures |r| <= |s|
    ensures r == [] <==> s == []
    ensures r != [] ==> (IsSpace(r[0]) <==> IsSpace(s[0]))
    ensures forall k :: 0 <= k < |r| && IsSpace(r[k]) ==> r[k] == ' '
    ensures forall k :: 0 <= k < |r| - 1 ==> !(IsSpace(r[k]) && IsSpace(r[k + 1]))
    decreases |s|
  {
    if s == [] then []
    else if IsSpace(s[0]) then
      var n := SpaceRun(s);
      var rest := CollapseSpaces(s[n..]);
      assert rest != [] ==> !IsSpace(rest[0]);
      " " + rest
    else [s[0]] + CollapseSpaces(s[1..])
  }

  /** The text without its white space. */
  function Squeeze(s: string): string {
    if s == [] then [] else (if IsSpace(s[0]) then [] else [s[0]]) + Squeeze(s[1..])
  }

  lemma {:induction false} SqueezeAppend(a: string, b: string)
    ensures Squeeze(a + b) == Squeeze(a) + Squeeze(b)
    decreases |a|
  {
    if a == [] {
      assert a + b == b;
    } else {
      assert (a + b)[1..] == a[1..] + b;
      SqueezeAppend(a[1..], b);
    }
  }

  lemma {:induction false} SqueezeAllSpace(s: string)
    requires AllSpace(s)
    ensures Squeeze(s) == []
    decreases |s|
  {
    if s != [] { SqueezeAllSpace(s[1..]); }
  }

  /** Collapsing white space keeps every other character, in order. */
  lemma {:induction false} CollapseKeepsText(s: string)
    ensures Squeeze(CollapseSpaces(s)) == Squeeze(s)
    decreases |s|
  {
    if s != [] {
      if IsSpace(s[0]) {
        var n := SpaceRun(s);
        assert s == s[..n] + s[n..];
        SqueezeAppend(s[..n], s[n..]);
        SqueezeAllSpace(s[..n]);
        SqueezeAppend(" ", CollapseSpaces(s[n..]));
        CollapseKeepsText(s[n..]);
      } else {
        SqueezeAppend([s[0]], CollapseSpaces(s[1..]));
        CollapseKeepsText(s[1..]);
      }
    }
  }

  lemma {:induction false} CollapseNoSpace(s: string)
    requires NoSpace(s)
    ensures CollapseSpaces(s) == s
    decreases |s|
  {
    if s != [] { CollapseNoSpace(s[1..]); }
  }

  /** Regrouping three pieces of text. */
  lemma {:induction false} Regroup(a: string, b: string, c: string)
    ensures a + (b + c) == (a + b) + c
  {
  }

  /** Regrouping text around a separator. */
  lemma {:induction false} ConcatAssoc(a: string, b: string, sep: string, c: string)
    ensures a + (b + sep + c) == (a + b) + sep + c
  {
  }

  /** Dropping a prefix that ends inside `p` keeps what follows `p`. */
  lemma {:induction false} DropInside(p: string, z: string, n: nat)
    requires 0 < n <= |p|
    ensures (p + z)[n..] == p[n..] + z && (p + z)[n - 1] == p[n - 1]
  {
  }

  /** The rewrite works run by run: a white-space run `w` between text that
      ends and text that starts on another character becomes exactly one
      space, and each side is rewritten on its own. */
  lemma {:induction false} CollapseRun(x: string, w: string, y: string)
    requires x == [] || !IsSpace(x[|x| - 1])
    requires w != [] && AllSpace(w)
    requires y == [] || !IsSpace(y[0])
    ensures CollapseSpaces(x + w + y) == CollapseSpaces(x) + " " + CollapseSpaces(y)
    decreases |x|, 1
  {
    if x == [] {
      assert x + w + y == w + y;
      CollapseLeadingRun(w, y);
    } else if !IsSpace(x[0]) {
      CollapseRunAfterChar(x, w, y);
    } else {
      CollapseRunAfterSpace(x, w, y);
    }
  }

  /** `CollapseRun` when `x` opens with a character other than white space. */
  lemma {:induction false} CollapseRunAfterChar(x: string, w: string, y: string)
    requires x != [] && !IsSpace(x[0]) && !IsSpace(x[|x| - 1])
    requires w != [] && AllSpace(w)
    requires y == [] || !IsSpace(y[0])
    ensures CollapseSpaces(x + w + y) == CollapseSpaces(x) + " " + CollapseSpaces(y)
    decreases |x|, 0
  {
    var s := x + w + y;
    assert s[0] == x[0] && s[1..] == x[1..] + w + y;
    assert CollapseSpaces(s) == [x[0]] + CollapseSpaces(x[1..] + w + y);
    assert CollapseSpaces(x) == [x[0]] + CollapseSpaces(x[1..]);
    CollapseRun(x[1..], w, y);
    ConcatAssoc([x[0]], CollapseSpaces(x[1..]), " ", CollapseSpaces(y));
  }

  /** `CollapseRun` when `x` opens with white space. */
  lemma {:induction false} CollapseRunAfterSpace(x: string, w: string, y: string)
    requires x != [] && IsSpace(x[0]) && !IsSpace(x[|x| - 1])
    requires w != [] && AllSpace(w)
    requires y == [] || !IsSpace(y[0])
    ensures CollapseSpaces(x + w + y) == CollapseSpaces(x) + " " + CollapseSpaces(y)
    decreases |x|, 0
  {
    var n := SpaceRun(x);
    assert n < |x|;
    var v, z := x[..n], x[n..];
    assert x == v + z && x + w + y == v + (z + w + y);
    assert z[|z| - 1] == x[|x| - 1];
    CollapseLeadingRun(v, z);
    CollapseLeadingRun(v, z + w + y);
    CollapseRun(z, w, y);
    ConcatAssoc(" ", CollapseSpaces(z), " ", CollapseSpaces(y));
  }

  /** A leading white-space run becomes one space. */
  lemma {:induction false} CollapseLeadingRun(w: string, y: string)
    requires w != [] && AllSpace(w)
    requires y == [] || !IsSpace(y[0])
    ensures CollapseSpaces(w + y) == " " + CollapseSpaces(y)
  {
    SpaceRunUpTo(w, y);
    assert (w + y)[0] == w[0] && (w + y)[|w|..] == y;
  }

  // ---------------------------------------------------------------------------
  // cleanMarkdown
  // ---------------------------------------------------------------------------

  /** The global rewrites the sanitiser chains, named after what each removes
      or replaces. */
  datatype Rewrite =
    | UnwrapBold              // /\*\*(.*?)\*\*/g -> '$1'
    | UnwrapBoldUnderscore    // /__(.*?)__/g -> '$1'
    | UnwrapItalic            // /\*(.*?)\*/g -> '$1'
    | UnwrapItalicUnderscore  // /_(.*?)_/g -> '$1'
    | UnwrapCode              // /`(.*?)`/g -> '$1'
    | UnwrapLinks             // /\[([^\]]+)\]\([^)]+\)/g -> '$1'
    | DropHeadings            // /^#+\s+/gm -> ''
    | MarkBullets             // /^[\-\*\+]\s+/gm -> '• '
    | CollapseWhiteSpace      // /\s+/g -> ' '
    | JoinParagraphs          // /\n\s*\n/g -> '\n\n'
    | KeepNewlines            // /\n/g -> '\n'
    | TrimEnds                // .trim()

  /** One rewrite applied to the whole text. */
  function Apply(w: Rewrite, s: string): (r: string)
    ensures |r| <= |s|
  {
    match w
    case UnwrapBold => StripDelimited(s, "**")
    case UnwrapBoldUnderscore => StripDelimited(s, "__")
    case UnwrapItalic => StripDelimited(s, "*")
    case UnwrapItalicUnderscore => StripDelimited(s, "_")
    case UnwrapCode => StripDelimited(s, "`")
    case UnwrapLinks => LinkPass(s)
    case DropHeadings => LineStartPass(s, true, Heading)
    case MarkBullets => LineStartPass(s, true, Bullet)
    case CollapseWhiteSpace => CollapseSpaces(s)
    case JoinParagraphs => ParagraphPass(s)
    case KeepNewlines => NewlinePass(s)
    case TrimEnds => Trim(s)
  }

  /** A chain of rewrites, each applied to the result of the one before. */
  function ApplyAll(ws: seq<Rewrite>, s: string): (r: string)
    ensures |r| <= |s|
    decreases |ws|
  {
    if ws == [] then s else ApplyAll(ws[1..], Apply(ws[0], s))
  }

  /** A chain splits where its rewrites do. */
  lemma {:induction false} ApplyAllAppend(a: seq<Rewrite>, b: seq<Rewrite>, s: string)
    ensures ApplyAll(a + b, s) == ApplyAll(b, ApplyAll(a, s))
    decreases |a|
  {
    if a == [] {
      assert a + b == b;
    } else {
      assert (a + b)[0] == a[0];
      assert (a + b)[1..] == a[1..] + b;
      ApplyAllAppend(a[1..], b, Apply(a[0], s));
    }
  }

  /** The chain of `cleanMarkdown`, in the source's order. */
  const CleanMarkdownChain: seq<Rewrite> :=
    [UnwrapBold, UnwrapBoldUnderscore, UnwrapItalic, UnwrapItalicUnderscore, UnwrapCode,
     UnwrapLinks, DropHeadings, MarkBullets, CollapseWhiteSpace, TrimEnds]

  /** `cleanMarkdown`: bold, italics, inline code, links, headings, bullets,
      then white-space collapse and trim. */
  function CleanMarkdown(text: string): (r: string)
    ensures |r| <= |text|
    ensures text == [] ==> r == []
  {
    ApplyAll(CleanMarkdownChain, text)
  }

  /** Unfolding helper: the chain of `cleanMarkdown` spelled out pass by
      pass, for the lemmas that reason about one pass at a time. */
  lemma {:induction false} CleanMarkdownUnfolds(text: string)
    ensures CleanMarkdown(text) ==
      Trim(CollapseSpaces(LineStartPass(LineStartPass(LinkPass(StripInline(text)), true, Heading), true, Bullet)))
  {
    var inline := [UnwrapBold, UnwrapBoldUnderscore, UnwrapItalic, UnwrapItalicUnderscore, UnwrapCode];
    var rest := [UnwrapLinks, DropHeadings, MarkBullets, CollapseWhiteSpace, TrimEnds];
    assert CleanMarkdownChain == inline + rest;
    ApplyAllAppend(inline, rest, text);
    ApplyAllSteps(inline, text);
    ApplyAllSteps(rest, StripInline(text));
  }

  /** Five rewrites in a row, unfolded. */
  lemma {:induction false} ApplyAllSteps(ws: seq<Rewrite>, s: string)
    requires |ws| == 5
    ensures ApplyAll(ws, s) == Apply(ws[4], Apply(ws[3], Apply(ws[2], Apply(ws[1], Apply(ws[0], s)))))
  {
    var s1 := Apply(ws[0], s);
    var s2 := Apply(ws[1], s1);
    var s3 := Apply(ws[2], s2);
    var s4 := Apply(ws[3], s3);
    var s5 := Apply(ws[4], s4);
    assert ApplyAll(ws[5..], s5) == s5;
    assert ApplyAll(ws[4..], s4) == ApplyAll(ws[5..], s5) by { assert ws[4..][1..] == ws[5..]; }
    assert ApplyAll(ws[3..], s3) == ApplyAll(ws[4..], s4) by { assert ws[3..][1..] == ws[4..]; }
    assert ApplyAll(ws[2..], s2) == ApplyAll(ws[3..], s3) by { assert ws[2..][1..] == ws[3..]; }
    assert ApplyAll(ws[1..], s1) == ApplyAll(ws[2..], s2) by { assert ws[1..][1..] == ws[2..]; }
  }

  /** The first five passes of `cleanMarkdown`: bold (`**`, `__`), italics
      (`*`, `_`) and inline code, in that order. */
  function StripInline(text: string): (r: string)
    ensures |r| <= |text|
  {
    var noBold := StripDelimited(StripDelimited(text, "**"), "__");
    var noItalics := StripDelimited(StripDelimited(noBold, "*"), "_");
    StripDelimited(noItalics, "`")
  }

  /** `trim` keeps the one-space shape of collapsed text. */
  lemma {:induction false} TrimKeepsShape(c: string)
    requires forall k :: 0 <= k < |c| && IsSpace(c[k]) ==> c[k] == ' '
    requires forall k :: 0 <= k < |c| - 1 ==> !(IsSpace(c[k]) && IsSpace(c[k + 1]))
    ensures var r := Trim(c);
      && (forall k :: 0 <= k < |r| && IsSpace(r[k]) ==> r[k] == ' ')
      && (forall k :: 0 <= k < |r| - 1 ==> !(IsSpace(r[k]) && IsSpace(r[k + 1])))
  {
    var i, j := TrimIsSlice(c);
    var r := Trim(c);
    assert forall k :: 0 <= k < |r| ==> r[k] == c[i + k];
  }

  /** The sanitised text has no white space at either end, no line break, and
      never two white-space characters in a row: every white-space character
      left is a single plain space between two other characters. */
  lemma {:induction false} CleanMarkdownShape(text: string)
    ensures var r := CleanMarkdown(text);
      && (r == [] || (!IsSpace(r[0]) && !IsSpace(r[|r| - 1])))
      && (forall k :: 0 <= k < |r| && IsSpace(r[k]) ==> r[k] == ' ')
      && (forall k :: 0 <= k < |r| - 1 ==> !(IsSpace(r[k]) && IsSpace(r[k + 1])))
  {
    var noLinks := LinkPass(StripInline(text));
    var bullets := LineStartPass(LineStartPass(noLinks, true, Heading), true, Bullet);
    var c := CollapseSpaces(bullets);
    CleanMarkdownUnfolds(text);
    TrimKeepsShape(c);
  }

  /** No line terminator survives `cleanMarkdown`. */
  lemma {:induction false} CleanMarkdownSingleLine(text: string)
    ensures NoLineTerminator(CleanMarkdown(text))
  {
    CleanMarkdownShape(text);
  }

  /** Text free of white space and of the characters `*`, `_`, backquote and
      `[` has nothing for any pass to act on. */
  predicate Plain(x: string) {
    NoSpace(x) && Excludes(x, '*') && Excludes(x, '_') && Excludes(x, '`') && Excludes(x, '[')
  }

  lemma {:induction false} PlainUnchanged(x: string)
    requires Plain(x)
    ensures LinkPass(x) == x
    ensures LineStartPass(LineStartPass(x, true, Heading), true, Bullet) == x
    ensures Trim(CollapseSpaces(x)) == x
  {
    LinkPassWithoutBracket(x);
    LineStartPassNoSpace(x, true, Heading);
    LineStartPassNoSpace(x, true, Bullet);
    CollapseNoSpace(x);
    assert x == [] || SpaceRun(x) == 0;
    assert TrimStart(x) == x;
  }

  /** Neither `**` nor `__` occurs in `c x c` when `x` is plain and non-empty. */
  lemma {:induction false} NoDoubleIn(c: char, x: string)
    requires x != [] && Plain(x) && (c == '*' || c == '_')
    ensures forall j :: 0 <= j <= |[c] + x + [c]| ==> !StartsWith(([c] + x + [c])[j..], [c, c])
  {
    var s := [c] + x + [c];
    forall j | 0 <= j <= |s| ensures !StartsWith(s[j..], [c, c]) {
      if j + 2 <= |s| {
        if j == 0 { assert s[1] == x[0]; }
        else { assert s[j] == x[j - 1]; }
      }
    }
  }

  /** Wrapping in delimiters free of `c` adds no `c`. */
  lemma {:induction false} ExcludesWrapped(d: string, x: string, c: char)
    requires Excludes(d, c) && Excludes(x, c)
    ensures Excludes(d + x + d, c)
  {
    var s := d + x + d;
    forall k | 0 <= k < |s| ensures s[k] != c {
      if k < |d| { assert s[k] == d[k]; }
      else if k < |d| + |x| { assert s[k] == x[k - |d|]; }
      else { assert s[k] == d[k - |d| - |x|]; }
    }
  }

  /** The inline passes unwrap `D x D` to `x` for each of the five delimiters. */
  lemma {:induction false} StripInlineUnwraps(d: string, x: string)
    requires d in ["**", "__", "*", "_", "`"]
    requires x != [] && Plain(x)
    ensures StripInline(d + x + d) == x
  {
    var s := d + x + d;
    assert NoLineTerminator(x);
    assert s == d + x + d + [];
    var s1 := StripDelimited(s, "**");
    var s2 := StripDelimited(s1, "__");
    var s3 := StripDelimited(s2, "*");
    var s4 := StripDelimited(s3, "_");
    assert StripInline(s) == StripDelimited(s4, "`");
    if d == "**" {
      StripWrapped("**", x, []);
      assert s1 == x;
      StripWithoutDelimiterChar(x, "__");
      StripWithoutDelimiterChar(x, "*");
      StripWithoutDelimiterChar(x, "_");
      StripWithoutDelimiterChar(x, "`");
    } else if d == "__" {
      ExcludesWrapped(d, x, '*');
      StripWithoutDelimiterChar(s, "**");
      StripWrapped("__", x, []);
      assert s2 == x;
      StripWithoutDelimiterChar(x, "*");
      StripWithoutDelimiterChar(x, "_");
      StripWithoutDelimiterChar(x, "`");
    } else if d == "*" {
      NoDoubleIn('*', x);
      StripWithoutDelimiter(s, "**");
      ExcludesWrapped(d, x, '_');
      StripWithoutDelimiterChar(s, "__");
      StripWrapped("*", x, []);
      assert s3 == x;
      StripWithoutDelimiterChar(x, "_");
      StripWithoutDelimiterChar(x, "`");
    } else if d == "_" {
      ExcludesWrapped(d, x, '*');
      StripWithoutDelimiterChar(s, "**");
      NoDoubleIn('_', x);
      StripWithoutDelimiter(s, "__");
      StripWithoutDelimiterChar(s, "*");
      StripWrapped("_", x, []);
      assert s4 == x;
      StripWithoutDelimiterChar(x, "`");
    } else {
      ExcludesWrapped(d, x, '*');
      ExcludesWrapped(d, x, '_');
      StripWithoutDelimiterChar(s, "**");
      StripWithoutDelimiterChar(s, "__");
      StripWithoutDelimiterChar(s, "*");
      StripWithoutDelimiterChar(s, "_");
      assert s4 == s;
      StripWrapped("`", x, []);
    }
  }

  /** `**x**`, `__x__`, `*x*`, `_x_` and `` `x` `` all sanitise to `x` when
      `x` is plain text. */
  lemma {:induction false} CleanMarkdownUnwraps(d: string, x: string)
    requires d in ["**", "__", "*", "_", "`"]
    requires x != [] && Plain(x)
    ensures CleanMarkdown(d + x + d) == x
  {
    CleanMarkdownUnfolds(d + x + d);
    StripInlineUnwraps(d, x);
    PlainUnchanged(x);
  }

  /** A two-item list `- x1` / `- x2` (one item per line) sanitises to
      `• x1 • x2`: each line start gets its bullet and the line break becomes
      a space. */
  lemma {:induction false} CleanMarkdownBulletList(x1: string, x2: string)
    requires x2 != [] && Plain(x1) && Plain(x2) && EndsInText(x1)
    ensures CleanMarkdown("- " + x1 + "\n" + ("- " + x2)) == "• " + x1 + " " + ("• " + x2)
  {
    var t := "- " + x1 + "\n" + ("- " + x2);
    BulletListInline(x1, x2);
    LinkPassWithoutBracket(t);
    BulletListNoHeading(x1, x2);
    var b := BulletListMarked(x1, x2);
    var c := BulletListCollapsed(x1, x2);
    TrimInner(c);
    CleanMarkdownUnfolds(t);
  }

  /** The list holds nothing for the inline and link passes, and no `#`. */
  lemma {:induction false} BulletListInline(x1: string, x2: string)
    requires Plain(x1) && Plain(x2)
    ensures var t := "- " + x1 + "\n" + ("- " + x2);
      StripInline(t) == t && Excludes(t, '[')
  {
    var t := "- " + x1 + "\n" + ("- " + x2);
    forall k | 0 <= k < |t|
      ensures t[k] != '*' && t[k] != '_' && t[k] != '`' && t[k] != '['
    {
      if k < 2 {
        assert t[k] == "- "[k];
      } else if k < 2 + |x1| {
        assert t[k] == x1[k - 2];
      } else if k < 5 + |x1| {
        assert t[k] == "\n- "[k - 2 - |x1|];
      } else {
        assert t[k] == x2[k - 5 - |x1|];
      }
    }
    StripWithoutDelimiterChar(t, "**");
    StripWithoutDelimiterChar(t, "__");
    StripWithoutDelimiterChar(t, "*");
    StripWithoutDelimiterChar(t, "_");
    StripWithoutDelimiterChar(t, "`");
  }

  /** Lines that open with `- ` hold no heading: the heading pass leaves
      the list as it is. */
  lemma {:induction false} BulletListNoHeading(x1: string, x2: string)
    requires Plain(x1) && Plain(x2) && EndsInText(x1)
    ensures LineStartPass("- " + x1 + "\n" + ("- " + x2), true, Heading) == "- " + x1 + "\n" + ("- " + x2)
  {
    var p := "- " + x1;
    assert p[|p| - 1] == x1[|x1| - 1];
    assert NoLineTerminator(p) by {
      forall k | 0 <= k < |p| ensures !IsLineTerminator(p[k]) {
        if k >= 2 { assert p[k] == x1[k - 2]; }
      }
    }
    LineStartPassAcrossLine(p, "- " + x2, true, Heading);
    DashLineKept(x1);
    DashLineKept(x2);
  }

  /** A line `- x` has no heading marker. */
  lemma {:induction false} DashLineKept(x: string)
    requires NoLineTerminator(x)
    ensures LineStartPass("- " + x, true, Heading) == "- " + x
  {
    var s := "- " + x;
    assert s[0] == '-' && s[1..] == " " + x;
    assert RunOf(s, '#') == 0;
    LineStartPassAtChar(s, true, Heading);
    assert NoLineTerminator(" " + x) by {
      forall k | 0 <= k < |" " + x| ensures !IsLineTerminator((" " + x)[k]) {
        if k >= 1 { assert (" " + x)[k] == x[k - 1]; }
      }
    }
    LineStartPassOneLine(" " + x, Heading);
  }

  /** The bullet pass marks both lines. */
  lemma {:induction false} BulletListMarked(x1: string, x2: string) returns (b: string)
    requires x2 != [] && Plain(x1) && Plain(x2) && EndsInText(x1)
    ensures b == "• " + x1 + "\n" + ("• " + x2)
    ensures LineStartPass("- " + x1 + "\n" + ("- " + x2), true, Bullet) == b
  {
    var p := "- " + x1;
    assert p == ['-'] + " " + x1 && "- " + x2 == ['-'] + " " + x2;
    assert p[|p| - 1] == x1[|x1| - 1];
    BulletReplaced('-', " ", x1);
    BulletAfterLine(p, '-', " ", x2);
    b := "• " + x1 + "\n" + ("• " + x2);
  }

  /** The white-space pass turns the line break into a space. */
  lemma {:induction false} BulletListCollapsed(x1: string, x2: string) returns (c: string)
    requires x2 != [] && Plain(x1) && Plain(x2) && EndsInText(x1)
    ensures c == "• " + x1 + " " + ("• " + x2)
    ensures CollapseSpaces("• " + x1 + "\n" + ("• " + x2)) == c
  {
    var y1, y2 := "• " + x1, "• " + x2;
    assert y1[|y1| - 1] == x1[|x1| - 1];
    CollapseRun(y1, "\n", y2);
    BulletCollapsed(x1);
    BulletCollapsed(x2);
    c := "• " + x1 + " " + ("• " + x2);
  }

  /** A bullet and its single space are kept by the white-space pass. */
  lemma {:induction false} BulletCollapsed(x: string)
    requires NoSpace(x)
    ensures CollapseSpaces("• " + x) == "• " + x
  {
    assert "• " + x == "•" + " " + x;
    CollapseRun("•", " ", x);
    CollapseNoSpace("•");
    CollapseNoSpace(x);
  }

  /** Text with no white space at either end is left as it is by `trim`. */
  lemma {:induction false} TrimInner(s: string)
    requires s == [] || (!IsSpace(s[0]) && !IsSpace(s[|s| - 1]))
    ensures Trim(s) == s
  {
    if s != [] {
      assert SpaceRun(s) == 0;
      assert TrimStart(s) == s;
    }
  }

  // ---------------------------------------------------------------------------
  // formatChatText
  // ---------------------------------------------------------------------------

  /** Index of the last `\n` in `s`. */
  function LastNewline(s: string): (r: Option<nat>)
    ensures r.Some? ==> r.value < |s| && s[r.value] == '\n' && Excludes(s[r.value + 1..], '\n')
    ensures r.None? ==> Excludes(s, '\n')
  {
    if s == [] then None
    else if s[|s| - 1] == '\n' then Some(|s| - 1)
    else LastNewline(s[..|s| - 1])
  }

  /** One global pass of `/\n\s*\n/g -> '\n\n'`. The greedy `\s*` takes the
      whole white-space run after the first `\n` and gives back characters
      until a `\n` follows, so a match ends at the last `\n` of that run. */
  function ParagraphPass(s: string): (r: string)
    ensures |r| <= |s|
    decreases |s|
  {
    if s == [] then []
    else if s[0] == '\n' && LastNewline(s[1..1 + SpaceRun(s[1..])]).Some? then
      var n := 2 + LastNewline(s[1..1 + SpaceRun(s[1..])]).value;
      "\n\n" + ParagraphPass(s[n..])
    else [s[0]] + ParagraphPass(s[1..])
  }

  /** `/\n/g -> '\n'`: every line feed is replaced by a line feed. */
  function NewlinePass(s: string): (r: string)
    ensures |r| == |s|
    decreases |s|
  {
    if s == [] then []
    else (if s[0] == '\n' then "\n" else [s[0]]) + NewlinePass(s[1..])
  }

  /** The rewrites `formatChatText` adds after `cleanMarkdown`. */
  const ParagraphChain: seq<Rewrite> := [JoinParagraphs, KeepNewlines, TrimEnds]

  /** `formatChatText`: the chain of `cleanMarkdown`, then the paragraph
      passes and a second `trim`. */
  function FormatChatText(text: string): (r: string)
    ensures |r| <= |text|
  {
    ApplyAll(CleanMarkdownChain + ParagraphChain, text)
  }

  /** Unfolding helper: `formatChatText` is `cleanMarkdown` followed by the
      paragraph passes. */
  lemma {:induction false} FormatChatTextUnfolds(text: string)
    ensures FormatChatText(text) == Trim(NewlinePass(ParagraphPass(CleanMarkdown(text))))
  {
    ApplyAllAppend(CleanMarkdownChain, ParagraphChain, text);
    var ws := ParagraphChain;
    assert ws[1..] == [KeepNewlines, TrimEnds] && ws[1..][1..] == [TrimEnds] && ws[1..][1..][1..] == [];
  }

  lemma {:induction false} ParagraphPassNoNewline(s: string)
    requires Excludes(s, '\n')
    ensures ParagraphPass(s) == s
    decreases |s|
  {
    if s != [] { ParagraphPassNoNewline(s[1..]); }
  }

  lemma {:induction false} NewlinePassIdentity(s: string)
    ensures NewlinePass(s) == s
    decreases |s|
  {
    if s != [] { NewlinePassIdentity(s[1..]); }
  }

  /** `cleanMarkdown` already removed every line break, so the paragraph
      handling of `formatChatText` changes nothing and it sanitises exactly
      as `cleanMarkdown` does. */
  lemma {:induction false} FormatChatTextIsCleanMarkdown(text: string)
    ensures FormatChatText(text) == CleanMarkdown(text)
  {
    var c := CleanMarkdown(text);
    FormatChatTextUnfolds(text);
    CleanMarkdownSingleLine(text);
    ParagraphPassNoNewline(c);
    NewlinePassIdentity(c);
    assert Trim(c) == c by {
      CleanMarkdownShape(text);
      if c != [] {
        assert SpaceRun(c) == 0;
        assert TrimStart(c) == c;
      }
    }
  }

  /** The replies the pages display are single-line with no stray spaces. */
  lemma {:induction false} FormatChatTextShape(text: string)
    ensures var r := FormatChatText(text);
      && (r == [] || (!IsSpace(r[0]) && !IsSpace(r[|r| - 1])))
      && NoLineTerminator(r)
  {
    FormatChatTextIsCleanMarkdown(text);
    CleanMarkdownShape(text);
    CleanMarkdownSingleLine(text);
  }
}
