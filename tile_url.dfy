/**
 * Tile URLs: the template substitution of `tileUrl`, a global replace of the
 * pattern `\{(\w)\}` by the value of the captured key among `x`, `y` and `z`.
 */
module TileUrl {
  import opened Wrappers
  import opened TileMath

  // ---------------------------------------------------------------------------
  // Decimal rendering of the substituted numbers

  predicate IsDigit(c: char)
  {
    '0' <= c <= '9'
  }

  function DigitChar(d: nat): (c: char)
    requires d < 10
    ensures IsDigit(c)
  {
    ['0', '1', '2', '3', '4', '5', '6', '7', '8', '9'][d]
  }

  function DigitValue(c: char): (d: nat)
    requires IsDigit(c)
    ensures d < 10
  {
    (c as int - '0' as int) as nat
  }

  lemma DigitRoundTrip(d: nat)
    requires d < 10
    ensures DigitValue(DigitChar(d)) == d
  {
  }

  /**
   * How JavaScript renders a non-negative integer when it is substituted into
   * a string: its decimal digits, most significant first, without leading zeros.
   */
  function NatToString(n: nat): (s: string)
    ensures |s| >= 1
    ensures forall i :: 0 <= i < |s| ==> IsDigit(s[i])
    ensures |s| > 1 ==> s[0] != '0'
  {
    if n < 10 then [DigitChar(n)] else NatToString(n / 10) + [DigitChar(n % 10)]
  }

  /** The value of a string of decimal digits. */
  function ParseNat(s: string): nat
    requires forall i :: 0 <= i < |s| ==> IsDigit(s[i])
  {
    if |s| == 0 then 0 else 10 * ParseNat(s[..|s| - 1]) + DigitValue(s[|s| - 1])
  }

  /** Reading back the rendered digits gives the number: the rendering loses nothing. */
  lemma {:induction false} ParseNatToString(n: nat)
    ensures ParseNat(NatToString(n)) == n
  {
    var s := NatToString(n);
    if n < 10 {
      DigitRoundTrip(n);
    } else {
      ParseNatToString(n / 10);
      assert s[..|s| - 1] == NatToString(n / 10);
      DigitRoundTrip(n % 10);
    }
  }

  /** Distinct numbers are rendered as distinct strings. */
  lemma NatToStringInjective(m: nat, n: nat)
    requires NatToString(m) == NatToString(n)
    ensures m == n
  {
    ParseNatToString(m);
    ParseNatToString(n);
  }

  // ---------------------------------------------------------------------------
  // The substitution

  /** `\w` in a JavaScript regular expression without the `u` flag: `[A-Za-z0-9_]`. */
  predicate IsWordChar(c: char)
  {
    ('a' <= c <= 'z') || ('A' <= c <= 'Z') || ('0' <= c <= '9') || c == '_'
  }

  /** A placeholder `{k}` (one word character between braces) starts at index `i`. */
  predicate PlaceholderAt(t: string, i: int)
  {
    0 <= i && i + 3 <= |t| && t[i] == '{' && IsWordChar(t[i + 1]) && t[i + 2] == '}'
  }

  /**
   * The value the replacement callback returns for key `k`: the number
   * rendered in decimal for `x`, `y` and `z`, and for any other key the
   * missing property `undefined`, which the replace renders as the word.
   */
  function Lookup(k: char, x: nat, y: nat, z: nat): string
  {
    if k == 'x' then NatToString(x)
    else if k == 'y' then NatToString(y)
    else if k == 'z' then NatToString(z)
    else "undefined"
  }

  /**
   * The global replace, left to right: a placeholder at the current position
   * is replaced and scanning resumes after it; otherwise the character is kept.
   */
  function Fill(t: string, x: nat, y: nat, z: nat): string
  {
    if |t| == 0 then ""
    else if PlaceholderAt(t, 0) then Lookup(t[1], x, y, z) + Fill(t[3..], x, y, z)
    else [t[0]] + Fill(t[1..], x, y, z)
  }

  /** A template without any placeholder comes back unchanged (stray braces included). */
  lemma {:induction false} FillPlain(t: string, x: nat, y: nat, z: nat)
    requires forall i :: 0 <= i < |t| ==> !PlaceholderAt(t, i)
    ensures Fill(t, x, y, z) == t
  {
    if |t| > 0 {
      assert !PlaceholderAt(t, 0);
      forall i | 0 <= i < |t[1..]|
        ensures !PlaceholderAt(t[1..], i)
      {
        assert !PlaceholderAt(t, i + 1);
      }
      FillPlain(t[1..], x, y, z);
    }
  }

  /**
   * The replace works segment by segment: when no placeholder can straddle the
   * join (no `{` in the last two characters of `a`), filling `a + b` is
   * filling `a` followed by filling `b`.
   */
  lemma {:induction false} FillAppend(a: string, b: string, x: nat, y: nat, z: nat)
    requires forall i :: |a| - 2 <= i < |a| && 0 <= i ==> a[i] != '{'
    ensures Fill(a + b, x, y, z) == Fill(a, x, y, z) + Fill(b, x, y, z)
  {
    if |a| == 0 {
      assert a + b == b;
    } else if PlaceholderAt(a, 0) {
      assert PlaceholderAt(a + b, 0);
      assert (a + b)[3..] == a[3..] + b;
      FillAppend(a[3..], b, x, y, z);
    } else {
      assert !PlaceholderAt(a + b, 0);
      assert (a + b)[1..] == a[1..] + b;
      FillAppend(a[1..], b, x, y, z);
    }
  }

  /** Every placeholder is replaced: `{k}` alone becomes the value of `k`. */
  lemma FillPlaceholder(k: char, x: nat, y: nat, z: nat)
    requires IsWordChar(k)
    ensures Fill(['{', k, '}'], x, y, z) == Lookup(k, x, y, z)
  {
    assert PlaceholderAt(['{', k, '}'], 0);
    assert ['{', k, '}'][3..] == "";
  }

  /** Errors of `tileUrl`: a tile without a template (an empty template list). */
  datatype UrlError = MissingTemplate

  /** The URL of a tile: its template filled with the tile's `x`, `y` and the map's zoom. */
  function TileUrlOf(tile: Tile, zoom: nat): (r: Result<string, UrlError>)
    requires tile.x >= 0 && tile.y >= 0
    ensures r.Failure? <==> tile.urlTemplate.None?
  {
    match tile.urlTemplate
    case None => Failure(MissingTemplate)
    case Some(t) => Success(Fill(t, tile.x, tile.y, zoom))
  }

  /** Every tile `getTiles` emits has indices `tileUrl` can render, and a URL when there is a template. */
  lemma EmittedTileHasUrl(g: Grid, k: int)
    requires 0 <= k < TileCount(g)
    ensures TileAt(g, k).x >= 0 && TileAt(g, k).y >= 0
    ensures TileUrlOf(TileAt(g, k), g.zoom).Success? <==> |g.urls| > 0
  {
    TileInWorld(g, k);
  }

  /** No `{` anywhere in `t`. */
  predicate BraceFree(t: string)
  {
    forall i :: 0 <= i < |t| ==> t[i] != '{'
  }

  /** A template without `{` has no placeholder, so it comes back unchanged. */
  lemma FillBraceFree(t: string, x: nat, y: nat, z: nat)
    requires BraceFree(t)
    ensures Fill(t, x, y, z) == t
  {
    FillPlain(t, x, y, z);
  }

  /** A placeholder at the front is replaced, and scanning resumes right after it. */
  lemma FillPlaceholderFirst(k: char, rest: string, x: nat, y: nat, z: nat)
    requires IsWordChar(k)
    ensures Fill(['{', k, '}'] + rest, x, y, z) == Lookup(k, x, y, z) + Fill(rest, x, y, z)
  {
    var t := ['{', k, '}'] + rest;
    assert PlaceholderAt(t, 0);
    assert t[3..] == rest;
  }

  /** A character other than `{` at the front is kept. */
  lemma FillOtherFirst(c: char, rest: string, x: nat, y: nat, z: nat)
    requires c != '{'
    ensures Fill([c] + rest, x, y, z) == [c] + Fill(rest, x, y, z)
  {
    var t := [c] + rest;
    assert t[1..] == rest;
  }

  /** The placeholder part `{z}/{x}/{y}` followed by `ext`, filled; right-nested. */
  lemma FillZxyPart(ext: string, x: nat, y: nat, z: nat)
    requires BraceFree(ext)
    ensures Fill(['{', 'z', '}'] + (['/'] + (['{', 'x', '}'] + (['/'] + (['{', 'y', '}'] + ext)))), x, y, z)
         == NatToString(z) + (['/'] + (NatToString(x) + (['/'] + (NatToString(y) + ext))))
  {
    var r3 := ['{', 'y', '}'] + ext;
    var r2 := ['{', 'x', '}'] + (['/'] + r3);
    FillBraceFree(ext, x, y, z);
    FillPlaceholderFirst('y', ext, x, y, z);
    FillKeySlash('x', r3, x, y, z);
    FillKeySlash('z', r2, x, y, z);
  }

  /** A placeholder followed by a slash: the value, the slash, then the rest filled. */
  lemma FillKeySlash(k: char, rest: string, x: nat, y: nat, z: nat)
    requires IsWordChar(k)
    ensures Fill(['{', k, '}'] + (['/'] + rest), x, y, z) == Lookup(k, x, y, z) + (['/'] + Fill(rest, x, y, z))
  {
    FillPlaceholderFirst(k, ['/'] + rest, x, y, z);
    FillOtherFirst('/', rest, x, y, z);
  }

  lemma ReassociateZxy(pre: string, a: string, b: string, c: string, ext: string)
    ensures pre + (a + (['/'] + (b + (['/'] + (c + ext))))) == pre + a + "/" + b + "/" + c + ext
  {
    calc {
      pre + (a + (['/'] + (b + (['/'] + (c + ext)))));
      (pre + a) + (['/'] + (b + (['/'] + (c + ext))));
      (pre + a + ['/']) + (b + (['/'] + (c + ext)));
      (pre + a + ['/'] + b) + (['/'] + (c + ext));
      (pre + a + ['/'] + b + ['/']) + (c + ext);
      pre + a + "/" + b + "/" + c + ext;
    }
  }

  /**
   * The usual slippy-map template `<prefix>{z}/{x}/{y}<suffix>`, with prefix
   * and suffix free of braces, becomes the prefix, zoom, column and row in
   * decimal separated by slashes, then the suffix.
   */
  lemma FillZxyTemplate(pre: string, ext: string, x: nat, y: nat, z: nat)
    requires BraceFree(pre) && BraceFree(ext)
    ensures Fill(pre + "{z}/{x}/{y}" + ext, x, y, z)
         == pre + NatToString(z) + "/" + NatToString(x) + "/" + NatToString(y) + ext
  {
    var r1 := ['{', 'z', '}'] + (['/'] + (['{', 'x', '}'] + (['/'] + (['{', 'y', '}'] + ext))));
    assert pre + "{z}/{x}/{y}" + ext == pre + r1;
    FillBraceFreePrefix(pre, r1, x, y, z);
    FillZxyPart(ext, x, y, z);
    ReassociateZxy(pre, NatToString(z), NatToString(x), NatToString(y), ext);
  }

  /** A brace-free prefix is kept as it is, and the rest is filled on its own. */
  lemma FillBraceFreePrefix(pre: string, rest: string, x: nat, y: nat, z: nat)
    requires BraceFree(pre)
    ensures Fill(pre + rest, x, y, z) == pre + Fill(rest, x, y, z)
  {
    FillAppend(pre, rest, x, y, z);
    FillBraceFree(pre, x, y, z);
  }

  lemma DecimalExamples()
    ensures NatToString(15) == "15" && NatToString(17060) == "17060" && NatToString(11531) == "11531"
  {
    assert NatToString(1706) == "1706";
    assert NatToString(1153) == "1153";
  }

  /**
   * The URL of the first tile of the zoom-15 example, as the repository's test
   * suite expects it (there with prefix `https://example.com/` and suffix `.png`).
   */
  lemma ExampleUrl(pre: string, ext: string)
    requires BraceFree(pre) && BraceFree(ext)
    ensures Fill(pre + "{z}/{x}/{y}" + ext, 17060, 11531, 15)
         == pre + "15" + "/" + "17060" + "/" + "11531" + ext
  {
    FillZxyTemplate(pre, ext, 17060, 11531, 15);
    DecimalExamples();
  }
}
