/**
 * The two string operations the run-mode check needs on the executed script's path:
 * the separator-normalised form of the relative path `node_modules/.bin/eslint`
 * (what Node's `path.normalize` makes of that literal on each platform) and a
 * case-sensitive suffix test (`String.prototype.endsWith`).
 */
module Paths {

  /** The host platform, which decides the directory separator `path.normalize` produces. */
  datatype Platform = Posix | Win32

  function Separator(platform: Platform): char
  {
    match platform
    case Posix => '/'
    case Win32 => '\\'
  }

  /** The relative path of the locally installed ESLint binary, as written in the source. */
  const ESLINT_BIN_PATH: string := "node_modules/.bin/eslint"

  /** The same path with Windows separators. */
  const ESLINT_BIN_PATH_WIN32: string := "node_modules\\.bin\\eslint"

  /**
   * Separator normalisation: every `/` becomes the platform's separator and every
   * other character is kept. On a path without `.`/`..` segments or repeated
   * separators this is what `path.normalize` does.
   */
  function WithSeparators(platform: Platform, path: string): (r: string)
    ensures |r| == |path|
  {
    if path == [] then []
    else [if path[0] == '/' then Separator(platform) else path[0]] + WithSeparators(platform, path[1..])
  }

  /** Position by position: `/` becomes the separator and every other character stays. */
  lemma {:induction false} WithSeparatorsAt(platform: Platform, path: string, i: nat)
    requires i < |path|
    ensures WithSeparators(platform, path)[i] == if path[i] == '/' then Separator(platform) else path[i]
  {
    if i > 0 {
      WithSeparatorsAt(platform, path[1..], i - 1);
    }
  }


  /** Normalisation works character by character, so it distributes over concatenation. */
  lemma {:induction false} WithSeparatorsAppend(platform: Platform, a: string, b: string)
    ensures WithSeparators(platform, a + b) == WithSeparators(platform, a) + WithSeparators(platform, b)
  {
    if a != [] {
      assert (a + b)[0] == a[0] && (a + b)[1..] == a[1..] + b;
      WithSeparatorsAppend(platform, a[1..], b);
    } else {
      assert a + b == b;
    }
  }

  /** A segment without `/` is left unchanged. */
  lemma {:induction false} WithSeparatorsKeepsSegment(platform: Platform, segment: string)
    requires '/' !in segment
    ensures WithSeparators(platform, segment) == segment
  {
    if segment != [] {
      assert segment[0] in segment;
      assert forall c :: c in segment[1..] ==> c in segment;
      WithSeparatorsKeepsSegment(platform, segment[1..]);
    }
  }

  /** Normalising three `/`-joined segments that contain no `/` joins them with the platform's separator. */
  lemma JoinedSegments(platform: Platform, a: string, b: string, c: string)
    requires '/' !in a && '/' !in b && '/' !in c
    ensures WithSeparators(platform, a + "/" + b + "/" + c) ==
            a + [Separator(platform)] + b + [Separator(platform)] + c
  {
    var sep := [Separator(platform)];
    assert WithSeparators(platform, "/") == sep;
    WithSeparatorsKeepsSegment(platform, a);
    WithSeparatorsKeepsSegment(platform, b);
    WithSeparatorsKeepsSegment(platform, c);
    calc {
      WithSeparators(platform, a + "/" + b + "/" + c);
      { WithSeparatorsAppend(platform, a + "/" + b + "/", c); }
      WithSeparators(platform, a + "/" + b + "/") + c;
      { WithSeparatorsAppend(platform, a + "/" + b, "/"); }
      WithSeparators(platform, a + "/" + b) + sep + c;
      { WithSeparatorsAppend(platform, a + "/", b); }
      WithSeparators(platform, a + "/") + b + sep + c;
      { WithSeparatorsAppend(platform, a, "/"); }
      a + sep + b + sep + c;
    }
  }

  /**
   * `normalize('node_modules/.bin/eslint')`: the literal's three segments joined with the
   * platform's separator. `NormalizedEslintBinIsNormalization` shows that this is the
   * separator normalisation of the literal.
   */
  function NormalizedEslintBin(platform: Platform): (r: string)
    ensures platform == Posix ==> r == ESLINT_BIN_PATH
    ensures platform == Win32 ==> r == ESLINT_BIN_PATH_WIN32
  {
    "node_modules" + [Separator(platform)] + ".bin" + [Separator(platform)] + "eslint"
  }

  /** Separator normalisation of the literal gives the segment-wise form. */
  lemma NormalizedEslintBinIsNormalization(platform: Platform)
    ensures WithSeparators(platform, ESLINT_BIN_PATH) == NormalizedEslintBin(platform)
  {
    assert ESLINT_BIN_PATH == "node_modules" + "/" + ".bin" + "/" + "eslint";
    JoinedSegments(platform, "node_modules", ".bin", "eslint");
  }

  /** `s.endsWith(suffix)`: exact, case-sensitive comparison of the last `|suffix|` characters. */
  predicate EndsWith(s: string, suffix: string): (r: bool)
    ensures r <==> (|suffix| <= |s| &&
                    forall i :: 0 <= i < |suffix| ==> s[|s| - |suffix| + i] == suffix[i])
  {
    |suffix| <= |s| && s[|s| - |suffix|..] == suffix
  }

  /** Any prefix followed by `suffix` ends with `suffix`. */
  lemma EndsWithAppend(prefix: string, suffix: string)
    ensures EndsWith(prefix + suffix, suffix)
  {
  }

  /** Conversely, a string that ends with `suffix` is its own prefix followed by `suffix`. */
  lemma EndsWithSplits(s: string, suffix: string)
    requires EndsWith(s, suffix)
    ensures s == s[..|s| - |suffix|] + suffix
  {
  }

  /**
   * The suffix test is separator-sensitive: on Windows a path spelled with `/`
   * separators does not match the normalised binary path.
   */
  lemma PosixSpellingMissesWin32Suffix(prefix: string)
    ensures !EndsWith(prefix + ESLINT_BIN_PATH, NormalizedEslintBin(Win32))
  {
    var s := prefix + ESLINT_BIN_PATH;
    var n := |ESLINT_BIN_PATH|;
    assert s[|prefix| + 12] == '/';
    assert s[|s| - n..][12] == s[|prefix| + 12];
    assert ESLINT_BIN_PATH_WIN32[12] == '\\';
  }
}
