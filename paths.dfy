/** File names and paths derived from a capture name (windows/image_window.py). */
module Paths {
  const FullSuffix: string := "_full.jpg"
  const CroppedSuffix: string := "_cropped.jpg"
  const JpgExtension: string := ".jpg"

  predicate EndsWith(s: string, suffix: string) {
    |suffix| <= |s| && s[|s| - |suffix|..] == suffix
  }

  /** The file name of the full frame saved under `name`. */
  function FullName(name: string): (f: string)
    ensures |f| == |name| + |FullSuffix| && EndsWith(f, FullSuffix) && f[..|name|] == name
  {
    name + FullSuffix
  }

  /** The file name of the cropped frame saved under `name`. */
  function CroppedName(name: string): (f: string)
    ensures |f| == |name| + |CroppedSuffix| && EndsWith(f, CroppedSuffix) && f[..|name|] == name
  {
    name + CroppedSuffix
  }

  /** `{loc}/{name}_full.jpg` */
  function FullPath(loc: string, name: string): (p: string)
    ensures |p| > |loc| && EndsWith(p, FullSuffix) && p[..|loc| + 1] == loc + "/"
  {
    assert (loc + "/" + FullName(name))[..|loc| + 1] == loc + "/";
    loc + "/" + FullName(name)
  }

  /** `{loc}/{name}_cropped.jpg` */
  function CroppedPath(loc: string, name: string): (p: string)
    ensures |p| > |loc| && EndsWith(p, CroppedSuffix) && p[..|loc| + 1] == loc + "/"
  {
    assert (loc + "/" + CroppedName(name))[..|loc| + 1] == loc + "/";
    loc + "/" + CroppedName(name)
  }

  /** Every name ending in either capture suffix also ends in ".jpg". */
  lemma CaptureSuffixesAreJpg(s: string)
    ensures EndsWith(s, FullSuffix) ==> EndsWith(s, JpgExtension)
    ensures EndsWith(s, CroppedSuffix) ==> EndsWith(s, JpgExtension)
  {
    if EndsWith(s, FullSuffix) {
      assert s[|s| - 4..] == s[|s| - |FullSuffix|..][5..];
    }
    if EndsWith(s, CroppedSuffix) {
      assert s[|s| - 4..] == s[|s| - |CroppedSuffix|..][8..];
    }
  }

  /** No name ends in both "_full.jpg" and "_cropped.jpg": the fifth
      character from the end is 'l' in one and 'd' in the other. */
  lemma SuffixesExclusive(s: string)
    ensures EndsWith(s, FullSuffix) ==> !EndsWith(s, CroppedSuffix)
  {
    if EndsWith(s, FullSuffix) && |CroppedSuffix| <= |s| {
      assert s[|s| - 5] == s[|s| - |FullSuffix|..][4] == 'l';
      assert s[|s| - 5] == s[|s| - |CroppedSuffix|..][7];
      assert CroppedSuffix[7] == 'd';
    }
  }

  /** Framing a name between a fixed prefix and suffix loses nothing. */
  lemma FramedInjective(prefix: string, a: string, b: string, suffix: string)
    requires prefix + a + suffix == prefix + b + suffix
    ensures a == b
  {
    var s := prefix + a + suffix;
    assert |a| == |b|;
    assert a == s[|prefix|..|prefix| + |a|];
    assert b == (prefix + b + suffix)[|prefix|..|prefix| + |b|];
  }

  /** The two files saved under one name never share a path. */
  lemma DerivedPathsDistinct(loc: string, name: string)
    ensures FullPath(loc, name) != CroppedPath(loc, name)
  {
    SuffixesExclusive(FullPath(loc, name));
  }

  /** A full-frame path never equals a cropped-frame path, whatever the two
      names, and each kind of path determines its name. */
  lemma DerivedPathsSeparate(loc: string, a: string, b: string)
    ensures FullPath(loc, a) != CroppedPath(loc, b)
    ensures FullPath(loc, a) == FullPath(loc, b) <==> a == b
    ensures CroppedPath(loc, a) == CroppedPath(loc, b) <==> a == b
  {
    SuffixesExclusive(FullPath(loc, a));
    if FullPath(loc, a) == FullPath(loc, b) {
      FramedInjective(loc + "/", a, b, FullSuffix);
    }
    if CroppedPath(loc, a) == CroppedPath(loc, b) {
      FramedInjective(loc + "/", a, b, CroppedSuffix);
    }
  }
}
