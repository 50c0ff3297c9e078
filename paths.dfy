// Sprite strip file names, and reading the parts of a built file path back: a
// separator that the leading part never contains marks where that part ends.
module Paths {
  import opened Decimal

  /** The end of a sprite strip's file name, which records the strip's frame count. */
  function StripSuffix(frames: nat): string
  {
    "_strip" + ToDecimal(frames) + ".png"
  }

  /** The digits of the strip suffix read back to the frame count. */
  lemma StripSuffixRecordsFrames(frames: nat)
    ensures var digits := StripSuffix(frames)[6..|StripSuffix(frames)| - 4];
            (forall i :: 0 <= i < |digits| ==> IsDigit(digits[i])) && ValueOf(digits) == frames
  {
    assert StripSuffix(frames)[6..|StripSuffix(frames)| - 4] == ToDecimal(frames);
    ValueOfToDecimal(frames);
  }

  /** If two strings are each a part free of sep, then sep, then a rest, and they are
      equal, then their parts and their rests are equal. */
  lemma SplitAtSeparator(a1: string, b1: string, a2: string, b2: string, sep: char)
    requires sep !in a1 && sep !in a2
    requires a1 + [sep] + b1 == a2 + [sep] + b2
    ensures a1 == a2 && b1 == b2
  {
    PartEndsAtSeparator(a1, b1, a2, b2, sep);
    PartEndsAtSeparator(a2, b2, a1, b1, sep);
    var s := a1 + [sep] + b1;
    assert a1 == s[..|a1|] == a2;
    assert b1 == s[|a1| + 1..] == b2;
  }

  /** A part free of the separator cannot run past the other string's separator. */
  lemma PartEndsAtSeparator(a1: string, b1: string, a2: string, b2: string, sep: char)
    requires sep !in a2
    requires a1 + [sep] + b1 == a2 + [sep] + b2
    ensures |a2| <= |a1|
  {
    if |a1| < |a2| {
      SeparatorAt(a1, b1, sep);
      assert false;
    }
  }

  lemma SeparatorAt(a: string, b: string, sep: char)
    ensures |a| < |a + [sep] + b| && (a + [sep] + b)[|a|] == sep
  {
  }

  /** Equal strings with equal prefixes have equal remainders. */
  lemma DropCommonPrefix(p: string, r1: string, r2: string)
    requires p + r1 == p + r2
    ensures r1 == r2
  {
    assert r1 == (p + r1)[|p|..];
    assert r2 == (p + r2)[|p|..];
  }

  /** A path prefix + dir + "/" + stem + "_" + file + suffix names its directory,
      stem and remainder uniquely when neither dir holds '/' and neither stem
      holds '_'. */
  lemma StripPathParts(prefix: string, d1: string, t1: string, f1: string, s1: string,
                       d2: string, t2: string, f2: string, s2: string)
    requires '/' !in d1 && '/' !in d2 && '_' !in t1 && '_' !in t2
    requires prefix + d1 + "/" + t1 + "_" + f1 + s1 == prefix + d2 + "/" + t2 + "_" + f2 + s2
    ensures d1 == d2 && t1 == t2 && f1 + s1 == f2 + s2
  {
    assert prefix + d1 + "/" + t1 + "_" + f1 + s1 == prefix + (d1 + ['/'] + (t1 + ['_'] + (f1 + s1)));
    assert prefix + d2 + "/" + t2 + "_" + f2 + s2 == prefix + (d2 + ['/'] + (t2 + ['_'] + (f2 + s2)));
    DropCommonPrefix(prefix, d1 + ['/'] + (t1 + ['_'] + (f1 + s1)), d2 + ['/'] + (t2 + ['_'] + (f2 + s2)));
    SplitAtSeparator(d1, t1 + ['_'] + (f1 + s1), d2, t2 + ['_'] + (f2 + s2), '/');
    SplitAtSeparator(t1, f1 + s1, t2, f2 + s2, '_');
  }
}
