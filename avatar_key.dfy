/** The storage key under which `uploadAvatar` stores a user's picture:
    the user's id, a dot, and the file name's extension, where the extension
    is `name.split(".").pop()`, i.e. the last dot-separated segment. */
module AvatarKey {

  const Dot: char := '.'

  /** `s.split(sep)` for a one-character separator: the maximal runs of
      characters between separators, always at least one (possibly empty). */
  function Split(s: string, sep: char): (parts: seq<string>)
    ensures |parts| >= 1
    ensures forall i :: 0 <= i < |parts| ==> sep !in parts[i]
  {
    if s == [] then [[]]
    else
      var rest := Split(s[1..], sep);
      if s[0] == sep then [[]] + rest
      else [[s[0]] + rest[0]] + rest[1..]
  }

  /** `parts.join(sep)`, the inverse of `Split`. */
  function Join(parts: seq<string>, sep: char): string
    requires |parts| >= 1
  {
    if |parts| == 1 then parts[0] else parts[0] + [sep] + Join(parts[1..], sep)
  }

  /** `xs.pop()` on a non-empty array: its last element. */
  function Last<T>(xs: seq<T>): T
    requires |xs| >= 1
  {
    xs[|xs| - 1]
  }

  /** The file name's extension: the last dot-separated segment. */
  function Extension(fileName: string): (ext: string)
    ensures Dot !in ext
  {
    Last(Split(fileName, Dot))
  }

  /** The object key `${user.id}.${fileExt}`. */
  function StorageKey(userId: string, fileName: string): (key: string)
    ensures |key| == |userId| + 1 + |Extension(fileName)|
    ensures key[..|userId|] == userId && key[|userId|] == Dot
    ensures Extension(key) == Extension(fileName)
  {
    var ext := Extension(fileName);
    ExtensionAfterLastDot(userId, ext);
    userId + [Dot] + ext
  }

  /** Splitting and joining again gives back the original string. */
  lemma {:induction false} JoinSplit(s: string, sep: char)
    ensures Join(Split(s, sep), sep) == s
  {
    if s != [] {
      var rest := Split(s[1..], sep);
      JoinSplit(s[1..], sep);
      if s[0] == sep {
        assert Split(s, sep)[1..] == rest;
      } else if |rest| == 1 {
        assert Split(s, sep) == [[s[0]] + rest[0]];
      } else {
        var parts := Split(s, sep);
        assert parts[0] == [s[0]] + rest[0] && parts[1..] == rest[1..];
        assert Join(rest, sep) == rest[0] + [sep] + Join(rest[1..], sep);
        assert Join(parts, sep) == [s[0]] + Join(rest, sep);
      }
    }
  }

  /** A string without the separator is a single segment. */
  lemma {:induction false} SplitWithoutSep(s: string, sep: char)
    requires sep !in s
    ensures Split(s, sep) == [s]
  {
    if s != [] {
      assert sep !in s[1..] by {
        forall k | 0 <= k < |s| - 1 ensures s[1..][k] != sep {
          assert s[1..][k] == s[k + 1];
        }
      }
      SplitWithoutSep(s[1..], sep);
      assert [s[0]] + s[1..] == s;
    }
  }

  /** A separator splits a string into the segments on either side of it. */
  lemma {:induction false} SplitAround(a: string, b: string, sep: char)
    ensures Split(a + [sep] + b, sep) == Split(a, sep) + Split(b, sep)
  {
    var s := a + [sep] + b;
    if a == [] {
      assert s[0] == sep && s[1..] == b;
    } else {
      assert s[0] == a[0] && s[1..] == a[1..] + [sep] + b;
      SplitAround(a[1..], b, sep);
    }
  }

  /** The join of several segments ends with a separator and the last one. */
  lemma {:induction false} JoinLast(parts: seq<string>, sep: char)
    requires |parts| >= 2
    ensures Join(parts, sep) == Join(parts[..|parts| - 1], sep) + [sep] + Last(parts)
  {
    if |parts| > 2 {
      JoinLast(parts[1..], sep);
      assert parts[1..][..|parts| - 2] == parts[..|parts| - 1][1..];
    }
  }

  /** After the last dot comes the extension. */
  lemma ExtensionAfterLastDot(prefix: string, ext: string)
    requires Dot !in ext
    ensures Extension(prefix + [Dot] + ext) == ext
  {
    SplitAround(prefix, ext, Dot);
    SplitWithoutSep(ext, Dot);
  }

  /** A name without a dot is its own extension. */
  lemma ExtensionOfDotlessName(fileName: string)
    requires Dot !in fileName
    ensures Extension(fileName) == fileName
  {
    SplitWithoutSep(fileName, Dot);
  }

  /** The extension is a suffix of the name that either is the whole name
      or follows a dot: exactly the text after the last dot. */
  lemma ExtensionIsTextAfterLastDot(fileName: string)
    ensures var ext := Extension(fileName);
      && |ext| <= |fileName|
      && fileName[|fileName| - |ext|..] == ext
      && (|ext| == |fileName| || fileName[|fileName| - |ext| - 1] == Dot)
  {
    var parts := Split(fileName, Dot);
    JoinSplit(fileName, Dot);
    if |parts| >= 2 {
      JoinLast(parts, Dot);
    }
  }

  /** Two users never share a key, and one user's key fixes the extension:
      the id and the extension can be read back from the key. */
  lemma StorageKeyInjective(id1: string, name1: string, id2: string, name2: string)
    requires StorageKey(id1, name1) == StorageKey(id2, name2)
    ensures id1 == id2 && Extension(name1) == Extension(name2)
  {
    var key := StorageKey(id1, name1);
    assert |id1| == |key| - |Extension(name1)| - 1;
    assert key[..|id1|] == id1 && key[..|id2|] == id2;
  }

  /** User `U1` uploading `me.png` is stored under `U1.png`. */
  lemma StorageKeyExample()
    ensures Extension("me.png") == "png"
    ensures StorageKey("U1", "me.png") == "U1.png"
  {
    assert "me.png" == "me" + [Dot] + "png";
    ExtensionAfterLastDot("me", "png");
  }
}
