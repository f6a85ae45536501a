/** The string operations the scripts apply to file names: str.lower(),
    str.endswith() and os.path.splitext(). */
module Paths {

  function LowerChar(c: char): char
  {
    if 'A' <= c <= 'Z' then (c as int + 32) as char else c
  }

  /** str.lower() on ASCII letters; every other character is kept. */
  function Lower(s: string): string
  {
    seq(|s|, i requires 0 <= i < |s| => LowerChar(s[i]))
  }

  predicate EndsWith(s: string, suffix: string)
  {
    |suffix| <= |s| && s[|s| - |suffix|..] == suffix
  }

  /** The extension filter of yolo2voc: `.jpg`, `.png` or `.jpeg`, in any case. */
  predicate IsImageFileName(name: string)
  {
    var lower := Lower(name);
    EndsWith(lower, ".jpg") || EndsWith(lower, ".png") || EndsWith(lower, ".jpeg")
  }

  /** Position of the last `c` in `s`, or -1 (str.rfind). */
  function LastIndex(s: string, c: char): (i: int)
    ensures -1 <= i < |s|
    ensures i >= 0 ==> s[i] == c
    ensures forall k :: i < k < |s| ==> s[k] != c
  {
    if s == [] then -1
    else if s[|s| - 1] == c then |s| - 1
    else LastIndex(s[..|s| - 1], c)
  }

  /** os.path.splitext(name)[0] on a POSIX path: the name cut before its
      last '.', when that '.' lies in the last path component and something
      other than '.' precedes it there; otherwise the whole name. */
  function Stem(name: string): string
  {
    var sep := LastIndex(name, '/');
    var dot := LastIndex(name, '.');
    if dot > sep && exists j | sep < j < dot :: name[j] != '.' then name[..dot] else name
  }

  /** The stem is a prefix of the name. When it is shorter, the name goes on
      with its last '.', no '/' follows, and the last component holds a
      character other than '.' before it. When it is the whole name, no '.'
      of the last component follows a character other than '.'. */
  lemma StemIsSplitext(name: string)
    ensures var r := Stem(name);
      var sep := LastIndex(name, '/');
      && |r| <= |name| && r == name[..|r|]
      && (r != name ==>
            && name[|r|] == '.'
            && (forall k :: |r| < k < |name| ==> name[k] != '.' && name[k] != '/')
            && (exists j :: sep < j < |r| && r[j] != '.'))
      && (r == name ==>
            forall i, j :: sep < j < i < |name| && name[i] == '.' ==> name[j] == '.')
  {
    var sep := LastIndex(name, '/');
    var dot := LastIndex(name, '.');
    if dot > sep && exists j | sep < j < dot :: name[j] != '.' {
      var j :| sep < j < dot && name[j] != '.';
      assert name[..dot][j] == name[j];
    }
  }

  /** A '/' inside the last component's extension is no path separator:
      with no `c` in `ext`, the last `c` of `base + ext` is that of `base`. */
  lemma {:induction false} LastIndexAppend(base: string, ext: string, c: char)
    requires c !in ext
    ensures LastIndex(base + ext, c) == LastIndex(base, c)
    decreases |ext|
  {
    if ext != [] {
      var shorter := ext[..|ext| - 1];
      assert (base + ext)[..|base + ext| - 1] == base + shorter;
      assert ext[|ext| - 1] in ext;
      assert forall x :: x in shorter ==> x in ext;
      LastIndexAppend(base, shorter, c);
    } else {
      assert base + ext == base;
    }
  }

  /** The stem of a name that ends in an extension after at least one
      character other than '.' in its last component is the name without
      that extension. */
  lemma StemDropsExtension(base: string, ext: string)
    requires |ext| > 0 && ext[0] == '.' && '.' !in ext[1..] && '/' !in ext
    requires exists j :: LastIndex(base, '/') < j < |base| && base[j] != '.'
    ensures Stem(base + ext) == base
  {
    var name := base + ext;
    var j :| LastIndex(base, '/') < j < |base| && base[j] != '.';
    LastIndexAppend(base, ext, '/');
    assert name[j] == base[j];
    assert name[|base|] == '.';
    forall k | |base| < k < |name|
      ensures name[k] != '.'
    {
      assert name[k] == ext[1..][k - |base| - 1];
    }
    assert LastIndex(name, '.') == |base|;
    assert name[..|base|] == base;
  }

  /** A leading-dot file name in a directory has no extension:
      splitext("d/.x") keeps the whole name. */
  lemma StemKeepsDotFileInDirectory()
    ensures Stem("d/.x") == "d/.x"
  {
    var name := "d/.x";
    assert LastIndex(name, '/') == 1;
    assert LastIndex(name, '.') == 2;
  }
}
