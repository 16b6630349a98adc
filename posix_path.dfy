/** The POSIX flavour of Python's `os.path` functions the launcher calls:
    `join` with two parts, `basename` and `splitext`. */
module PosixPath {
  import opened PyStr

  /** `s.rfind(c)`: the index of the last `c` in `s`, or -1 when there is none. */
  function RFind(s: string, c: char): (r: int)
    ensures -1 <= r < |s|
    ensures r >= 0 ==> s[r] == c
    ensures forall j :: r < j < |s| ==> s[j] != c
    decreases |s|
  {
    if s == [] then -1
    else if s[|s| - 1] == c then |s| - 1
    else RFind(s[..|s| - 1], c)
  }

  /** Characters appended after the last `c` leave its position unchanged. */
  lemma {:induction false} RFindAppend(s: string, t: string, c: char)
    requires c !in t
    ensures RFind(s + t, c) == RFind(s, c)
    decreases |t|
  {
    if t == [] {
      assert s + t == s;
    } else {
      var shorter := t[..|t| - 1];
      assert (s + t)[..|s + t| - 1] == s + shorter;
      RFindAppend(s, shorter, c);
    }
  }

  /** `os.path.join(a, b)`: an absolute `b` replaces `a`; otherwise `b` follows
      `a` with one separator between them. */
  function Join(a: string, b: string): (r: string)
    ensures EndsWith(r, b)
    ensures |b| > 0 && b[0] == '/' ==> r == b
    ensures (|b| == 0 || b[0] != '/') ==> r[..|r| - |b|] == a || r[..|r| - |b|] == a + "/"
  {
    if |b| > 0 && b[0] == '/' then b
    else if a == [] || a[|a| - 1] == '/' then a + b
    else a + "/" + b
  }

  /** A relative name joined under a directory that does not end in a
      separator gets exactly one separator between them. */
  lemma JoinRelative(dir: string, name: string)
    requires dir != [] && dir[|dir| - 1] != '/'
    requires name == [] || name[0] != '/'
    ensures Join(dir, name) == dir + "/" + name
  {
  }

  /** `os.path.basename(p)`: what follows the last separator. */
  function Basename(p: string): (r: string)
    ensures EndsWith(p, r) && '/' !in r
  {
    p[RFind(p, '/') + 1..]
  }

  /** Every character of `s` is a dot (`splitext` skips such a run at the
      start of the last component). */
  predicate AllDots(s: string) {
    s == [] || (s[0] == '.' && AllDots(s[1..]))
  }

  /** The characters strictly between indices `sepIndex` and `dotIndex` of `p`
      are all dots. */
  predicate OnlyDotsBetween(p: string, sepIndex: int, dotIndex: int)
    requires -1 <= sepIndex < dotIndex <= |p|
  {
    AllDots(p[sepIndex + 1..dotIndex])
  }

  /** `os.path.splitext(p)` as (root, extension): the extension runs from the
      last dot of the last path component, unless only dots precede that dot in
      the component (so `.txt` and `a/..txt` have no extension). */
  function SplitExt(p: string): (r: (string, string))
    ensures r.0 + r.1 == p
    ensures r.1 == [] || r.1[0] == '.'
    ensures forall j :: 0 <= j < |r.1| ==> r.1[j] != '/'
    ensures forall j :: 1 <= j < |r.1| ==> r.1[j] != '.'
    ensures r.1 != [] ==> |r.0| == RFind(p, '.')
  {
    var sepIndex := RFind(p, '/');
    var dotIndex := RFind(p, '.');
    if dotIndex > sepIndex && !OnlyDotsBetween(p, sepIndex, dotIndex) then
      (p[..dotIndex], p[dotIndex..])
    else (p, "")
  }

  /** For a name ending in `.txt`, `splitext` strips exactly `.txt` unless the
      last component holds nothing but dots before it. */
  lemma SplitExtTxt(f: string)
    requires EndsWith(f, ".txt")
    ensures var stem := f[..|f| - 4];
      SplitExt(f) == if AllDots(Basename(stem)) then (f, "") else (stem, ".txt")
  {
    var stem := f[..|f| - 4];
    assert f == stem + ".txt";
    RFindAppend(stem, ".txt", '/');
    assert f == (stem + ".") + "txt";
    RFindAppend(stem + ".", "txt", '.');
    assert RFind(stem + ".", '.') == |stem|;
    var sepIndex := RFind(stem, '/');
    assert f[sepIndex + 1..|stem|] == Basename(stem);
  }
}
