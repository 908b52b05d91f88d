/** `assign_flavor.py`: the contents of the sync-target file, stripped of
    surrounding whitespace, select the one line the script prints. */
module Flavor {

  /** The characters Python's `str.strip()` removes: those for which
      `str.isspace()` holds. */
  predicate IsSpace(c: char)
  {
    var u := c as int;
    (0x09 <= u <= 0x0D) || (0x1C <= u <= 0x20) || u == 0x85 || u == 0xA0 || u == 0x1680
    || (0x2000 <= u <= 0x200A) || u == 0x2028 || u == 0x2029 || u == 0x202F || u == 0x205F || u == 0x3000
  }

  predicate AllSpace(s: string)
  {
    forall k :: 0 <= k < |s| ==> IsSpace(s[k])
  }

  function StripLeft(s: string): (r: string)
    ensures |r| <= |s| && r == s[|s| - |r|..]
    ensures forall k :: 0 <= k < |s| - |r| ==> IsSpace(s[k])
    ensures r != [] ==> !IsSpace(r[0])
  {
    if s != [] && IsSpace(s[0]) then
      var r := StripLeft(s[1..]);
      assert s[1..][|s| - 1 - |r|..] == s[|s| - |r|..];
      assert forall k :: 1 <= k < |s| ==> s[k] == s[1..][k - 1];
      r
    else s
  }

  function StripRight(s: string): (r: string)
    ensures |r| <= |s| && r == s[..|r|]
    ensures forall k :: |r| <= k < |s| ==> IsSpace(s[k])
    ensures r != [] ==> !IsSpace(r[|r| - 1])
  {
    if s != [] && IsSpace(s[|s| - 1]) then
      var r := StripRight(s[..|s| - 1]);
      assert s[..|s| - 1][..|r|] == s[..|r|];
      assert forall k :: 0 <= k < |s| - 1 ==> s[k] == s[..|s| - 1][k];
      r
    else s
  }

  /** `r` is `s[a..b]`, and `s` has only whitespace before `a` and from
      `b` on. */
  predicate Trims(s: string, a: int, b: int, r: string)
  {
    0 <= a <= b <= |s| && |r| == b - a &&
    (forall k :: 0 <= k < |r| ==> r[k] == s[a + k]) &&
    (forall k :: 0 <= k < a ==> IsSpace(s[k])) &&
    (forall k :: b <= k < |s| ==> IsSpace(s[k]))
  }

  /** `str.strip()`: the input without its leading and trailing whitespace. */
  function Strip(s: string): (r: string)
    ensures r != [] ==> !IsSpace(r[0]) && !IsSpace(r[|r| - 1])
  {
    StripRight(StripLeft(s))
  }

  /** What `Strip` keeps is a contiguous piece of the input with only
      whitespace before and after it: `str.strip()` removes nothing else. */
  lemma StripIsInfix(s: string)
    ensures exists a, b :: Trims(s, a, b, Strip(s))
  {
    var left := StripLeft(s);
    var r := StripRight(left);
    TrimsBothEnds(s, left, r);
    assert Strip(s) == r;
    assert Trims(s, |s| - |left|, |s| - |left| + |r|, Strip(s));
  }

  /** Dropping a whitespace prefix and then a whitespace suffix leaves an
      infix of `s` with whitespace around it. */
  lemma TrimsBothEnds(s: string, left: string, r: string)
    requires |left| <= |s| && left == s[|s| - |left|..]
    requires forall k :: 0 <= k < |s| - |left| ==> IsSpace(s[k])
    requires |r| <= |left| && r == left[..|r|]
    requires forall k :: |r| <= k < |left| ==> IsSpace(left[k])
    ensures Trims(s, |s| - |left|, |s| - |left| + |r|, r)
  {
    var a := |s| - |left|;
    forall k | 0 <= k < |r|
      ensures r[k] == s[a + k]
    {
      assert r[k] == left[k];
    }
    forall k | a + |r| <= k < |s|
      ensures IsSpace(s[k])
    {
      assert s[k] == left[k - a];
    }
  }

  const PresenterLine: string := "flavor=presenter/work"
  const PresentationLine: string := "flavor=presentation/work"
  const ErrorLine: string := "flavor=sync/error"

  /** The line printed for the file's contents `raw`. */
  function FlavorLine(raw: string): (line: string)
    ensures line == PresenterLine <==> Strip(raw) == "presenter"
    ensures line == PresentationLine <==> Strip(raw) == "presentation"
    ensures line == ErrorLine <==> Strip(raw) != "presenter" && Strip(raw) != "presentation"
  {
    var fixed := Strip(raw);
    if fixed == "presenter" then PresenterLine
    else if fixed == "presentation" then PresentationLine
    else ErrorLine
  }

  /** What the script writes: its line and one newline. */
  function Output(raw: string): (out: string)
    ensures |out| > 0 && out[..|out| - 1] == FlavorLine(raw) && out[|out| - 1] == '\n'
    ensures '\n' !in out[..|out| - 1]
  {
    var line := FlavorLine(raw);
    LinesAreSingle();
    assert (line + "\n")[..|line|] == line;
    line + "\n"
  }

  lemma LinesAreSingle()
    ensures '\n' !in PresenterLine && '\n' !in PresentationLine && '\n' !in ErrorLine
  {
    assert forall k :: 0 <= k < |PresentationLine| ==> PresentationLine[k] != '\n';
    assert forall k :: 0 <= k < |PresenterLine| ==> PresenterLine[k] != '\n';
    assert forall k :: 0 <= k < |ErrorLine| ==> ErrorLine[k] != '\n';
  }

  lemma {:induction false} StripLeftPadded(pre: string, s: string)
    requires AllSpace(pre)
    ensures StripLeft(pre + s) == StripLeft(s)
    decreases |pre|
  {
    if pre != [] {
      assert (pre + s)[1..] == pre[1..] + s;
      StripLeftPadded(pre[1..], s);
    } else {
      assert pre + s == s;
    }
  }

  lemma {:induction false} StripRightPadded(s: string, post: string)
    requires AllSpace(post)
    ensures StripRight(s + post) == StripRight(s)
    decreases |post|
  {
    if post != [] {
      assert (s + post)[..|s + post| - 1] == s + post[..|post| - 1];
      StripRightPadded(s, post[..|post| - 1]);
    } else {
      assert s + post == s;
    }
  }

  lemma {:induction false} StripLeftSuffix(s: string, post: string)
    requires AllSpace(post)
    ensures StripLeft(s + post) == StripLeft(s) + post || (StripLeft(s) == [] && AllSpace(StripLeft(s + post)))
    decreases |s|
  {
    if s == [] {
      assert s + post == post;
      AllSpaceStripLeft(post);
    } else if IsSpace(s[0]) {
      assert (s + post)[1..] == s[1..] + post;
      StripLeftSuffix(s[1..], post);
    }
  }

  lemma {:induction false} AllSpaceStripLeft(s: string)
    requires AllSpace(s)
    ensures StripLeft(s) == []
    decreases |s|
  {
    if s != [] {
      AllSpaceStripLeft(s[1..]);
    }
  }

  lemma {:induction false} AllSpaceStripRight(s: string)
    requires AllSpace(s)
    ensures StripRight(s) == []
    decreases |s|
  {
    if s != [] {
      AllSpaceStripRight(s[..|s| - 1]);
    }
  }

  lemma StripPadded(pre: string, s: string, post: string)
    requires AllSpace(pre) && AllSpace(post)
    ensures Strip(pre + s + post) == Strip(s)
  {
    assert pre + s + post == pre + (s + post);
    StripLeftPadded(pre, s + post);
    assert StripLeft(pre + s + post) == StripLeft(s + post);
    StripLeftSuffix(s, post);
    if StripLeft(s + post) == StripLeft(s) + post {
      StripRightPadded(StripLeft(s), post);
    } else {
      AllSpaceStripRight(StripLeft(s + post));
    }
  }

  /** Whitespace around the contents (spaces, tabs, the trailing newline of
      the file) never changes what is printed. */
  lemma PaddingIgnored(pre: string, s: string, post: string)
    requires AllSpace(pre) && AllSpace(post)
    ensures FlavorLine(pre + s + post) == FlavorLine(s)
  {
    StripPadded(pre, s, post);
  }
}
