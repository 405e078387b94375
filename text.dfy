/** The pieces of Go's standard library that the command's line and string
    handling relies on: `unicode.IsSpace`, `strings.TrimSpace`, `strings.Join`,
    `strings.Replace(s, "*", "", -1)`, `strings.HasPrefix`, `strings.TrimPrefix`
    and the line splitting of `bufio.ScanLines`. Strings are sequences of
    Unicode scalar values. */
module Text {

  /** Go's `unicode.IsSpace`: the Latin-1 spaces and the rest of Unicode's
      White_Space property. */
  predicate IsSpace(c: char) {
    || c == ' '
    || ('\t' <= c <= '\r')
    || c == '\U{85}' || c == '\U{A0}' || c == '\U{1680}'
    || ('\U{2000}' <= c <= '\U{200A}')
    || c == '\U{2028}' || c == '\U{2029}' || c == '\U{202F}' || c == '\U{205F}'
    || c == '\U{3000}'
  }

  predicate AllSpace(s: string) {
    forall k :: 0 <= k < |s| ==> IsSpace(s[k])
  }

  /** `s` with its leading white space removed: the longest suffix of `s`
      that does not start with a space. */
  function TrimLeft(s: string): (r: string)
    ensures |r| <= |s|
    ensures r == [] || !IsSpace(r[0])
    decreases |s|
  {
    if s != [] && IsSpace(s[0]) then TrimLeft(s[1..]) else s
  }

  /** `TrimLeft` keeps a suffix and removes white space only. */
  lemma {:induction false} TrimLeftRemovesSpace(s: string)
    ensures TrimLeft(s) == s[|s| - |TrimLeft(s)|..]
    ensures AllSpace(s[..|s| - |TrimLeft(s)|])
    decreases |s|
  {
    if s != [] && IsSpace(s[0]) {
      TrimLeftRemovesSpace(s[1..]);
      assert s[1..][|s| - 1 - |TrimLeft(s)|..] == s[|s| - |TrimLeft(s)|..];
      var n := |s| - |TrimLeft(s)|;
      assert s[..n] == [s[0]] + s[1..][..n - 1];
    }
  }

  /** `s` with its trailing white space removed: the longest prefix of `s`
      that does not end with a space. */
  function TrimRight(s: string): (r: string)
    ensures |r| <= |s|
    ensures r == [] || !IsSpace(r[|r| - 1])
    decreases |s|
  {
    if s != [] && IsSpace(s[|s| - 1]) then TrimRight(s[..|s| - 1]) else s
  }

  /** `TrimRight` keeps a prefix and removes white space only. */
  lemma {:induction false} TrimRightRemovesSpace(s: string)
    ensures TrimRight(s) == s[..|TrimRight(s)|]
    ensures AllSpace(s[|TrimRight(s)|..])
    decreases |s|
  {
    if s != [] && IsSpace(s[|s| - 1]) {
      TrimRightRemovesSpace(s[..|s| - 1]);
      var n := |TrimRight(s)|;
      assert s[n..] == s[..|s| - 1][n..] + [s[|s| - 1]];
    }
  }

  /** Go's `strings.TrimSpace`. */
  function TrimSpace(s: string): (r: string)
    ensures IsTrimmed(r)
  {
    var l := TrimLeft(s);
    TrimRightRemovesSpace(l);
    TrimRight(l)
  }

  /** A string already free of surrounding white space. */
  predicate IsTrimmed(s: string) {
    s == [] || (!IsSpace(s[0]) && !IsSpace(s[|s| - 1]))
  }

  lemma {:induction false} TrimLeftSkipsSpaces(pre: string, s: string)
    requires AllSpace(pre)
    ensures TrimLeft(pre + s) == TrimLeft(s)
    decreases |pre|
  {
    if pre != [] {
      assert (pre + s)[1..] == pre[1..] + s;
      TrimLeftSkipsSpaces(pre[1..], s);
    } else {
      assert pre + s == s;
    }
  }

  lemma {:induction false} TrimRightSkipsSpaces(s: string, post: string)
    requires AllSpace(post)
    ensures TrimRight(s + post) == TrimRight(s)
    decreases |post|
  {
    if post != [] {
      var n := |post|;
      assert (s + post)[..|s + post| - 1] == s + post[..n - 1];
      TrimRightSkipsSpaces(s, post[..n - 1]);
    } else {
      assert s + post == s;
    }
  }

  /** The reference definition of trimming: surrounding a trimmed core with
      white space on either side and trimming gives the core back. */
  lemma TrimSpaceOfPadded(pre: string, core: string, post: string)
    requires AllSpace(pre) && AllSpace(post) && IsTrimmed(core)
    ensures TrimSpace(pre + core + post) == core
  {
    assert pre + core + post == pre + (core + post);
    TrimLeftSkipsSpaces(pre, core + post);
    if core == [] {
      assert core + post == post;
      TrimLeftSkipsSpaces(post, []);
      assert post + [] == post;
    } else {
      assert TrimLeft(core + post) == core + post;
    }
    TrimRightSkipsSpaces(core, post);
  }

  /** Trimming twice is trimming once. */
  lemma TrimSpaceIdempotent(s: string)
    ensures TrimSpace(TrimSpace(s)) == TrimSpace(s)
  {
    var t := TrimSpace(s);
    assert t == [] + t + [];
    TrimSpaceOfPadded([], t, []);
  }

  /** Go's `strings.Join`: the parts with `sep` between neighbours. */
  function Join(parts: seq<string>, sep: string): (r: string)
    decreases |parts|
  {
    if |parts| == 0 then ""
    else if |parts| == 1 then parts[0]
    else parts[0] + sep + Join(parts[1..], sep)
  }

  /** Joining builds the text left to right: one more part adds the
      separator and that part at the end. */
  lemma {:induction false} JoinAppend(parts: seq<string>, x: string, sep: string)
    requires |parts| > 0
    ensures Join(parts + [x], sep) == Join(parts, sep) + sep + x
    decreases |parts|
  {
    if |parts| > 1 {
      assert (parts + [x])[1..] == parts[1..] + [x];
      JoinAppend(parts[1..], x, sep);
    } else {
      assert parts + [x] == [parts[0], x];
      assert [parts[0], x][1..] == [x];
    }
  }

  function TotalLength(parts: seq<string>): nat
    decreases |parts|
  {
    if parts == [] then 0 else |parts[0]| + TotalLength(parts[1..])
  }

  /** The joined text holds every character of every part and one separator
      between each pair of neighbours, nothing else. */
  lemma {:induction false} JoinLength(parts: seq<string>, sep: string)
    requires |parts| > 0
    ensures |Join(parts, sep)| == TotalLength(parts) + (|parts| - 1) * |sep|
    decreases |parts|
  {
    if |parts| > 1 {
      JoinLength(parts[1..], sep);
      assert (|parts| - 1) * |sep| == (|parts| - 2) * |sep| + |sep|;
    } else {
      assert parts[1..] == [];
    }
  }

  /** Go's `strings.Replace(s, "*", "", -1)`: every `'*'` deleted. */
  function StripStars(s: string): (r: string)
    ensures '*' !in r
    ensures |r| <= |s|
    decreases |s|
  {
    if s == [] then ""
    else (if s[0] == '*' then "" else [s[0]]) + StripStars(s[1..])
  }

  /** Deleting works piece by piece, so the characters that stay keep
      their order. */
  lemma {:induction false} StripStarsAppend(a: string, b: string)
    ensures StripStars(a + b) == StripStars(a) + StripStars(b)
    decreases |a|
  {
    if a != [] {
      assert (a + b)[1..] == a[1..] + b;
      StripStarsAppend(a[1..], b);
    } else {
      assert a + b == b;
    }
  }

  /** A text without `'*'` is left as it is. */
  lemma {:induction false} StripStarsKeepsStarFree(s: string)
    requires '*' !in s
    ensures StripStars(s) == s
    decreases |s|
  {
    if s != [] {
      assert s[0] != '*';
      assert '*' !in s[1..];
      StripStarsKeepsStarFree(s[1..]);
    }
  }

  lemma StripStarsIdempotent(s: string)
    ensures StripStars(StripStars(s)) == StripStars(s)
  {
    StripStarsKeepsStarFree(StripStars(s));
  }

  /** Exactly the stars go: every other character stays, as often as it
      occurred. */
  lemma {:induction false} StripStarsCounts(s: string)
    ensures multiset(StripStars(s)) == multiset(s)['*' := 0]
    decreases |s|
  {
    if s != [] {
      StripStarsCounts(s[1..]);
      assert s == [s[0]] + s[1..];
      assert multiset(s) == multiset([s[0]]) + multiset(s[1..]);
    }
  }

  /** Emphasis markers around a star-free text are dropped. */
  lemma StripStarsEmphasis(s: string)
    requires '*' !in s
    ensures StripStars("*" + s + "*") == s
  {
    StripStarsAppend("*" + s, "*");
    StripStarsAppend("*", s);
    StripStarsKeepsStarFree(s);
    assert StripStars("*") == "";
    assert "" + s + "" == s;
  }

  predicate HasPrefix(s: string, prefix: string) {
    |prefix| <= |s| && s[..|prefix|] == prefix
  }

  /** Go's `strings.TrimPrefix`. */
  function TrimPrefix(s: string, prefix: string): (r: string)
    ensures HasPrefix(s, prefix) ==> prefix + r == s
    ensures !HasPrefix(s, prefix) ==> r == s
  {
    if HasPrefix(s, prefix) then s[|prefix|..] else s
  }

  /** The position of the first `c` in `s`. */
  function IndexOf(s: string, c: char): (i: nat)
    requires c in s
    ensures i < |s| && s[i] == c && c !in s[..i]
    decreases |s|
  {
    if s[0] == c then 0
    else
      var i := IndexOf(s[1..], c);
      assert s[..i + 1] == [s[0]] + s[1..][..i];
      i + 1
  }

  /** One trailing carriage return dropped, as `bufio.ScanLines` does. */
  function DropCR(s: string): string {
    if |s| > 0 && s[|s| - 1] == '\r' then s[..|s| - 1] else s
  }

  /** The lines `bufio.Scanner` yields with `bufio.ScanLines`: the text cut
      at each `'\n'`, one trailing `'\r'` dropped from each line, and a last
      line without `'\n'` kept when it is not empty. */
  function SplitLines(data: string): (lines: seq<string>)
    ensures forall k :: 0 <= k < |lines| ==> '\n' !in lines[k]
    decreases |data|
  {
    if data == [] then []
    else if '\n' in data then
      var i := IndexOf(data, '\n');
      [DropCR(data[..i])] + SplitLines(data[i + 1..])
    else [DropCR(data)]
  }

  /** A line terminated by `'\n'` is read back as that line (less a
      trailing `'\r'`), and reading goes on after it. */
  lemma SplitLinesFirst(line: string, rest: string)
    requires '\n' !in line
    ensures SplitLines(line + "\n" + rest) == [DropCR(line)] + SplitLines(rest)
  {
    var data := line + "\n" + rest;
    assert data[|line|] == '\n';
    assert data[..|line|] == line;
    var i := IndexOf(data, '\n');
    assert i <= |line|;
    assert data[..i] == line;
    assert data[i + 1..] == rest;
  }
}
