/** Option, as the rest of the model uses it for "found / not found". */
module Wrappers {
  datatype Option<+T> = None | Some(value: T)
}

/** The few Python string operations the listener relies on. */
module Strings {

  /** The characters Python's `str.isspace` accepts below U+0100: these are
      what `str.strip()` with no argument removes. */
  predicate IsSpace(c: char) {
    var n := c as int;
    (9 <= n <= 13) || (28 <= n <= 32) || n == 0x85 || n == 0xA0
  }

  predicate StartsWith(s: string, prefix: string) {
    |prefix| <= |s| && s[..|prefix|] == prefix
  }

  predicate EndsWith(s: string, suffix: string) {
    |suffix| <= |s| && s[|s| - |suffix|..] == suffix
  }

  /** `s.lstrip()`: the longest suffix of `s` that does not start with a space. */
  function TrimStart(s: string): (r: string)
    ensures |r| <= |s| && r == s[|s| - |r|..]
    ensures forall k :: 0 <= k < |s| - |r| ==> IsSpace(s[k])
    ensures r == [] || !IsSpace(r[0])
    decreases |s|
  {
    if |s| > 0 && IsSpace(s[0]) then TrimStart(s[1..]) else s
  }

  /** `s.rstrip()`: the longest prefix of `s` that does not end with a space. */
  function TrimEnd(s: string): (r: string)
    ensures |r| <= |s| && r == s[..|r|]
    ensures forall k :: |r| <= k < |s| ==> IsSpace(s[k])
    ensures r == [] || !IsSpace(r[|r| - 1])
    decreases |s|
  {
    if |s| > 0 && IsSpace(s[|s| - 1]) then TrimEnd(s[..|s| - 1]) else s
  }

  /** `s.strip()`. It is empty exactly when every character of `s` is a space. */
  function Strip(s: string): (r: string)
    ensures r == [] <==> forall k :: 0 <= k < |s| ==> IsSpace(s[k])
    ensures r == [] || (!IsSpace(r[0]) && !IsSpace(r[|r| - 1]))
  {
    TrimEnd(TrimStart(s))
  }

  /** Stripping a word padded with spaces on either side gives back the word. */
  lemma StripPadded(pre: string, w: string, post: string)
    requires forall k :: 0 <= k < |pre| ==> IsSpace(pre[k])
    requires forall k :: 0 <= k < |post| ==> IsSpace(post[k])
    requires w != [] && !IsSpace(w[0]) && !IsSpace(w[|w| - 1])
    ensures Strip(pre + w + post) == w
  {
    assert pre + w + post == pre + (w + post);
    TrimStartPadded(pre, w + post);
    TrimEndPadded(w, post);
  }

  lemma TrimStartPadded(pre: string, rest: string)
    requires forall k :: 0 <= k < |pre| ==> IsSpace(pre[k])
    requires rest != [] && !IsSpace(rest[0])
    ensures TrimStart(pre + rest) == rest
  {
    var s := pre + rest;
    var t := TrimStart(s);
    assert s[|pre|] == rest[0];
    assert |s| - |t| == |pre|;
  }

  lemma TrimEndPadded(w: string, post: string)
    requires forall k :: 0 <= k < |post| ==> IsSpace(post[k])
    requires w != [] && !IsSpace(w[|w| - 1])
    ensures TrimEnd(w + post) == w
  {
    var t := w + post;
    var r := TrimEnd(t);
    assert t[|w| - 1] == w[|w| - 1];
    assert |r| == |w|;
    assert r == t[..|w|];
  }

  /** `s.replace(from, to)` for one-character `from` and `to`. */
  function Replace(s: string, from: char, to: char): (r: string)
    ensures |r| == |s|
    ensures forall i :: 0 <= i < |s| ==> r[i] == if s[i] == from then to else s[i]
  {
    if s == [] then [] else [if s[0] == from then to else s[0]] + Replace(s[1..], from, to)
  }

  /** After the rewrite no `from` is left (unless `from` is also the target). */
  lemma ReplaceRemovesAll(s: string, from: char, to: char)
    requires from != to
    ensures from !in Replace(s, from, to)
    ensures to in Replace(s, from, to) <==> from in s || to in s
  {
    var r := Replace(s, from, to);
    if to in s {
      var i :| 0 <= i < |s| && s[i] == to;
      assert r[i] == to;
    }
    if from in s {
      var i :| 0 <= i < |s| && s[i] == from;
      assert r[i] == to;
    }
  }

  /** When the target character did not occur, the rewrite can be undone. */
  lemma ReplaceUndone(s: string, from: char, to: char)
    requires to !in s
    ensures Replace(Replace(s, from, to), to, from) == s
  {
    var r := Replace(s, from, to);
    var u := Replace(r, to, from);
    forall i | 0 <= i < |s| ensures u[i] == s[i] {
      assert s[i] != to;
    }
  }
}
