/** The generation command: the shell string the listener builds, the words
    `/bin/sh` splits it into, and the option/value pairs those words carry. */
module Command {
  import opened Wrappers
  import opened Strings

  const ContainerName := "musika-container"
  const Image := "plurdist/musika:latest"

  /** The characters `/bin/sh` splits fields on. */
  predicate IsBlank(c: char) {
    c == ' ' || c == '\t' || c == '\n'
  }

  /** Characters the shell gives no meaning to: letters, digits and `-_./:+,`. */
  predicate IsPlainChar(c: char) {
    ('a' <= c <= 'z') || ('A' <= c <= 'Z') || ('0' <= c <= '9')
    || c == '-' || c == '_' || c == '.' || c == '/' || c == ':' || c == '+' || c == ','
  }

  /** A word the shell passes on as it is: not empty and made of plain characters
      only (so no blank, quote, expansion, glob, redirection or command separator). */
  predicate IsPlainWord(w: string) {
    |w| > 0 && forall i :: 0 <= i < |w| ==> IsPlainChar(w[i])
  }

  /** Words joined by single spaces. */
  function JoinWords(ws: seq<string>): string {
    if ws == [] then ""
    else if |ws| == 1 then ws[0]
    else ws[0] + " " + JoinWords(ws[1..])
  }

  /** Length of the leading run of non-blank characters. */
  function WordEnd(s: string): (n: nat)
    ensures n <= |s|
    ensures forall i :: 0 <= i < n ==> !IsBlank(s[i])
    ensures n < |s| ==> IsBlank(s[n])
  {
    if s == [] || IsBlank(s[0]) then 0 else 1 + WordEnd(s[1..])
  }

  /** Field splitting of a command line made of plain words. */
  function SplitWords(s: string): seq<string>
    decreases |s|
  {
    if s == [] then []
    else if IsBlank(s[0]) then SplitWords(s[1..])
    else
      var n := WordEnd(s);
      [s[..n]] + SplitWords(s[n..])
  }

  /** The shell recovers every plain word of a space-joined command line. */
  lemma {:induction false} SplitJoin(ws: seq<string>)
    requires forall i :: 0 <= i < |ws| ==> IsPlainWord(ws[i])
    ensures SplitWords(JoinWords(ws)) == ws
  {
    if ws == [] {
    } else if |ws| == 1 {
      var w := ws[0];
      assert !IsBlank(w[0]);
      assert WordEnd(w) == |w|;
      assert w[..|w|] == w && w[|w|..] == [];
    } else {
      var w := ws[0];
      var rest := JoinWords(ws[1..]);
      var s := w + " " + rest;
      assert JoinWords(ws) == s;
      assert s[0] == w[0];
      var n := WordEnd(s);
      assert n == |w| by {
        assert s[|w|] == ' ';
        assert forall i :: 0 <= i < |w| ==> s[i] == w[i];
      }
      assert s[..n] == w;
      assert s[n..][0] == ' ' && s[n..][1..] == rest;
      SplitJoin(ws[1..]);
      assert SplitWords(s[n..]) == ws[1..];
      assert ws == [w] + ws[1..];
    }
  }

  /** The options the generator is meant to receive, in the order written. */
  function ExecOptions(loadPath: string, seconds: string, truncation: string): seq<(string, string)> {
    [("--load_path", loadPath), ("--num_samples", "1"), ("--seconds", seconds),
     ("--truncation", truncation), ("--save_path", "/output"), ("--mixed_precision", "False")]
  }

  /** Option/value pairs laid out as consecutive words. */
  function Flatten(opts: seq<(string, string)>): (ws: seq<string>)
    ensures |ws| == 2 * |opts|
  {
    if opts == [] then [] else [opts[0].0, opts[0].1] + Flatten(opts[1..])
  }

  predicate IsFlag(w: string) {
    |w| > 2 && w[0] == '-' && w[1] == '-'
  }

  /** Reads words as `--flag value` pairs; fails on a dangling word or a
      word in flag position that is not a flag. */
  function ParseOptions(ws: seq<string>): Option<seq<(string, string)>>
    decreases |ws|
  {
    if ws == [] then Some([])
    else if |ws| == 1 || !IsFlag(ws[0]) then None
    else match ParseOptions(ws[2..])
      case None => None
      case Some(rest) => Some([(ws[0], ws[1])] + rest)
  }

  lemma {:induction false} ParseFlatten(opts: seq<(string, string)>)
    requires forall i :: 0 <= i < |opts| ==> IsFlag(opts[i].0)
    ensures ParseOptions(Flatten(opts)) == Some(opts)
  {
    if opts != [] {
      var ws := Flatten(opts);
      assert ws[2..] == Flatten(opts[1..]);
      ParseFlatten(opts[1..]);
      assert opts == [opts[0]] + opts[1..];
    }
  }

  /** The fixed words in front of the model's load path:
      `docker exec musika-container python musika_generate.py --load_path`. */
  const ExecHead := ["docker", "exec", ContainerName, "python", "musika_generate.py", "--load_path"]

  /** The words of the command line, in the order the f-string of
      `generate_music` writes them:
      program, container, script, then the six options. */
  function ExecWords(loadPath: string, seconds: string, truncation: string): (ws: seq<string>)
    ensures |ws| == 17 && ws[..6] == ExecHead
    ensures ws[6] == loadPath && ws[10] == seconds && ws[12] == truncation
  {
    ["docker", "exec", ContainerName, "python", "musika_generate.py",
     "--load_path", loadPath, "--num_samples", "1", "--seconds", seconds,
     "--truncation", truncation, "--save_path", "/output", "--mixed_precision", "False"]
  }

  /** The command line `generate_music` hands to the shell: its f-string is
      exactly these words separated by single spaces. The two numbers enter
      as their `str()` texts. */
  function ExecCommand(loadPath: string, seconds: string, truncation: string): (s: string)
    ensures StartsWith(s, JoinWords(ExecHead) + " ")
  {
    var ws := ExecWords(loadPath, seconds, truncation);
    JoinWordsSplit(ws, 6);
    assert ws[..6] == ExecHead;
    JoinWords(ws)
  }

  /** A space-joined line is its first `k` words joined, a space, and the rest joined. */
  lemma {:induction false} JoinWordsSplit(ws: seq<string>, k: nat)
    requires 0 < k < |ws|
    ensures JoinWords(ws) == JoinWords(ws[..k]) + " " + JoinWords(ws[k..])
  {
    if k == 1 {
      assert ws[..1] == [ws[0]];
    } else {
      JoinWordsSplit(ws[1..], k - 1);
      assert ws[1..][..k - 1] == ws[..k][1..];
      assert ws[1..][k - 1..] == ws[k..];
    }
  }

  lemma ExecWordsPlain(loadPath: string, seconds: string, truncation: string)
    requires IsPlainWord(loadPath) && IsPlainWord(seconds) && IsPlainWord(truncation)
    ensures var ws := ExecWords(loadPath, seconds, truncation);
      forall i :: 0 <= i < |ws| ==> IsPlainWord(ws[i])
  {
  }

  lemma ExecWordsCarryOptions(loadPath: string, seconds: string, truncation: string)
    ensures ExecWords(loadPath, seconds, truncation)[5..] == Flatten(ExecOptions(loadPath, seconds, truncation))
  {
    var opts := ExecOptions(loadPath, seconds, truncation);
    var f := Flatten(opts[5..]);
    f := [opts[4].0, opts[4].1] + f;  assert f == Flatten(opts[4..]);
    f := [opts[3].0, opts[3].1] + f;  assert f == Flatten(opts[3..]);
    f := [opts[2].0, opts[2].1] + f;  assert f == Flatten(opts[2..]);
    f := [opts[1].0, opts[1].1] + f;  assert f == Flatten(opts[1..]);
    f := [opts[0].0, opts[0].1] + f;  assert f == Flatten(opts);
  }

  /** What the generator receives: with plain-word arguments, `/bin/sh` runs
      `docker exec` on the fixed container with `python musika_generate.py`,
      followed by exactly the six options of ExecOptions, in that order. */
  lemma ExecCommandOptions(loadPath: string, seconds: string, truncation: string)
    requires IsPlainWord(loadPath) && IsPlainWord(seconds) && IsPlainWord(truncation)
    ensures var ws := SplitWords(ExecCommand(loadPath, seconds, truncation));
      |ws| == 17
      && ws[..5] == ["docker", "exec", ContainerName, "python", "musika_generate.py"]
      && ParseOptions(ws[5..]) == Some(ExecOptions(loadPath, seconds, truncation))
  {
    var ws := ExecWords(loadPath, seconds, truncation);
    ExecWordsPlain(loadPath, seconds, truncation);
    SplitJoin(ws);
    ExecWordsCarryOptions(loadPath, seconds, truncation);
    ParseFlatten(ExecOptions(loadPath, seconds, truncation));
  }
}
