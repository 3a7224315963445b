/** Path construction on the host side: `os.path.join` (POSIX flavour) and
    the output directory under the user's home. */
module Paths {
  import opened Strings

  /** `posixpath.join(a, b)`: an absolute `b` replaces `a`; otherwise `b` is
      appended, with a `/` in between unless `a` is empty or already ends in one. */
  function JoinPath(a: string, b: string): (r: string)
    ensures EndsWith(r, b)
    ensures !StartsWith(b, "/") ==> StartsWith(r, a)
    ensures !StartsWith(b, "/") ==> |r| == |a| + |b| + (if a == "" || EndsWith(a, "/") then 0 else 1)
    ensures !StartsWith(b, "/") && a != "" && !EndsWith(a, "/") ==> r[|a|] == '/'
    ensures StartsWith(b, "/") ==> r == b
  {
    if StartsWith(b, "/") then b
    else if a == "" || EndsWith(a, "/") then a + b
    else a + "/" + b
  }

  /** The folder the listener polls and mounts into the container as `/output`:
      `musika_outputs` under the home directory. */
  function OutputDir(home: string): (r: string)
    ensures EndsWith(r, "musika_outputs") && StartsWith(r, home)
    ensures home != "" && !EndsWith(home, "/") ==> r == home + "/musika_outputs"
    ensures home == "" || EndsWith(home, "/") ==> r == home + "musika_outputs"
  {
    assert "musika_outputs"[0] != '/';
    JoinPath(home, "musika_outputs")
  }
}
