/** `get_latest_file`: the newest `.wav` file of the output directory. */
module OutputWatcher {
  import opened Wrappers
  import opened Strings
  import opened Paths

  /** One directory entry as `os.listdir` names it, with the modification time
      `os.path.getmtime` reports for it. */
  datatype Entry = Entry(name: string, mtime: int)

  predicate IsWav(e: Entry) {
    EndsWith(e.name, ".wav")
  }

  /** Index of the entry `max(files, key=mtime)` picks among the `.wav`
      entries, scanning in listing order and replacing the candidate only on a
      strictly later time: the newest `.wav` entry, the first one on ties. */
  function Newest(es: seq<Entry>): (r: Option<nat>)
    ensures r.None? <==> forall i :: 0 <= i < |es| ==> !IsWav(es[i])
    ensures r.Some? ==> r.value < |es| && IsWav(es[r.value])
    ensures r.Some? ==> forall j :: 0 <= j < |es| && IsWav(es[j]) ==> es[j].mtime <= es[r.value].mtime
    ensures r.Some? ==> forall j :: 0 <= j < r.value && IsWav(es[j]) ==> es[j].mtime < es[r.value].mtime
    decreases |es|
  {
    if es == [] then None
    else
      var last := |es| - 1;
      var best := Newest(es[..last]);
      if !IsWav(es[last]) then best
      else if best.None? || es[best.value].mtime < es[last].mtime then Some(last)
      else best
  }

  /** `get_latest_file(directory)` over a listing: nothing when no name ends in
      `.wav`, otherwise the directory joined with the newest `.wav` name. */
  function GetLatestFile(directory: string, listing: seq<Entry>): (r: Option<string>)
    ensures r.None? <==> forall i :: 0 <= i < |listing| ==> !IsWav(listing[i])
    ensures r.Some? ==> EndsWith(r.value, ".wav") && r.value != ""
  {
    match Newest(listing)
    case None => None
    case Some(i) =>
      var name := listing[i].name;
      var path := JoinPath(directory, name);
      assert path[|path| - |name|..] == name;
      assert path[|path| - 4..] == name[|name| - 4..];
      Some(path)
  }

  /** The file picked is the first `.wav` entry of greatest time and no other:
      any entry with that property is the one whose path is returned. */
  lemma LatestFileIsFirstNewest(directory: string, listing: seq<Entry>, k: nat)
    requires k < |listing| && IsWav(listing[k])
    requires forall j :: 0 <= j < |listing| && IsWav(listing[j]) ==> listing[j].mtime <= listing[k].mtime
    requires forall j :: 0 <= j < k && IsWav(listing[j]) ==> listing[j].mtime < listing[k].mtime
    ensures GetLatestFile(directory, listing) == Some(JoinPath(directory, listing[k].name))
  {
    var n := Newest(listing);
    assert n.Some?;
    var i := n.value;
    assert listing[i].mtime == listing[k].mtime;
  }
}
