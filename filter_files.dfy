/** CFv2 tests cannot receive files from the host, so every filter file must be one that is
    packaged with the test: its path is rewritten to the package-relative copy under /pkg. */
module FilterFiles {
  import opened Wrappers
  import opened Text

  const FilterDir := "testing/buildbot/filters"
  const PackageRoot := "/pkg/"

  /** Rejects a filter file outside the registered filter directory; otherwise keeps the path
      from the first occurrence of that directory on, under /pkg/. */
  function MapFilterFileToPackageFile(filterFile: string): (r: Result<string, Error>)
    ensures r.Failure? <==> !Contains(filterFile, FilterDir)
    ensures r.Failure? ==> r.error == UnregisteredFilterFile
    ensures r.Success? ==>
      (exists k :: 0 <= k <= |filterFile|
        && OccursAt(filterFile, FilterDir, k)
        && (forall j :: 0 <= j < k ==> !OccursAt(filterFile, FilterDir, j))
        && r.value == PackageRoot + filterFile[k..])
  {
    match FindFirst(filterFile, FilterDir)
    case None => Failure(UnregisteredFilterFile)
    case Some(k) => Success(PackageRoot + filterFile[k..])
  }

  /** A rewritten path names the filter directory right after /pkg/ and keeps every character
      of the original from there on. */
  lemma RewrittenFilterFile(filterFile: string)
    requires Contains(filterFile, FilterDir)
    ensures var r := MapFilterFileToPackageFile(filterFile).value;
      StartsWith(r, PackageRoot + FilterDir)
      && r[|PackageRoot|..] == filterFile[|filterFile| - (|r| - |PackageRoot|)..]
      && (';' !in filterFile ==> ';' !in r)
  {
    var k := FindFirst(filterFile, FilterDir).value;
    var r := PackageRoot + filterFile[k..];
    assert filterFile[k..][..|FilterDir|] == FilterDir;
    assert r[..|PackageRoot| + |FilterDir|] == PackageRoot + FilterDir;
    assert r[|PackageRoot|..] == filterFile[k..];
    if ';' !in filterFile {
      assert ';' !in filterFile[k..];
      assert ';' !in PackageRoot;
    }
  }

  /** Maps every file in order; the first one outside the filter directory fails the lot. */
  function MapEach(filterFiles: seq<string>): (r: Result<seq<string>, Error>)
    ensures r.Success? <==> forall i :: 0 <= i < |filterFiles| ==> Contains(filterFiles[i], FilterDir)
    ensures r.Failure? ==> r.error == UnregisteredFilterFile
    ensures r.Success? ==>
      (|r.value| == |filterFiles|
        && forall i :: 0 <= i < |filterFiles| ==> r.value[i] == MapFilterFileToPackageFile(filterFiles[i]).value)
  {
    if filterFiles == [] then Success([])
    else
      match MapFilterFileToPackageFile(filterFiles[0])
      case Failure(e) => Failure(e)
      case Success(head) =>
        match MapEach(filterFiles[1..])
        case Failure(e) => Failure(e)
        case Success(tail) => Success([head] + tail)
  }

  /** The CFv2 branch: split the `;`-separated list, rewrite each entry, join with `;`. */
  function MapFilterFileList(filterFileList: string): Result<string, Error> {
    match MapEach(Split(filterFileList, ';'))
    case Failure(e) => Failure(e)
    case Success(mapped) => Success(Join(mapped, ';'))
  }

  /** The list is rejected exactly when one of its entries (an empty one included) lies outside
      the filter directory; otherwise splitting the result at `;` gives one rewritten entry per
      original entry, in order. */
  lemma MapFilterFileListEntries(filterFileList: string)
    ensures MapFilterFileList(filterFileList).Failure? <==>
      exists i :: 0 <= i < |Split(filterFileList, ';')| && !Contains(Split(filterFileList, ';')[i], FilterDir)
    ensures var entries := Split(filterFileList, ';');
      var r := MapFilterFileList(filterFileList);
      r.Success? ==>
        |Split(r.value, ';')| == |entries|
        && forall i :: 0 <= i < |entries| ==>
             Split(r.value, ';')[i] == MapFilterFileToPackageFile(entries[i]).value
  {
    var entries := Split(filterFileList, ';');
    var m := MapEach(entries);
    assert MapFilterFileList(filterFileList).Failure? <==> m.Failure?;
    if m.Failure? {
      var i :| 0 <= i < |entries| && !Contains(entries[i], FilterDir);
      assert MapFilterFileList(filterFileList).Failure?;
      assert exists i :: 0 <= i < |Split(filterFileList, ';')| && !Contains(Split(filterFileList, ';')[i], FilterDir);
    } else {
      assert forall i :: 0 <= i < |entries| ==> Contains(entries[i], FilterDir);
      forall i | 0 <= i < |m.value| ensures ';' !in m.value[i] {
        RewrittenFilterFile(entries[i]);
      }
      SplitJoin(m.value, ';');
    }
  }
}
