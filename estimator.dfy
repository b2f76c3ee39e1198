/**
 * The preview pass (`calculate_preview`): walk every source folder once
 * and count directories, files and readable bytes, creating nothing.
 */
module Estimator {
  import opened Wrappers
  import opened Paths
  import opened Sources

  /** Every walked directory counts, each source root included; every file
      entry counts; a file whose size cannot be read adds no bytes. */
  method CalculatePreview(sourceFolders: seq<Source>) returns (totalFiles: nat, totalDirs: nat, totalBytes: nat)
    ensures totalFiles == SourcesFiles(sourceFolders)
    ensures totalDirs == SourcesDirs(sourceFolders)
    ensures totalBytes == SourcesBytes(sourceFolders)
  {
    totalFiles, totalDirs, totalBytes := 0, 0, 0;
    for k := 0 to |sourceFolders|
      invariant totalFiles == SourcesFiles(sourceFolders[..k])
      invariant totalDirs == SourcesDirs(sourceFolders[..k])
      invariant totalBytes == SourcesBytes(sourceFolders[..k])
    {
      var folder := sourceFolders[k];
      var visits := Walk(folder.tree, []);
      for j := 0 to |visits|
        invariant totalFiles == SourcesFiles(sourceFolders[..k]) + VisitsFiles(visits[..j])
        invariant totalDirs == SourcesDirs(sourceFolders[..k]) + j
        invariant totalBytes == SourcesBytes(sourceFolders[..k]) + VisitsBytes(visits[..j])
      {
        totalDirs := totalDirs + 1;
        var files := visits[j].files;
        for m := 0 to |files|
          invariant totalFiles == SourcesFiles(sourceFolders[..k]) + VisitsFiles(visits[..j]) + m
          invariant totalBytes == SourcesBytes(sourceFolders[..k]) + VisitsBytes(visits[..j]) + FilesBytes(files[..m])
        {
          totalFiles := totalFiles + 1;
          match GetSize(files[m]) {
            case Some(n) => totalBytes := totalBytes + n;
            case None =>
          }
          assert files[..m + 1][..m] == files[..m];
        }
        assert files[..|files|] == files;
        assert visits[..j + 1][..j] == visits[..j];
      }
      WalkCounts(folder.tree, []);
      assert visits[..|visits|] == visits;
      assert sourceFolders[..k + 1][..k] == sourceFolders[..k];
    }
    assert sourceFolders[..|sourceFolders|] == sourceFolders;
  }
}
