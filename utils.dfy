/** Report file layout and the platform name mapping of `cgt/util/utils.py`. */
module Utils {
  import opened Paths

  /** The three paths of a report: its directory, the HTML page and the results hash file. */
  datatype ReportFiles = ReportFiles(reportDir: Path, htmlFile: Path, hashFile: Path)

  /** `make_report_file_names`: the report directory sits directly inside the project
      directory, and both files sit directly inside the report directory. */
  function MakeReportFileNames(projFullPath: Path): (names: ReportFiles)
    ensures Parent(names.reportDir) == projFullPath && Name(names.reportDir) == "report"
    ensures names.reportDir.parts == projFullPath.parts + ["report"]
    ensures names.reportDir.absolute == projFullPath.absolute
    ensures Parent(names.htmlFile) == names.reportDir && Name(names.htmlFile) == "report.html"
    ensures Parent(names.hashFile) == names.reportDir && Name(names.hashFile) == "results_hash.json"
    ensures names.htmlFile != names.hashFile
  {
    ReportNamesArePlain();
    var reportDir := JoinPath(projFullPath, "report");
    JoinPlainName(projFullPath, "report");
    JoinPlainName(reportDir, "report.html");
    JoinPlainName(reportDir, "results_hash.json");
    ReportFiles(reportDir, JoinPath(reportDir, "report.html"), JoinPath(reportDir, "results_hash.json"))
  }

  lemma ReportNamesArePlain()
    ensures IsPlainName("report") && IsPlainName("report.html") && IsPlainName("results_hash.json")
  {
  }

  /** The operating-system name `find_hostname_and_ip` reports for a value of `sys.platform`. */
  function OsName(platform: string): (os: string)
    ensures os == "Linux" <==> platform == "linux" || platform == "linux2"
    ensures os == "Mac OSX" <==> platform == "darwin"
    ensures os == "Windows" <==> platform == "win32" || platform == "win64"
    ensures os == "undetermined" <==> platform !in {"linux", "linux2", "darwin", "win32", "win64"}
  {
    if platform == "linux" || platform == "linux2" then "Linux"
    else if platform == "darwin" then "Mac OSX"
    else if platform == "win32" then "Windows"
    else if platform == "win64" then "Windows"
    else "undetermined"
  }
}
