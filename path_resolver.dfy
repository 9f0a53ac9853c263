/** What the orchestration layer takes from Node.js and the file system. None
    of it is interpreted here: every call the layer makes into it becomes a
    field of a Host value. */
module Foreign {

  datatype Host = Host(
    /** `files.getCurrentDirectoryBase()`: the caller's working-directory base. */
    cwdBase: string,
    /** `path.relative(from, to)`, left uninterpreted. */
    relative: (string, string) -> string,
    /** The paths `require(p)` loads; `require` throws for any other path. */
    modules: set<string>,
    /** What `fs.readFileSync(p, 'utf8')` returns; it throws for any path
        not in the map. */
    textFiles: map<string, string>)
}

/** `get_relative_path` and the report destinations that `NewmanConfig`
    fixes in its constructor. */
module PathResolver {
  import opened JsText
  import opened Foreign

  const ReportersList: seq<string> := ["cli", "json", "html", "allure"]
  const AllureReportPath: string := "./reports/allure"
  const JsonReportPath: string := "./reports/json/"
  const HtmlReportPath: string := "./reports/html/"

  /** The string `get_relative_path` hands to `path.relative` as its target:
      when the reference starts with '.', its first TWO characters are dropped
      (one character is checked, two are stripped); otherwise the whole
      reference is kept. Either way the working-directory base is prepended. */
  function Target(host: Host, reference: string): string
  {
    if StartsWith(reference, ".") then host.cwdBase + Substring(reference, 2)
    else host.cwdBase + reference
  }

  /** `get_relative_path(reference)`, for a defined reference. */
  function GetRelativePath(currentPath: string, host: Host, reference: string): string
  {
    host.relative(currentPath, Target(host, reference))
  }

  /** The `./`-substitution rule: a leading "./" is replaced by the base, any
      other reference is appended to the base unchanged. */
  function PrefixRule(base: string, reference: string): string
  {
    if StartsWith(reference, "./") then base + reference[2..] else base + reference
  }

  /** `get_relative_path` follows the `./`-substitution rule exactly on the
      references that start with "./" or do not start with '.' at all; on
      every other reference starting with '.' ("../x", ".env", ".") it
      differs. */
  lemma TargetFollowsRuleIff(host: Host, reference: string)
    ensures Target(host, reference) == PrefixRule(host.cwdBase, reference)
        <==> (StartsWith(reference, "./") || !StartsWith(reference, "."))
  {
    var base := host.cwdBase;
    if StartsWith(reference, ".") && !StartsWith(reference, "./") {
      var t := Target(host, reference);
      assert |t| < |base + reference|;
    } else if StartsWith(reference, "./") {
      assert StartsWith(reference, ".") by { assert reference[..1] == reference[..2][..1]; }
    }
  }

  /** Whatever the second character is, a reference starting with '.' loses
      it together with the dot: "../shared/env.json" resolves from the base
      as "/shared/env.json". */
  lemma DotReferenceLosesTwoCharacters(host: Host, reference: string)
    requires |reference| >= 2 && reference[0] == '.'
    ensures Target(host, reference) == host.cwdBase + reference[2..]
  {
    assert reference[..1] == ".";
  }

  // ---------------------------------------------------------------------------
  // Report destinations

  /** The per-reporter export destinations of one engine configuration. */
  datatype Exports = Exports(html: string, allure: string, json: string)

  /** Export destinations for a run whose file name is taken from
      `fileNameSource.split("/")`: the last segment, between the configured
      directory and the format's extension; the structured report goes to one
      fixed directory. */
  function ExportsFor(fileNameSource: string): Exports
  {
    var name := LastSegment(fileNameSource);
    Exports(HtmlReportPath + name + ".html", AllureReportPath, JsonReportPath + name + ".json")
  }

  /** Each destination sits directly inside its directory: the html and json
      files are named after the basename of the source (a '/'-free suffix of
      it), with the format's extension, and the structured report directory
      is the same for every run. */
  lemma ExportsAreBasenamed(fileNameSource: string)
    ensures var e, name := ExportsFor(fileNameSource), LastSegment(fileNameSource);
      e.html == HtmlReportPath + name + ".html" &&
      e.json == JsonReportPath + name + ".json" &&
      e.allure == AllureReportPath &&
      '/' !in name && |name| <= |fileNameSource| &&
      fileNameSource[|fileNameSource| - |name|..] == name
  {
    LastSegmentIsBasename(fileNameSource);
  }

  /** A collection given as a bare file name (no '/') names its reports after
      itself. */
  lemma ExportsForPlainName(fileNameSource: string)
    requires '/' !in fileNameSource
    ensures ExportsFor(fileNameSource).html == HtmlReportPath + fileNameSource + ".html"
    ensures ExportsFor(fileNameSource).json == JsonReportPath + fileNameSource + ".json"
  {
    LastSegmentOfPlainName(fileNameSource);
  }

  /** `dir + a + ext == dir + b + ext` exactly when `a == b`. */
  lemma {:induction false} AffixCancel(dir: string, a: string, b: string, ext: string)
    ensures dir + a + ext == dir + b + ext <==> a == b
  {
    if dir + a + ext == dir + b + ext {
      var x := dir + a + ext;
      assert |a| == |b|;
      assert a == x[|dir|..|dir| + |a|];
      assert b == x[|dir|..|dir| + |b|];
    }
  }

  /** Two runs write the same html report, and the same json report, exactly
      when their file-name sources share a basename: distinct basenames never
      collide and equal ones always overwrite each other. */
  lemma ExportsCollideIff(source1: string, source2: string)
    ensures ExportsFor(source1).html == ExportsFor(source2).html
        <==> LastSegment(source1) == LastSegment(source2)
    ensures ExportsFor(source1).json == ExportsFor(source2).json
        <==> LastSegment(source1) == LastSegment(source2)
  {
    AffixCancel(HtmlReportPath, LastSegment(source1), LastSegment(source2), ".html");
    AffixCancel(JsonReportPath, LastSegment(source1), LastSegment(source2), ".json");
  }
}
