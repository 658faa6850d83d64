/**
 * index_generator.py: which files of a walked tree are indexed, in which of
 * the three categories, with which one-line description, and the markdown
 * document that lists them.
 *
 * The walk itself (`rglob` keeping regular files, made relative to the root)
 * is the input `walk`; reading a file is the input `read`, a map from a
 * relative path to its lines, where a missing path is a file that could not
 * be read or decoded.
 */
module IndexGenerator {
  import opened Wrappers
  import opened Text
  import opened Order
  import opened Paths
  import opened Seqs

  // ---------------------------------------------------------------- should_ignore

  /** The fixed deny-list of `should_ignore`. */
  const DefaultIgnores: seq<string> :=
    [".git", "__pycache__", ".pytest_cache", "venv", "env",
     ".vscode", ".idea", "node_modules", ".DS_Store", "index.md"]

  /** A component that is denied by `patterns` or hidden. */
  predicate IgnoredPart(part: string, patterns: seq<string>)
  {
    part in patterns || StartsWith(part, ".")
  }

  /** `should_ignore(path, extra)`: checks the components one by one and stops at the first denied one. */
  function ShouldIgnore(p: Path, extra: seq<string>): (r: bool)
    ensures r <==> exists i :: 0 <= i < |p| && IgnoredPart(p[i], DefaultIgnores + extra)
  {
    if |p| == 0 then false
    else if IgnoredPart(p[0], DefaultIgnores + extra) then true
    else
      var rest := ShouldIgnore(p[1..], extra);
      assert forall i :: 0 <= i < |p| - 1 ==> p[1..][i] == p[i + 1];
      rest
  }

  /** A path with an `index.md` component, or with a hidden component, is ignored whatever the extra patterns. */
  lemma IgnoresIndexAndHidden(p: Path, extra: seq<string>, i: int)
    requires 0 <= i < |p|
    requires p[i] == "index.md" || (|p[i]| > 0 && p[i][0] == '.')
    ensures ShouldIgnore(p, extra)
  {
    assert IgnoredPart(p[i], DefaultIgnores + extra);
  }

  /** A path with no denied and no hidden component is kept. */
  lemma KeepsPlainPaths(p: Path, extra: seq<string>)
    requires forall i :: 0 <= i < |p| ==> p[i] !in DefaultIgnores + extra && (|p[i]| == 0 || p[i][0] != '.')
    ensures !ShouldIgnore(p, extra)
  {
  }

  /** More ignore patterns never un-ignore a path. */
  lemma ShouldIgnoreMonotone(p: Path, extra: seq<string>, more: seq<string>)
    requires forall x :: x in extra ==> x in more
    ensures ShouldIgnore(p, extra) ==> ShouldIgnore(p, more)
  {
    if ShouldIgnore(p, extra) {
      var i :| 0 <= i < |p| && IgnoredPart(p[i], DefaultIgnores + extra);
      assert IgnoredPart(p[i], DefaultIgnores + more);
    }
  }

  // ---------------------------------------------------------------- scan_directory

  datatype Category = PythonScript | Markdown | Config

  /** The suffixes `scan_directory` files as configuration and text files. */
  const ConfigSuffixes: seq<string> := [".txt", ".json", ".yaml", ".yml", ".toml", ".cfg", ".ini"]

  /** The bucket `scan_directory` puts a walked file in, or None when it skips or drops it. */
  function Bucket(p: Path): (r: Option<Category>)
    ensures r == Some(PythonScript) <==> !ShouldIgnore(p, []) && Suffix(Name(p)) == ".py"
    ensures r == Some(Markdown) <==> !ShouldIgnore(p, []) && Suffix(Name(p)) == ".md"
    ensures r == Some(Config) <==> !ShouldIgnore(p, []) && Suffix(Name(p)) in ConfigSuffixes
  {
    if ShouldIgnore(p, []) then None
    else
      var suffix := Suffix(Name(p));
      if suffix == ".py" then Some(PythonScript)
      else if suffix == ".md" then Some(Markdown)
      else if suffix in ConfigSuffixes then Some(Config)
      else None
  }

  /** Exactly the kept files whose suffix is `.py`, `.md` or a configuration suffix get a bucket. */
  lemma DroppedIffIgnoredOrOtherSuffix(p: Path)
    ensures Bucket(p).None? <==> ShouldIgnore(p, []) || Suffix(Name(p)) !in [".py", ".md"] + ConfigSuffixes
  {
  }

  /** The files of `walk` that go to bucket `c`, in walk order: the list before it is sorted. */
  function Kept(walk: seq<Path>, c: Category): (r: seq<Path>)
    ensures |r| <= |walk|
  {
    if walk == [] then []
    else
      var last := walk[|walk| - 1];
      Kept(walk[..|walk| - 1], c) + (if Bucket(last) == Some(c) then [last] else [])
  }

  /** Bucket `c` holds each file `Bucket` sends to `c` as often as the walk yields it, and nothing else. */
  lemma {:induction false} KeptCounts(walk: seq<Path>, c: Category, p: Path)
    ensures multiset(Kept(walk, c))[p] == if Bucket(p) == Some(c) then multiset(walk)[p] else 0
  {
    if walk != [] {
      var init, last := walk[..|walk| - 1], walk[|walk| - 1];
      assert walk == init + [last];
      assert multiset(walk) == multiset(init) + multiset{last};
      var added := if Bucket(last) == Some(c) then [last] else [];
      assert multiset(Kept(walk, c)) == multiset(Kept(init, c)) + multiset(added);
      KeptCounts(init, c, p);
    }
  }

  /** The dictionary `scan_directory` returns, one field per key. */
  datatype Buckets = Buckets(pythonScripts: seq<Path>, markdownFiles: seq<Path>, otherFiles: seq<Path>)

  /** `list.sort()` on a list of paths. */
  function SortPaths(s: seq<Path>): seq<Path>
  {
    SortBy(s, PathLt)
  }

  /** What `scan_directory` returns for a walk: each bucket's files, sorted. */
  function ScanResult(walk: seq<Path>): Buckets
  {
    Buckets(SortPaths(Kept(walk, PythonScript)), SortPaths(Kept(walk, Markdown)), SortPaths(Kept(walk, Config)))
  }

  lemma KeptStep(walk: seq<Path>, i: nat)
    requires i < |walk|
    ensures forall c :: Kept(walk[..i + 1], c) == Kept(walk[..i], c) + (if Bucket(walk[i]) == Some(c) then [walk[i]] else [])
  {
    assert walk[..i + 1][..i] == walk[..i];
  }

  /** `scan_directory`: one pass appending to the three lists, then each list sorted. */
  method ScanDirectory(walk: seq<Path>) returns (b: Buckets)
    ensures b == ScanResult(walk)
  {
    var pythonScripts, markdownFiles, otherFiles := [], [], [];
    var i := 0;
    while i < |walk|
      invariant 0 <= i <= |walk|
      invariant pythonScripts == Kept(walk[..i], PythonScript)
      invariant markdownFiles == Kept(walk[..i], Markdown)
      invariant otherFiles == Kept(walk[..i], Config)
    {
      var item := walk[i];
      KeptStep(walk, i);
      i := i + 1;
      if ShouldIgnore(item, []) {
        continue;
      }
      var suffix := Suffix(Name(item));
      if suffix == ".py" {
        pythonScripts := pythonScripts + [item];
      } else if suffix == ".md" {
        markdownFiles := markdownFiles + [item];
      } else {
        if suffix in ConfigSuffixes {
          otherFiles := otherFiles + [item];
        }
      }
    }
    assert walk[..i] == walk;
    b := Buckets(SortPaths(pythonScripts), SortPaths(markdownFiles), SortPaths(otherFiles));
  }

  /**
   * Each walked file lands in the bucket `Bucket` selects for it, as often as
   * the walk yields it, and in no other; a file `Bucket` skips lands nowhere.
   */
  lemma ScanPlacesEachFileOnce(walk: seq<Path>, p: Path)
    ensures var b := ScanResult(walk);
      && multiset(b.pythonScripts)[p] == (if Bucket(p) == Some(PythonScript) then multiset(walk)[p] else 0)
      && multiset(b.markdownFiles)[p] == (if Bucket(p) == Some(Markdown) then multiset(walk)[p] else 0)
      && multiset(b.otherFiles)[p] == (if Bucket(p) == Some(Config) then multiset(walk)[p] else 0)
      && multiset(b.pythonScripts)[p] + multiset(b.markdownFiles)[p] + multiset(b.otherFiles)[p]
         == (if Bucket(p).Some? then multiset(walk)[p] else 0)
  {
    var b := ScanResult(walk);
    KeptCounts(walk, PythonScript, p);
    KeptCounts(walk, Markdown, p);
    KeptCounts(walk, Config, p);
    SortByPermutes(Kept(walk, PythonScript), PathLt);
    SortByPermutes(Kept(walk, Markdown), PathLt);
    SortByPermutes(Kept(walk, Config), PathLt);
    assert multiset(b.pythonScripts)[p] == multiset(Kept(walk, PythonScript))[p];
    assert multiset(b.markdownFiles)[p] == multiset(Kept(walk, Markdown))[p];
    assert multiset(b.otherFiles)[p] == multiset(Kept(walk, Config))[p];
  }

  /** Every bucket is in ascending path order. */
  lemma ScanBucketsSorted(walk: seq<Path>)
    ensures var b := ScanResult(walk);
      && (forall i, j :: 0 <= i < j < |b.pythonScripts| ==> PathLt(b.pythonScripts[i], b.pythonScripts[j]) || b.pythonScripts[i] == b.pythonScripts[j])
      && (forall i, j :: 0 <= i < j < |b.markdownFiles| ==> PathLt(b.markdownFiles[i], b.markdownFiles[j]) || b.markdownFiles[i] == b.markdownFiles[j])
      && (forall i, j :: 0 <= i < j < |b.otherFiles| ==> PathLt(b.otherFiles[i], b.otherFiles[j]) || b.otherFiles[i] == b.otherFiles[j])
  {
    PathLtIsStrictTotal();
    SortByNoInversions(Kept(walk, PythonScript), PathLt);
    SortByNoInversions(Kept(walk, Markdown), PathLt);
    SortByNoInversions(Kept(walk, Config), PathLt);
  }

  // ---------------------------------------------------------------- get_file_description

  /** A line, once stripped, that holds a docstring delimiter. */
  predicate HasDelimiter(stripped: string)
  {
    Contains(stripped, "\"\"\"") || Contains(stripped, "'''")
  }

  /** The text of an opening delimiter line: `stripped.strip('\"\"\"').strip("'''").strip()`. */
  function InlineText(stripped: string): string
  {
    Strip(StripChar(StripChar(stripped, '"'), '\''))
  }

  /**
   * The scan of `get_file_description` from some line on, with the
   * `in_docstring` flag as it stands before that line.
   */
  function DocstringScan(lines: seq<string>, inDocstring: bool): (r: string)
    ensures Trimmed(r)
  {
    if lines == [] then ""
    else
      var stripped := Strip(lines[0]);
      if HasDelimiter(stripped) then
        if !inDocstring then
          var content := InlineText(stripped);
          if content != "" then content else DocstringScan(lines[1..], true)
        else ""
      else if inDocstring && stripped != "" then stripped
      else DocstringScan(lines[1..], inDocstring)
  }

  /**
   * `get_file_description`: the scan for a `.py` file whose lines could be
   * read, and "" for any other file or a failed read.
   */
  function Description(p: Path, file: Option<seq<string>>): (r: string)
    ensures Suffix(Name(p)) != ".py" ==> r == ""
    ensures file.None? ==> r == ""
    ensures Trimmed(r)
  {
    if Suffix(Name(p)) == ".py" && file.Some? then DocstringScan(file.value, false) else ""
  }

  /** `get_file_description` as the source runs it: one pass with a flag, an early return and a `break`. */
  method GetFileDescription(p: Path, file: Option<seq<string>>) returns (d: string)
    ensures d == Description(p, file)
  {
    if Suffix(Name(p)) != ".py" || file.None? {
      return "";
    }
    var lines := file.value;
    var inDocstring := false;
    var i := 0;
    while i < |lines|
      invariant 0 <= i <= |lines|
      invariant DocstringScan(lines, false) == DocstringScan(lines[i..], inDocstring)
    {
      assert lines[i..][1..] == lines[i + 1..];
      var stripped := Strip(lines[i]);
      if HasDelimiter(stripped) {
        if !inDocstring {
          inDocstring := true;
          var content := InlineText(stripped);
          if content != "" {
            return content;
          }
        } else {
          break;
        }
      } else if inDocstring {
        if stripped != "" {
          return stripped;
        }
      }
      i := i + 1;
    }
    d := "";
  }

  /** A description is never made up: it is the stripped text, or the inline text, of one of the lines. */
  lemma {:induction false} DescriptionFromALine(lines: seq<string>, inDocstring: bool)
    ensures var r := DocstringScan(lines, inDocstring);
      r == "" || exists k :: 0 <= k < |lines| && (r == Strip(lines[k]) || r == InlineText(Strip(lines[k])))
  {
    var r := DocstringScan(lines, inDocstring);
    if lines != [] && r != "" && r != Strip(lines[0]) && r != InlineText(Strip(lines[0])) {
      var stripped := Strip(lines[0]);
      var rest := lines[1..];
      var flag := if HasDelimiter(stripped) then true else inDocstring;
      assert r == DocstringScan(rest, flag);
      DescriptionFromALine(rest, flag);
      var k :| 0 <= k < |rest| && (r == Strip(rest[k]) || r == InlineText(Strip(rest[k])));
      assert rest[k] == lines[k + 1];
    }
  }

  /** Lines before the first delimiter line do not change the scan. */
  lemma {:induction false} ScanSkipsToDelimiter(lines: seq<string>, i: nat)
    requires i <= |lines|
    requires forall k :: 0 <= k < i ==> !HasDelimiter(Strip(lines[k]))
    ensures DocstringScan(lines, false) == DocstringScan(lines[i..], false)
  {
    if i > 0 {
      assert lines[1..][i - 1..] == lines[i..];
      ScanSkipsToDelimiter(lines[1..], i - 1);
    }
  }

  /** Inside the docstring, blank lines do not change the scan. */
  lemma {:induction false} ScanSkipsBlankLines(lines: seq<string>, i: nat)
    requires i <= |lines|
    requires forall k :: 0 <= k < i ==> Strip(lines[k]) == ""
    ensures DocstringScan(lines, true) == DocstringScan(lines[i..], true)
  {
    if i > 0 {
      assert !HasDelimiter(Strip(lines[0]));
      assert lines[1..][i - 1..] == lines[i..];
      ScanSkipsBlankLines(lines[1..], i - 1);
    }
  }

  /** Without any delimiter line there is no description. */
  lemma NoDelimiterNoDescription(lines: seq<string>)
    requires forall k :: 0 <= k < |lines| ==> !HasDelimiter(Strip(lines[k]))
    ensures DocstringScan(lines, false) == ""
  {
    ScanSkipsToDelimiter(lines, |lines|);
  }

  /** The first delimiter line, when its own text is empty, opens the docstring for the lines after it. */
  lemma {:induction false} ScanOpensAtFirstDelimiter(lines: seq<string>, i: nat)
    requires i < |lines| && HasDelimiter(Strip(lines[i]))
    requires forall k :: 0 <= k < i ==> !HasDelimiter(Strip(lines[k]))
    ensures InlineText(Strip(lines[i])) != "" ==> DocstringScan(lines, false) == InlineText(Strip(lines[i]))
    ensures InlineText(Strip(lines[i])) == "" ==> DocstringScan(lines, false) == DocstringScan(lines[i + 1..], true)
  {
    ScanSkipsToDelimiter(lines, i);
    assert lines[i..][0] == lines[i];
    assert lines[i..][1..] == lines[i + 1..];
  }

  /**
   * The description is decided by the first delimiter line: its own text
   * when that is not empty, otherwise the first non-blank line after it,
   * unless that line is itself a delimiter line.
   */
  lemma {:induction false} DescriptionFromFirstDelimiter(lines: seq<string>, i: nat, j: nat)
    requires i < j < |lines| && HasDelimiter(Strip(lines[i]))
    requires forall k :: 0 <= k < i ==> !HasDelimiter(Strip(lines[k]))
    requires InlineText(Strip(lines[i])) == ""
    requires Strip(lines[j]) != "" && forall k :: i < k < j ==> Strip(lines[k]) == ""
    ensures DocstringScan(lines, false) == if HasDelimiter(Strip(lines[j])) then "" else Strip(lines[j])
  {
    ScanOpensAtFirstDelimiter(lines, i);
    var rest := lines[i + 1..];
    assert forall k :: 0 <= k < j - i - 1 ==> rest[k] == lines[i + 1 + k];
    ScanSkipsBlankLines(rest, j - i - 1);
    var tail := rest[j - i - 1..];
    assert tail[0] == lines[j];
  }

  /** An opening delimiter line with no text and only blank lines after it give no description. */
  lemma {:induction false} EmptyDocstringNoDescription(lines: seq<string>, i: nat)
    requires i < |lines| && HasDelimiter(Strip(lines[i]))
    requires forall k :: 0 <= k < i ==> !HasDelimiter(Strip(lines[k]))
    requires InlineText(Strip(lines[i])) == ""
    requires forall k :: i < k < |lines| ==> Strip(lines[k]) == ""
    ensures DocstringScan(lines, false) == ""
  {
    ScanOpensAtFirstDelimiter(lines, i);
    var rest := lines[i + 1..];
    assert forall k :: 0 <= k < |rest| ==> rest[k] == lines[i + 1 + k];
    ScanSkipsBlankLines(rest, |rest|);
  }

  // ---------------------------------------------------------------- generate_index

  const ScriptsTitle := "## Python Scripts"
  const DocsTitle := "## Documentation"
  const ConfigTitle := "## Configuration Files"

  /** The lines before the first section; `generatedOn` is the formatted time of the run. */
  function Preamble(generatedOn: string): seq<string>
  {
    ["# Utility Tools Index", "", "*Generated on: " + generatedOn + "*", "",
     "This index provides easy navigation to all utility tools in this repository.", ""]
  }

  /** The fixed closing lines. */
  const Usage: seq<string> :=
    ["---", "", "## How to Use", "",
     "Each tool in this repository is designed to be self-contained and easy to use.",
     "Check individual tool documentation for specific usage instructions.", "",
     "### Regenerating This Index", "", "To regenerate this index after adding new tools:", "",
     "```bash", "python index_generator.py", "```", ""]

  /** One list line: a link to the file, followed by ` - description` when there is one. */
  function EntryLine(p: Path, description: string): (r: string)
    ensures StartsWith(r, "- [")
  {
    var s := PathString(p);
    if description != "" then "- [" + s + "](" + s + ") - " + description
    else "- [" + s + "](" + s + ")"
  }

  /** A line carries ` - description` after the bare link exactly when the description is not empty. */
  lemma DescriptionAppendedIffNonEmpty(p: Path, description: string)
    ensures StartsWith(EntryLine(p, description), EntryLine(p, ""))
    ensures EntryLine(p, description) == EntryLine(p, "") <==> description == ""
    ensures description != "" ==> EntryLine(p, description)[|EntryLine(p, "")|..] == " - " + description
  {
    var bare := EntryLine(p, "");
    if description != "" {
      assert EntryLine(p, description) == bare + (" - " + description);
    }
  }

  /** The file as `read` gives it: None when it could not be read. */
  function Lookup(read: map<Path, seq<string>>, p: Path): Option<seq<string>>
  {
    if p in read then Some(read[p]) else None
  }

  /** The list line of one script, with its description. */
  function ScriptEntry(read: map<Path, seq<string>>): Path -> string
  {
    p => EntryLine(p, Description(p, Lookup(read, p)))
  }

  /** The list lines of the Python section, one per script. */
  function ScriptEntries(files: seq<Path>, read: map<Path, seq<string>>): seq<string>
  {
    MapSeq(ScriptEntry(read), files)
  }

  /** The list line of a documentation or configuration file: no description. */
  function PlainEntry(p: Path): string
  {
    EntryLine(p, "")
  }

  /** The list lines of the other two sections. */
  function PlainEntries(files: seq<Path>): seq<string>
  {
    MapSeq(PlainEntry, files)
  }

  /** A titled section, present only when it lists something. */
  function Section(title: string, entries: seq<string>): seq<string>
  {
    if |entries| == 0 then [] else [title, ""] + entries + [""]
  }

  /**
   * A document laid out as `generate_index` lays it out: the lines `pre`,
   * the three sections with entries `e1`, `e2`, `e3`, then the lines `post`.
   */
  function Document(pre: seq<string>, e1: seq<string>, e2: seq<string>, e3: seq<string>, post: seq<string>): seq<string>
  {
    pre + Section(ScriptsTitle, e1) + Section(DocsTitle, e2) + Section(ConfigTitle, e3) + post
  }

  /** The lines of the document `generate_index` writes, before they are joined by newlines. */
  function IndexLines(b: Buckets, read: map<Path, seq<string>>, generatedOn: string): seq<string>
  {
    Document(Preamble(generatedOn), ScriptEntries(b.pythonScripts, read), PlainEntries(b.markdownFiles),
      PlainEntries(b.otherFiles), Usage)
  }

  predicate IsTitle(line: string)
  {
    line == ScriptsTitle || line == DocsTitle || line == ConfigTitle
  }

  /** Every line is a list line. */
  predicate ListLines(entries: seq<string>)
  {
    forall m :: 0 <= m < |entries| ==> StartsWith(entries[m], "- [")
  }

  predicate NoTitles(lines: seq<string>)
  {
    forall m :: 0 <= m < |lines| ==> !IsTitle(lines[m])
  }

  /** The fixed lines hold no title and the entries are list lines, so a title line is a section head. */
  predicate WellFormed(pre: seq<string>, e1: seq<string>, e2: seq<string>, e3: seq<string>, post: seq<string>)
  {
    NoTitles(pre) && NoTitles(post) && ListLines(e1) && ListLines(e2) && ListLines(e3)
  }

  /** In a section whose entries are list lines, the only title is its own, on its first line. */
  lemma TitleInSection(title: string, entries: seq<string>, k: nat)
    requires IsTitle(title) && k < |Section(title, entries)| && ListLines(entries)
    ensures IsTitle(Section(title, entries)[k]) <==> k == 0
    ensures Section(title, entries)[0] == title
  {
    var s := Section(title, entries);
    if 2 <= k < 2 + |entries| {
      assert s[k] == entries[k - 2];
      assert s[k][0] == '-';
    }
  }

  /** The index `generate_index` builds is such a document, with one entry per file of each bucket. */
  lemma IndexLinesWellFormed(b: Buckets, read: map<Path, seq<string>>, generatedOn: string)
    ensures WellFormed(Preamble(generatedOn), ScriptEntries(b.pythonScripts, read), PlainEntries(b.markdownFiles),
      PlainEntries(b.otherFiles), Usage)
    ensures |ScriptEntries(b.pythonScripts, read)| == |b.pythonScripts|
    ensures |PlainEntries(b.markdownFiles)| == |b.markdownFiles| && |PlainEntries(b.otherFiles)| == |b.otherFiles|
  {
    FixedLinesHoldNoTitle(generatedOn);
    ScriptEntriesAreListLines(b.pythonScripts, read);
    PlainEntriesAreListLines(b.markdownFiles);
    PlainEntriesAreListLines(b.otherFiles);
  }

  lemma FixedLinesHoldNoTitle(generatedOn: string)
    ensures NoTitles(Preamble(generatedOn)) && NoTitles(Usage)
  {
    var pre := Preamble(generatedOn);
    assert pre[2][0] == '*';
  }

  lemma ScriptEntriesAreListLines(files: seq<Path>, read: map<Path, seq<string>>)
    ensures ListLines(ScriptEntries(files, read))
  {
    var f := ScriptEntry(read);
    forall p
      ensures StartsWith(f(p), "- [")
    {
      var d := Description(p, Lookup(read, p));
      assert f(p) == EntryLine(p, d);
    }
    MappedListLines(f, files);
  }

  lemma PlainEntriesAreListLines(files: seq<Path>)
    ensures ListLines(PlainEntries(files))
  {
    forall p
      ensures StartsWith(PlainEntry(p), "- [")
    {
      assert PlainEntry(p) == EntryLine(p, "");
    }
    MappedListLines(PlainEntry, files);
  }

  /** Mapping files to list lines gives list lines. */
  lemma MappedListLines(f: Path -> string, files: seq<Path>)
    requires forall p :: StartsWith(f(p), "- [")
    ensures ListLines(MapSeq(f, files))
  {
    forall m | 0 <= m < |files|
      ensures StartsWith(MapSeq(f, files)[m], "- [")
    {
      MapSeqAt(f, files, m);
    }
  }

  /** Where each title can stand in the document: only at the head of its own, non-empty section. */
  lemma {:induction false} TitlePositions(pre: seq<string>, e1: seq<string>, e2: seq<string>, e3: seq<string>, post: seq<string>, i: nat)
    requires WellFormed(pre, e1, e2, e3, post) && i < |Document(pre, e1, e2, e3, post)|
    ensures var L, s1, s2 := Document(pre, e1, e2, e3, post), Section(ScriptsTitle, e1), Section(DocsTitle, e2);
      && (L[i] == ScriptsTitle <==> |e1| > 0 && i == |pre|)
      && (L[i] == DocsTitle <==> |e2| > 0 && i == |pre| + |s1|)
      && (L[i] == ConfigTitle <==> |e3| > 0 && i == |pre| + |s1| + |s2|)
  {
    var s1, s2, s3 := Section(ScriptsTitle, e1), Section(DocsTitle, e2), Section(ConfigTitle, e3);
    var L := pre + s1 + s2 + s3 + post;
    var a, b, c := |pre|, |pre| + |s1|, |pre| + |s1| + |s2|;
    if i < a {
      assert L[i] == pre[i];
    } else if i < b {
      assert L[i] == s1[i - a];
      TitleInSection(ScriptsTitle, e1, i - a);
    } else if i < c {
      assert L[i] == s2[i - b];
      TitleInSection(DocsTitle, e2, i - b);
    } else if i < c + |s3| {
      assert L[i] == s3[i - c];
      TitleInSection(ConfigTitle, e3, i - c);
    } else {
      assert L[i] == post[i - c - |s3|];
    }
  }

  /** Each section title appears in the document exactly when its section has entries. */
  lemma SectionShownIff(pre: seq<string>, e1: seq<string>, e2: seq<string>, e3: seq<string>, post: seq<string>)
    requires WellFormed(pre, e1, e2, e3, post)
    ensures var L := Document(pre, e1, e2, e3, post);
      && (ScriptsTitle in L <==> |e1| > 0)
      && (DocsTitle in L <==> |e2| > 0)
      && (ConfigTitle in L <==> |e3| > 0)
  {
    var L := Document(pre, e1, e2, e3, post);
    forall i | 0 <= i < |L|
      ensures L[i] == ScriptsTitle ==> |e1| > 0
      ensures L[i] == DocsTitle ==> |e2| > 0
      ensures L[i] == ConfigTitle ==> |e3| > 0
    {
      TitlePositions(pre, e1, e2, e3, post, i);
    }
    var s1, s2 := |Section(ScriptsTitle, e1)|, |Section(DocsTitle, e2)|;
    if |e1| > 0 {
      assert |pre| < |L|;
      TitlePositions(pre, e1, e2, e3, post, |pre|);
    }
    if |e2| > 0 {
      assert |pre| + s1 < |L|;
      TitlePositions(pre, e1, e2, e3, post, |pre| + s1);
    }
    if |e3| > 0 {
      assert |pre| + s1 + s2 < |L|;
      TitlePositions(pre, e1, e2, e3, post, |pre| + s1 + s2);
    }
  }

  /** The sections that appear come in the order Python Scripts, Documentation, Configuration Files. */
  lemma SectionsInOrder(pre: seq<string>, e1: seq<string>, e2: seq<string>, e3: seq<string>, post: seq<string>)
    requires WellFormed(pre, e1, e2, e3, post)
    ensures var L := Document(pre, e1, e2, e3, post);
      forall i, j :: 0 <= i < |L| && 0 <= j < |L| ==>
        && (L[i] == ScriptsTitle && (L[j] == DocsTitle || L[j] == ConfigTitle) ==> i < j)
        && (L[i] == DocsTitle && L[j] == ConfigTitle ==> i < j)
  {
    var L := Document(pre, e1, e2, e3, post);
    forall i, j | 0 <= i < |L| && 0 <= j < |L|
      ensures L[i] == ScriptsTitle && (L[j] == DocsTitle || L[j] == ConfigTitle) ==> i < j
      ensures L[i] == DocsTitle && L[j] == ConfigTitle ==> i < j
    {
      TitlePositions(pre, e1, e2, e3, post, i);
      TitlePositions(pre, e1, e2, e3, post, j);
    }
  }

  /** A non-empty section standing between `before` and `after`: its title, a blank, its entries, a blank. */
  lemma SectionBody(before: seq<string>, title: string, entries: seq<string>, after: seq<string>)
    requires |entries| > 0
    ensures var L, i, n := before + Section(title, entries) + after, |before|, |entries|;
      i + n + 3 <= |L| && L[i] == title && L[i + 1] == "" && L[i + 2..i + 2 + n] == entries && L[i + 2 + n] == ""
  {
    assert Section(title, entries) == [title, ""] + entries + [""];
    Regroup(before, [title, ""], entries, [""], after);
    MiddleSlice(before + [title, ""], entries, [""] + after);
  }

  /** After the Python Scripts title come a blank line, the script entries in order, and a blank line. */
  lemma ScriptsListedAfterTitle(pre: seq<string>, e1: seq<string>, e2: seq<string>, e3: seq<string>, post: seq<string>, i: nat)
    requires WellFormed(pre, e1, e2, e3, post)
    requires i < |Document(pre, e1, e2, e3, post)| && Document(pre, e1, e2, e3, post)[i] == ScriptsTitle
    ensures var L, n := Document(pre, e1, e2, e3, post), |e1|;
      i + n + 3 <= |L| && L[i + 1] == "" && L[i + 2..i + 2 + n] == e1 && L[i + 2 + n] == ""
  {
    var s1, s2, s3 := Section(ScriptsTitle, e1), Section(DocsTitle, e2), Section(ConfigTitle, e3);
    TitlePositions(pre, e1, e2, e3, post, i);
    assert Document(pre, e1, e2, e3, post) == pre + s1 + (s2 + s3 + post);
    SectionBody(pre, ScriptsTitle, e1, s2 + s3 + post);
  }

  /** After the Documentation title come a blank line, the documentation entries in order, and a blank line. */
  lemma DocsListedAfterTitle(pre: seq<string>, e1: seq<string>, e2: seq<string>, e3: seq<string>, post: seq<string>, i: nat)
    requires WellFormed(pre, e1, e2, e3, post)
    requires i < |Document(pre, e1, e2, e3, post)| && Document(pre, e1, e2, e3, post)[i] == DocsTitle
    ensures var L, n := Document(pre, e1, e2, e3, post), |e2|;
      i + n + 3 <= |L| && L[i + 1] == "" && L[i + 2..i + 2 + n] == e2 && L[i + 2 + n] == ""
  {
    var s1, s2, s3 := Section(ScriptsTitle, e1), Section(DocsTitle, e2), Section(ConfigTitle, e3);
    TitlePositions(pre, e1, e2, e3, post, i);
    assert Document(pre, e1, e2, e3, post) == (pre + s1) + s2 + (s3 + post);
    SectionBody(pre + s1, DocsTitle, e2, s3 + post);
  }

  /** After the Configuration Files title come a blank line, the configuration entries in order, and a blank line. */
  lemma ConfigListedAfterTitle(pre: seq<string>, e1: seq<string>, e2: seq<string>, e3: seq<string>, post: seq<string>, i: nat)
    requires WellFormed(pre, e1, e2, e3, post)
    requires i < |Document(pre, e1, e2, e3, post)| && Document(pre, e1, e2, e3, post)[i] == ConfigTitle
    ensures var L, n := Document(pre, e1, e2, e3, post), |e3|;
      i + n + 3 <= |L| && L[i + 1] == "" && L[i + 2..i + 2 + n] == e3 && L[i + 2 + n] == ""
  {
    var s1, s2 := Section(ScriptsTitle, e1), Section(DocsTitle, e2);
    TitlePositions(pre, e1, e2, e3, post, i);
    SectionBody(pre + s1 + s2, ConfigTitle, e3, post);
  }

  /** The `k`-th script entry links the `k`-th script and carries its description. */
  lemma ScriptEntryAt(files: seq<Path>, read: map<Path, seq<string>>, k: nat)
    requires k < |files|
    ensures ScriptEntries(files, read)[k] == EntryLine(files[k], Description(files[k], Lookup(read, files[k])))
  {
    MapSeqAt(ScriptEntry(read), files, k);
  }

  /** The `k`-th entry of the other sections links the `k`-th file, without a description. */
  lemma PlainEntryAt(files: seq<Path>, k: nat)
    requires k < |files|
    ensures PlainEntries(files)[k] == EntryLine(files[k], "")
  {
    MapSeqAt(PlainEntry, files, k);
  }

  /** A non-empty section appended to `content`, written as the appends build it. */
  lemma SectionAppended(content: seq<string>, title: string, entries: seq<string>)
    requires |entries| > 0
    ensures content + [title, ""] + entries + [""] == content + Section(title, entries)
  {
    Assoc3(content, [title, ""], entries, [""]);
  }

  /** Appending the next script's entry extends the listed prefix by one. */
  lemma ScriptEntriesSnoc(head: seq<string>, scripts: seq<Path>, read: map<Path, seq<string>>, i: nat, line: string)
    requires i < |scripts|
    requires line == EntryLine(scripts[i], Description(scripts[i], Lookup(read, scripts[i])))
    ensures head + ScriptEntries(scripts[..i], read) + [line] == head + ScriptEntries(scripts[..i + 1], read)
  {
    MapSnoc(head, ScriptEntry(read), scripts, i);
  }

  /** The Python block of `generate_index`: the title, one line per script with its description, a blank line. */
  method AppendScriptsSection(content: seq<string>, scripts: seq<Path>, read: map<Path, seq<string>>)
    returns (result: seq<string>)
    ensures result == content + Section(ScriptsTitle, ScriptEntries(scripts, read))
  {
    result := content;
    if |scripts| > 0 {
      var head := content + [ScriptsTitle, ""];
      result := head;
      var i := 0;
      while i < |scripts|
        invariant 0 <= i <= |scripts|
        invariant result == head + ScriptEntries(scripts[..i], read)
      {
        var script := scripts[i];
        var description := GetFileDescription(script, Lookup(read, script));
        var line := EntryLine(script, description);
        ScriptEntriesSnoc(head, scripts, read, i, line);
        result := result + [line];
        i := i + 1;
      }
      assert scripts[..i] == scripts;
      result := result + [""];
      SectionAppended(content, ScriptsTitle, ScriptEntries(scripts, read));
    }
  }

  /** The Documentation and Configuration blocks of `generate_index`: the title, one link line per file, a blank line. */
  method AppendFilesSection(content: seq<string>, title: string, files: seq<Path>) returns (result: seq<string>)
    ensures result == content + Section(title, PlainEntries(files))
  {
    result := content;
    if |files| > 0 {
      var head := content + [title, ""];
      result := head;
      var i := 0;
      while i < |files|
        invariant 0 <= i <= |files|
        invariant result == head + PlainEntries(files[..i])
      {
        var file := files[i];
        var line := EntryLine(file, "");
        MapSnoc(head, PlainEntry, files, i);
        result := result + [line];
        i := i + 1;
      }
      assert files[..i] == files;
      result := result + [""];
      SectionAppended(content, title, PlainEntries(files));
    }
  }

  /**
   * `generate_index` up to the write: scans, then appends the preamble, the
   * three sections that have files, and the usage text, and joins the lines.
   */
  method GenerateIndex(walk: seq<Path>, read: map<Path, seq<string>>, generatedOn: string) returns (doc: string)
    ensures doc == Join(IndexLines(ScanResult(walk), read, generatedOn), "\n")
  {
    var b := ScanDirectory(walk);
    var content := Preamble(generatedOn);
    content := AppendScriptsSection(content, b.pythonScripts, read);
    content := AppendFilesSection(content, DocsTitle, b.markdownFiles);
    content := AppendFilesSection(content, ConfigTitle, b.otherFiles);
    content := content + Usage;
    doc := Join(content, "\n");
  }
}
