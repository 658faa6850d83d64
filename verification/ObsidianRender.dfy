/**
 * create_obsidian_index.py, second half: `generate_index_content`, which
 * renders the grouped files as the lines of `index.md` — a header with the
 * generation time, statistics, a table of contents with one anchor per
 * directory, one section per directory listing its wiki-links, and a footer.
 *
 * The clock is the parameter `generatedOn`, already formatted as
 * `%Y-%m-%d %H:%M:%S`.
 */
module ObsidianRender {
  import opened Text
  import opened Order
  import opened Paths
  import opened ObsidianGrouping
  import opened Seqs

  // ---------------------------------------------------------------- ordering

  /** The `sorted_dirs` key `(x != "Root", x.lower())` as a strict order: "Root" first, then by lower-cased name. */
  function DirLt(x: string, y: string): bool
  {
    if (x == RootKey) != (y == RootKey) then x == RootKey
    else StrLt(Lower(x), Lower(y))
  }

  /** The file key `x.name.lower()` as a strict order. */
  function FileLt(p: FilePath, q: FilePath): bool
  {
    StrLt(Lower(Name(p)), Lower(Name(q)))
  }

  lemma DirLtIsStrictOrder()
    ensures StrictOrder(DirLt)
  {
    StrLtIsStrictTotal();
  }

  lemma FileLtIsStrictOrder()
    ensures StrictOrder(FileLt)
  {
    StrLtIsStrictTotal();
  }

  /** `sorted(md_files.keys(), key=...)`. */
  function SortedDirs(groups: seq<Group>): seq<string>
  {
    SortBy(Keys(groups), DirLt)
  }

  /** `sorted(files, key=lambda x: x.name.lower())`. */
  function SortedFiles(files: seq<FilePath>): seq<FilePath>
  {
    SortBy<FilePath>(files, FileLt)
  }

  /**
   * The directory order: the keys of the dictionary, each once, with "Root"
   * ahead of every other key and the other keys in non-decreasing
   * lower-cased order.
   */
  lemma SortedDirsOrder(groups: seq<Group>)
    ensures multiset(SortedDirs(groups)) == multiset(Keys(groups))
    ensures forall i, j :: 0 <= i < j < |SortedDirs(groups)| && SortedDirs(groups)[j] == RootKey ==> SortedDirs(groups)[i] == RootKey
    ensures forall i, j :: 0 <= i < j < |SortedDirs(groups)| && SortedDirs(groups)[i] != RootKey ==>
      StrLe(Lower(SortedDirs(groups)[i]), Lower(SortedDirs(groups)[j]))
  {
    var sd := SortedDirs(groups);
    SortByPermutes(Keys(groups), DirLt);
    DirLtIsStrictOrder();
    SortByNoInversions(Keys(groups), DirLt);
    StrLtIsStrictTotal();
    forall i, j | 0 <= i < j < |sd| && sd[i] != RootKey
      ensures StrLe(Lower(sd[i]), Lower(sd[j]))
    {
      assert !DirLt(sd[j], sd[i]);
    }
  }

  /** Within a section the files are the group's files, in non-decreasing lower-cased name order. */
  lemma SortedFilesOrder(files: seq<FilePath>)
    ensures multiset(SortedFiles(files)) == multiset(files)
    ensures forall i, j :: 0 <= i < j < |SortedFiles(files)| ==>
      StrLe(Lower(Name(SortedFiles(files)[i])), Lower(Name(SortedFiles(files)[j])))
  {
    var sf := SortedFiles(files);
    SortByPermutes<FilePath>(files, FileLt);
    FileLtIsStrictOrder();
    SortByNoInversions<FilePath>(files, FileLt);
    StrLtIsStrictTotal();
    forall i, j | 0 <= i < j < |sf|
      ensures StrLe(Lower(Name(sf[i])), Lower(Name(sf[j])))
    {
      assert !FileLt(sf[j], sf[i]);
    }
  }

  // ---------------------------------------------------------------- anchors

  /** The anchor of a directory: lower-cased, spaces and slashes turned into "-", dots removed. */
  function Slug(d: string): (r: string)
    ensures ' ' !in r && '/' !in r && '.' !in r
  {
    var spaced := ReplaceChar(Lower(d), ' ', "-");
    var slashed := ReplaceChar(spaced, '/', "-");
    ReplaceKeeps(spaced, '/', "-", ' ');
    ReplaceKeeps(slashed, '.', "", ' ');
    ReplaceKeeps(slashed, '.', "", '/');
    ReplaceChar(slashed, '.', "")
  }

  /** An anchor has no upper-case ASCII letter. */
  lemma SlugIsLowerCase(d: string, x: char)
    requires 'A' <= x <= 'Z'
    ensures x !in Slug(d)
  {
    var lowered := Lower(d);
    assert x !in lowered by {
      forall i | 0 <= i < |lowered|
        ensures lowered[i] != x
      {
      }
    }
    var spaced := ReplaceChar(lowered, ' ', "-");
    ReplaceKeeps(lowered, ' ', "-", x);
    ReplaceKeeps(spaced, '/', "-", x);
    ReplaceKeeps(ReplaceChar(spaced, '/', "-"), '.', "", x);
  }

  /** What a directory is called in its heading and its table-of-contents entry. */
  function DirDisplay(d: string): (r: string)
    ensures d != RootKey ==> r == d
  {
    if d == RootKey then "Root Directory" else d
  }

  /** The "Root" entry of the table of contents points at "root". */
  lemma RootAnchor()
    ensures Slug(RootKey) == "root"
  {
    LowerRoot();
    SlugOfLowered(RootKey, "root");
  }

  lemma LowerRoot()
    ensures Lower(RootKey) == "root"
  {
    var lowered := Lower(RootKey);
    assert |lowered| == 4;
    forall k | 0 <= k < 4
      ensures lowered[k] == "root"[k]
    {
    }
  }

  /** A heading whose lower-case form has no space, slash or dot is its own anchor once lowered. */
  lemma SlugOfLowered(d: string, lowered: string)
    requires Lower(d) == lowered
    requires ' ' !in lowered && '/' !in lowered && '.' !in lowered
    ensures Slug(d) == lowered
  {
    ReplaceAbsent(lowered, ' ', "-");
    ReplaceAbsent(lowered, '/', "-");
    ReplaceAbsent(lowered, '.', "");
  }

  /** "root" is not the anchor of the heading "Root Directory" of the top-level section. */
  lemma RootAnchorMissesHeading()
    ensures Slug(DirDisplay(RootKey)) != Slug(RootKey)
  {
    var heading := DirDisplay(RootKey);
    assert 'i' in Slug(heading) by {
      assert heading[6] == 'i';
      SlugKeepsLetters(heading, 'i');
    }
    assert 'i' !in Slug(RootKey) by {
      RootAnchor();
    }
  }

  /**
   * The table of contents links a directory to the anchor of its own
   * heading's text for every directory but "Root", whose heading reads
   * "Root Directory" while its link points at "root".
   */
  lemma TocAnchorMatchesHeading(d: string)
    ensures Slug(DirDisplay(d)) == Slug(d) <==> d != RootKey
  {
    if d == RootKey {
      RootAnchorMissesHeading();
    }
  }

  /** Lower-case letters survive into the anchor. */
  lemma SlugKeepsLetters(d: string, x: char)
    requires 'a' <= x <= 'z' && x in d
    ensures x in Slug(d)
  {
    var i :| 0 <= i < |d| && d[i] == x;
    var lowered := Lower(d);
    assert lowered[i] == x;
    var spaced := ReplaceChar(lowered, ' ', "-");
    ReplaceKeeps(lowered, ' ', "-", x);
    ReplaceKeeps(spaced, '/', "-", x);
    ReplaceKeeps(ReplaceChar(spaced, '/', "-"), '.', "", x);
  }

  // ---------------------------------------------------------------- lines

  /** The folder emoji and the space after it. */
  const Folder := "\U{1F4C1} "

  const Footnote := "*This index was automatically generated. To regenerate, run `python create_obsidian_index.py`*"

  function Header(generatedOn: string): seq<string>
  {
    ["# Obsidian Notes Index", "", "*Generated on: " + generatedOn + "*", ""]
  }

  function TotalFilesLine(n: nat): string
  {
    "- **Total Files**: " + NatToString(n)
  }

  function TotalDirsLine(n: nat): string
  {
    "- **Total Directories**: " + NatToString(n)
  }

  function Statistics(totalFiles: nat, totalDirs: nat): seq<string>
  {
    ["## Statistics", "", TotalFilesLine(totalFiles), TotalDirsLine(totalDirs), ""]
  }

  const TocHead := ["## Table of Contents", ""]

  /** The header, the statistics and the title of the table of contents. */
  function Front(totalFiles: nat, totalDirs: nat, generatedOn: string): seq<string>
  {
    Header(generatedOn) + Statistics(totalFiles, totalDirs) + TocHead
  }

  const Rule := ["", "---", ""]

  const Footer := ["---", "", Footnote, ""]

  /** The table-of-contents name of a directory: the folder emoji, then its display name. */
  function TocDisplay(d: string): string
  {
    if d == RootKey then Folder + "Root Directory" else Folder + d
  }

  function TocEntry(d: string): string
  {
    "- [" + TocDisplay(d) + "](#" + Slug(d) + ")"
  }

  function TocLines(dirs: seq<string>): seq<string>
  {
    MapSeq(TocEntry, dirs)
  }

  function Heading(d: string): string
  {
    "## " + DirDisplay(d)
  }

  function CountLine(n: nat): string
  {
    "*" + NatToString(n) + " file(s)*"
  }

  function LinkLine(p: FilePath): string
  {
    "- " + CreateObsidianLink(p)
  }

  function LinkLines(files: seq<FilePath>): seq<string>
  {
    MapSeq(LinkLine, files)
  }

  /** The section of one directory: heading, file count, one link per file in name order, blank line. */
  function DirSection(d: string, files: seq<FilePath>): seq<string>
  {
    [Heading(d), "", CountLine(|files|), ""] + LinkLines(SortedFiles(files)) + [""]
  }

  /** The section of a directory of `groups`; `FlatMap(SectionOf(groups), dirs)` is the sections of `dirs`, one after the other. */
  function SectionOf(groups: seq<Group>): string -> seq<string>
  {
    d => DirSection(d, FilesOf(groups, d))
  }

  /** The lines `generate_index_content` joins with "\n". */
  function ObsidianLines(groups: seq<Group>, generatedOn: string): seq<string>
  {
    var dirs := SortedDirs(groups);
    Front(SumSizes(groups), |groups|, generatedOn) + TocLines(dirs) + Rule + FlatMap(SectionOf(groups), dirs) + Footer
  }

  // ---------------------------------------------------------------- generate_index_content

  lemma {:induction false} SumSizesSnoc(groups: seq<Group>, g: Group)
    ensures SumSizes(groups + [g]) == SumSizes(groups) + |g.files|
  {
    if groups != [] {
      assert (groups + [g])[1..] == groups[1..] + [g];
      SumSizesSnoc(groups[1..], g);
    }
  }

  /** `sum(len(files) for files in md_files.values())`. */
  method CountFiles(groups: seq<Group>) returns (total: nat)
    ensures total == SumSizes(groups)
  {
    total := 0;
    for j := 0 to |groups|
      invariant total == SumSizes(groups[..j])
    {
      assert groups[..j + 1] == groups[..j] + [groups[j]];
      SumSizesSnoc(groups[..j], groups[j]);
      total := total + |groups[j].files|;
    }
    assert groups[..|groups|] == groups;
  }

  /** The table of contents loop: one entry per directory, appended to `content`. */
  method AppendToc(content: seq<string>, dirs: seq<string>) returns (result: seq<string>)
    ensures result == content + TocLines(dirs)
  {
    result := content;
    var i := 0;
    while i < |dirs|
      invariant 0 <= i <= |dirs|
      invariant result == content + TocLines(dirs[..i])
    {
      var directory := dirs[i];
      var dirDisplay := if directory == RootKey then Folder + "Root Directory" else Folder + directory;
      var entry := "- [" + dirDisplay + "](#" + Slug(directory) + ")";
      assert entry == TocEntry(directory);
      MapSnoc(content, TocEntry, dirs, i);
      result := result + [entry];
      i := i + 1;
    }
    assert dirs[..i] == dirs;
  }

  lemma DirSectionLayout(content: seq<string>, d: string, files: seq<FilePath>)
    ensures content + [Heading(d), "", CountLine(|files|), ""] + LinkLines(SortedFiles(files)) + [""]
      == content + DirSection(d, files)
  {
    var top, links := [Heading(d), "", CountLine(|files|), ""], LinkLines(SortedFiles(files));
    assert DirSection(d, files) == top + links + [""];
    Assoc3(content, top, links, [""]);
  }

  /** The section of one directory, appended to `content`; the inner loop writes the links. */
  method AppendDirSection(content: seq<string>, directory: string, files: seq<FilePath>) returns (result: seq<string>)
    ensures result == content + DirSection(directory, files)
  {
    var dirDisplay := if directory == RootKey then "Root Directory" else directory;
    var head := content + ["## " + dirDisplay, "", "*" + NatToString(|files|) + " file(s)*", ""];
    var sortedFiles := SortedFiles(files);
    result := head;
    var k := 0;
    while k < |sortedFiles|
      invariant 0 <= k <= |sortedFiles|
      invariant result == head + LinkLines(sortedFiles[..k])
    {
      var link := CreateObsidianLink(sortedFiles[k]);
      var line := "- " + link;
      MapSnoc(head, LinkLine, sortedFiles, k);
      result := result + [line];
      k := k + 1;
    }
    assert sortedFiles[..k] == sortedFiles;
    assert head == content + [Heading(directory), "", CountLine(|files|), ""];
    DirSectionLayout(content, directory, files);
    result := result + [""];
  }

  /** The file listings loop: the sections of `dirs`, appended to `content`. */
  method AppendSections(content: seq<string>, groups: seq<Group>, dirs: seq<string>) returns (result: seq<string>)
    ensures result == content + FlatMap(SectionOf(groups), dirs)
  {
    result := content;
    for i := 0 to |dirs|
      invariant result == content + FlatMap(SectionOf(groups), dirs[..i])
    {
      var files := FilesOf(groups, dirs[i]);
      FlatMapSnoc(content, SectionOf(groups), dirs, i);
      result := AppendDirSection(result, dirs[i], files);
    }
    assert dirs[..|dirs|] == dirs;
  }

  /** `generate_index_content`: the document is the index lines joined with "\n". */
  method GenerateIndexContent(groups: seq<Group>, generatedOn: string) returns (doc: string)
    ensures doc == Join(ObsidianLines(groups, generatedOn), "\n")
  {
    var content := Header(generatedOn);
    var totalFiles := CountFiles(groups);
    var totalDirs := |groups|;
    content := content + ["## Statistics", "", TotalFilesLine(totalFiles), TotalDirsLine(totalDirs), ""];
    content := content + ["## Table of Contents", ""];
    var sortedDirs := SortedDirs(groups);
    content := AppendToc(content, sortedDirs);
    content := content + ["", "---", ""];
    content := AppendSections(content, groups, sortedDirs);
    content := content + ["---", "", Footnote, ""];
    doc := Join(content, "\n");
  }

  // ---------------------------------------------------------------- properties of the document

  /** Where the parts of the document stand: 11 lines of header, statistics and contents title, then the entries. */
  lemma ObsidianLayout(groups: seq<Group>, generatedOn: string)
    ensures |SortedDirs(groups)| == |groups|
    ensures var L, dirs := ObsidianLines(groups, generatedOn), SortedDirs(groups);
      && |L| == 18 + |dirs| + |FlatMap(SectionOf(groups), dirs)|
      && L[..11] == Front(SumSizes(groups), |groups|, generatedOn)
      && L[11..11 + |dirs|] == TocLines(dirs)
      && L[11 + |dirs|..14 + |dirs|] == Rule
      && L[14 + |dirs|..14 + |dirs| + |FlatMap(SectionOf(groups), dirs)|] == FlatMap(SectionOf(groups), dirs)
      && L[14 + |dirs| + |FlatMap(SectionOf(groups), dirs)|..] == Footer
  {
    var dirs := SortedDirs(groups);
    var F, T, S := Front(SumSizes(groups), |groups|, generatedOn), TocLines(dirs), FlatMap(SectionOf(groups), dirs);
    assert ObsidianLines(groups, generatedOn) == F + T + Rule + S + Footer;
    assert |F| == 11 by {
      FrontShape(SumSizes(groups), |groups|, generatedOn);
    }
    Slices5(F, T, Rule, S, Footer);
  }

  lemma FrontShape(totalFiles: nat, totalDirs: nat, generatedOn: string)
    ensures var F := Front(totalFiles, totalDirs, generatedOn);
      |F| == 11 && F[6] == TotalFilesLine(totalFiles) && F[7] == TotalDirsLine(totalDirs)
  {
  }

  /** Lines 7 and 8 of the document give the number of files and the number of directories. */
  lemma StatisticsLines(groups: seq<Group>, generatedOn: string)
    ensures var L := ObsidianLines(groups, generatedOn);
      L[6] == TotalFilesLine(SumSizes(groups)) && L[7] == TotalDirsLine(|groups|)
  {
    var L, F := ObsidianLines(groups, generatedOn), Front(SumSizes(groups), |groups|, generatedOn);
    ObsidianLayout(groups, generatedOn);
    FrontShape(SumSizes(groups), |groups|, generatedOn);
    PrefixAt(L, F, 6);
    PrefixAt(L, F, 7);
  }

  /**
   * For a dictionary built by `scan_markdown_files`, the statistics count the
   * collected files and their distinct parent directories.
   */
  lemma StatisticsCount(found: seq<FilePath>, groups: seq<Group>, generatedOn: string)
    requires IsGroupingOf(found, groups)
    ensures var L := ObsidianLines(groups, generatedOn);
      L[6] == TotalFilesLine(|Collected(found)|) && L[7] == TotalDirsLine(|ParentKeys(found)|)
  {
    StatisticsLines(groups, generatedOn);
    TotalFilesCounted(found, groups);
    TotalDirectoriesCounted(found, groups);
  }

  /** The figures of the statistics lines and of a section's count line read back as the counts written. */
  lemma FiguresReadBack(n: nat)
    ensures ParseNat(TotalFilesLine(n)[19..]) == n
    ensures ParseNat(TotalDirsLine(n)[25..]) == n
    ensures ParseNat(CountLine(n)[1..|CountLine(n)| - 9]) == n
  {
    ParseNatToString(n);
    var digits := NatToString(n);
    assert TotalFilesLine(n)[19..] == digits;
    assert TotalDirsLine(n)[25..] == digits;
    assert CountLine(n)[1..|CountLine(n)| - 9] == digits;
  }

  /** The `i`-th entry of the table of contents is about the `i`-th directory. */
  lemma TocEntryAt(groups: seq<Group>, generatedOn: string, i: nat)
    requires i < |SortedDirs(groups)|
    ensures ObsidianLines(groups, generatedOn)[11 + i] == TocEntry(SortedDirs(groups)[i])
  {
    var L, dirs := ObsidianLines(groups, generatedOn), SortedDirs(groups);
    assert L[11..11 + |dirs|] == TocLines(dirs) by {
      ObsidianLayout(groups, generatedOn);
    }
    assert L[11 + i] == TocLines(dirs)[i];
    MapSeqAt(TocEntry, dirs, i);
  }

  /**
   * The sections follow the order of the table of contents: wherever the
   * sections of `dirs` stand in a document (line `14 + |dirs|` of the index,
   * by `ObsidianLayout`), the `i`-th of them is about `dirs[i]` and starts where
   * the one before it ends.
   */
  lemma SectionPlacement(L: seq<string>, off: nat, groups: seq<Group>, dirs: seq<string>, i: nat)
    requires i < |dirs| && off + |FlatMap(SectionOf(groups), dirs)| <= |L| && L[off..off + |FlatMap(SectionOf(groups), dirs)|] == FlatMap(SectionOf(groups), dirs)
    ensures var a, b := off + |FlatMap(SectionOf(groups), dirs[..i])|, off + |FlatMap(SectionOf(groups), dirs[..i + 1])|;
      && b == a + |DirSection(dirs[i], FilesOf(groups, dirs[i]))|
      && b <= |L|
      && L[a..b] == DirSection(dirs[i], FilesOf(groups, dirs[i]))
  {
    FlatMapAt(L, off, SectionOf(groups), dirs, i);
    assert SectionOf(groups)(dirs[i]) == DirSection(dirs[i], FilesOf(groups, dirs[i]));
  }

  /** A section is its heading, a blank line, the file count, a blank line, the links and a blank line. */
  lemma DirSectionShape(d: string, files: seq<FilePath>)
    ensures var S := DirSection(d, files);
      && |S| == |files| + 5
      && S[0] == Heading(d)
      && S[1] == "" && S[3] == "" && S[|S| - 1] == ""
      && S[2] == CountLine(|files|)
  {
  }

  /**
   * Between the count and the closing blank line a section holds exactly one
   * link line per file, in the sorted order.
   */
  lemma DirSectionLinks(d: string, files: seq<FilePath>)
    ensures |SortedFiles(files)| == |files|
    ensures forall k :: 0 <= k < |files| ==> DirSection(d, files)[4 + k] == "- " + CreateObsidianLink(SortedFiles(files)[k])
  {
    var sorted := SortedFiles(files);
    var top, links := [Heading(d), "", CountLine(|files|), ""], LinkLines(sorted);
    assert DirSection(d, files) == top + links + [""];
    forall k | 0 <= k < |files|
      ensures (top + links + [""])[4 + k] == "- " + CreateObsidianLink(sorted[k])
    {
      MiddleAt(top, links, [""], k);
      MapSeqAt(LinkLine, sorted, k);
    }
  }

  /**
   * For the dictionary `scan_markdown_files` builds, the `i`-th section lists
   * the collected files whose parent key is the `i`-th directory: never none.
   */
  lemma SectionListsGroup(found: seq<FilePath>, groups: seq<Group>, i: nat)
    requires IsGroupingOf(found, groups) && i < |SortedDirs(groups)|
    ensures var d := SortedDirs(groups)[i];
      && d in Keys(groups)
      && FilesOf(groups, d) == InGroup(found, d)
      && |FilesOf(groups, d)| > 0
  {
    var dirs := SortedDirs(groups);
    var d := dirs[i];
    SortedDirsOrder(groups);
    assert d in multiset(dirs);
    assert d in Keys(groups);
    var ks := Keys(groups);
    var j :| 0 <= j < |ks| && ks[j] == d;
    FilesOfKey(groups, j);
  }
}
