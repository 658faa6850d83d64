# Index generators, modelled in Dafny

Two small Python utilities each walk a directory tree and write an `index.md`
that links to the files they find.

- `index_generator.py` has three parts:
  - It drops hidden and deny-listed paths (`should_ignore`).
  - It files the rest into three buckets by suffix and sorts each bucket (`scan_directory`).
  - It writes a document with one section per non-empty bucket (`generate_index`). Each Python script's line carries the first line of its docstring (`get_file_description`).
- `create_obsidian_index.py` has three parts:
  - It groups every markdown file except `index.md` by its parent directory (`scan_markdown_files`).
  - It writes Obsidian wiki-links for them (`create_obsidian_link`).
  - It writes a document (`generate_index_content`) with:
    - statistics;
    - a table of contents with one anchor per directory, "Root" first, then by lower-cased name;
    - one section per directory, listing its files by lower-cased name.

The model takes the file-system walk, the file contents and the clock as
inputs. Everything between them and the text that would be written is
modelled and proved:

| module | models |
|---|---|
| `Text` | `str.strip`, `in`, `startswith`, `lower`, `replace`, `join`, `str(n)` |
| `Order` | Python's `<` on sequences and strings, and `list.sort`/`sorted` as a stable insertion sort over any strict order |
| `Paths` | the `pathlib` parts the scripts use: `name`, `suffix`, `stem`, `parent`, `str()` and the path order |
| `Seqs` | list comprehensions and append loops over sequences |
| `IndexGenerator` | `index_generator.py` |
| `ObsidianGrouping` | `scan_markdown_files` and `create_obsidian_link` |
| `ObsidianRender` | `generate_index_content` |

How the model represents things:

- **Paths.** A path is the sequence of its components (`Path.parts`).
- **Documents.** A document is the sequence of lines the script joins with `"\n"`.
- **Loops.** The loops that build lists are `method`s with loop invariants:
  - `scan_directory`, `get_file_description`, the append loops of `generate_index` and `generate_index_content`, and the `sum` of group sizes are each proved equal to a function that specifies them. The properties are proved as lemmas about those functions.
  - `scan_markdown_files` is proved to build a grouping of its input: the predicate `IsGroupingOf`.
  - The loop of `should_ignore` only searches the components for a denied one. It is the recursive function `ShouldIgnore`, whose contract is that search written as an `exists`.
- **Dictionaries.** The `defaultdict` of the Obsidian script is a sequence of groups with distinct keys.

Two points where the model follows the code rather than a prose reading of it:

- **Path order.** `scan_directory` sorts `Path` objects, and Python compares paths component by component. It does not compare their strings. So `a/b.py` sorts before `a-b.py`, although `"a-b.py" < "a/b.py"` as strings. `Paths.PathLt` orders paths by components.
- **The "Root" anchor.** The table of contents links the top-level group to the anchor `#root`, which is computed from the key "Root". The section heading for that group reads "Root Directory". For every other directory the link's anchor is the script's own anchor of the heading text. `ObsidianRender.TocAnchorMatchesHeading` states this both ways. Whether a markdown viewer resolves these anchors is not modelled: each viewer derives heading anchors by its own rules, and some of them drop "/" instead of turning it into "-".

## Model

| member | source | states |
|---|---|---|
| IndexGenerator.ShouldIgnore | index_generator.py:15-42 | a path is ignored iff one of its components is in the default deny-list or the extra patterns, or starts with "." |
| IndexGenerator.IgnoresIndexAndHidden | index_generator.py:29-40 | a path with an `index.md` component (exact case) or a hidden component is ignored, whatever the extra patterns |
| IndexGenerator.KeepsPlainPaths | index_generator.py:36-42 | a path with no denied and no hidden component is kept |
| IndexGenerator.ShouldIgnoreMonotone | index_generator.py:34-40 | adding ignore patterns never un-ignores a path |
| IndexGenerator.Bucket | index_generator.py:67-79 | a walked file goes to the Python bucket iff it is kept and its suffix is `.py`, to the markdown bucket iff kept with `.md`, to the configuration bucket iff kept with one of the seven configuration suffixes |
| IndexGenerator.DroppedIffIgnoredOrOtherSuffix | index_generator.py:67-79 | a walked file gets no bucket iff it is ignored or its suffix is none of `.py`, `.md` and the seven configuration suffixes |
| IndexGenerator.KeptCounts | index_generator.py:63-79 | before sorting, a bucket holds each file sent to it as often as the walk yields it, and nothing else |
| IndexGenerator.ScanDirectory | index_generator.py:45-85 | the append loop followed by the three sorts returns exactly the sorted buckets of the walk |
| IndexGenerator.ScanPlacesEachFileOnce | index_generator.py:63-85 | each kept `.py`/`.md`/configuration file is in exactly its own bucket, as often as walked; every other file is in none |
| IndexGenerator.ScanBucketsSorted | index_generator.py:81-83 | every bucket is in ascending path order |
| IndexGenerator.DocstringScan | index_generator.py:102-117 | the line scan's description never has leading or trailing whitespace |
| IndexGenerator.DescriptionFromALine | index_generator.py:102-117 | a non-empty description is the stripped text, or the text inside the delimiters, of one of the file's lines |
| IndexGenerator.Description | index_generator.py:98-121 | the description is "" for a file that is not `.py` or could not be read, and never has leading or trailing whitespace |
| IndexGenerator.GetFileDescription | index_generator.py:88-121 | the loop with the `in_docstring` flag, early returns and `break` computes the line scan's description |
| IndexGenerator.ScanSkipsToDelimiter | index_generator.py:103-106 | lines before the first delimiter line do not affect the description |
| IndexGenerator.ScanSkipsBlankLines | index_generator.py:115-117 | inside the docstring, blank lines do not affect the description |
| IndexGenerator.NoDelimiterNoDescription | index_generator.py:103-121 | a file without any `"""` or `'''` line has no description |
| IndexGenerator.ScanOpensAtFirstDelimiter | index_generator.py:105-111 | the first delimiter line's own text is the description when it is not empty; otherwise the scan goes on inside the docstring |
| IndexGenerator.DescriptionFromFirstDelimiter | index_generator.py:103-117 | after an empty opening line, the description is the first non-blank line, stripped, unless that line is itself a delimiter line, which gives "" |
| IndexGenerator.EmptyDocstringNoDescription | index_generator.py:105-121 | an empty opening line followed only by blank lines gives "" |
| IndexGenerator.EntryLine | index_generator.py:151-172 | every list line starts with "- [" |
| IndexGenerator.DescriptionAppendedIffNonEmpty | index_generator.py:153-156 | a script's line is the bare link followed by " - " and the description exactly when the description is not empty |
| IndexGenerator.IndexLinesWellFormed | index_generator.py:139-190 | the fixed lines hold no section title, every entry is a list line, and each section has one entry per file of its bucket |
| IndexGenerator.TitleInSection | index_generator.py:148-157 | a section's only title line is its first line |
| IndexGenerator.TitlePositions | index_generator.py:147-173 | each section title appears at the head of its own section and only when that section has entries |
| IndexGenerator.SectionShownIff | index_generator.py:148-173 | each of the three titles is in the document iff its bucket is non-empty |
| IndexGenerator.SectionsInOrder | index_generator.py:147-173 | the titles that appear come in the order Python Scripts, Documentation, Configuration Files |
| IndexGenerator.ScriptsListedAfterTitle | index_generator.py:148-157 | the Python Scripts title is followed by a blank line, the script lines in bucket order, and a blank line |
| IndexGenerator.DocsListedAfterTitle | index_generator.py:160-165 | the Documentation title is followed by a blank line, the markdown lines in bucket order, and a blank line |
| IndexGenerator.ConfigListedAfterTitle | index_generator.py:168-173 | the Configuration Files title is followed by a blank line, the configuration lines in bucket order, and a blank line |
| IndexGenerator.ScriptEntryAt | index_generator.py:151-156 | the k-th script line links the k-th script and carries that script's description |
| IndexGenerator.PlainEntryAt | index_generator.py:163-172 | the k-th documentation or configuration line links the k-th file, with no description |
| IndexGenerator.AppendScriptsSection | index_generator.py:147-157 | the Python block appends nothing for no scripts, else the title, a blank, one line per script and a blank |
| IndexGenerator.AppendFilesSection | index_generator.py:159-173 | the Documentation and Configuration blocks append nothing for no files, else the title, a blank, one line per file and a blank |
| IndexGenerator.GenerateIndex | index_generator.py:124-194 | the written text is the preamble, the non-empty sections in order and the usage text, joined by newlines |
| ObsidianGrouping.GroupKey | create_obsidian_index.py:42 | a key is never "."; a top-level file is keyed "Root" |
| ObsidianGrouping.GroupKeyByDepth | create_obsidian_index.py:42 | a top-level file is keyed "Root"; a nested one by its directories joined with "/" |
| ObsidianGrouping.RootDirectoryShares | create_obsidian_index.py:42 | a directory literally named "Root" gets the same key as the top-level files |
| ObsidianGrouping.CollectedMembers | create_obsidian_index.py:34-37 | the collected files are exactly the found files whose name does not lower-case to `index.md` |
| ObsidianGrouping.InGroupMembers | create_obsidian_index.py:34-43 | the files under a key are exactly the collected files whose parent key is that key |
| ObsidianGrouping.FindKey | create_obsidian_index.py:43 | the dictionary lookup finds the position of a present key, and reports a missing key as absent |
| ObsidianGrouping.FilesOfKey | create_obsidian_index.py:111 | `md_files[directory]` on a present key gives that key's list |
| ObsidianGrouping.GroupingSkipsIndex | create_obsidian_index.py:35-37 | skipping an `index.md` keeps the dictionary a grouping of the files seen so far |
| ObsidianGrouping.GroupingAppends | create_obsidian_index.py:42-43 | appending a file under its present key keeps the dictionary a grouping |
| ObsidianGrouping.GroupingAddsKey | create_obsidian_index.py:42-43 | a file with a new key adds that key, with a one-file list, and keeps the dictionary a grouping |
| ObsidianGrouping.ScanMarkdownFiles | create_obsidian_index.py:21-48 | the result has distinct keys; each key's list is exactly its collected files in walk order and is never empty; every collected file's key is present |
| ObsidianGrouping.EachFileInOneGroup | create_obsidian_index.py:39-43 | every collected file is in exactly one group, the one keyed by its parent |
| ObsidianGrouping.IndexFilesNeverGrouped | create_obsidian_index.py:35-37 | no group holds a file named `index.md` in any case, or a file that was not found |
| ObsidianGrouping.TotalFilesCounted | create_obsidian_index.py:95 | the group sizes add up to the number of collected files |
| ObsidianGrouping.TotalDirectoriesCounted | create_obsidian_index.py:96 | the number of groups is the number of distinct parent keys of the collected files |
| ObsidianGrouping.ObsidianLinkParts | create_obsidian_index.py:51-72 | `create_obsidian_link` gives `[[`, the relative path without its suffix, a vertical bar, the name without its suffix, and `]]` |
| ObsidianGrouping.LinkPathRoundTrip | create_obsidian_index.py:63-70 | putting the file's suffix back on the link path gives the file's relative path |
| ObsidianGrouping.DisplayIsLastComponent | create_obsidian_index.py:66-72 | the display name of a link is the last component of its link path |
| ObsidianRender.DirLtIsStrictOrder | create_obsidian_index.py:108 | the directory sort key induces a strict order |
| ObsidianRender.FileLtIsStrictOrder | create_obsidian_index.py:131 | the file sort key induces a strict order |
| ObsidianRender.SortedDirsOrder | create_obsidian_index.py:107-108 | the sorted directories are the keys, each once; "Root" precedes every other key, and the others are non-decreasing by lower-cased name |
| ObsidianRender.SortedFilesOrder | create_obsidian_index.py:130-131 | the sorted files are a permutation of the group's files, non-decreasing by lower-cased name |
| ObsidianRender.Slug | create_obsidian_index.py:113 | an anchor contains no space, "/" or "." |
| ObsidianRender.SlugIsLowerCase | create_obsidian_index.py:113 | an anchor contains no upper-case ASCII letter |
| ObsidianRender.SlugKeepsLetters | create_obsidian_index.py:113 | every lower-case letter of the directory name survives into its anchor |
| ObsidianRender.SlugOfLowered | create_obsidian_index.py:113 | a name whose lower-case form has no space, "/" or "." has that lower-case form as its anchor |
| ObsidianRender.RootAnchor | create_obsidian_index.py:112-113 | the "Root" entry links to `#root` |
| ObsidianRender.RootAnchorMissesHeading | create_obsidian_index.py:112-125 | `#root` is not the anchor of the heading text "Root Directory" |
| ObsidianRender.TocAnchorMatchesHeading | create_obsidian_index.py:110-125 | a directory's link anchor is the anchor of its heading text iff the directory is not "Root" |
| ObsidianRender.CountFiles | create_obsidian_index.py:95 | the sum over the groups is the total of their sizes |
| ObsidianRender.AppendToc | create_obsidian_index.py:110-113 | the loop appends one table-of-contents entry per sorted directory, in order |
| ObsidianRender.AppendDirSection | create_obsidian_index.py:120-138 | one directory's block is its heading, a blank, the count line, a blank, its sorted links and a blank |
| ObsidianRender.AppendSections | create_obsidian_index.py:119-138 | the listing loop appends the sections of the sorted directories, one after the other |
| ObsidianRender.GenerateIndexContent | create_obsidian_index.py:75-146 | the text is the header, statistics, table of contents, rule, sections and footer, joined by newlines |
| ObsidianRender.ObsidianLayout | create_obsidian_index.py:86-144 | where each part stands: 11 front lines, one contents line per directory, a 3-line rule, the sections, a 4-line footer |
| ObsidianRender.FrontShape | create_obsidian_index.py:88-105 | the front part has 11 lines, with the totals on lines 7 and 8 |
| ObsidianRender.StatisticsLines | create_obsidian_index.py:94-100 | lines 7 and 8 show the sum of the group sizes and the number of groups |
| ObsidianRender.StatisticsCount | create_obsidian_index.py:94-100 | for a scanned dictionary, those figures are the number of collected files and of their distinct parent directories |
| ObsidianRender.FiguresReadBack | create_obsidian_index.py:99-100 | the numbers in the two statistics lines and in a section's count line read back as the counts written |
| ObsidianRender.TocEntryAt | create_obsidian_index.py:110-113 | the i-th contents entry is the entry of the i-th sorted directory |
| ObsidianRender.SectionPlacement | create_obsidian_index.py:120-138 | the i-th section is that of the i-th sorted directory, the same order as the contents, and starts where the previous one ends |
| ObsidianRender.DirSectionShape | create_obsidian_index.py:123-138 | a section has its file count plus 5 lines: the heading, blanks, the count line "*n file(s)*" with n the group size, and a closing blank |
| ObsidianRender.DirSectionLinks | create_obsidian_index.py:130-136 | between the count and the closing blank there is exactly one link line per file, in sorted order |
| ObsidianRender.SectionListsGroup | create_obsidian_index.py:120-121 | for a scanned dictionary, every listed directory is a key whose files are its collected files, never none |
| Order.InsertPermutes | index_generator.py:82-83 | inserting adds the element and loses nothing |
| Order.SortByPermutes | index_generator.py:82-83 | sorting returns a permutation of its input |
| Order.InsertNoInversions | index_generator.py:82-83 | inserting into a sequence without inversions keeps it without inversions |
| Order.SortByNoInversions | index_generator.py:82-83 | under a strict order, the sorted sequence has no element strictly below an earlier one |
| Order.StrLtIsStrictTotal | create_obsidian_index.py:108 | string comparison is a strict total order |
| Paths.PathLtIsStrictTotal | index_generator.py:82-83 | path comparison is a strict total order |
| Paths.Suffix | index_generator.py:72-78 | a suffix is empty or a "." followed by at least one character and no other ".", and is shorter than the name |
| Paths.SuffixFromLastDot | index_generator.py:72-78 | the suffix is the end of the name, from its last dot when that dot is neither the first nor the last character |
| Paths.ParentThenName | create_obsidian_index.py:36-42 | a file's path is its parent's components followed by its name |
| Paths.PathStringSnoc | create_obsidian_index.py:42 | adding a component to a non-empty path adds "/" and that component to its text |
| Paths.Stem | create_obsidian_index.py:66 | the stem followed by the suffix is the name |
| Text.StripBy | index_generator.py:104-109 | the stripped text neither starts nor ends with a stripped character, and is empty iff every character is stripped |
| Text.StripByCutsRuns | index_generator.py:104-109 | the stripped text is the input with its leading and its trailing run of stripped characters cut off |
| Text.Strip | index_generator.py:104 | `strip()` leaves no leading or trailing whitespace and never lengthens the line |
| Text.Lower | create_obsidian_index.py:36 | lower-casing keeps the length |
| Text.LowerChangesOnlyUpper | create_obsidian_index.py:108 | lower-casing turns exactly the upper-case ASCII letters into the matching lower-case ones, and leaves none |
| Text.ReplaceChar | create_obsidian_index.py:113 | after replacing a character by text that does not contain it, the character no longer occurs |
| Text.ReplaceAbsent | create_obsidian_index.py:113 | replacing a character that does not occur changes nothing |
| Text.JoinSnoc | create_obsidian_index.py:146 | joining one more line appends the separator and that line |
| Text.NatToString | create_obsidian_index.py:99-100 | the text of a count is a non-empty run of decimal digits |
| Text.ReplaceKeeps | create_obsidian_index.py:113 | a character neither replaced nor inserted is in the result iff it was in the input |
| Text.ParseNatToString | create_obsidian_index.py:99-100 | the decimal text of a count reads back as that count |

## Left out

- The walk is an input: `Path.resolve`, `rglob`, `is_file` and `relative_to` are not modelled. Both scripts receive the walk's output as a sequence of relative paths.
- The `ValueError` branch of `scan_markdown_files` is not modelled. Every path the model receives is already relative to the root, so that branch has nothing to skip.
- `scan_markdown_files` stores the absolute file paths, and `create_obsidian_link` makes them relative again. The model stores the relative paths directly. The link and the name are unaffected.
- File reads in `get_file_description` are an input. `open`, `readlines` and UTF-8 decoding are modelled as a map from path to lines. A path missing from the map stands for a read that raised. The source swallows that exception and returns "", and the model returns "".
- Writing `index.md`, every `print` line, `main`, argparse, `sys.argv` and `sys.exit` are not modelled. They are I/O and command-line glue. This includes `main`'s checks that the root exists and that some markdown file was found.
- `datetime.now().strftime(...)` is not modelled. The formatted time is the parameter `generatedOn`.
- Only POSIX paths are modelled: `PurePosixPath`, with "/" as the separator and case-sensitive comparison. On Windows `str(path)` uses `\` as the separator, which changes every link, every group key and every link path. Windows path comparison ignores case. And the anchor's `.replace('/', '-')` leaves `\` in place.
- `str.lower()` is modelled on ASCII letters only. Unicode case mapping is not modelled.
- The folder emoji of the table of contents is an opaque literal.
- `str.isspace()` is the fixed list of whitespace code points that `str.strip()` removes.
- Order.SortByPermutes: the stability of `list.sort` and `sorted` is not proved. `SortBy` is a stable insertion sort, but only "permutation" and "no inversions" are proved about it. Stability matters only for directory keys or file names that are equal once lower-cased.
- ObsidianGrouping.ScanMarkdownFiles: the order in which keys are first inserted is not stated. The contract fixes each key's list and the set of keys. The insertion order matters only through the tie-breaking noted for `sorted`.
- IndexGenerator.TitlePositions, SectionShownIff, SectionsInOrder and the three ListedAfterTitle lemmas are stated for any document laid out as `generate_index` lays it out. `IndexGenerator.IndexLinesWellFormed` shows that the document built from the buckets is such a document.
- ObsidianRender.SectionPlacement is stated for any document that holds the sections at some offset. `ObsidianRender.ObsidianLayout` gives that offset for the index: line `14 + |dirs|`.
