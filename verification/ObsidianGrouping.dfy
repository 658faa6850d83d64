/**
 * create_obsidian_index.py, first half: grouping the markdown files found
 * under the root by their parent directory (`scan_markdown_files`), and the
 * wiki-link written for each file (`create_obsidian_link`).
 *
 * The walk (`rglob("*.md")`, made relative to the root) is the input `found`.
 * The `defaultdict(list)` is a sequence of groups with distinct keys, in the
 * order the keys were first inserted.
 */
module ObsidianGrouping {
  import opened Wrappers
  import opened Text
  import opened Paths

  /** One entry of the dictionary: a parent-directory key and the files appended under it. */
  datatype Group = Group(key: string, files: seq<FilePath>)

  /** The key of the files directly under the root. */
  const RootKey := "Root"

  /** The files `scan_markdown_files` skips: those named `index.md`, in any case. */
  predicate IsIndexFile(p: Path)
  {
    Lower(Name(p)) == "index.md"
  }

  /** The dictionary key of a file: its parent path, or "Root" when that parent is `.`. */
  function GroupKey(p: Path): (r: string)
    ensures r != "."
    ensures |p| <= 1 ==> r == RootKey
  {
    var parent := PathString(Parent(p));
    if parent != "." then parent else RootKey
  }

  /** A top-level file is keyed "Root"; a nested one by its directories joined with "/". */
  lemma GroupKeyByDepth(p: Path)
    ensures |p| <= 1 ==> GroupKey(p) == RootKey
    ensures |p| >= 2 && Join(p[..|p| - 1], "/") != "." ==> GroupKey(p) == Join(p[..|p| - 1], "/")
  {
  }

  /** A directory literally named "Root" shares its key with the top-level files. */
  lemma RootDirectoryShares(name: string)
    ensures GroupKey(["Root", name]) == GroupKey([name]) == RootKey
  {
    assert Join(["Root"], "/") == "Root";
  }

  /** The files of `found` that get collected, in walk order. */
  function Collected(found: seq<FilePath>): (r: seq<FilePath>)
    ensures |r| <= |found|
  {
    if found == [] then []
    else
      var last := found[|found| - 1];
      Collected(found[..|found| - 1]) + (if IsIndexFile(last) then [] else [last])
  }

  /** The collected files are exactly the found files that are not an `index.md`. */
  lemma {:induction false} CollectedMembers(found: seq<FilePath>, q: FilePath)
    ensures q in Collected(found) <==> q in found && !IsIndexFile(q)
  {
    if found != [] {
      var init, last := found[..|found| - 1], found[|found| - 1];
      assert found == init + [last];
      CollectedMembers(init, q);
    }
  }

  /** The collected files with key `key`, in walk order: what is appended under that key. */
  function InGroup(found: seq<FilePath>, key: string): (r: seq<FilePath>)
    ensures |r| <= |found|
  {
    if found == [] then []
    else
      var last := found[|found| - 1];
      InGroup(found[..|found| - 1], key) + (if !IsIndexFile(last) && GroupKey(last) == key then [last] else [])
  }

  /** The files under `key` are exactly the collected files whose key is `key`. */
  lemma {:induction false} InGroupMembers(found: seq<FilePath>, key: string, q: FilePath)
    ensures q in InGroup(found, key) <==> q in found && !IsIndexFile(q) && GroupKey(q) == key
  {
    if found != [] {
      var init, last := found[..|found| - 1], found[|found| - 1];
      assert found == init + [last];
      InGroupMembers(init, key, q);
    }
  }

  /** The keys of the dictionary, in insertion order. */
  function Keys(groups: seq<Group>): (r: seq<string>)
    ensures |r| == |groups|
  {
    seq(|groups|, j requires 0 <= j < |groups| => groups[j].key)
  }

  predicate Distinct(ks: seq<string>)
  {
    forall i, j :: 0 <= i < j < |ks| ==> ks[i] != ks[j]
  }

  /** A dictionary has each key once. */
  predicate DistinctKeys(groups: seq<Group>)
  {
    Distinct(Keys(groups))
  }

  /**
   * `groups` is what `scan_markdown_files` builds from `found`: one group per
   * key, holding exactly the collected files with that key in walk order,
   * and a group for the key of every collected file.
   */
  ghost predicate IsGroupingOf(found: seq<FilePath>, groups: seq<Group>)
  {
    && DistinctKeys(groups)
    && (forall j :: 0 <= j < |groups| ==> groups[j].files == InGroup(found, groups[j].key) && groups[j].files != [])
    && (forall q :: q in Collected(found) ==> GroupKey(q) in Keys(groups))
  }

  /** The dictionary lookup `key in md_files`: where the key stands, if it does. */
  function FindKey(groups: seq<Group>, key: string): (r: Option<nat>)
    ensures r.Some? ==> r.value < |groups| && groups[r.value].key == key
    ensures r.None? ==> key !in Keys(groups)
  {
    if groups == [] then None
    else if groups[0].key == key then Some(0)
    else
      match FindKey(groups[1..], key)
      case None =>
        assert Keys(groups) == [groups[0].key] + Keys(groups[1..]);
        None
      case Some(j) => Some(j + 1)
  }

  /** The file list stored under `key` (a key the dictionary holds). */
  function FilesOf(groups: seq<Group>, key: string): seq<FilePath>
  {
    match FindKey(groups, key)
    case Some(j) => groups[j].files
    case None => []
  }

  /** Looking up a key of a dictionary with distinct keys gives that key's files. */
  lemma FilesOfKey(groups: seq<Group>, j: nat)
    requires DistinctKeys(groups) && j < |groups|
    ensures FilesOf(groups, groups[j].key) == groups[j].files
  {
    var ks := Keys(groups);
    assert ks[j] in ks;
    match FindKey(groups, groups[j].key)
    case Some(k) =>
      assert ks[k] == ks[j];
    case None =>
  }

  lemma ExtendCollected(found: seq<FilePath>, p: FilePath)
    ensures Collected(found + [p]) == Collected(found) + (if IsIndexFile(p) then [] else [p])
  {
    assert (found + [p])[..|found|] == found;
  }

  lemma ExtendInGroup(found: seq<FilePath>, p: FilePath, key: string)
    ensures InGroup(found + [p], key) == InGroup(found, key) + (if !IsIndexFile(p) && GroupKey(p) == key then [p] else [])
  {
    assert (found + [p])[..|found|] == found;
  }

  /** A skipped `index.md` leaves the grouping as it is. */
  lemma GroupingSkipsIndex(found: seq<FilePath>, groups: seq<Group>, p: FilePath)
    requires IsGroupingOf(found, groups) && IsIndexFile(p)
    ensures IsGroupingOf(found + [p], groups)
  {
    ExtendCollected(found, p);
    forall m | 0 <= m < |groups|
      ensures groups[m].files == InGroup(found + [p], groups[m].key)
    {
      ExtendInGroup(found, p, groups[m].key);
    }
  }

  /** A file whose key is present is appended to that key's list. */
  lemma GroupingAppends(found: seq<FilePath>, groups: seq<Group>, p: FilePath, j: nat)
    requires IsGroupingOf(found, groups) && !IsIndexFile(p)
    requires j < |groups| && groups[j].key == GroupKey(p)
    ensures IsGroupingOf(found + [p], groups[j := Group(GroupKey(p), groups[j].files + [p])])
  {
    var after := groups[j := Group(GroupKey(p), groups[j].files + [p])];
    assert Keys(after) == Keys(groups);
    forall m | 0 <= m < |after|
      ensures after[m].files == InGroup(found + [p], after[m].key) && after[m].files != []
    {
      ExtendInGroup(found, p, after[m].key);
      if m != j {
        assert Keys(groups)[m] != Keys(groups)[j];
      }
    }
    ExtendCollected(found, p);
    forall q | q in Collected(found + [p])
      ensures GroupKey(q) in Keys(after)
    {
      if q != p {
        assert q in Collected(found);
      } else {
        assert Keys(after)[j] == GroupKey(p);
      }
    }
  }

  lemma NewKeyHasNoFiles(found: seq<FilePath>, groups: seq<Group>, key: string)
    requires forall q :: q in Collected(found) ==> GroupKey(q) in Keys(groups)
    requires key !in Keys(groups)
    ensures InGroup(found, key) == []
  {
    var files := InGroup(found, key);
    if files != [] {
      var q := files[0];
      InGroupMembers(found, key, q);
      CollectedMembers(found, q);
    }
  }

  /** Adding a group at the end adds its key at the end. */
  lemma KeysSnoc(groups: seq<Group>, g: Group)
    ensures Keys(groups + [g]) == Keys(groups) + [g.key]
  {
  }

  /** A file with a new key starts a new list under that key, at the end. */
  lemma GroupingAddsKey(found: seq<FilePath>, groups: seq<Group>, p: FilePath)
    requires IsGroupingOf(found, groups) && !IsIndexFile(p)
    requires GroupKey(p) !in Keys(groups)
    ensures IsGroupingOf(found + [p], groups + [Group(GroupKey(p), [p])])
  {
    var key := GroupKey(p);
    var after := groups + [Group(key, [p])];
    var ks := Keys(after);
    KeysSnoc(groups, Group(key, [p]));
    forall i, j | 0 <= i < j < |ks|
      ensures ks[i] != ks[j]
    {
      if j == |groups| {
        assert ks[i] == Keys(groups)[i];
      } else {
        assert ks[i] == Keys(groups)[i] && ks[j] == Keys(groups)[j];
      }
    }
    forall m | 0 <= m < |after|
      ensures after[m].files == InGroup(found + [p], after[m].key) && after[m].files != []
    {
      ExtendInGroup(found, p, after[m].key);
      if m < |groups| {
        assert Keys(groups)[m] != key;
      } else {
        NewKeyHasNoFiles(found, groups, key);
      }
    }
    ExtendCollected(found, p);
    forall q | q in Collected(found + [p])
      ensures GroupKey(q) in ks
    {
      if q != p {
        assert q in Collected(found);
        assert GroupKey(q) in Keys(groups);
      }
    }
  }

  /** `scan_markdown_files`: one pass over the found files, appending each kept file under its key. */
  method ScanMarkdownFiles(found: seq<FilePath>) returns (groups: seq<Group>)
    ensures IsGroupingOf(found, groups)
  {
    groups := [];
    var i := 0;
    while i < |found|
      invariant 0 <= i <= |found|
      invariant IsGroupingOf(found[..i], groups)
    {
      var mdFile := found[i];
      assert found[..i + 1] == found[..i] + [mdFile];
      i := i + 1;
      if Lower(Name(mdFile)) == "index.md" {
        GroupingSkipsIndex(found[..i - 1], groups, mdFile);
        continue;
      }
      var parentDir := if PathString(Parent(mdFile)) != "." then PathString(Parent(mdFile)) else RootKey;
      var at := FindKey(groups, parentDir);
      match at
      case Some(j) =>
        GroupingAppends(found[..i - 1], groups, mdFile, j);
        groups := groups[j := Group(parentDir, groups[j].files + [mdFile])];
      case None =>
        GroupingAddsKey(found[..i - 1], groups, mdFile);
        groups := groups + [Group(parentDir, [mdFile])];
    }
    assert found[..i] == found;
  }

  /** Every collected file is in exactly one group: the one keyed by its parent. */
  lemma EachFileInOneGroup(found: seq<FilePath>, groups: seq<Group>, p: FilePath)
    requires IsGroupingOf(found, groups) && p in Collected(found)
    ensures exists j :: 0 <= j < |groups| && p in groups[j].files && groups[j].key == GroupKey(p)
    ensures forall j :: 0 <= j < |groups| && p in groups[j].files ==> groups[j].key == GroupKey(p)
    ensures forall j, j' :: 0 <= j < |groups| && 0 <= j' < |groups| && p in groups[j].files && p in groups[j'].files ==> j == j'
  {
    var ks := Keys(groups);
    CollectedMembers(found, p);
    var j :| 0 <= j < |ks| && ks[j] == GroupKey(p);
    InGroupMembers(found, ks[j], p);
    assert p in groups[j].files;
    forall j1 | 0 <= j1 < |groups| && p in groups[j1].files
      ensures ks[j1] == GroupKey(p)
    {
      InGroupMembers(found, ks[j1], p);
    }
    forall j1, j2 | 0 <= j1 < |groups| && 0 <= j2 < |groups| && p in groups[j1].files && p in groups[j2].files
      ensures j1 == j2
    {
      assert ks[j1] == ks[j2];
    }
  }

  /** No group holds a file named `index.md` in any case, or a file that was not found. */
  lemma IndexFilesNeverGrouped(found: seq<FilePath>, groups: seq<Group>, j: nat, q: FilePath)
    requires IsGroupingOf(found, groups) && j < |groups| && q in groups[j].files
    ensures q in found && !IsIndexFile(q)
  {
    InGroupMembers(found, groups[j].key, q);
  }

  /** `sum(len(files) for files in md_files.values())`. */
  function SumSizes(groups: seq<Group>): nat
  {
    if groups == [] then 0 else |groups[0].files| + SumSizes(groups[1..])
  }

  /** How many times `key` occurs in `ks`. */
  function Occurrences(ks: seq<string>, key: string): nat
  {
    if ks == [] then 0 else (if ks[0] == key then 1 else 0) + Occurrences(ks[1..], key)
  }

  lemma {:induction false} OccursOnce(ks: seq<string>, key: string)
    requires Distinct(ks) && key in ks
    ensures Occurrences(ks, key) == 1
  {
    if ks[0] == key {
      OccursNever(ks[1..], key);
    } else {
      OccursOnce(ks[1..], key);
    }
  }

  lemma {:induction false} OccursNever(ks: seq<string>, key: string)
    requires key !in ks
    ensures Occurrences(ks, key) == 0
  {
    if ks != [] {
      OccursNever(ks[1..], key);
    }
  }

  /** The sizes of the groups `ks` would have for `found`, summed. */
  function SizesFor(found: seq<FilePath>, ks: seq<string>): nat
  {
    if ks == [] then 0 else |InGroup(found, ks[0])| + SizesFor(found, ks[1..])
  }

  lemma {:induction false} SizesForExtend(found: seq<FilePath>, p: FilePath, ks: seq<string>)
    ensures SizesFor(found + [p], ks) == SizesFor(found, ks) + (if IsIndexFile(p) then 0 else Occurrences(ks, GroupKey(p)))
  {
    if ks != [] {
      ExtendInGroup(found, p, ks[0]);
      SizesForExtend(found, p, ks[1..]);
    }
  }

  /** Summing the groups of any distinct keys covering every collected file counts each collected file once. */
  lemma {:induction false} SizesForCovering(found: seq<FilePath>, ks: seq<string>)
    requires Distinct(ks)
    requires forall q :: q in Collected(found) ==> GroupKey(q) in ks
    ensures SizesFor(found, ks) == |Collected(found)|
  {
    if found == [] {
      SizesForEmpty(ks);
    } else {
      var init, p := found[..|found| - 1], found[|found| - 1];
      assert found == init + [p];
      ExtendCollected(init, p);
      SizesForCovering(init, ks);
      SizesForExtend(init, p, ks);
      if !IsIndexFile(p) {
        assert p in Collected(found);
        OccursOnce(ks, GroupKey(p));
      }
    }
  }

  lemma {:induction false} SizesForEmpty(ks: seq<string>)
    ensures SizesFor([], ks) == 0
  {
    if ks != [] {
      SizesForEmpty(ks[1..]);
    }
  }

  lemma {:induction false} SumSizesIsSizesFor(found: seq<FilePath>, groups: seq<Group>)
    requires forall j :: 0 <= j < |groups| ==> groups[j].files == InGroup(found, groups[j].key)
    ensures SumSizes(groups) == SizesFor(found, Keys(groups))
  {
    if groups != [] {
      assert Keys(groups)[1..] == Keys(groups[1..]);
      SumSizesIsSizesFor(found, groups[1..]);
    }
  }

  /** The "Total Files" figure: the group sizes add up to the number of collected files. */
  lemma TotalFilesCounted(found: seq<FilePath>, groups: seq<Group>)
    requires IsGroupingOf(found, groups)
    ensures SumSizes(groups) == |Collected(found)|
  {
    SumSizesIsSizesFor(found, groups);
    SizesForCovering(found, Keys(groups));
  }

  /** The parent keys of the collected files. */
  ghost function ParentKeys(found: seq<FilePath>): set<string>
  {
    set q | q in Collected(found) :: GroupKey(q)
  }

  lemma {:induction false} DistinctCardinality(ks: seq<string>)
    requires Distinct(ks)
    ensures |set k | k in ks| == |ks|
  {
    if ks != [] {
      DistinctCardinality(ks[1..]);
      assert (set k | k in ks) == {ks[0]} + (set k | k in ks[1..]);
    }
  }

  /** The "Total Directories" figure: one group per distinct parent key of a collected file. */
  lemma TotalDirectoriesCounted(found: seq<FilePath>, groups: seq<Group>)
    requires IsGroupingOf(found, groups)
    ensures |groups| == |ParentKeys(found)|
  {
    var ks := Keys(groups);
    forall k | k in ks
      ensures k in ParentKeys(found)
    {
      var j :| 0 <= j < |ks| && ks[j] == k;
      var q := groups[j].files[0];
      assert q in InGroup(found, k);
      InGroupMembers(found, k, q);
      CollectedMembers(found, q);
    }
    assert (set k | k in ks) == ParentKeys(found);
    DistinctCardinality(ks);
  }

  // ---------------------------------------------------------------- create_obsidian_link

  /** `str(rel_path.with_suffix(''))`: the path with the suffix of its name removed. */
  function LinkPath(p: FilePath): string
  {
    PathString(p[..|p| - 1] + [Stem(Name(p))])
  }

  /**
   * `create_obsidian_link`: `[[path-without-suffix|stem]]`. Between the
   * brackets stand the file's path and its name, each without the suffix.
   */
  function CreateObsidianLink(p: FilePath): string
  {
    "[[" + LinkPath(p) + "|" + Stem(Name(p)) + "]]"
  }

  /** The link path is the file's path minus its suffix: putting the suffix back gives the path. */
  lemma LinkPathRoundTrip(p: FilePath)
    ensures LinkPath(p) + Suffix(Name(p)) == PathString(p)
  {
    var init, name := p[..|p| - 1], Name(p);
    assert p == init + [name];
    if |init| > 0 {
      JoinSnoc(init, Stem(name), "/");
      JoinSnoc(init, name, "/");
    }
  }

  /** Reading a link back: between `[[` and `|` the path without its suffix, between `|` and `]]` the name without it. */
  lemma ObsidianLinkParts(p: FilePath)
    ensures var r, n := CreateObsidianLink(p), |LinkPath(p)|;
      && |r| == n + |Stem(Name(p))| + 5
      && r[..2] == "[[" && r[2 + n] == '|' && r[|r| - 2..] == "]]"
      && r[2..2 + n] + Suffix(Name(p)) == PathString(p)
      && r[3 + n..|r| - 2] + Suffix(Name(p)) == Name(p)
  {
    var link, display := LinkPath(p), Stem(Name(p));
    LinkPathRoundTrip(p);
    var r := CreateObsidianLink(p);
    assert r == "[[" + link + "|" + display + "]]";
    assert r[2..2 + |link|] == link && r[3 + |link|..|r| - 2] == display;
  }

  /** `Path(s).name`: what follows the last "/" of `s`. */
  function LastSegment(s: string): string
  {
    s[LastIndexOf(s, '/') + 1..]
  }

  /** The display name of the link is the last component of its link path. */
  lemma DisplayIsLastComponent(p: FilePath)
    requires '/' !in Name(p)
    ensures LastSegment(LinkPath(p)) == Stem(Name(p))
  {
    var init, name := p[..|p| - 1], Name(p);
    var stem := Stem(name);
    assert forall k :: 0 <= k < |stem| ==> stem[k] == (stem + Suffix(name))[k];
    assert '/' !in stem;
    var s := LinkPath(p);
    if |init| > 0 {
      JoinSnoc(init, stem, "/");
      var head := Join(init, "/");
      assert s == head + "/" + stem;
      var i := LastIndexOf(s, '/');
      assert s[|head|] == '/';
      forall k | |head| < k < |s|
        ensures s[k] != '/'
      {
        assert s[k] == stem[k - |head| - 1];
      }
      assert i == |head|;
      assert s[i + 1..] == stem;
    } else {
      assert s == stem;
    }
  }
}
