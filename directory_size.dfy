/**
 * `getDirectorySize` (MissionBar/SystemMonitor.swift): the sum of the file
 * sizes of every entry below a bundle, as the deep directory enumerator
 * yields them. The file tree is a datatype; the enumerator is the pre-order
 * walk of it.
 */
module DirectorySizeEstimator {
  import opened Wrappers

  /** The `.isDirectory` and `.fileSize` resource values of one entry. */
  datatype ResourceValues = ResourceValues(isDirectory: bool, fileSize: Option<nat>)

  /**
   * One entry below the root: its resource values (`None` when reading
   * them throws) and the entries the enumerator visits below it.
   */
  datatype FsItem = FsItem(values: Option<ResourceValues>, children: seq<FsItem>)

  /** What the deep enumerator yields for a list of entries: each one, then everything below it. */
  function Enumerate(items: seq<FsItem>): seq<Option<ResourceValues>>
    decreases items
  {
    if items == [] then []
    else [items[0].values] + Enumerate(items[0].children) + Enumerate(items[1..])
  }

  /** What one enumerated entry adds to the total: its size if it is a readable non-directory. */
  function Contribution(values: Option<ResourceValues>): nat
  {
    match values
    case None => 0
    case Some(v) => if v.isDirectory then 0 else v.fileSize.GetOr(0)
  }

  /** The running total after the loop has visited `entries`. */
  function Accumulated(entries: seq<Option<ResourceValues>>): nat
  {
    if entries == [] then 0
    else Accumulated(entries[..|entries| - 1]) + Contribution(entries[|entries| - 1])
  }

  /** The size of a tree, by structural recursion: each readable file counts once, directories count 0. */
  function TreeSize(items: seq<FsItem>): nat
    decreases items
  {
    if items == [] then 0
    else Contribution(items[0].values) + TreeSize(items[0].children) + TreeSize(items[1..])
  }

  /** What `getDirectorySize` returns for the enumerator it gets (`None` when there is none). */
  function DirectorySize(enumerator: Option<seq<FsItem>>): nat
  {
    match enumerator
    case None => 0
    case Some(items) => TreeSize(items)
  }

  lemma {:induction false} AccumulatedConcat(a: seq<Option<ResourceValues>>, b: seq<Option<ResourceValues>>)
    ensures Accumulated(a + b) == Accumulated(a) + Accumulated(b)
  {
    if b != [] {
      assert (a + b)[..|a + b| - 1] == a + b[..|b| - 1];
      AccumulatedConcat(a, b[..|b| - 1]);
    } else {
      assert a + b == a;
    }
  }

  lemma {:induction false} AccumulatedEnumerate(items: seq<FsItem>)
    ensures Accumulated(Enumerate(items)) == TreeSize(items)
    decreases items
  {
    if items != [] {
      AccumulatedEnumerate(items[0].children);
      AccumulatedEnumerate(items[1..]);
      AccumulatedConcat([items[0].values], Enumerate(items[0].children));
      AccumulatedConcat([items[0].values] + Enumerate(items[0].children), Enumerate(items[1..]));
      assert Accumulated([items[0].values]) == Contribution(items[0].values) by {
        assert [items[0].values][..0] == [];
      }
    }
  }

  /** `getDirectorySize`: the accumulator loop over the enumerated entries. */
  method GetDirectorySize(enumerator: Option<seq<FsItem>>) returns (totalSize: nat)
    ensures totalSize == DirectorySize(enumerator)
  {
    if enumerator.None? {
      return 0;
    }
    var entries := Enumerate(enumerator.value);
    totalSize := 0;
    var i := 0;
    while i < |entries|
      invariant 0 <= i <= |entries|
      invariant totalSize == Accumulated(entries[..i])
    {
      assert entries[..i + 1][..i] == entries[..i];
      match entries[i] {
        case None =>
        case Some(values) =>
          if !values.isDirectory {
            totalSize := totalSize + values.fileSize.GetOr(0);
          }
      }
      i := i + 1;
    }
    assert entries[..i] == entries;
    AccumulatedEnumerate(enumerator.value);
  }

  function File(size: nat): FsItem
  {
    FsItem(Some(ResourceValues(false, Some(size))), [])
  }

  function Folder(children: seq<FsItem>): FsItem
  {
    FsItem(Some(ResourceValues(true, None)), children)
  }

  /** An empty bundle weighs nothing, and so does a missing enumerator. */
  lemma EmptyDirectoryIsZero()
    ensures DirectorySize(Some([])) == 0 && DirectorySize(None) == 0
  {
  }

  /** Files of 10, 20 and 30 bytes plus a subdirectory holding 5 bytes make 65. */
  lemma NestedDirectoryExample()
    ensures DirectorySize(Some([File(10), File(20), File(30), Folder([File(5)])])) == 65
  {
    var sub := [File(5)];
    assert TreeSize(sub) == 5 by {
      assert sub[1..] == [];
    }
    var items := [File(10), File(20), File(30), Folder(sub)];
    assert items[1..][1..][1..][1..] == [];
  }

  lemma {:induction false} AccumulatedUnreadable(entries: seq<Option<ResourceValues>>)
    requires forall k :: 0 <= k < |entries| ==> entries[k].None?
    ensures Accumulated(entries) == 0
  {
    if entries != [] {
      AccumulatedUnreadable(entries[..|entries| - 1]);
    }
  }

  /** A subtree whose entries cannot be read adds nothing. */
  lemma UnreadableSubtreeIsZero(items: seq<FsItem>)
    requires forall k :: 0 <= k < |Enumerate(items)| ==> Enumerate(items)[k].None?
    ensures TreeSize(items) == 0
  {
    AccumulatedEnumerate(items);
    AccumulatedUnreadable(Enumerate(items));
  }
}
