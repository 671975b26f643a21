/**
 * `space structure <space-id>` (cmd/spaceStructure.go): two GETs, the
 * space's folders and its folderless lists, printed as a tree. Folders come
 * first, each followed by its own lists; the folderless lists follow under a
 * header of their own. The box-drawing glyphs are written as the characters
 * they are.
 */
module SpaceStructure {
  import opened Wrappers
  import opened Types
  import opened Commands
  import Client
  import Format
  import Decimal
  import Seqs

  const Branch := "├──"
  const LastBranch := "└──"
  const Stem := "│"

  /** The glyph before item `i` of `n` siblings: the last one closes the branch. */
  function ItemPrefix(i: int, n: int): (r: string)
    ensures r == LastBranch <==> i == n - 1
    ensures r == Branch <==> i != n - 1
  {
    if i == n - 1 then LastBranch else Branch
  }

  /**
   * The glyph before folder `i` of `folders`: only the last folder closes the
   * tree, and only when no folderless list follows it.
   */
  function FolderPrefix(i: int, folders: nat, lists: nat): (r: string)
    ensures r == LastBranch <==> i == folders - 1 && lists == 0
    ensures r == Branch <==> !(i == folders - 1 && lists == 0)
  {
    if i == folders - 1 && lists == 0 then LastBranch else Branch
  }

  /** The column drawn beside a folder's lists: blank exactly below a closing folder glyph. */
  function TreeColumn(i: int, folders: nat, lists: nat): (r: string)
    ensures r == " " <==> FolderPrefix(i, folders, lists) == LastBranch
    ensures r == Stem <==> FolderPrefix(i, folders, lists) == Branch
  {
    if i == folders - 1 && lists == 0 then " " else Stem
  }

  /**
   * The folders and the folderless lists are one run of top-level items: a
   * folder's glyph is the one it would get as item `i` of all of them, and so
   * is a folderless list's, counted after the folders. The tree is closed by
   * exactly the last top-level item.
   */
  lemma TopLevelIsOneTree(folders: nat, lists: nat)
    ensures forall i | 0 <= i < folders :: FolderPrefix(i, folders, lists) == ItemPrefix(i, folders + lists)
    ensures forall j | 0 <= j < lists :: ItemPrefix(j, lists) == ItemPrefix(folders + j, folders + lists)
  {
  }

  /** One list as the tree shows it. */
  function ListEntry(l: ListInfo): string {
    l.name + " (ID: " + l.id + ") - " + Decimal.IntToString(l.taskCount) + " tasks"
  }

  /** The lines of a folder's lists, drawn beside `column`; a folder without lists says so. */
  function NestedLists(column: string, lists: seq<ListInfo>): (r: seq<string>)
    ensures |lists| == 0 ==> r == [column + "   (no lists)"]
    ensures |lists| > 0 ==> |r| == |lists|
    ensures |lists| > 0 ==> forall j | 0 <= j < |r| :: r[j] == column + "   " + ItemPrefix(j, |lists|) + " " + ListEntry(lists[j])
  {
    if |lists| == 0 then [column + "   (no lists)"]
    else seq(|lists|, j requires 0 <= j < |lists| => column + "   " + ItemPrefix(j, |lists|) + " " + ListEntry(lists[j]))
  }

  function FolderLine(f: Folder, i: int, folders: nat, lists: nat): string {
    FolderPrefix(i, folders, lists) + " " + f.name + " (ID: " + f.id + ")" + (if f.hidden then " [hidden]" else "")
  }

  /**
   * Folder `i`: its line, its lists beside its tree column, and a lone stem
   * line exactly when another folder follows.
   */
  function FolderBlock(f: Folder, i: int, folders: nat, lists: nat): (r: seq<string>)
    ensures var nested := NestedLists(TreeColumn(i, folders, lists), f.lists);
              && |r| == 1 + |nested| + Format.Count(i != folders - 1)
              && r[0] == FolderLine(f, i, folders, lists)
              && r[1..1 + |nested|] == nested
              && (r[|r| - 1] == Stem <==> i != folders - 1)
  {
    var nested := NestedLists(TreeColumn(i, folders, lists), f.lists);
    assert |nested[|nested| - 1]| > 3;
    [FolderLine(f, i, folders, lists)] + nested + (if i != folders - 1 then [Stem] else [])
  }

  /** The blocks of folders `i` onwards, in order. */
  function FolderBlocks(folders: seq<Folder>, i: nat, lists: nat): (r: seq<string>)
    requires i <= |folders|
    ensures i == |folders| <==> r == []
    ensures i < |folders| ==> r[|r| - 1] != Stem
    ensures i < |folders| ==> r[0] == FolderLine(folders[i], i, |folders|, lists)
    decreases |folders| - i
  {
    if i == |folders| then []
    else FolderBlock(folders[i], i, |folders|, lists) + FolderBlocks(folders, i + 1, lists)
  }

  /** A folder's block holds a lone stem line exactly when another folder follows it. */
  lemma BlockStems(f: Folder, i: int, folders: nat, lists: nat)
    ensures Seqs.CountOf(FolderBlock(f, i, folders, lists), Stem) == Format.Count(i != folders - 1)
  {
    var column := TreeColumn(i, folders, lists);
    var nested := NestedLists(column, f.lists);
    var head := [FolderLine(f, i, folders, lists)] + nested;
    forall k | 0 <= k < |head| ensures head[k] != Stem {
      if k == 0 {
        assert |FolderPrefix(i, folders, lists)| == 3;
      } else if |f.lists| == 0 {
        assert head[k] == column + "   (no lists)";
      } else {
        assert head[k] == column + "   " + ItemPrefix(k - 1, |f.lists|) + " " + ListEntry(f.lists[k - 1]);
      }
    }
    Seqs.CountOfAbsent(head, Stem);
    var stems: seq<string> := if i != folders - 1 then [Stem] else [];
    assert FolderBlock(f, i, folders, lists) == head + stems;
    Seqs.CountOfAppend(head, stems, Stem);
    assert stems == [] || stems[1..] == [];
  }

  /**
   * Across the whole folder tree the lone stem lines separate the folders:
   * there is one fewer of them than there are folders from `i` on.
   */
  lemma {:induction false} FolderStems(folders: seq<Folder>, i: nat, lists: nat)
    requires i <= |folders|
    ensures Seqs.CountOf(FolderBlocks(folders, i, lists), Stem) == if i == |folders| then 0 else |folders| - i - 1
    decreases |folders| - i
  {
    if i < |folders| {
      var block := FolderBlock(folders[i], i, |folders|, lists);
      BlockStems(folders[i], i, |folders|, lists);
      FolderStems(folders, i + 1, lists);
      Seqs.CountOfAppend(block, FolderBlocks(folders, i + 1, lists), Stem);
    }
  }

  /** The folderless lists under their header, set off by an empty line when folders were printed above. */
  function FolderlessSection(lists: seq<ListInfo>, afterFolders: bool): (r: seq<string>)
    ensures |lists| == 0 <==> r == []
    ensures |lists| > 0 ==>
              var g := Format.Count(afterFolders);
              && |r| == g + 1 + |lists|
              && (afterFolders ==> r[0] == "")
              && r[g] == "Folderless Lists (" + Decimal.IntToString(|lists|) + "):"
              && forall j | 0 <= j < |lists| :: r[g + 1 + j] == ItemPrefix(j, |lists|) + " " + ListEntry(lists[j])
  {
    if |lists| == 0 then []
    else
      (if afterFolders then [""] else [])
      + ["Folderless Lists (" + Decimal.IntToString(|lists|) + "):"]
      + seq(|lists|, j requires 0 <= j < |lists| => ItemPrefix(j, |lists|) + " " + ListEntry(lists[j]))
  }

  /**
   * What is printed: a single line when the space has neither folders nor
   * folderless lists; otherwise the header, an empty line, the folder blocks
   * and the folderless section.
   */
  function StructureOutput(spaceId: string, folders: seq<Folder>, lists: seq<ListInfo>): (r: seq<string>)
    ensures |folders| == 0 && |lists| == 0 ==> r == ["No folders or lists found in space " + spaceId]
    ensures |folders| > 0 || |lists| > 0 ==>
              var blocks := FolderBlocks(folders, 0, |lists|);
              var rest := FolderlessSection(lists, |folders| > 0);
              && |r| >= 2
              && r[..2] == ["Space Structure (ID: " + spaceId + ")", ""]
              && r[2..] == blocks + rest
  {
    if |folders| == 0 && |lists| == 0 then ["No folders or lists found in space " + spaceId]
    else
      var tree := FolderBlocks(folders, 0, |lists|) + FolderlessSection(lists, |folders| > 0);
      Behind(["Space Structure (ID: " + spaceId + ")", ""], tree);
      ["Space Structure (ID: " + spaceId + ")", ""] + tree
  }

  lemma Behind(head: seq<string>, tail: seq<string>)
    ensures (head + tail)[..|head|] == head && (head + tail)[|head|..] == tail
  {
  }

  /** The output is the single "nothing found" line exactly when the space is empty. */
  lemma EmptySpaceIffSingleLine(spaceId: string, folders: seq<Folder>, lists: seq<ListInfo>)
    ensures (StructureOutput(spaceId, folders, lists) == ["No folders or lists found in space " + spaceId])
              == (|folders| == 0 && |lists| == 0)
  {
    if |folders| > 0 || |lists| > 0 {
      var r := StructureOutput(spaceId, folders, lists);
      assert |r| >= 3 by {
        if |folders| > 0 {
          assert FolderBlocks(folders, 0, |lists|) != [];
        } else {
          assert FolderlessSection(lists, false) != [];
        }
      }
    }
  }

  function FolderRequest(spaceId: string): Client.Request {
    Client.Request(Client.Get, "/space/" + spaceId + "/folder", map[], None)
  }

  function ListRequest(spaceId: string): Client.Request {
    Client.Request(Client.Get, "/space/" + spaceId + "/list", map[], None)
  }

  /**
   * The whole command: the folders are fetched first; if that fails the
   * lists are never asked for. Either failure is returned with its context
   * and nothing is printed.
   */
  function RunSpaceStructure(spaceId: string, folders: Result<seq<Folder>>, lists: Result<seq<ListInfo>>): (r: Run)
    ensures folders.Err? ==> r == Run([FolderRequest(spaceId)], Err(Wrap("getting folders", folders.msg)))
    ensures folders.Ok? ==> r.requests == [FolderRequest(spaceId), ListRequest(spaceId)]
    ensures folders.Ok? && lists.Err? ==> r.outcome == Err(Wrap("getting folderless lists", lists.msg))
    ensures folders.Ok? && lists.Ok? ==> r.outcome == Ok(StructureOutput(spaceId, folders.value, lists.value))
  {
    match folders
    case Err(e) => Run([FolderRequest(spaceId)], Err(Wrap("getting folders", e)))
    case Ok(fs) =>
      var requests := [FolderRequest(spaceId), ListRequest(spaceId)];
      match lists
      case Err(e) => Run(requests, Err(Wrap("getting folderless lists", e)))
      case Ok(ls) => Run(requests, Ok(StructureOutput(spaceId, fs, ls)))
  }
}
