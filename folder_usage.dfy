/** `toggleFolder` of devtrackr-frontend/src/components/FolderUsage.tsx. */
module FolderUsage {

  datatype Folder = Folder(name: string, hours: real, isExpanded: bool, files: seq<string>)

  /**
   * `prev.map((folder, i) => i === index ? { ...folder, isExpanded: !folder.isExpanded } : folder)`:
   * entry `index` is flipped between expanded and collapsed, and nothing else changes.
   */
  function ToggleFolder(folders: seq<Folder>, index: int): (r: seq<Folder>)
    ensures |r| == |folders|
    ensures 0 <= index < |folders| ==>
      && r[index].isExpanded == !folders[index].isExpanded
      && r[index].name == folders[index].name
      && r[index].hours == folders[index].hours
      && r[index].files == folders[index].files
    ensures forall i :: 0 <= i < |folders| && i != index ==> r[i] == folders[i]
  {
    seq(|folders|, i requires 0 <= i < |folders| =>
      if i == index then folders[i].(isExpanded := !folders[i].isExpanded) else folders[i])
  }

  /** Toggling the same entry twice restores the list. */
  lemma ToggleTwiceRestores(folders: seq<Folder>, index: int)
    ensures ToggleFolder(ToggleFolder(folders, index), index) == folders
  {
  }

  /** An index that names no entry leaves the list as it was. */
  lemma OutOfRangeToggleIsNoOp(folders: seq<Folder>, index: int)
    requires index < 0 || index >= |folders|
    ensures ToggleFolder(folders, index) == folders
  {
  }
}
