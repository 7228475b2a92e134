/**
 * The folder chips of frontend/src/pages/telegram/components/FolderList.tsx: the pseudo folder
 * "All Chats" followed by the account's folders, the active chip, and the inline create and
 * rename editors with the callbacks they invoke.
 */
module FolderList {
  import opened Wrappers
  import opened Strings
  import opened FrontendTypes

  const AllChatsId: int := 0
  const AllChatsTitle: string := "All Chats"

  /** A chip: the folder's id and title. */
  datatype Item = Item(id: int, title: string)

  /** A folder that is not the pseudo folder by id or by title. */
  predicate IsReal(f: TelegramFolder) {
    f.id != AllChatsId && f.title != AllChatsTitle
  }

  /** `folders.filter(f => f.id !== ALL_CHATS_ID && f.title !== 'All Chats')`. */
  function RealFolders(folders: seq<TelegramFolder>): (r: seq<Item>)
    ensures |r| <= |folders|
    ensures forall k :: 0 <= k < |r| ==> r[k].id != AllChatsId && r[k].title != AllChatsTitle
    ensures forall f :: f in folders && IsReal(f) ==> Item(f.id, f.title) in r
    ensures forall it :: it in r ==> exists f :: f in folders && IsReal(f) && it == Item(f.id, f.title)
    decreases |folders|
  {
    if |folders| == 0 then []
    else
      var rest := RealFolders(folders[1..]);
      assert forall f :: f in folders ==> f == folders[0] || f in folders[1..];
      if IsReal(folders[0]) then [Item(folders[0].id, folders[0].title)] + rest else rest
  }

  /** `allItems`: the pseudo folder first, then every real folder in its original order. */
  function AllItems(folders: seq<TelegramFolder>): (r: seq<Item>)
    ensures |r| >= 1 && r[0] == Item(AllChatsId, AllChatsTitle)
    ensures r[1..] == RealFolders(folders)
    ensures forall k :: 1 <= k < |r| ==> r[k].id != AllChatsId
  {
    [Item(AllChatsId, AllChatsTitle)] + RealFolders(folders)
  }

  /** A list without pseudo entries is kept whole and in order. */
  lemma {:induction false} RealFoldersKeepOrder(folders: seq<TelegramFolder>)
    requires forall k :: 0 <= k < |folders| ==> IsReal(folders[k])
    ensures RealFolders(folders) == seq(|folders|, k requires 0 <= k < |folders| => Item(folders[k].id, folders[k].title))
    decreases |folders|
  {
    if |folders| > 0 {
      RealFoldersKeepOrder(folders[1..]);
    }
  }

  /** `selectedFolderId ?? ALL_CHATS_ID`. */
  function ActiveId(selected: Option<int>): (r: int)
    ensures selected.None? ==> r == AllChatsId
    ensures selected.Some? ==> r == selected.value
  {
    selected.GetOr(AllChatsId)
  }

  /** Only a real folder can be renamed or deleted. */
  predicate CanEdit(item: Item) {
    item.id != AllChatsId
  }

  /** A callback the chips invoke on the page. */
  datatype Call = SelectFolder(id: int) | CreateFolder(title: string) | RenameFolder(id: int, title: string) | DeleteFolder(id: int)

  /** A created or renamed title is trimmed and not blank; a rename or delete never targets the
      pseudo folder. */
  predicate CallOk(c: Call) {
    match c
    case SelectFolder(_) => true
    case CreateFolder(t) => t != "" && Trimmed(t)
    case RenameFolder(id, t) => id != AllChatsId && t != "" && Trimmed(t)
    case DeleteFolder(id) => id != AllChatsId
  }

  /** The editing state of the chip list and the callbacks issued so far. */
  class Editor {
    var isAdding: bool
    var editingId: Option<int>
    var newFolderTitle: string
    var editTitle: string
    var calls: seq<Call>

    /** Only a real folder is ever being renamed, and every call issued is well formed. */
    predicate Good()
      reads this
    {
      editingId != Some(AllChatsId) && forall k :: 0 <= k < |calls| ==> CallOk(calls[k])
    }

    constructor()
      ensures Good()
      ensures !isAdding && editingId.None? && newFolderTitle == "" && editTitle == "" && calls == []
    {
      isAdding := false;
      editingId := None;
      newFolderTitle := "";
      editTitle := "";
      calls := [];
    }

    /** The "New Folder" button opens the title input. */
    method StartAdding()
      requires Good()
      modifies this
      ensures Good()
      ensures isAdding
      ensures editingId == old(editingId) && newFolderTitle == old(newFolderTitle) && editTitle == old(editTitle) && calls == old(calls)
    {
      isAdding := true;
    }

    method TypeNewTitle(text: string)
      requires Good()
      modifies this
      ensures Good()
      ensures newFolderTitle == text
      ensures isAdding == old(isAdding) && editingId == old(editingId) && editTitle == old(editTitle) && calls == old(calls)
    {
      newFolderTitle := text;
    }

    method TypeEditTitle(text: string)
      requires Good()
      modifies this
      ensures Good()
      ensures editTitle == text
      ensures isAdding == old(isAdding) && editingId == old(editingId) && newFolderTitle == old(newFolderTitle) && calls == old(calls)
    {
      editTitle := text;
    }

    /** `handleCreate`: a title that is not blank is created trimmed, then the input is cleared
        and closed; a blank title changes nothing. */
    method SubmitCreate()
      requires Good()
      modifies this
      ensures Good()
      ensures Trim(old(newFolderTitle)) != "" ==>
        calls == old(calls) + [CreateFolder(Trim(old(newFolderTitle)))] && newFolderTitle == "" && !isAdding
      ensures Trim(old(newFolderTitle)) == "" ==>
        calls == old(calls) && newFolderTitle == old(newFolderTitle) && isAdding == old(isAdding)
      ensures editingId == old(editingId) && editTitle == old(editTitle)
    {
      if Trim(newFolderTitle) != "" {
        calls := calls + [CreateFolder(Trim(newFolderTitle))];
        newFolderTitle := "";
        isAdding := false;
      }
    }

    /** `handleRenameSubmit`: with a folder being edited and a title that is not blank, rename it
        to the trimmed title and leave edit mode; otherwise nothing changes. */
    method SubmitRename()
      requires Good()
      modifies this
      ensures Good()
      ensures Trim(old(editTitle)) != "" && old(editingId).Some? ==>
        calls == old(calls) + [RenameFolder(old(editingId).value, Trim(old(editTitle)))] && editingId.None?
      ensures !(Trim(old(editTitle)) != "" && old(editingId).Some?) ==>
        calls == old(calls) && editingId == old(editingId)
      ensures isAdding == old(isAdding) && newFolderTitle == old(newFolderTitle) && editTitle == old(editTitle)
    {
      if Trim(editTitle) != "" && editingId.Some? {
        calls := calls + [RenameFolder(editingId.value, Trim(editTitle))];
        editingId := None;
      }
    }

    /** Right click on a real folder starts renaming it with its current title; on the pseudo
        folder it does nothing. */
    method ContextMenu(item: Item)
      requires Good()
      modifies this
      ensures Good()
      ensures CanEdit(item) ==> editingId == Some(item.id) && editTitle == item.title
      ensures !CanEdit(item) ==> editingId == old(editingId) && editTitle == old(editTitle)
      ensures isAdding == old(isAdding) && newFolderTitle == old(newFolderTitle) && calls == old(calls)
    {
      if CanEdit(item) {
        editingId := Some(item.id);
        editTitle := item.title;
      }
    }

    /** Leaving the rename input discards the edit. */
    method BlurRename()
      requires Good()
      modifies this
      ensures Good()
      ensures editingId.None?
      ensures isAdding == old(isAdding) && newFolderTitle == old(newFolderTitle) && editTitle == old(editTitle) && calls == old(calls)
    {
      editingId := None;
    }

    /** Leaving the create input closes it only while it is empty. */
    method BlurCreate()
      requires Good()
      modifies this
      ensures Good()
      ensures isAdding == (old(isAdding) && old(newFolderTitle) != "")
      ensures editingId == old(editingId) && newFolderTitle == old(newFolderTitle) && editTitle == old(editTitle) && calls == old(calls)
    {
      if newFolderTitle == "" {
        isAdding := false;
      }
    }

    /** The X button always closes the create input, keeping what was typed. */
    method CloseAdding()
      requires Good()
      modifies this
      ensures Good()
      ensures !isAdding
      ensures editingId == old(editingId) && newFolderTitle == old(newFolderTitle) && editTitle == old(editTitle) && calls == old(calls)
    {
      isAdding := false;
    }

    method ClickFolder(item: Item)
      requires Good()
      modifies this
      ensures Good()
      ensures calls == old(calls) + [SelectFolder(item.id)]
      ensures isAdding == old(isAdding) && editingId == old(editingId) && newFolderTitle == old(newFolderTitle) && editTitle == old(editTitle)
    {
      calls := calls + [SelectFolder(item.id)];
    }

    /** The delete button exists only on real folders; it asks first (`confirmed` is the answer)
        and does not select the folder. */
    method ClickDelete(item: Item, confirmed: bool)
      requires CanEdit(item)
      requires Good()
      modifies this
      ensures Good()
      ensures calls == old(calls) + (if confirmed then [DeleteFolder(item.id)] else [])
      ensures isAdding == old(isAdding) && editingId == old(editingId) && newFolderTitle == old(newFolderTitle) && editTitle == old(editTitle)
    {
      if confirmed {
        calls := calls + [DeleteFolder(item.id)];
      }
    }
  }
}
