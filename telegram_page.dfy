/**
 * The page state of frontend/src/pages/telegram/TelegramPage.tsx: the selected account and
 * folder and the effects that keep them consistent, the filtered dialog list, the account modal
 * steps, and the requests the handlers send.
 */
module TelegramPage {
  import opened Wrappers
  import opened FrontendTypes

  /** `folders.find(f => f.id === id)`. */
  function FindFolder(folders: seq<TelegramFolder>, id: int): (r: Option<TelegramFolder>)
    ensures r.Some? ==> r.value in folders && r.value.id == id
    ensures r.None? <==> forall k :: 0 <= k < |folders| ==> folders[k].id != id
  {
    if |folders| == 0 then None
    else if folders[0].id == id then Some(folders[0])
    else FindFolder(folders[1..], id)
  }

  /** The chat ids the selected folder restricts the list to, if any: a null or 0 folder id, an
      unknown folder or a folder without `chat_ids` restricts nothing. */
  function FolderRestriction(folders: seq<TelegramFolder>, selectedFolderId: Option<int>): (r: Option<seq<int>>)
    ensures !Truthy(selectedFolderId) ==> r.None?
    ensures Truthy(selectedFolderId) && (forall k :: 0 <= k < |folders| ==> folders[k].id != selectedFolderId.value) ==> r.None?
    ensures r.Some? ==> exists f :: f in folders && f.id == selectedFolderId.value && f.chatIds == r
    ensures Truthy(selectedFolderId) && FindFolder(folders, selectedFolderId.value).Some? ==>
      r == FindFolder(folders, selectedFolderId.value).value.chatIds
  {
    if !Truthy(selectedFolderId) then None
    else
      match FindFolder(folders, selectedFolderId.value)
      case None => None
      case Some(f) => f.chatIds
  }

  /** The dialogs of one account that pass the restriction, in list order. */
  function KeepDialogs(all: seq<Dialog>, accountId: int, restriction: Option<seq<int>>): (r: seq<Dialog>)
    ensures |r| <= |all|
    ensures forall d :: d in r <==> d in all && d.accountId == accountId && (restriction.None? || d.id in restriction.value)
    decreases |all|
  {
    if |all| == 0 then []
    else
      var rest := KeepDialogs(all[1..], accountId, restriction);
      assert forall d :: d in all <==> d == all[0] || d in all[1..];
      if all[0].accountId == accountId && (restriction.None? || all[0].id in restriction.value)
      then [all[0]] + rest else rest
  }

  /** `filteredDialogs`: nothing without a selected account; otherwise exactly the dialogs of that
      account, cut down to the selected folder's chats when it restricts the list. */
  function FilteredDialogs(all: seq<Dialog>, selectedAccountId: Option<int>, selectedFolderId: Option<int>,
                           folders: seq<TelegramFolder>): (r: seq<Dialog>)
    ensures !Truthy(selectedAccountId) ==> r == []
    ensures forall d :: d in r <==>
      Truthy(selectedAccountId) && d in all && d.accountId == selectedAccountId.value &&
      (FolderRestriction(folders, selectedFolderId).None? || d.id in FolderRestriction(folders, selectedFolderId).value)
  {
    if !Truthy(selectedAccountId) then []
    else KeepDialogs(all, selectedAccountId.value, FolderRestriction(folders, selectedFolderId))
  }

  /** Without a folder restriction the list holds every dialog of the account, in order. */
  lemma {:induction false} UnrestrictedKeepsOrder(all: seq<Dialog>, accountId: int)
    requires forall k :: 0 <= k < |all| ==> all[k].accountId == accountId
    ensures KeepDialogs(all, accountId, None) == all
    decreases |all|
  {
    if |all| > 0 {
      UnrestrictedKeepsOrder(all[1..], accountId);
      assert all == [all[0]] + all[1..];
    }
  }

  /** `accounts.find(a => a.id !== id)`. */
  function FirstOther(accounts: seq<TelegramAccount>, id: int): (r: Option<TelegramAccount>)
    ensures r.Some? ==> r.value in accounts && r.value.id != id
    ensures r.Some? ==> exists k :: 0 <= k < |accounts| && accounts[k] == r.value &&
                          forall j :: 0 <= j < k ==> accounts[j].id == id
    ensures r.None? <==> forall k :: 0 <= k < |accounts| ==> accounts[k].id == id
  {
    if |accounts| == 0 then None
    else if accounts[0].id != id then Some(accounts[0])
    else
      var r := FirstOther(accounts[1..], id);
      if r.Some? then
        var k :| 0 <= k < |accounts[1..]| && accounts[1..][k] == r.value &&
                 forall j :: 0 <= j < k ==> accounts[1..][j].id == id;
        assert accounts[k + 1] == r.value;
        r
      else r
  }

  /** The selection after account `id` was deleted: the selection moves to the first other
      account (`?.id || null`, so an id of 0 reads as none) only when `id` was selected. */
  function SelectionAfterDelete(accounts: seq<TelegramAccount>, selected: Option<int>, id: int): (r: Option<int>)
    ensures selected != Some(id) ==> r == selected
    ensures selected == Some(id) ==> r != Some(id)
    ensures selected == Some(id) && r.Some? ==> r.value != 0 && exists a :: a in accounts && a.id == r.value
    ensures selected == Some(id) && (forall k :: 0 <= k < |accounts| ==> accounts[k].id == id) ==> r.None?
  {
    if selected != Some(id) then selected
    else
      match FirstOther(accounts, id)
      case None => None
      case Some(a) => if a.id != 0 then Some(a.id) else None
  }

  datatype Step = Details | Code

  /** The account modal: whether it is open, its step, the phone awaiting a code, and the account
      being edited. */
  datatype Modal = Modal(open: bool, step: Step, pendingPhone: Option<string>, editing: Option<TelegramAccount>)

  const ModalReset: Modal := Modal(false, Details, None, None)

  /** `handleAddAccount`: open at the details step for a new account. */
  function OnAdd(m: Modal): (r: Modal)
    ensures r.open && r.step == Details && r.editing.None? && r.pendingPhone == m.pendingPhone
  {
    Modal(true, Details, m.pendingPhone, None)
  }

  /** `handleCloseModal`: everything back to the start. */
  function OnClose(m: Modal): (r: Modal)
    ensures r == ModalReset
  {
    Modal(false, Details, None, None)
  }

  /** The code was requested for `phone`: ask for the code. */
  function OnCreated(m: Modal, phone: string): (r: Modal)
    ensures r.step == Code && r.pendingPhone == Some(phone) && r.open == m.open && r.editing == m.editing
  {
    Modal(m.open, Code, Some(phone), m.editing)
  }

  /** The account was connected: close at the details step with no pending phone. */
  function OnConfirmed(m: Modal): (r: Modal)
    ensures !r.open && r.step == Details && r.pendingPhone.None? && r.editing == m.editing
  {
    Modal(false, Details, None, m.editing)
  }

  /** The account was updated: close and stop editing. */
  function OnUpdated(m: Modal): (r: Modal)
    ensures !r.open && r.editing.None? && r.step == m.step && r.pendingPhone == m.pendingPhone
  {
    Modal(false, m.step, m.pendingPhone, None)
  }

  /** Adding an account, requesting its code and confirming it leaves the modal as it started. */
  lemma ConnectFlow(m: Modal, phone: string)
    ensures OnCreated(OnAdd(m), phone) == Modal(true, Code, Some(phone), None)
    ensures OnConfirmed(OnCreated(OnAdd(m), phone)) == ModalReset
  {
  }

  /** The data the account form submits. */
  datatype AccountForm = AccountForm(apiId: int, apiHash: string, phone: string, name: Option<string>, username: Option<string>)

  /** A request the page sends to the backend. */
  datatype Request =
    | CreateAccount(apiId: int, apiHash: string, phone: string)
    | ConfirmAccount(phone: string, code: string)
    | UpdateAccount(id: int, name: Option<string>, username: Option<string>)
    | DeleteAccount(id: int)
    | CreateFolder(accountId: int, title: string)
    | RenameFolder(accountId: int, folderId: int, title: string)
    | DeleteFolder(folderId: int, accountId: int)

  /** Folder requests name a selected (non-zero) account; a confirmation names a phone. */
  predicate RequestOk(q: Request) {
    match q
    case ConfirmAccount(phone, _) => phone != ""
    case CreateFolder(a, _) => a != 0
    case RenameFolder(a, _, _) => a != 0
    case DeleteFolder(_, a) => a != 0
    case _ => true
  }

  /** The form's submit: an update of the account being edited, else a new account. */
  function SubmitRequest(m: Modal, form: AccountForm): (r: Request)
    ensures m.editing.Some? ==> r == UpdateAccount(m.editing.value.id, form.name, form.username)
    ensures m.editing.None? ==> r == CreateAccount(form.apiId, form.apiHash, form.phone)
  {
    match m.editing
    case Some(a) => UpdateAccount(a.id, form.name, form.username)
    case None => CreateAccount(form.apiId, form.apiHash, form.phone)
  }

  class Page {
    var selectedAccountId: Option<int>
    var selectedFolderId: Option<int>
    var modal: Modal
    var sent: seq<Request>

    predicate Good()
      reads this
    {
      forall k :: 0 <= k < |sent| ==> RequestOk(sent[k])
    }

    constructor()
      ensures selectedAccountId.None? && selectedFolderId.None? && modal == ModalReset && sent == []
      ensures Good()
    {
      selectedAccountId := None;
      selectedFolderId := None;
      modal := ModalReset;
      sent := [];
    }

    /** The dialog list on screen. */
    function Dialogs(all: seq<Dialog>, folders: seq<TelegramFolder>): seq<Dialog>
      reads this
    {
      FilteredDialogs(all, selectedAccountId, selectedFolderId, folders)
    }

    /** `setSelectedAccountId`, with the effect that resets the folder whenever the account
        actually changes. */
    method SetSelectedAccount(id: Option<int>)
      requires Good()
      modifies this
      ensures Good()
      ensures selectedAccountId == id
      ensures selectedFolderId == if id != old(selectedAccountId) then None else old(selectedFolderId)
      ensures modal == old(modal) && sent == old(sent)
    {
      if id != selectedAccountId {
        selectedFolderId := None;
      }
      selectedAccountId := id;
    }

    /** The effect that selects the first account while none is selected. */
    method SelectDefaultAccount(accounts: seq<TelegramAccount>)
      requires Good()
      modifies this
      ensures Good()
      ensures !Truthy(old(selectedAccountId)) && |accounts| > 0 ==> selectedAccountId == Some(accounts[0].id)
      ensures !(!Truthy(old(selectedAccountId)) && |accounts| > 0) ==> selectedAccountId == old(selectedAccountId)
      ensures selectedAccountId != old(selectedAccountId) ==> selectedFolderId.None?
      ensures selectedAccountId == old(selectedAccountId) ==> selectedFolderId == old(selectedFolderId)
      ensures modal == old(modal) && sent == old(sent)
    {
      if !Truthy(selectedAccountId) && |accounts| > 0 {
        SetSelectedAccount(Some(accounts[0].id));
      }
    }

    method SelectFolder(id: Option<int>)
      requires Good()
      modifies this
      ensures Good()
      ensures selectedFolderId == id
      ensures selectedAccountId == old(selectedAccountId) && modal == old(modal) && sent == old(sent)
    {
      selectedFolderId := id;
    }

    method AddAccount()
      requires Good()
      modifies this
      ensures Good()
      ensures modal == OnAdd(old(modal))
      ensures selectedAccountId == old(selectedAccountId) && selectedFolderId == old(selectedFolderId) && sent == old(sent)
    {
      modal := OnAdd(modal);
    }

    method CloseModal()
      requires Good()
      modifies this
      ensures Good()
      ensures modal == ModalReset
      ensures selectedAccountId == old(selectedAccountId) && selectedFolderId == old(selectedFolderId) && sent == old(sent)
    {
      modal := OnClose(modal);
    }

    /** The account form's submit. */
    method Submit(form: AccountForm)
      requires Good()
      modifies this
      ensures Good()
      ensures sent == old(sent) + [SubmitRequest(old(modal), form)]
      ensures selectedAccountId == old(selectedAccountId) && selectedFolderId == old(selectedFolderId) && modal == old(modal)
    {
      sent := sent + [SubmitRequest(modal, form)];
    }

    /** The code was requested for the submitted phone. */
    method CreateSucceeded(phone: string)
      requires Good()
      modifies this
      ensures Good()
      ensures modal == OnCreated(old(modal), phone)
      ensures selectedAccountId == old(selectedAccountId) && selectedFolderId == old(selectedFolderId) && sent == old(sent)
    {
      modal := OnCreated(modal, phone);
    }

    /** The code form's submit: a confirmation is sent only for a pending phone. */
    method ConfirmCode(code: string)
      requires Good()
      modifies this
      ensures Good()
      ensures Filled(old(modal).pendingPhone) ==> sent == old(sent) + [ConfirmAccount(old(modal).pendingPhone.value, code)]
      ensures !Filled(old(modal).pendingPhone) ==> sent == old(sent)
      ensures selectedAccountId == old(selectedAccountId) && selectedFolderId == old(selectedFolderId) && modal == old(modal)
    {
      if Filled(modal.pendingPhone) {
        sent := sent + [ConfirmAccount(modal.pendingPhone.value, code)];
      }
    }

    method ConfirmSucceeded()
      requires Good()
      modifies this
      ensures Good()
      ensures modal == OnConfirmed(old(modal))
      ensures selectedAccountId == old(selectedAccountId) && selectedFolderId == old(selectedFolderId) && sent == old(sent)
    {
      modal := OnConfirmed(modal);
    }

    method UpdateSucceeded()
      requires Good()
      modifies this
      ensures Good()
      ensures modal == OnUpdated(old(modal))
      ensures selectedAccountId == old(selectedAccountId) && selectedFolderId == old(selectedFolderId) && sent == old(sent)
    {
      modal := OnUpdated(modal);
    }

    /** `handleCreateFolder`: sent only while an account is selected. */
    method CreateFolderFor(title: string)
      requires Good()
      modifies this
      ensures Good()
      ensures Truthy(old(selectedAccountId)) ==> sent == old(sent) + [CreateFolder(old(selectedAccountId).value, title)]
      ensures !Truthy(old(selectedAccountId)) ==> sent == old(sent)
      ensures selectedAccountId == old(selectedAccountId) && selectedFolderId == old(selectedFolderId) && modal == old(modal)
    {
      if Truthy(selectedAccountId) {
        sent := sent + [CreateFolder(selectedAccountId.value, title)];
      }
    }

    /** `handleRenameFolder`: sent only while an account is selected. */
    method RenameFolderOf(folderId: int, title: string)
      requires Good()
      modifies this
      ensures Good()
      ensures Truthy(old(selectedAccountId)) ==> sent == old(sent) + [RenameFolder(old(selectedAccountId).value, folderId, title)]
      ensures !Truthy(old(selectedAccountId)) ==> sent == old(sent)
      ensures selectedAccountId == old(selectedAccountId) && selectedFolderId == old(selectedFolderId) && modal == old(modal)
    {
      if Truthy(selectedAccountId) {
        sent := sent + [RenameFolder(selectedAccountId.value, folderId, title)];
      }
    }

    /** `handleDeleteFolder`: sent only while an account is selected. */
    method DeleteFolderOf(folderId: int)
      requires Good()
      modifies this
      ensures Good()
      ensures Truthy(old(selectedAccountId)) ==> sent == old(sent) + [DeleteFolder(folderId, old(selectedAccountId).value)]
      ensures !Truthy(old(selectedAccountId)) ==> sent == old(sent)
      ensures selectedAccountId == old(selectedAccountId) && selectedFolderId == old(selectedFolderId) && modal == old(modal)
    {
      if Truthy(selectedAccountId) {
        sent := sent + [DeleteFolder(folderId, selectedAccountId.value)];
      }
    }

    /** `handleDeleteAccount`: the delete request. */
    method DeleteAccountOf(id: int)
      requires Good()
      modifies this
      ensures Good()
      ensures sent == old(sent) + [DeleteAccount(id)]
      ensures selectedAccountId == old(selectedAccountId) && selectedFolderId == old(selectedFolderId) && modal == old(modal)
    {
      sent := sent + [DeleteAccount(id)];
    }

    /** The delete succeeded; `accounts` is the list the handler saw, which still holds `id`. */
    method DeleteAccountSucceeded(accounts: seq<TelegramAccount>, id: int)
      requires Good()
      modifies this
      ensures Good()
      ensures selectedAccountId == SelectionAfterDelete(accounts, old(selectedAccountId), id)
      ensures old(selectedAccountId) == Some(id) ==> selectedFolderId.None?
      ensures old(selectedAccountId) != Some(id) ==> selectedFolderId == old(selectedFolderId)
      ensures modal == old(modal) && sent == old(sent)
    {
      if selectedAccountId == Some(id) {
        SetSelectedAccount(SelectionAfterDelete(accounts, selectedAccountId, id));
      }
    }
  }
}
