/**
 * The folder (dialog filter) procedures and the fetch planning of telegram/telegram/service.py.
 * The Telegram server is represented by the list of dialog filters it returns and by the
 * update requests it is sent; resolving a chat id to an input peer is a parameter.
 */
module TelegramService {
  import opened Wrappers
  import opened TelegramConverters

  /** Telethon input peers; users and channels carry an access hash next to the id. */
  datatype InputPeer =
    | InputPeerUser(userId: int, userHash: int)
    | InputPeerChat(chatId: int)
    | InputPeerChannel(channelId: int, channelHash: int)
    | InputPeerSelf
    | InputPeerEmpty

  /** The dialog filters GetDialogFiltersRequest returns. */
  datatype DialogFilter =
    | Folder(id: int, title: string, includePeers: seq<InputPeer>)    // types.DialogFilter
    | DefaultFilter                                                 // types.DialogFilterDefault, no id
    | Chatlist(id: int, title: string, includePeers: seq<InputPeer>)  // types.DialogFilterChatlist

  /** `UpdateDialogFilterRequest(id=..., filter=...)`; a None filter deletes the folder. */
  datatype FilterUpdate = FilterUpdate(id: int, filter: Option<DialogFilter>)

  datatype ServiceError = FolderNotFound(folderId: int) | ChannelIdNotInt(channelId: int)

  /** One entry of the `get_folders` listing. */
  datatype FolderInfo = FolderInfo(id: int, title: string, chatIds: seq<int>)

  predicate HasId(f: DialogFilter) {
    !f.DefaultFilter?
  }

  /** `next((f for f in filters if getattr(f, "id", None) == folder_id), None)`. */
  function FindFilter(filters: seq<DialogFilter>, folderId: int): (r: Option<DialogFilter>)
    ensures r.Some? ==> r.value in filters && HasId(r.value) && r.value.id == folderId
    ensures r.None? <==> forall i :: 0 <= i < |filters| ==> !(HasId(filters[i]) && filters[i].id == folderId)
  {
    if |filters| == 0 then None
    else if HasId(filters[0]) && filters[0].id == folderId then Some(filters[0])
    else FindFilter(filters[1..], folderId)
  }

  /** The comparison in update_folder_chat's search loop. */
  predicate SamePeer(p: InputPeer, q: InputPeer) {
    || (p.InputPeerUser? && q.InputPeerUser? && p.userId == q.userId)
    || (p.InputPeerChat? && q.InputPeerChat? && p.chatId == q.chatId)
    || (p.InputPeerChannel? && q.InputPeerChannel? && p.channelId == q.channelId)
  }

  /** Kinds whose peers the search loop can match at all. */
  predicate Matchable(p: InputPeer) {
    p.InputPeerUser? || p.InputPeerChat? || p.InputPeerChannel?
  }

  /** Matching ignores access hashes, never pairs peers of different kinds, and is symmetric. */
  lemma SamePeerIgnoresHash(u: int, v: int, h1: int, h2: int)
    ensures SamePeer(InputPeerUser(u, h1), InputPeerUser(v, h2)) <==> u == v
    ensures SamePeer(InputPeerChannel(u, h1), InputPeerChannel(v, h2)) <==> u == v
    ensures !SamePeer(InputPeerUser(u, h1), InputPeerChat(v)) && !SamePeer(InputPeerChat(u), InputPeerChannel(v, h2))
    ensures !SamePeer(InputPeerUser(u, h1), InputPeerChannel(v, h2))
    ensures forall p, q :: SamePeer(p, q) ==> Matchable(p) && Matchable(q) && SamePeer(q, p)
  {
  }

  /** Index of the first peer matching `q`, or -1 (the loop's `peer_index`). */
  function PeerIndex(peers: seq<InputPeer>, q: InputPeer): (r: int)
    ensures -1 <= r < |peers|
    ensures r >= 0 ==> SamePeer(peers[r], q) && forall j :: 0 <= j < r ==> !SamePeer(peers[j], q)
    ensures r == -1 <==> forall j :: 0 <= j < |peers| ==> !SamePeer(peers[j], q)
  {
    if |peers| == 0 then -1
    else if SamePeer(peers[0], q) then 0
    else
      var r := PeerIndex(peers[1..], q);
      if r == -1 then -1 else r + 1
  }

  /** The include_peers list after the edit, or None when update_folder_chat returns False. */
  function EditedPeers(peers: seq<InputPeer>, q: InputPeer, remove: bool): Option<seq<InputPeer>> {
    var i := PeerIndex(peers, q);
    if remove then (if i != -1 then Some(peers[..i] + peers[i + 1..]) else None)
    else (if i == -1 then Some(peers + [q]) else None)
  }

  /**
   * `update_folder_chat`: adds `inputPeer` to, or removes it from, the include_peers of the
   * folder `folderId`. Returns the result and the update request sent, if any.
   */
  method UpdateFolderChat(filters: seq<DialogFilter>, folderId: int, inputPeer: InputPeer, remove: bool)
    returns (r: Result<bool, ServiceError>, sent: Option<FilterUpdate>)
    ensures var t := FindFilter(filters, folderId);
      (t.None? || !t.value.Folder?) ==> r == Err(FolderNotFound(folderId)) && sent.None?
    ensures var t := FindFilter(filters, folderId);
      t.Some? && t.value.Folder? ==>
        var edited := EditedPeers(t.value.includePeers, inputPeer, remove);
        && r == Ok(edited.Some?)
        && sent == (if edited.Some? then Some(FilterUpdate(folderId, Some(Folder(folderId, t.value.title, edited.value)))) else None)
  {
    var target := FindFilter(filters, folderId);
    if target.None? || !target.value.Folder? {
      return Err(FolderNotFound(folderId)), None;
    }
    var currentPeers := target.value.includePeers;
    var peerIndex := -1;
    var i := 0;
    while i < |currentPeers|
      invariant 0 <= i <= |currentPeers|
      invariant peerIndex == -1 ==> forall j :: 0 <= j < i ==> !SamePeer(currentPeers[j], inputPeer)
      invariant peerIndex != -1 ==> peerIndex == PeerIndex(currentPeers, inputPeer)
    {
      if SamePeer(currentPeers[i], inputPeer) {
        peerIndex := i;
        break;
      }
      i := i + 1;
    }
    if remove {
      if peerIndex != -1 {
        currentPeers := currentPeers[..peerIndex] + currentPeers[peerIndex + 1..];
      } else {
        return Ok(false), None;
      }
    } else {
      if peerIndex == -1 {
        currentPeers := currentPeers + [inputPeer];
      } else {
        return Ok(false), None;
      }
    }
    var updated := Folder(target.value.id, target.value.title, currentPeers);
    r, sent := Ok(true), Some(FilterUpdate(folderId, Some(updated)));
  }

  /** Adding an absent peer appends it last; adding a present one changes nothing. */
  lemma AddPeerEffect(peers: seq<InputPeer>, q: InputPeer)
    ensures PeerIndex(peers, q) == -1 ==> EditedPeers(peers, q, false) == Some(peers + [q])
    ensures PeerIndex(peers, q) != -1 ==> EditedPeers(peers, q, false).None?
  {
  }

  /** Removing drops exactly the first matching peer and keeps the others in order. */
  lemma RemovePeerEffect(peers: seq<InputPeer>, q: InputPeer)
    requires PeerIndex(peers, q) != -1
    ensures EditedPeers(peers, q, true).Some?
    ensures |EditedPeers(peers, q, true).value| == |peers| - 1
    ensures forall j :: 0 <= j < PeerIndex(peers, q) ==> EditedPeers(peers, q, true).value[j] == peers[j]
    ensures forall j :: PeerIndex(peers, q) <= j < |peers| - 1 ==> EditedPeers(peers, q, true).value[j] == peers[j + 1]
  {
  }

  /** Removing a peer the folder does not hold changes nothing. */
  lemma RemoveAbsentPeer(peers: seq<InputPeer>, q: InputPeer)
    requires PeerIndex(peers, q) == -1
    ensures EditedPeers(peers, q, true).None?
  {
  }

  /** Appending to a list without a match: the new last element is the first match, if any. */
  lemma {:induction false} PeerIndexAppend(peers: seq<InputPeer>, q: InputPeer, x: InputPeer)
    requires PeerIndex(peers, q) == -1
    ensures PeerIndex(peers + [x], q) == (if SamePeer(x, q) then |peers| else -1)
    decreases |peers|
  {
    if |peers| > 0 {
      assert (peers + [x])[1..] == peers[1..] + [x];
      PeerIndexAppend(peers[1..], q, x);
    }
  }

  /** Round trip: adding a matchable peer that is not in the folder and removing it again
      gives back the original include_peers. */
  lemma AddThenRemove(peers: seq<InputPeer>, q: InputPeer)
    requires Matchable(q) && PeerIndex(peers, q) == -1
    ensures EditedPeers(peers, q, false) == Some(peers + [q])
    ensures EditedPeers(peers + [q], q, true) == Some(peers)
  {
    var added := peers + [q];
    PeerIndexAppend(peers, q, q);
    assert added[..|peers|] + added[|peers| + 1..] == peers;
  }

  /** A peer the loop cannot match (InputPeerSelf, InputPeerEmpty) is appended on every add and
      never removed. */
  lemma UnmatchablePeer(peers: seq<InputPeer>, q: InputPeer)
    requires !Matchable(q)
    ensures EditedPeers(peers, q, false) == Some(peers + [q])
    ensures EditedPeers(peers, q, true).None?
  {
  }

  /** `rename_folder`: replaces the title of the folder, or fails like update_folder_chat. */
  function RenameFolder(filters: seq<DialogFilter>, folderId: int, newTitle: string): (r: Result<FilterUpdate, ServiceError>)
    ensures r.Err? <==> FindFilter(filters, folderId).None? || !FindFilter(filters, folderId).value.Folder?
    ensures r.Err? ==> r.error == FolderNotFound(folderId)
    ensures r.Ok? ==> var t := FindFilter(filters, folderId).value;
      && r.value.id == folderId && r.value.filter.Some?
      && r.value.filter.value.Folder?
      && r.value.filter.value.id == t.id
      && r.value.filter.value.title == newTitle
      && r.value.filter.value.includePeers == t.includePeers
  {
    var t := FindFilter(filters, folderId);
    if t.None? || !t.value.Folder? then Err(FolderNotFound(folderId))
    else Ok(FilterUpdate(folderId, Some(Folder(t.value.id, newTitle, t.value.includePeers))))
  }

  /** `delete_folder`: one update request with no filter, answered with True. */
  function DeleteFolder(folderId: int): (r: (bool, FilterUpdate))
    ensures r.0 && r.1.id == folderId && r.1.filter.None?
  {
    (true, FilterUpdate(folderId, None))
  }

  /** `max(existing_ids) + 1 if existing_ids else 2` over the filters that have an id. */
  function NewFolderId(filters: seq<DialogFilter>): (r: int)
    ensures forall i :: 0 <= i < |filters| && HasId(filters[i]) ==> filters[i].id < r
    ensures (forall i :: 0 <= i < |filters| ==> !HasId(filters[i])) ==> r == 2
    ensures (exists i :: 0 <= i < |filters| && HasId(filters[i])) ==>
      exists i :: 0 <= i < |filters| && HasId(filters[i]) && filters[i].id == r - 1
  {
    if |filters| == 0 then 2
    else
      var rest := NewFolderId(filters[1..]);
      if !HasId(filters[0]) then rest
      else if (exists i :: 0 <= i < |filters| - 1 && HasId(filters[1..][i])) then
        (if filters[0].id + 1 > rest then filters[0].id + 1 else rest)
      else filters[0].id + 1
  }

  /** The allocated id differs from the id of every existing filter. */
  lemma NewFolderIdFresh(filters: seq<DialogFilter>, f: DialogFilter)
    requires f in filters && HasId(f)
    ensures f.id != NewFolderId(filters)
  {
  }

  /**
   * `create_folder`: the initial chat is `chatId`, or the current user when it is None;
   * the new folder holds exactly that chat's input peer.
   */
  function CreateFolder(filters: seq<DialogFilter>, title: string, chatId: Option<int>, meId: int,
                        inputEntity: int -> InputPeer): (r: (int, FilterUpdate))
    ensures r.0 == NewFolderId(filters) && r.1.id == r.0
    ensures r.1.filter == Some(Folder(r.0, title, [inputEntity(if chatId.Some? then chatId.value else meId)]))
    ensures forall i :: 0 <= i < |filters| && HasId(filters[i]) ==> filters[i].id != r.0
  {
    var chat := if chatId.Some? then chatId.value else meId;
    var newId := NewFolderId(filters);
    (newId, FilterUpdate(newId, Some(Folder(newId, title, [inputEntity(chat)]))))
  }

  /** The id a listed peer stands for: user_id, chat_id, or the channel dialog id. */
  predicate ListedAs(p: InputPeer, id: int) {
    || (p.InputPeerUser? && id == p.userId)
    || (p.InputPeerChat? && id == p.chatId)
    || (p.InputPeerChannel? && ChannelChatId(p.channelId) == Some(id))
  }

  /** The chat ids of a filter's include_peers, in order; a negative channel id raises. */
  function ChatIdsOf(peers: seq<InputPeer>): (r: Result<seq<int>, ServiceError>)
    ensures r.Ok? <==> forall i :: 0 <= i < |peers| && peers[i].InputPeerChannel? ==> peers[i].channelId >= 0
    ensures r.Err? ==> r.error.ChannelIdNotInt? && r.error.channelId < 0
    ensures r.Err? ==> exists i :: 0 <= i < |peers| && peers[i].InputPeerChannel? && peers[i].channelId == r.error.channelId
    decreases |peers|
  {
    if |peers| == 0 then Ok([])
    else
      var p := peers[0];
      var rest := ChatIdsOf(peers[1..]);
      assert forall i :: 1 <= i < |peers| ==> peers[i] == peers[1..][i - 1];
      if p.InputPeerChannel? && p.channelId < 0 then
        ChannelChatIdValue(p.channelId);
        Err(ChannelIdNotInt(p.channelId))
      else if rest.Err? then rest
      else if p.InputPeerUser? then Ok([p.userId] + rest.value)
      else if p.InputPeerChat? then Ok([p.chatId] + rest.value)
      else if p.InputPeerChannel? then
        ChannelChatIdValue(p.channelId);
        Ok([ChannelChatId(p.channelId).value] + rest.value)
      else rest
  }

  /** Every matchable peer is listed under its id; the peers that cannot be matched are skipped. */
  lemma {:induction false} ChatIdsCover(peers: seq<InputPeer>)
    requires ChatIdsOf(peers).Ok?
    ensures var ids := ChatIdsOf(peers).value;
      forall i :: 0 <= i < |peers| && Matchable(peers[i]) ==> exists k :: 0 <= k < |ids| && ListedAs(peers[i], ids[k])
    ensures |ChatIdsOf(peers).value| <= |peers|
    decreases |peers|
  {
    if |peers| > 0 {
      var p := peers[0];
      var tail := peers[1..];
      ChatIdsCover(tail);
      var ids := ChatIdsOf(peers).value;
      var rest := ChatIdsOf(tail).value;
      assert forall i :: 1 <= i < |peers| ==> peers[i] == tail[i - 1];
      if Matchable(p) {
        assert ids == [ids[0]] + rest;
        assert ListedAs(p, ids[0]) by {
          if p.InputPeerChannel? {
            ChannelChatIdValue(p.channelId);
          }
        }
        forall i | 1 <= i < |peers| && Matchable(peers[i])
          ensures exists k :: 0 <= k < |ids| && ListedAs(peers[i], ids[k])
        {
          var k :| 0 <= k < |rest| && ListedAs(tail[i - 1], rest[k]);
          assert ids[k + 1] == rest[k];
        }
      } else {
        assert ids == rest;
      }
    }
  }

  /** Every listed id stands for one of the peers. */
  lemma {:induction false} ChatIdsFromPeers(peers: seq<InputPeer>)
    requires ChatIdsOf(peers).Ok?
    ensures var ids := ChatIdsOf(peers).value;
      forall k :: 0 <= k < |ids| ==> exists i :: 0 <= i < |peers| && ListedAs(peers[i], ids[k])
    decreases |peers|
  {
    if |peers| > 0 {
      var p := peers[0];
      var tail := peers[1..];
      ChatIdsFromPeers(tail);
      var ids := ChatIdsOf(peers).value;
      var rest := ChatIdsOf(tail).value;
      if Matchable(p) {
        assert ids == [ids[0]] + rest;
        assert ListedAs(p, ids[0]) by {
          if p.InputPeerChannel? {
            ChannelChatIdValue(p.channelId);
          }
        }
        forall k | 1 <= k < |ids|
          ensures exists i :: 0 <= i < |peers| && ListedAs(peers[i], ids[k])
        {
          var i :| 0 <= i < |tail| && ListedAs(tail[i], rest[k - 1]);
          assert peers[i + 1] == tail[i];
        }
      } else {
        assert ids == rest;
        forall k | 0 <= k < |ids|
          ensures exists i :: 0 <= i < |peers| && ListedAs(peers[i], ids[k])
        {
          var i :| 0 <= i < |tail| && ListedAs(tail[i], rest[k]);
          assert peers[i + 1] == tail[i];
        }
      }
    }
  }

  /** `prefix` put in front of the ids of a successful collection; errors pass through. */
  function PrependIds(prefix: seq<int>, r: Result<seq<int>, ServiceError>): Result<seq<int>, ServiceError> {
    if r.Ok? then Ok(prefix + r.value) else r
  }

  /** Two prefixes in a row are one longer prefix. */
  lemma PrependTwice(a: seq<int>, b: seq<int>, r: Result<seq<int>, ServiceError>)
    ensures PrependIds(a, PrependIds(b, r)) == PrependIds(a + b, r)
  {
    if r.Ok? {
      assert a + (b + r.value) == (a + b) + r.value;
    }
  }

  /** What the peer at `i` contributes in front of the ids of the peers after it. */
  lemma ChatIdsStep(peers: seq<InputPeer>, i: int)
    requires 0 <= i < |peers|
    ensures var p := peers[i];
      var rest := ChatIdsOf(peers[i + 1..]);
      ChatIdsOf(peers[i..]) ==
        if p.InputPeerChannel? && p.channelId < 0 then Err(ChannelIdNotInt(p.channelId))
        else if p.InputPeerUser? then PrependIds([p.userId], rest)
        else if p.InputPeerChat? then PrependIds([p.chatId], rest)
        else if p.InputPeerChannel? then PrependIds([ChannelChatId(p.channelId).GetOr(0)], rest)
        else rest
  {
    assert peers[i..][1..] == peers[i + 1..];
    var p := peers[i];
    var rest := ChatIdsOf(peers[i + 1..]);
    if rest.Err? {
      assert PrependIds([0], rest) == rest;
    }
    if p.InputPeerChannel? {
      ChannelChatIdValue(p.channelId);
    }
  }

  /** The loop of get_folders and sync_dialogs that collects the chat ids of include_peers. */
  method CollectChatIds(peers: seq<InputPeer>) returns (r: Result<seq<int>, ServiceError>)
    ensures r == ChatIdsOf(peers)
  {
    var chatIds: seq<int> := [];
    var i := 0;
    assert peers[0..] == peers;
    assert PrependIds([], ChatIdsOf(peers)) == ChatIdsOf(peers) by {
      if ChatIdsOf(peers).Ok? {
        assert [] + ChatIdsOf(peers).value == ChatIdsOf(peers).value;
      }
    }
    while i < |peers|
      invariant 0 <= i <= |peers|
      invariant ChatIdsOf(peers) == PrependIds(chatIds, ChatIdsOf(peers[i..]))
    {
      var p := peers[i];
      var rest := ChatIdsOf(peers[i + 1..]);
      ChatIdsStep(peers, i);
      match p {
        case InputPeerUser(u, _) =>
          PrependTwice(chatIds, [u], rest);
          chatIds := chatIds + [u];
        case InputPeerChat(c) =>
          PrependTwice(chatIds, [c], rest);
          chatIds := chatIds + [c];
        case InputPeerChannel(c, _) =>
          var id := ChannelChatId(c);
          ChannelChatIdValue(c);
          if id.None? {
            return Err(ChannelIdNotInt(c));
          }
          PrependTwice(chatIds, [id.value], rest);
          chatIds := chatIds + [id.value];
        case _ =>
      }
      i := i + 1;
    }
    assert peers[i..] == [];
    assert chatIds + [] == chatIds;
    r := Ok(chatIds);
  }

  /** The peers `hasattr(f, "include_peers")` finds: none for the default filter. */
  function IncludePeers(f: DialogFilter): seq<InputPeer> {
    if f.DefaultFilter? then [] else f.includePeers
  }

  /** The listing get_folders builds: DialogFilter entries with their chat ids, the default
      filter as id 0 "All Chats", chat lists dropped. */
  function FolderListing(filters: seq<DialogFilter>): Result<seq<FolderInfo>, ServiceError>
    decreases |filters|
  {
    if |filters| == 0 then Ok([])
    else
      var f := filters[0];
      match ChatIdsOf(IncludePeers(f))
      case Err(e) => Err(e)
      case Ok(ids) =>
        match FolderListing(filters[1..])
        case Err(e) => Err(e)
        case Ok(rest) =>
          if f.Folder? then Ok([FolderInfo(f.id, f.title, ids)] + rest)
          else if f.DefaultFilter? then Ok([FolderInfo(0, "All Chats", [])] + rest)
          else Ok(rest)
  }

  /** `prefix` put in front of a successful listing; errors pass through. */
  function PrependInfos(prefix: seq<FolderInfo>, r: Result<seq<FolderInfo>, ServiceError>): Result<seq<FolderInfo>, ServiceError> {
    if r.Ok? then Ok(prefix + r.value) else r
  }

  /** What one filter adds to the listing once its chat ids are known. */
  function ListingEntry(f: DialogFilter, ids: seq<int>): seq<FolderInfo> {
    if f.Folder? then [FolderInfo(f.id, f.title, ids)]
    else if f.DefaultFilter? then [FolderInfo(0, "All Chats", [])]
    else []
  }

  /** One filter more: its chat-id error ends the listing, otherwise its entry joins the prefix. */
  lemma FolderListingStep(filters: seq<DialogFilter>, i: nat, results: seq<FolderInfo>)
    requires i < |filters|
    ensures var ids := ChatIdsOf(IncludePeers(filters[i]));
      ids.Err? ==> PrependInfos(results, FolderListing(filters[i..])) == Err(ids.error)
    ensures var ids := ChatIdsOf(IncludePeers(filters[i]));
      ids.Ok? ==> PrependInfos(results, FolderListing(filters[i..])) ==
                  PrependInfos(results + ListingEntry(filters[i], ids.value), FolderListing(filters[i + 1..]))
  {
    assert filters[i..][0] == filters[i];
    assert filters[i..][1..] == filters[i + 1..];
    var ids := ChatIdsOf(IncludePeers(filters[i]));
    var rest := FolderListing(filters[i + 1..]);
    if ids.Ok? && rest.Ok? {
      var e := ListingEntry(filters[i], ids.value);
      assert e + rest.value == (if filters[i].Folder? || filters[i].DefaultFilter? then e + rest.value else rest.value);
      assert FolderListing(filters[i..]) == Ok(e + rest.value);
      assert results + (e + rest.value) == (results + e) + rest.value;
    }
  }

  /** `get_folders`. */
  method GetFolders(filters: seq<DialogFilter>) returns (r: Result<seq<FolderInfo>, ServiceError>)
    ensures r == FolderListing(filters)
  {
    var results: seq<FolderInfo> := [];
    var i := 0;
    assert filters[0..] == filters;
    assert FolderListing(filters).Ok? ==> [] + FolderListing(filters).value == FolderListing(filters).value;
    while i < |filters|
      invariant 0 <= i <= |filters|
      invariant FolderListing(filters) == PrependInfos(results, FolderListing(filters[i..]))
    {
      var f := filters[i];
      FolderListingStep(filters, i, results);
      var chatIds := CollectChatIds(IncludePeers(f));
      if chatIds.Err? {
        return Err(chatIds.error);
      }
      if f.Folder? {
        results := results + [FolderInfo(f.id, f.title, chatIds.value)];
      } else if f.DefaultFilter? {
        results := results + [FolderInfo(0, "All Chats", [])];
      }
      i := i + 1;
    }
    assert filters[i..] == [];
    assert results + [] == results;
    r := Ok(results);
  }

  /** Every listed entry is the default entry or a DialogFilter with its own chat ids, and every
      DialogFilter is listed. */
  lemma {:induction false} FolderListingEntries(filters: seq<DialogFilter>)
    requires FolderListing(filters).Ok?
    ensures forall info :: info in FolderListing(filters).value ==>
      || info == FolderInfo(0, "All Chats", [])
      || exists f :: f in filters && f.Folder? && ChatIdsOf(f.includePeers).Ok? &&
                     info == FolderInfo(f.id, f.title, ChatIdsOf(f.includePeers).value)
    ensures forall f :: f in filters && f.Folder? ==>
      ChatIdsOf(f.includePeers).Ok? && FolderInfo(f.id, f.title, ChatIdsOf(f.includePeers).value) in FolderListing(filters).value
    ensures DefaultFilter in filters ==> FolderInfo(0, "All Chats", []) in FolderListing(filters).value
    decreases |filters|
  {
    if |filters| > 0 {
      FolderListingEntries(filters[1..]);
      assert forall f :: f in filters ==> f == filters[0] || f in filters[1..];
    }
  }

  /** A dialog as `get_dialogs` returns it (the fields sync_dialogs reads). */
  datatype TgDialog = TgDialog(id: int, name: string, username: Option<string>, flags: DialogFlags)

  /** `[d for d in dialogs if d.id in included_peer_ids]`. */
  function KeepListed(dialogs: seq<TgDialog>, ids: seq<int>): (r: seq<TgDialog>)
    ensures forall d :: d in r <==> d in dialogs && d.id in ids
    ensures |r| <= |dialogs|
  {
    if |dialogs| == 0 then []
    else (if dialogs[0].id in ids then [dialogs[0]] else []) + KeepListed(dialogs[1..], ids)
  }

  /** The folder restriction of `sync_dialogs`: all dialogs without a folder id, otherwise the
      dialogs listed in that filter (any kind of filter with that id). */
  method SyncDialogsSelection(dialogs: seq<TgDialog>, filters: seq<DialogFilter>, folderId: Option<int>)
    returns (r: Result<seq<TgDialog>, ServiceError>)
    ensures folderId.None? ==> r == Ok(dialogs)
    ensures folderId.Some? && FindFilter(filters, folderId.value).None? ==> r == Err(FolderNotFound(folderId.value))
    ensures folderId.Some? && FindFilter(filters, folderId.value).Some? ==>
      var ids := ChatIdsOf(IncludePeers(FindFilter(filters, folderId.value).value));
      r == (if ids.Ok? then Ok(KeepListed(dialogs, ids.value)) else Err(ids.error))
  {
    if folderId.None? {
      return Ok(dialogs);
    }
    var target := FindFilter(filters, folderId.value);
    if target.None? {
      return Err(FolderNotFound(folderId.value));
    }
    var included := CollectChatIds(IncludePeers(target.value));
    if included.Err? {
      return Err(included.error);
    }
    r := Ok(KeepListed(dialogs, included.value));
  }

  /**
   * `next(d for d in dialogs if d.id == dialog)`, when get_messages is given a dialog id: the
   * position of the first dialog with that id, or None where the generator runs dry and
   * StopIteration escapes get_messages.
   */
  function ResolveDialog(dialogIds: seq<int>, id: int): (r: Option<nat>)
    ensures r.Some? ==> r.value < |dialogIds| && dialogIds[r.value] == id
    ensures r.Some? ==> forall k :: 0 <= k < r.value ==> dialogIds[k] != id
    ensures r.None? <==> forall k :: 0 <= k < |dialogIds| ==> dialogIds[k] != id
    decreases |dialogIds|
  {
    if |dialogIds| == 0 then None
    else if dialogIds[0] == id then Some(0)
    else
      match ResolveDialog(dialogIds[1..], id)
      case None => None
      case Some(j) => Some(j + 1)
  }

  /** What the date probe of get_messages found: no date given, no message, or a first message. */
  datatype Probe = NotGiven | NoMessage | FirstMessage(messageId: int)

  /** The keyword arguments get_messages passes to iter_messages (the entity aside). */
  datatype FetchArgs = FetchArgs(limit: Option<int>, maxId: Option<int>, minId: Option<int>)

  /** Python truthiness of an optional int. */
  predicate Truthy(o: Option<int>) {
    o.Some? && o.value != 0
  }

  /**
   * The planning part of `get_messages`: None when it returns [] without iterating, otherwise
   * the arguments of iter_messages.
   */
  method PlanMessageFetch(maxMessages: Option<int>, dateTo: Probe, dateFrom: Probe, newOnly: bool, unreadCount: int)
    returns (plan: Option<FetchArgs>)
    ensures plan.None? <==> dateTo == NoMessage || (newOnly && unreadCount <= 0)
    ensures plan.Some? ==> plan.value.maxId == (if dateTo.FirstMessage? then Some(dateTo.messageId + 1) else None)
    ensures plan.Some? ==> plan.value.minId == (if dateFrom.FirstMessage? then Some(dateFrom.messageId) else None)
    ensures plan.Some? && !newOnly ==> plan.value.limit == maxMessages
    ensures plan.Some? && newOnly ==> unreadCount > 0 && plan.value.limit.Some?
    ensures plan.Some? && newOnly ==>
      plan.value.limit.value == (if Truthy(maxMessages) && maxMessages.value < unreadCount then maxMessages.value else unreadCount)
    ensures plan.Some? && newOnly ==> plan.value.limit.value <= unreadCount
    ensures plan.Some? && newOnly && Truthy(maxMessages) ==> plan.value.limit.value <= maxMessages.value
  {
    var kwargs := FetchArgs(maxMessages, None, None);
    if dateTo != NotGiven {
      if dateTo == NoMessage {
        return None;
      }
      kwargs := kwargs.(maxId := Some(dateTo.messageId + 1));
    }
    if dateFrom.FirstMessage? {
      kwargs := kwargs.(minId := Some(dateFrom.messageId));
    }
    if newOnly {
      if unreadCount <= 0 {
        return None;
      }
      var unreadLimit := unreadCount;
      if Truthy(kwargs.limit) {
        kwargs := kwargs.(limit := Some(if kwargs.limit.value < unreadLimit then kwargs.limit.value else unreadLimit));
      } else {
        kwargs := kwargs.(limit := Some(unreadLimit));
      }
    }
    plan := Some(kwargs);
  }
}
