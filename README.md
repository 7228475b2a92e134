# A verified model of the manager's core rules

The manager collects Telegram messages and has an LLM agent review them as job vacancies. It stores the reviews and tracks each approved vacancy through a Kanban pipeline. It has a Python side (the Telegram service, the review agent, the backend's authentication) and a React front end.

This project models the deterministic rules of both sides in Dafny and proves them against their specification functions:

- **Telegram layer:**
  - folder membership edits;
  - the `-100` channel-id encoding;
  - new folder ids;
  - fetch-limit planning;
  - peer classification.
- **Agent:**
  - the budgeted batch loop;
  - index filtering of the AI results;
  - contact rewriting;
  - the review upsert with one progress record per approved review;
  - the prompt text.
- **Backend:** the per-account client cache, the token/subject/user chain, and the role gate.
- **Front end:**
  - formatters;
  - vacancy filtering;
  - Kanban grouping;
  - dialog and folder selection;
  - inline folder editing;
  - initials and display names;
  - the agent run state machine;
  - HTTP request planning and response handling;
  - the session store, the toast queue and the account form validators.

## How the model is built

Code that computes a value is modelled as Dafny functions with postconditions, plus lemmas.

Code that updates state is modelled as follows:

- React components that keep state become classes whose methods state the whole new state:
  - the folder inline editor;
  - the Telegram page;
  - the agent page;
  - the token store and the session store;
  - the toast queue;
  - the client registry;
  - the review database.
- Loops become methods proved against a recursive specification function:
  - the peer search;
  - chat-id collection;
  - folder listing;
  - prompt accumulation;
  - contact resolution;
  - the batch loop;
  - Kanban bucketing;
  - header building.

Everything outside the program becomes a parameter:

- Telethon answers;
- the database rows;
- the LLM;
- `resolve_username`;
- the JWT decoder;
- `confirm()` dialogs;
- `Math.random` ids;
- `window.location`;
- `fetch` responses.

### Shared modules

- `Wrappers`: Option and Result.
- `Strings`: ASCII case mapping, JavaScript's `trim`, `split(/\s+/)` and `split(':')`, substring search.
- `Decimal`: Python `str`/`int` and JavaScript `toString`/`Number` on decimal integers.
- `Models`: the enumerations and records of shared/shared/models.py.
- `FrontendTypes`: the front end's records and JavaScript truthiness (`Filled`, `OrElse`, `Truthy`).

## Model

| member | source | states |
|---|---|---|
| TelegramConverters.ExtractDialogType | telegram/telegram/converters.py:5-12 | user wins over group, which wins over channel; none set is an UnknownDialogType error |
| TelegramConverters.ExtractPeerType | telegram/telegram/converters.py:15-27 | reads from_id, or peer_id when from_id is missing; user_id over chat_id over channel_id, each iff the higher ones are missing; else an error |
| TelegramConverters.ExtractPeerId | telegram/telegram/converters.py:30-45 | a present channel_id always gives the `-100` spelling; otherwise the first present field in field order; none present is an error |
| TelegramConverters.ChannelChatIdValue | telegram/telegram/converters.py:38-39 | the `-100` encoding of a channel id c ≥ 0 is −(100·10^digits(c) + c), hence ≤ −100; a negative id does not parse as an integer |
| TelegramConverters.ChannelChatIdSpelling | telegram/telegram/converters.py:39 | printing the encoded id gives back exactly "-100" followed by the channel id |
| TelegramConverters.ChannelChatIdInjective | telegram/telegram/converters.py:38-39 | distinct channel ids encode differently, and no encoding equals a non-negative user or chat id |
| TelegramService.FindFilter | telegram/telegram/service.py:144-146 | the first filter with an id equal to folder_id; none iff no filter has that id |
| TelegramService.SamePeerIgnoresHash | telegram/telegram/service.py:155-174 | two peers match iff they are of the same kind with the same id (access hashes ignored); matching is symmetric |
| TelegramService.PeerIndex | telegram/telegram/service.py:154-174 | the index of the first matching peer, or −1 iff no peer matches |
| TelegramService.UpdateFolderChat | telegram/telegram/service.py:140-191 | an unknown or default folder is FolderNotFound with nothing sent; otherwise returns whether the edit applies and sends the folder with the edited peer list only then |
| TelegramService.AddPeerEffect | telegram/telegram/service.py:181-185 | adding an absent chat appends it as the last include peer; adding a present chat fails |
| TelegramService.RemovePeerEffect | telegram/telegram/service.py:176-178 | removing a present chat deletes exactly the first matching peer and keeps the others in order |
| TelegramService.RemoveAbsentPeer | telegram/telegram/service.py:179-180 | removing an absent chat fails |
| TelegramService.AddThenRemove | telegram/telegram/service.py:176-185 | for a chat not in the folder, add then remove restores the original peer list |
| TelegramService.UnmatchablePeer | telegram/telegram/service.py:155-185 | a peer of another kind (such as the current user's peer) never matches: add always appends it, remove always fails |
| TelegramService.RenameFolder | telegram/telegram/service.py:223-236 | unknown or default folder is FolderNotFound; otherwise the same folder with the new title is sent |
| TelegramService.DeleteFolder | telegram/telegram/service.py:218-220 | always succeeds, sending an empty filter for the id |
| TelegramService.NewFolderId | telegram/telegram/service.py:201-202 | greater than every existing filter id; 2 when there is none; otherwise the maximum plus one |
| TelegramService.NewFolderIdFresh | telegram/telegram/service.py:201-202 | the new id differs from every existing id |
| TelegramService.CreateFolder | telegram/telegram/service.py:194-215 | returns the new id and sends a folder with that id, the title, and exactly one include peer: the given chat, or the current user by default |
| TelegramService.ChatIdsOf | telegram/telegram/service.py:123-131 | the chat-id list succeeds iff no channel id is negative; an error names an offending channel id |
| TelegramService.ChatIdsCover | telegram/telegram/service.py:125-131 | every user, chat or channel peer is listed under its id (channels with the `-100` encoding); there are no more ids than peers |
| TelegramService.ChatIdsFromPeers | telegram/telegram/service.py:125-131 | every listed id comes from some peer |
| TelegramService.CollectChatIds | telegram/telegram/service.py:123-131 | the loop appending ids computes ChatIdsOf |
| TelegramService.GetFolders | telegram/telegram/service.py:118-137 | the loop over filters computes the listing specification |
| TelegramService.FolderListingEntries | telegram/telegram/service.py:122-137 | each entry is a DialogFilter with its id, title and chat ids, or id 0 "All Chats" with no ids; every DialogFilter and the default filter are listed; other kinds are dropped |
| TelegramService.KeepListed | telegram/telegram/service.py:94 | keeps exactly the dialogs whose id is among the folder's ids |
| TelegramService.SyncDialogsSelection | telegram/telegram/service.py:75-94 | no folder keeps all dialogs; an unknown folder is FolderNotFound; otherwise only dialogs listed in the folder's peers |
| TelegramService.ResolveDialog | telegram/telegram/service.py:16-18 | a dialog id resolves to the first listed dialog with that id; none has it exactly when `next` raises StopIteration |
| TelegramService.PlanMessageFetch | telegram/telegram/service.py:20-45 | the limit, max_id and min_id given to the message iterator; with new_only an unread count ≤ 0 returns no messages, and the limit is min(max_messages, unread) or unread when max_messages is None or 0, so never above the unread count or a set maximum |
| TelegramClient.Client.constructor | telegram/telegram/client.py:24 | a new client holds the api id, hash and session, and has no account tag and no connection |
| TelegramClient.CachedLive | telegram/telegram/client.py:19-21 | a cached client is reused iff the account id is truthy, cached and connected |
| TelegramClient.Registry.constructor | telegram/telegram/client.py:9 | the registry starts empty |
| TelegramClient.Registry.GetClient | telegram/telegram/client.py:12-28 | a live cached client is returned with the registry unchanged; otherwise a fresh client is built, tagged and stored under a truthy account id (replacing a stale one), with the registry untouched for None or 0; other entries never change |
| AgentsProcessor.DefaultReviewOutput | agents/agents/processor.py:7-21 | the defaults of a review output: no contacts, empty position and description, no requirements or salaries |
| AgentsProcessor.BlockStartsWithId | agents/agents/processor.py:50 | every message block starts with "ID: " and the message id |
| AgentsProcessor.Rendered | agents/agents/processor.py:49-50 | one block per message in input order |
| AgentsProcessor.BuildPrompt | agents/agents/processor.py:48-50 | the accumulating loop yields the header followed by the blocks of all messages in order |
| AgentsProcessor.ProcessMessages | agents/agents/processor.py:43-53 | empty input returns no reviews and makes no agent call; otherwise exactly one call with the prompt, whose output is returned unchanged |
| AgentsProcessor.PromptListsEveryMessage | agents/agents/processor.py:49-50 | each message's block appears in the prompt between the blocks of the messages before and after it |
| AgentsDbOps.Filtered | agents/agents/db_ops.py:24-45 | keeps exactly the rows that pass every requested filter; "unreviewed" means no stored review names the message |
| AgentsDbOps.MessagesForReview | agents/agents/db_ops.py:13-48 | at most `limit` rows, all selected; fewer than the limit only when every selected row is returned; with unreviewed_only no stored review names a returned message |
| AgentsDbOps.SelectedConjunctive | agents/agents/db_ops.py:27-45 | the unreviewed, account, chat (dialog's internal id) and folder-link filters are conjunctive; no filter selects everything |
| AgentsDbOps.FindByMessage | agents/agents/db_ops.py:55-58 | the first stored review with the message id, or none |
| AgentsDbOps.SaveOneEffect | agents/agents/db_ops.py:53-77 | the message's review now holds the draft's fields under the kept (or a new) id; other reviews are untouched; old progress is a prefix; progress is added exactly for an approved review without one |
| AgentsDbOps.SaveOneReviewEffect | agents/agents/db_ops.py:53-69 | the upsert half: the message's review is the draft under the kept or new id, other messages' reviews unchanged |
| AgentsDbOps.SaveOneProgressEffect | agents/agents/db_ops.py:71-77 | the progress half: old progress is a prefix, one New record is added exactly for an approved review without one |
| AgentsDbOps.SaveOneGood | agents/agents/db_ops.py:53-77 | one save keeps message ids, review ids and progress review ids unique |
| AgentsDbOps.SaveAllGood | agents/agents/db_ops.py:51-79 | saving a batch keeps the store's uniqueness invariant: at most one review per message and one progress per review |
| AgentsDbOps.SaveAllProgress | agents/agents/db_ops.py:71-79 | no progress record is modified or deleted, new ones start in status New, and a batch with no approval adds none |
| AgentsDbOps.SaveOneKeepsIds | agents/agents/db_ops.py:60-64 | an overwritten review keeps its id |
| AgentsDbOps.SaveOneKeepsProgress | agents/agents/db_ops.py:71-77 | a review that already has progress keeps its id and its progress |
| AgentsDbOps.SaveAllStores | agents/agents/db_ops.py:51-79 | after saving a batch, every message of the batch has a stored review |
| AgentsDbOps.SavedNotRefetched | agents/agents/db_ops.py:27-28 | a message whose draft was saved is not selected again by an unreviewed-only query |
| AgentsDbOps.SaveAllApproved | agents/agents/db_ops.py:71-77 | after saving, every approved review in the batch is stored and has a progress record |
| AgentsDbOps.ReviewDb.SaveReview | agents/agents/db_ops.py:53-77 | one pass of the loop, updating the session's rows in place, leaves exactly the state of one save |
| AgentsDbOps.ReviewDb.SaveReviews | agents/agents/db_ops.py:51-79 | the in-place loop over the session leaves the store in the state the specification gives, and keeps its invariant |
| AgentsService.LatestPrompt | agents/agents/service.py:118-131 | the prompt with the id and the highest version; a missing id is PromptNotFound |
| AgentsService.NextBatch | agents/agents/service.py:133-139 | without a maximum the batch is 10; otherwise nothing once remaining ≤ 0, else min(10, remaining) ≥ 1, never passing the maximum |
| AgentsService.ReviewMessages | agents/agents/service.py:132-158 | the total is the sum of the per-cycle counts, each cycle asks for the planned batch, every cycle but the last is full, the loop stops on 0, a short cycle or an exhausted budget, and the total never exceeds max_messages |
| AgentsService.UnboundedBatches | agents/agents/service.py:134 | without max_messages every batch asks for 10 |
| AgentsService.ResolvedContact | agents/agents/service.py:66-85 | only an all-digit TELEGRAM_ID contact that resolves changes, becoming TELEGRAM_USERNAME with the returned name; everything else is kept |
| AgentsService.ResolveContacts | agents/agents/service.py:67-85 | the in-place loop rewrites each contact as ResolvedContact does and keeps their number and order |
| AgentsService.DraftsFromBatch | agents/agents/service.py:60-100 | AI results whose index is outside the batch are skipped; each review is of msg_configs[index].msg_id with the result's decision and the prompt id and version |
| AgentsService.BuildDrafts | agents/agents/service.py:57-100 | the loop collecting reviews computes Drafts |
| AgentsService.PromptMessages | agents/agents/service.py:54 | the agent receives every fetched message's id and text, in order |
| AgentsService.RunReviewCycle | agents/agents/service.py:14-106 | returns the number of fetched messages, at most batch_size whatever is saved; no messages leaves the database unchanged; otherwise the drafts are saved |
| AuthDeps.FirstWithEmail | backend/src/backend/auth/deps.py:28-29 | the first user with the email; none iff no user has it |
| AuthDeps.GetCurrentUser | backend/src/backend/auth/deps.py:12-32 | an undecodable token, a missing or non-string sub, or an unknown email give 401; success returns a user whose email is sub |
| AuthDeps.CheckRole | backend/src/backend/auth/deps.py:35-44 | passes iff the role is the required one or ADMIN, with the same user; otherwise 403 |
| AuthDeps.GuardedRoute | backend/src/backend/auth/deps.py:12-44 | a failed authentication is always 401; an admin passes every role gate; a user with another role gets 403 |
| FormatUtils.FormatSalary | frontend/src/lib/utils.ts:8-13 | "Not specified" iff both bounds are missing or 0; "A - B", "From A" or "Up to B" by which are present |
| FormatUtils.SalaryForkInjective | frontend/src/lib/utils.ts:10 | two salary forks with both bounds display alike only when their bounds are equal |
| FormatUtils.FormatExperience | frontend/src/lib/utils.ts:15-23 | "" iff both bounds are missing or 0; equal bounds give "n year(s)"; otherwise "a-b years", "a+ years" or "Up to b year(s)" |
| FormatUtils.ExperienceSingular | frontend/src/lib/utils.ts:18-22 | the singular "year" appears exactly for 1 |
| FormatUtils.SliceTo | frontend/src/lib/utils.ts:27 | JavaScript `slice(0, end)`, counting a negative end from the back |
| FormatUtils.Truncate | frontend/src/lib/utils.ts:25-28 | unchanged when it fits; otherwise the first n characters plus "...", of length n + 3 |
| FormatUtils.TruncateIdempotent | frontend/src/lib/utils.ts:25-28 | for n ≥ 0 truncating twice equals truncating once |
| FormatUtils.TruncateNegativeNotIdempotent | frontend/src/lib/utils.ts:25-28 | with a negative length the result keeps shrinking, so truncate is not idempotent there |
| Vacancies.Paired | frontend/src/pages/vacancies/VacanciesPage.tsx:146-151 | exactly the progress records that have a review, each paired with its review |
| Vacancies.SortByReviewDescCorrect | frontend/src/pages/vacancies/VacanciesPage.tsx:152 | the sort orders by review id descending and is a permutation |
| Vacancies.Entries | frontend/src/pages/vacancies/VacanciesPage.tsx:143-153 | no list gives none; otherwise a permutation of the paired entries, newest review first |
| Vacancies.FindOption | frontend/src/pages/vacancies/VacanciesPage.tsx:182-184 | the experience option with the key, or none iff no option has it |
| Vacancies.FilteredEntries | frontend/src/pages/vacancies/VacanciesPage.tsx:156-219 | an entry is kept iff it passes search, status, seniority, account and experience together; the order is kept |
| Vacancies.EmptySearchMatches | frontend/src/pages/vacancies/VacanciesPage.tsx:158-164 | an empty search matches every review |
| Vacancies.NoFiltersKeepAll | frontend/src/pages/vacancies/VacanciesPage.tsx:156-211 | with every filter at "ALL" and an empty search all entries are kept |
| Vacancies.AccountChoiceExact | frontend/src/pages/vacancies/VacanciesPage.tsx:200-202 | comparing account ids as decimal strings is comparing the ids |
| Vacancies.NotSpecifiedExact | frontend/src/pages/vacancies/VacanciesPage.tsx:174-180 | NOT_SPECIFIED matches iff experience is absent or both bounds are null |
| Vacancies.OverlapShareYear | frontend/src/pages/vacancies/VacanciesPage.tsx:193-197 | max of the starts ≤ min of the ends iff the two closed ranges share a year |
| Vacancies.RangeOptionMeaning | frontend/src/pages/vacancies/VacanciesPage.tsx:182-197 | an unknown option keeps everything; a known one excludes missing experience and otherwise keeps iff [from or 0, to or 100] overlaps the option's range |
| Vacancies.ContactHref | frontend/src/pages/vacancies/VacanciesPage.tsx:464-502 | the href per contact kind: mailto and tel prefixes, t.me links, no link for a numeric Telegram ID, external links always starting with "http", none for others |
| Vacancies.UsernameAtIgnored | frontend/src/pages/vacancies/VacanciesPage.tsx:485-487 | one leading '@' of a username is dropped |
| Vacancies.NumericTelegramIdHasNoLink | frontend/src/pages/vacancies/VacanciesPage.tsx:492 | a Telegram ID that is a number has no link |
| Vacancies.ExternalLinkKept | frontend/src/pages/vacancies/VacanciesPage.tsx:497 | a link starting with "http" is used as is |
| Vacancies.TelegramLink | frontend/src/pages/vacancies/VacanciesPage.tsx:639-645 | the link ends in "/" and the message id; with a username it is exactly https://t.me/ + username + "/" + message id, else it opens with t.me/c/ and the dialog id without its -100 prefix |
| Vacancies.StripChannelPrefix | frontend/src/pages/vacancies/VacanciesPage.tsx:643 | one leading "-100" is removed, and nothing else changes |
| Vacancies.ChannelLinkUsesChannelId | frontend/src/pages/vacancies/VacanciesPage.tsx:639-645 | without a username, the link of a channel dialog is t.me/c/ followed by its channel id and the message id |
| Vacancies.PlainDialogLink | frontend/src/pages/vacancies/VacanciesPage.tsx:643-644 | a non-negative dialog id is used unchanged |
| Vacancies.FindVersion | frontend/src/pages/vacancies/VacanciesPage.tsx:558 | the first history entry with the version, or none |
| Vacancies.PickPrompt | frontend/src/pages/vacancies/VacanciesPage.tsx:555-561 | no history shows nothing; a truthy version found shows that entry; otherwise the first entry |
| Kanban.ProgressByReviewMeaning | frontend/src/pages/kanban/KanbanPage.tsx:84 | a review id is a key iff some record has it, and its value is the last such record |
| Kanban.IndexProgress | frontend/src/pages/kanban/KanbanPage.tsx:84 | the loop filling the map from the progress records builds ProgressByReview of the list |
| Kanban.Cards | frontend/src/pages/kanban/KanbanPage.tsx:86-92 | a card per review that has a progress record, with that record |
| Kanban.JoinCards | frontend/src/pages/kanban/KanbanPage.tsx:86-92 | the loop over the reviews builds exactly Cards of the reviews and the map |
| Kanban.GroupCards | frontend/src/pages/kanban/KanbanPage.tsx:94-105 | pushing each card onto the column of its status leaves every one of the six columns holding exactly its status's cards in card order |
| Kanban.Bucket | frontend/src/pages/kanban/KanbanPage.tsx:103-105 | exactly the cards in the status |
| Kanban.BucketFollowsReviews | frontend/src/pages/kanban/KanbanPage.tsx:86-105 | a bucket lists its cards in the order of the reviews list |
| Kanban.CardsByStatus | frontend/src/pages/kanban/KanbanPage.tsx:81-108 | missing reviews or progress give an empty grouping; otherwise all six buckets exist and each holds exactly its status's cards in card order |
| Kanban.CardForReview | frontend/src/pages/kanban/KanbanPage.tsx:84-92 | a review has a card iff some progress record has its review id, and the card carries the last one |
| Kanban.EveryStatusOnce | frontend/src/pages/kanban/KanbanPage.tsx:94-101 | the six buckets name every status exactly once |
| Kanban.BucketsPartition | frontend/src/pages/kanban/KanbanPage.tsx:103-105 | the bucket sizes add up to the number of cards |
| Kanban.TotalCardsCount | frontend/src/pages/kanban/KanbanPage.tsx:127 | totalCards is the number of cards, and 0 for the empty grouping |
| Kanban.ColumnIndex | frontend/src/pages/kanban/KanbanPage.tsx:194 | the first column with the status, or −1 iff none |
| Kanban.PrevColumn | frontend/src/pages/kanban/KanbanPage.tsx:193-195 | a backward move exists iff the status is not the first, and goes to the column one position earlier |
| Kanban.NextColumn | frontend/src/pages/kanban/KanbanPage.tsx:193-196 | a forward move exists iff the status is not the last, and goes to the column one position later |
| Kanban.ColumnMoves | frontend/src/pages/kanban/KanbanPage.tsx:193-196 | the first column has no previous move and the last no next move; others move to the adjacent column |
| Kanban.ColumnsCoverStatuses | frontend/src/pages/kanban/KanbanPage.tsx:36-43 | every status has a column |
| Kanban.ApplyPatch | backend/src/backend/api/v1/progress_router.py:162-164 | only the fields present in the update change; id and review id are kept |
| Kanban.MoveCard | frontend/src/pages/kanban/KanbanPage.tsx:110-115 | the update targets the card's progress id and sets no comment |
| Kanban.MoveChangesOnlyStatus | frontend/src/pages/kanban/KanbanPage.tsx:110-115 | applying a move changes the status only |
| TelegramPage.FindFolder | frontend/src/pages/telegram/TelegramPage.tsx:58 | the first folder with the id, or none iff none has it |
| TelegramPage.FolderRestriction | frontend/src/pages/telegram/TelegramPage.tsx:57-63 | a null or 0 folder or an unknown folder gives no restriction; a found folder restricts to its chat_ids when they are present |
| TelegramPage.KeepDialogs | frontend/src/pages/telegram/TelegramPage.tsx:55-61 | exactly the account's dialogs within the restriction |
| TelegramPage.FilteredDialogs | frontend/src/pages/telegram/TelegramPage.tsx:52-66 | no selected account gives no dialogs; otherwise a dialog is listed iff it is the account's and within the folder restriction |
| TelegramPage.UnrestrictedKeepsOrder | frontend/src/pages/telegram/TelegramPage.tsx:55 | without a restriction the account's dialogs are listed unchanged |
| TelegramPage.FirstOther | frontend/src/pages/telegram/TelegramPage.tsx:145 | the first account with another id, or none iff there is none |
| TelegramPage.SelectionAfterDelete | frontend/src/pages/telegram/TelegramPage.tsx:141-148 | deleting the selected account selects the first other account's id (null for id 0) or null; deleting another keeps the selection |
| TelegramPage.OnAdd | frontend/src/pages/telegram/TelegramPage.tsx:110-114 | opens the modal at details for a new account |
| TelegramPage.OnClose | frontend/src/pages/telegram/TelegramPage.tsx:116-121 | resets the whole modal |
| TelegramPage.OnCreated | frontend/src/pages/telegram/TelegramPage.tsx:71-75 | moves to the code step with the pending phone |
| TelegramPage.OnConfirmed | frontend/src/pages/telegram/TelegramPage.tsx:83-89 | closes at details with no pending phone |
| TelegramPage.OnUpdated | frontend/src/pages/telegram/TelegramPage.tsx:98-103 | closes and forgets the edited account |
| TelegramPage.ConnectFlow | frontend/src/pages/telegram/TelegramPage.tsx:69-114 | add, then create success, then confirm success returns the modal to its reset state |
| TelegramPage.SubmitRequest | frontend/src/pages/telegram/TelegramPage.tsx:219-232 | an edited account sends an update of name and username; otherwise a create with api id, hash and phone |
| TelegramPage.Page.constructor | frontend/src/pages/telegram/TelegramPage.tsx:16-23 | nothing selected, the modal reset, nothing sent |
| TelegramPage.Page.SetSelectedAccount | frontend/src/pages/telegram/TelegramPage.tsx:47-49 | a new account id resets the folder to null |
| TelegramPage.Page.SelectDefaultAccount | frontend/src/pages/telegram/TelegramPage.tsx:40-44 | with no selection and some accounts the first is selected (and the folder reset); otherwise nothing changes |
| TelegramPage.Page.SelectFolder | frontend/src/pages/telegram/TelegramPage.tsx:17 | sets the folder, keeping the rest |
| TelegramPage.Page.AddAccount | frontend/src/pages/telegram/TelegramPage.tsx:110-114 | the modal becomes OnAdd of the old modal |
| TelegramPage.Page.CloseModal | frontend/src/pages/telegram/TelegramPage.tsx:116-121 | the modal is reset |
| TelegramPage.Page.Submit | frontend/src/pages/telegram/TelegramPage.tsx:219-232 | sends the request SubmitRequest chooses |
| TelegramPage.Page.CreateSucceeded | frontend/src/pages/telegram/TelegramPage.tsx:71-75 | the modal moves to the code step for the phone |
| TelegramPage.Page.ConfirmCode | frontend/src/pages/telegram/TelegramPage.tsx:233-237 | a confirmation is sent only when a pending phone exists |
| TelegramPage.Page.ConfirmSucceeded | frontend/src/pages/telegram/TelegramPage.tsx:83-89 | the modal closes at details with no phone |
| TelegramPage.Page.UpdateSucceeded | frontend/src/pages/telegram/TelegramPage.tsx:98-103 | the modal closes with no edited account |
| TelegramPage.Page.CreateFolderFor | frontend/src/pages/telegram/TelegramPage.tsx:123-127 | sent only when an account is selected |
| TelegramPage.Page.RenameFolderOf | frontend/src/pages/telegram/TelegramPage.tsx:129-133 | sent only when an account is selected |
| TelegramPage.Page.DeleteFolderOf | frontend/src/pages/telegram/TelegramPage.tsx:135-139 | sent only when an account is selected |
| TelegramPage.Page.DeleteAccountOf | frontend/src/pages/telegram/TelegramPage.tsx:141-142 | the delete request is sent |
| TelegramPage.Page.DeleteAccountSucceeded | frontend/src/pages/telegram/TelegramPage.tsx:143-148 | the selection becomes SelectionAfterDelete; the folder resets exactly when the selected account was deleted |
| FolderList.RealFolders | frontend/src/pages/telegram/components/FolderList.tsx:37 | exactly the folders whose id is not 0 and whose title is not "All Chats" |
| FolderList.AllItems | frontend/src/pages/telegram/components/FolderList.tsx:35-39 | the pseudo folder (0, "All Chats") first, then the real folders |
| FolderList.RealFoldersKeepOrder | frontend/src/pages/telegram/components/FolderList.tsx:37 | real folders keep their original order |
| FolderList.ActiveId | frontend/src/pages/telegram/components/FolderList.tsx:32 | the selected id, or 0 when null |
| FolderList.Editor.constructor | frontend/src/pages/telegram/components/FolderList.tsx:26-29 | not adding, not editing, empty titles, no calls |
| FolderList.Editor.StartAdding | frontend/src/pages/telegram/components/FolderList.tsx:141 | opens the entry |
| FolderList.Editor.TypeNewTitle | frontend/src/pages/telegram/components/FolderList.tsx:127 | sets the new title |
| FolderList.Editor.TypeEditTitle | frontend/src/pages/telegram/components/FolderList.tsx:75 | sets the edited title |
| FolderList.Editor.SubmitCreate | frontend/src/pages/telegram/components/FolderList.tsx:41-48 | a non-blank title calls create with the trimmed title, clears the input and closes entry; a blank one changes nothing |
| FolderList.Editor.SubmitRename | frontend/src/pages/telegram/components/FolderList.tsx:50-56 | commits rename(id, trimmed) and leaves edit mode only when editing with a non-blank title |
| FolderList.Editor.ContextMenu | frontend/src/pages/telegram/components/FolderList.tsx:87-93 | starts rename with the current title for real folders only |
| FolderList.Editor.BlurRename | frontend/src/pages/telegram/components/FolderList.tsx:77 | discards the edit |
| FolderList.Editor.BlurCreate | frontend/src/pages/telegram/components/FolderList.tsx:130 | closes entry only when the title is empty |
| FolderList.Editor.CloseAdding | frontend/src/pages/telegram/components/FolderList.tsx:135 | the X button always closes entry |
| FolderList.Editor.ClickFolder | frontend/src/pages/telegram/components/FolderList.tsx:86 | selects the folder |
| FolderList.Editor.ClickDelete | frontend/src/pages/telegram/components/FolderList.tsx:105-111 | offered for real folders only; deletes only when confirmed |
| ChatList.PartsInitials | frontend/src/pages/telegram/components/ChatList.tsx:71-73 | one part gives its first two characters uppercased; more give the first letters of the first and last parts |
| ChatList.Initials | frontend/src/pages/telegram/components/ChatList.tsx:69-74 | at most two characters; a blank name gives "" |
| ChatList.InitialsOfWord | frontend/src/pages/telegram/components/ChatList.tsx:72 | a single word gives its first two characters, uppercased |
| ChatList.InitialsOfTrimmed | frontend/src/pages/telegram/components/ChatList.tsx:70 | a trimmed name splits into parts whose first and last are non-empty |
| ChatList.InitialsOfWords | frontend/src/pages/telegram/components/ChatList.tsx:73 | several words give the first letters of the first and the last word, uppercased |
| ChatList.BlankInitials | frontend/src/pages/telegram/components/ChatList.tsx:70-72 | an all-space name gives "", never "?" |
| ChatList.Title | frontend/src/pages/telegram/components/ChatList.tsx:54 | name, else username, else "Unknown" |
| ChatList.Avatar | frontend/src/pages/telegram/components/ChatList.tsx:48 | at most two letters: the initials of the name when it is non-empty, else of the username when that is non-empty, else "U" |
| ChatList.AvatarOfTitle | frontend/src/pages/telegram/components/ChatList.tsx:48-54 | a chat with a name or username shows the initials of its title; with neither, "U" beside the title "Unknown" |
| ChatList.Subtitle | frontend/src/pages/telegram/components/ChatList.tsx:59 | "@" and the username when both name and username are present, else the entity type |
| ChatList.Render | frontend/src/pages/telegram/components/ChatList.tsx:10-66 | loading shows 10 placeholders; no chats shows the empty state; otherwise one row per chat |
| AccountSwitcher.LastTwo | frontend/src/pages/telegram/components/AccountSwitcher.tsx:34 | the last two characters (all of a shorter text) |
| AccountSwitcher.Initials | frontend/src/pages/telegram/components/AccountSwitcher.tsx:23-35 | one or two characters; a blank or missing name gives the phone's last two, or "?" |
| AccountSwitcher.InitialsOfTrimmedName | frontend/src/pages/telegram/components/AccountSwitcher.tsx:24-32 | a non-blank name gives the initials of its whitespace-separated words |
| AccountSwitcher.InitialsOfLongName | frontend/src/pages/telegram/components/AccountSwitcher.tsx:25-32 | several words give the first letters of the first two words, uppercased |
| AccountSwitcher.DisplayName | frontend/src/pages/telegram/components/AccountSwitcher.tsx:37-39 | name, else phone, else username, else "Unknown Account" |
| AccountSwitcher.SelectedAccount | frontend/src/pages/telegram/components/AccountSwitcher.tsx:21 | the first account with the selected id, or none |
| AccountSwitcher.Heading | frontend/src/pages/telegram/components/AccountSwitcher.tsx:64 | the selected account's display name, else "Select Account" |
| AccountSwitcher.ClickEntry | frontend/src/pages/telegram/components/AccountSwitcher.tsx:88 | clicking an entry selects that account and deletes nothing |
| AccountSwitcher.ClickDelete | frontend/src/pages/telegram/components/AccountSwitcher.tsx:113-119 | deletes only when confirmed and never also selects |
| AccountSwitcher.Render | frontend/src/pages/telegram/components/AccountSwitcher.tsx:41-125 | an empty list shows only the add-first-account button; otherwise the heading and one entry per account |
| AgentPage.DialogIdOfKey | frontend/src/pages/agent/AgentPage.tsx:125 | the second ':'-separated piece read by Number, or undefined |
| AgentPage.DialogKeyRoundTrip | frontend/src/pages/agent/AgentPage.tsx:125-138 | splitting the key `account_id:id` gives back the dialog id |
| AgentPage.FolderKeyRoundTrip | frontend/src/pages/agent/AgentPage.tsx:117-143 | a folder option's value read by Number is the folder id |
| AgentPage.DialogOptions | frontend/src/pages/agent/AgentPage.tsx:137-140 | one option per dialog with its key and name or "Dialog id"; none without data |
| AgentPage.FolderOptions | frontend/src/pages/agent/AgentPage.tsx:142-145 | one option per folder with its id and title; none without data |
| AgentPage.StepIndex | frontend/src/pages/agent/AgentPage.tsx:298-330 | the index among fetching, reviewing, complete; −1 iff idle or error |
| AgentPage.RunningStepsPartition | frontend/src/pages/agent/AgentPage.tsx:329-333 | while fetching or reviewing each step is exactly one of complete, active, pending |
| AgentPage.CompletedSteps | frontend/src/pages/agent/AgentPage.tsx:332 | in the complete state every step is complete |
| AgentPage.Status | frontend/src/pages/agent/AgentPage.tsx:297-384 | idle view iff idle, error view with the message iff error, otherwise the step list |
| AgentPage.Agent.constructor | frontend/src/pages/agent/AgentPage.tsx:39-43 | folder scope, nothing selected, 1000 messages, idle |
| AgentPage.Agent.Configure | frontend/src/pages/agent/AgentPage.tsx:39-42 | the form fields change, the run state does not |
| AgentPage.Agent.ClickRun | frontend/src/pages/agent/AgentPage.tsx:109-132 | disabled while running; a missing folder or dialog is an error notice with the state unchanged; otherwise fetching with exactly one fetch carrying max_messages |
| AgentPage.Agent.FetchSucceeded | frontend/src/pages/agent/AgentPage.tsx:63-66 | reviewing, and the review is requested |
| AgentPage.Agent.FetchFailed | frontend/src/pages/agent/AgentPage.tsx:67-73 | error with the HTTP message or the fallback |
| AgentPage.Agent.ReviewSucceeded | frontend/src/pages/agent/AgentPage.tsx:94-99 | complete, with a success notice |
| AgentPage.Agent.ReviewFailed | frontend/src/pages/agent/AgentPage.tsx:100-106 | error with the HTTP message or the fallback |
| AgentPage.DialogRunTargetsDialog | frontend/src/pages/agent/AgentPage.tsx:125-130 | running a dialog fetches exactly that dialog's id |
| Http.ApiBase | frontend/src/api/http.ts:3 | the configured or default URL with one trailing "/api/v1" or "/api/v1/" removed |
| Http.DefaultApiBase | frontend/src/api/http.ts:3 | the default base is http://localhost:8000 |
| Http.StripsOnce | frontend/src/api/http.ts:3 | only one trailing "/api/v1" is removed |
| Http.TokenStore.constructor | frontend/src/api/http.ts:5-9 | the stored token is whatever localStorage holds |
| Http.TokenStore.GetToken | frontend/src/api/http.ts:7-9 | reads the token |
| Http.TokenStore.SetToken | frontend/src/api/http.ts:11-13 | stores the token |
| Http.TokenStore.ClearToken | frontend/src/api/http.ts:15-17 | removes the token |
| Http.BodyToSend | frontend/src/api/http.ts:76-80 | FormData and URLSearchParams pass unchanged, another truthy body is JSON text, otherwise none |
| Http.RequestUrl | frontend/src/api/http.ts:70-71 | /auth and /users/me endpoints go to base + endpoint, others to base + "/api/v1" + endpoint |
| Http.ApiBaseOfPrefixed | frontend/src/api/http.ts:3 | an address ending in "/api/v1" or "/api/v1/" has its server root as base, the slash or not |
| Http.ApiPrefixRestored | frontend/src/api/http.ts:3-71 | for an address root + "/api/v1" (slash or not), a non-auth request goes to root + "/api/v1" + endpoint and an auth request to root + endpoint: the prefix is neither doubled nor lost |
| Http.DefaultRequestUrl | frontend/src/api/http.ts:3-71 | without configuration a non-auth request goes to http://localhost:8000/api/v1 + endpoint and an auth request to http://localhost:8000 + endpoint |
| Http.PlanRequest | frontend/src/api/http.ts:51-81 | the headers built step by step, the URL and the body are those of the specification |
| Http.HeadersMeaning | frontend/src/api/http.ts:55-68 | JSON Content-Type iff the body is truthy and not FormData or URLSearchParams; Authorization "Bearer token" iff auth is not skipped and a token exists; other headers kept |
| Http.ParseErrorResponse | frontend/src/api/http.ts:35-49 | the message is detail, else message, else statusText; an unparsable body gives statusText |
| Http.Finish | frontend/src/api/http.ts:83-103 | every non-ok response throws; 401 also clears the token and redirects to /login unless on /login or /register; 204 returns nothing |
| AuthStore.Session.constructor | frontend/src/stores/auth.ts:14-15 | no user; authenticated iff a token is stored |
| AuthStore.Session.SetUser | frontend/src/stores/auth.ts:17-19 | stores the user; authenticated iff there is one |
| AuthStore.Session.Logout | frontend/src/stores/auth.ts:21-24 | clears the token and the user, not authenticated |
| AuthStore.Session.CheckAuth | frontend/src/stores/auth.ts:26-30 | sets and returns token presence, keeping the user |
| AuthStore.LogoutThenCheck | frontend/src/stores/auth.ts:21-30 | after logout, checking finds no token |
| Toast.Without | frontend/src/components/ui/Toast.tsx:21-23 | exactly the toasts with another id |
| Toast.WithoutUnknown | frontend/src/components/ui/Toast.tsx:21-23 | removing an unknown id is a no-op |
| Toast.WithoutAppend | frontend/src/components/ui/Toast.tsx:21-23 | removal keeps the order of the remaining toasts |
| Toast.AddThenRemove | frontend/src/components/ui/Toast.tsx:21-27 | adding a toast with a new id and then removing it restores the queue |
| Toast.ExitDelay | frontend/src/components/ui/Toast.tsx:65-70 | the exit animation starts at duration − 300 iff the duration is positive |
| Toast.Toaster.constructor | frontend/src/components/ui/Toast.tsx:19 | no toasts |
| Toast.Toaster.AddToast | frontend/src/components/ui/Toast.tsx:25-32 | appends one toast (duration 5000 by default) and schedules its removal iff the duration is positive |
| Toast.Toaster.RemoveToast | frontend/src/components/ui/Toast.tsx:21-23 | the queue becomes Without(id) |
| Toast.Toaster.ShowSuccess | frontend/src/components/ui/Toast.tsx:36 | addToast with type success |
| Toast.Toaster.ShowError | frontend/src/components/ui/Toast.tsx:37 | addToast with type error |
| Toast.Toaster.ShowInfo | frontend/src/components/ui/Toast.tsx:38 | addToast with type info |
| Toast.Toaster.ShowWarning | frontend/src/components/ui/Toast.tsx:39 | addToast with type warning |
| AccountSchemas.ApiIdIssues | frontend/src/components/accounts/schemas.ts:4 | no issue iff Number(api_id) is an integer greater than 0; a non-number fails alone |
| AccountSchemas.RequiredIssues | frontend/src/components/accounts/schemas.ts:5-12 | fails with the field's message iff the text is empty |
| AccountSchemas.ValidateAccount | frontend/src/components/accounts/schemas.ts:3-9 | accepted iff api_id is a positive integer and hash and phone are non-empty, with name and username optional and passed through; otherwise every issue |
| AccountSchemas.AcceptsDecimalId | frontend/src/components/accounts/schemas.ts:3-9 | a positive decimal id with a hash and a phone is accepted as given |
| AccountSchemas.EmptyApiIdRejected | frontend/src/components/accounts/schemas.ts:4 | an empty api_id reads as 0 and is rejected as not positive |
| AccountSchemas.ValidateCode | frontend/src/components/accounts/schemas.ts:11-13 | accepted iff the code is non-empty |

## Left out

- `update_folder_chats` (the bulk edit the router calls) is not in the modelled service; only `update_folder_chat` is modelled.
- Telethon, the database session, the LLM agent, `resolve_username`, JWT and bcrypt are parameters or oracle functions. `get_client`'s network connect is a `connected` flag.
- The date probing in `get_messages` is a parameter per bound: no date, no message, or the first message id. Date arithmetic and message storage are not modelled.
- `sync_dialogs` and `get_messages` database writes and `mark_read` are left out; only their selection and planning logic is modelled.
- Exceptions raised by `get_client` or `resolve_username` inside the contact loop are modelled as a failed resolution ("leave unchanged").
- `AgentsService.ReviewMessages` is modelled over a finite list of per-cycle message availabilities. With `unreviewed_only=False` and no maximum, the real loop may run for ever, re-fetching the same rows. Under the default `unreviewed_only=True` with no maximum it can also run for ever: an output whose index is out of range is skipped (service.py:60-62), a message the agent leaves out gets no review, and both stay unreviewed and are fetched again every cycle, while `run_review_cycle` returns the number fetched, not saved (service.py:106), so `processed_total` counts them again each time. The finite `available` list does not capture this re-fetching.
- processor.py's output record names the field `message_id`, but service.py reads `review_data.index`. The model follows service.py.
- service.py also reads `review_data.seniority`, which processor.py's output record (processor.py:7-21) does not declare. The model's `AgentsProcessor.ReviewOutput` carries a `seniority` field so that the review can be built as service.py builds it; with the declared record that read would fail.
- `process_messages` is declared with one parameter but called with two. The model passes the system prompt to the agent oracle.
- FastAPI's handling of a missing bearer token (its own 401) is outside `get_current_user` and is not modelled.
- Concurrency: the asyncio login futures in client.py and React's batching of state updates.
- TelegramPage.Page.DeleteAccountSucceeded compares the deleted account with the selection current when the delete succeeds; the `onSuccess` closure in TelegramPage.tsx:141-148 reads the `selectedAccountId` captured at render time, before the click, so a selection changed while the request is pending is not what the source compares against.
- Timers and randomness:
  - the toast id is a parameter;
  - `setTimeout` is a recorded Timer, and firing it is a call to `RemoveToast`;
  - the exit delay is a computed value.
- `toLocaleString` is plain decimal without digit grouping. Case mapping is ASCII only.
- `Number()` is modelled on an optional sign followed by a decimal, with surrounding whitespace. Exponents, hex and Infinity are read as NaN; undefined and NaN are not told apart.
- Python `int()` is modelled on decimal digits with an optional sign.
- AgentsService.ResolvedContact: the digit test `Strings.IsAllDigits` accepts ASCII digits only, while Python's `str.isdigit` at service.py:78 also accepts other Unicode decimal digits ("٣٤٥", which `int()` reads as 345); such a contact is rewritten by the source and kept by the model. Digits that `isdigit` accepts but `int()` rejects (superscripts such as "²") raise, the `except` swallows it, and the contact is kept, as in the model.
- AgentPage.Agent.Configure: `max_messages` is an integer; `Number(e.target.value)` can also give a fraction or NaN, which the model does not represent.
- Decimal.JsNumber: the value is an exact real, not an IEEE-754 double. Literals past 2^53 are not rounded, and a literal too large for a double is not Infinity (exponent forms, where that arises, are NaN in the model).
- Strings are sequences of Unicode scalar values, while JavaScript strings are UTF-16 code units. So FormatUtils.Truncate, FormatUtils.SliceTo, ChatList.Initials, AccountSwitcher.Initials and AccountSwitcher.LastTwo count and cut a character outside the Basic Multilingual Plane (an emoji, say) as one unit, where JavaScript counts two and can split it.
- Http.ParseErrorResponse: a non-string `detail` (FastAPI validation errors are arrays) is not modelled; detail is text or absent.
- Request options other than body, headers and skipAuth are passed through and not modelled. FormData and URLSearchParams contents are opaque.
- Zod's own wording for a non-number or non-integer api_id is an issue kind, not a message text.
- AccountSchemas.ValidateAccount: only text inputs are modelled, as the form supplies them.
- Rendering, styling, the dropdown, modals and the other pages are not modelled, and no marquee or drag behaviour exists in the modelled components.
- The React Query hooks and the `fetch` wrappers are opaque events. TelegramPage.tsx uses hook signatures that useTelegram.ts does not define; the model uses the page's calls.
- The backend routers are not modelled; the only exception is the `exclude_unset` update used by the Kanban move.
