/**
 * The agent runner of frontend/src/pages/agent/AgentPage.tsx: the scope selection, the run
 * handler and the mutation callbacks that drive the run state, the select options and their
 * keys, and the step list of the status card.
 */
module AgentPage {
  import opened Wrappers
  import opened Strings
  import opened Decimal
  import opened FrontendTypes

  datatype Scope = FolderScope | DialogScope

  datatype Step = Idle | Fetching | Reviewing | Complete | Failed

  datatype AgentState = AgentState(step: Step, message: string)

  /** A request the page sends; a number parsed from text is None when it is NaN. */
  datatype Request =
    | FetchAll(folderId: Option<real>, maxMessages: int)
    | FetchMessages(chatId: Option<real>, maxMessages: int)
    | RunReview(maxMessages: int)

  datatype Notice = ErrorNotice(text: string) | SuccessNotice(text: string)

  /** `isRunning`. */
  predicate IsRunning(s: AgentState) {
    s.step == Fetching || s.step == Reviewing
  }

  /** The value of a dialog option: `${account_id}:${id}`. */
  function DialogKey(d: Dialog): string {
    Show(d.accountId) + ":" + Show(d.id)
  }

  /** `selectedDialogKey.split(':').map(Number)[1]`: None when there is no second piece or it is
      not a number. */
  function DialogIdOfKey(key: string): (r: Option<real>)
    ensures |SplitOn(key, ':')| < 2 ==> r.None?
    ensures |SplitOn(key, ':')| >= 2 ==> r == JsNumber(SplitOn(key, ':')[1])
  {
    var parts := SplitOn(key, ':');
    if |parts| >= 2 then JsNumber(parts[1]) else None
  }

  lemma ShowHasNoColon(i: int)
    ensures forall k :: 0 <= k < |Show(i)| ==> Show(i)[k] != ':'
  {
    if i < 0 {
      assert forall k :: 1 <= k < |Show(i)| ==> Show(i)[k] == ShowNat(-i)[k - 1];
    }
  }

  /** The key of a dialog option gives back the dialog's id. */
  lemma DialogKeyRoundTrip(d: Dialog)
    ensures DialogIdOfKey(DialogKey(d)) == Some(d.id as real)
  {
    ShowHasNoColon(d.accountId);
    ShowHasNoColon(d.id);
    SplitOnJoin(Show(d.accountId), ':', Show(d.id));
    SplitOnNone(Show(d.id), ':');
    JsNumberOfShow(d.id);
  }

  /** The value of a folder option, `f.id.toString()`, gives back the folder's id. */
  lemma FolderKeyRoundTrip(f: TelegramFolder)
    ensures JsNumber(Show(f.id)) == Some(f.id as real)
  {
    JsNumberOfShow(f.id);
  }

  datatype SelectOption = SelectOption(value: string, text: string)

  /** `dialogOptions`: one per dialog, labelled by name or "Dialog <id>". */
  function DialogOptions(dialogs: Option<seq<Dialog>>): (r: seq<SelectOption>)
    ensures dialogs.None? ==> r == []
    ensures dialogs.Some? ==>
      |r| == |dialogs.value| &&
      forall k :: 0 <= k < |r| ==> r[k] == SelectOption(DialogKey(dialogs.value[k]), OrElse(dialogs.value[k].name, "Dialog " + Show(dialogs.value[k].id)))
  {
    if dialogs.None? then []
    else
      var ds := dialogs.value;
      seq(|ds|, k requires 0 <= k < |ds| => SelectOption(DialogKey(ds[k]), OrElse(ds[k].name, "Dialog " + Show(ds[k].id))))
  }

  /** `folderOptions`: one per folder, keyed by its decimal id. */
  function FolderOptions(folders: Option<seq<TelegramFolder>>): (r: seq<SelectOption>)
    ensures folders.None? ==> r == []
    ensures folders.Some? ==>
      |r| == |folders.value| &&
      forall k :: 0 <= k < |r| ==> r[k] == SelectOption(Show(folders.value[k].id), folders.value[k].title)
  {
    if folders.None? then []
    else
      var fs := folders.value;
      seq(|fs|, k requires 0 <= k < |fs| => SelectOption(Show(fs[k].id), fs[k].title))
  }

  /** The steps of the status card, in order. */
  const Steps: seq<Step> := [Fetching, Reviewing, Complete]

  /** `steps.findIndex(s => s.key === state.step)`. */
  function StepIndex(step: Step): (r: int)
    ensures -1 <= r < |Steps|
    ensures r >= 0 ==> Steps[r] == step
    ensures r == -1 <==> step == Idle || step == Failed
  {
    match step
    case Fetching => 0
    case Reviewing => 1
    case Complete => 2
    case _ => -1
  }

  datatype StepLook = StepLook(complete: bool, active: bool, pending: bool)

  /** `isComplete`, `isActive` and `isPending` of the step at `index`. */
  function Look(index: int, step: Step): StepLook
    requires 0 <= index < |Steps|
  {
    var current := StepIndex(step);
    StepLook(index < current || step == Complete, Steps[index] == step, index > current)
  }

  /** While a run is in progress every step is exactly one of complete (before the current
      step), active (the current step) or pending (after it). */
  lemma RunningStepsPartition(index: int, step: Step)
    requires 0 <= index < |Steps| && (step == Fetching || step == Reviewing)
    ensures var l := Look(index, step);
      (l.complete <==> index < StepIndex(step)) && (l.active <==> index == StepIndex(step)) &&
      (l.pending <==> index > StepIndex(step))
    ensures var l := Look(index, step);
      (if l.complete then 1 else 0) + (if l.active then 1 else 0) + (if l.pending then 1 else 0) == 1
  {
  }

  /** Once the run is complete every step shows complete and none is pending. */
  lemma CompletedSteps(index: int)
    requires 0 <= index < |Steps|
    ensures Look(index, Complete).complete && !Look(index, Complete).pending
  {
  }

  /** What the status card shows. */
  datatype StatusView = IdleView | ErrorView(message: string) | ProgressView(looks: seq<StepLook>, showKanban: bool)

  function Status(s: AgentState): (v: StatusView)
    ensures s.step == Idle <==> v == IdleView
    ensures s.step == Failed <==> v == ErrorView(s.message)
    ensures v.ProgressView? ==>
      |v.looks| == |Steps| && (v.showKanban <==> s.step == Complete) &&
      forall k :: 0 <= k < |Steps| ==> v.looks[k] == Look(k, s.step)
  {
    if s.step == Idle then IdleView
    else if s.step == Failed then ErrorView(s.message)
    else ProgressView(seq(|Steps|, k requires 0 <= k < |Steps| => Look(k, s.step)), s.step == Complete)
  }

  /** An error's own message when it is an HttpError, else the fallback. */
  function FailureText(httpMessage: Option<string>, fallback: string): string {
    if httpMessage.Some? then httpMessage.value else fallback
  }

  class Agent {
    var scope: Scope
    var selectedFolderId: string
    var selectedDialogKey: string
    var maxMessages: int
    var state: AgentState
    var sent: seq<Request>
    var notices: seq<Notice>

    constructor()
      ensures scope == FolderScope && selectedFolderId == "" && selectedDialogKey == "" && maxMessages == 1000
      ensures state == AgentState(Idle, "") && sent == [] && notices == []
    {
      scope := FolderScope;
      selectedFolderId := "";
      selectedDialogKey := "";
      maxMessages := 1000;
      state := AgentState(Idle, "");
      sent := [];
      notices := [];
    }

    method Configure(newScope: Scope, folderId: string, dialogKey: string, max: int)
      modifies this
      ensures scope == newScope && selectedFolderId == folderId && selectedDialogKey == dialogKey && maxMessages == max
      ensures state == old(state) && sent == old(sent) && notices == old(notices)
    {
      scope := newScope;
      selectedFolderId := folderId;
      selectedDialogKey := dialogKey;
      maxMessages := max;
    }

    /** The run button: disabled while running, otherwise `handleRun`. A missing folder or dialog
        is reported and changes nothing else; otherwise the run starts with exactly one fetch. */
    method ClickRun()
      modifies this
      ensures IsRunning(old(state)) ==> state == old(state) && sent == old(sent) && notices == old(notices)
      ensures !IsRunning(old(state)) && scope == FolderScope && selectedFolderId == "" ==>
        state == old(state) && sent == old(sent) && notices == old(notices) + [ErrorNotice("Please select a folder")]
      ensures !IsRunning(old(state)) && scope == FolderScope && selectedFolderId != "" ==>
        state == AgentState(Fetching, "Fetching messages from folder...") && notices == old(notices) &&
        sent == old(sent) + [FetchAll(JsNumber(selectedFolderId), maxMessages)]
      ensures !IsRunning(old(state)) && scope == DialogScope && selectedDialogKey == "" ==>
        state == old(state) && sent == old(sent) && notices == old(notices) + [ErrorNotice("Please select a dialog")]
      ensures !IsRunning(old(state)) && scope == DialogScope && selectedDialogKey != "" ==>
        state == AgentState(Fetching, "Fetching messages from dialog...") && notices == old(notices) &&
        sent == old(sent) + [FetchMessages(DialogIdOfKey(selectedDialogKey), maxMessages)]
      ensures scope == old(scope) && selectedFolderId == old(selectedFolderId) &&
        selectedDialogKey == old(selectedDialogKey) && maxMessages == old(maxMessages)
    {
      if IsRunning(state) {
        return;
      }
      if scope == FolderScope {
        if selectedFolderId == "" {
          notices := notices + [ErrorNotice("Please select a folder")];
          return;
        }
        state := AgentState(Fetching, "Fetching messages from folder...");
        sent := sent + [FetchAll(JsNumber(selectedFolderId), maxMessages)];
      } else {
        if selectedDialogKey == "" {
          notices := notices + [ErrorNotice("Please select a dialog")];
          return;
        }
        state := AgentState(Fetching, "Fetching messages from dialog...");
        sent := sent + [FetchMessages(DialogIdOfKey(selectedDialogKey), maxMessages)];
      }
    }

    /** Either fetch succeeded: review next, with the current maximum. */
    method FetchSucceeded()
      modifies this
      ensures state == AgentState(Reviewing, "Running AI review agent...")
      ensures sent == old(sent) + [RunReview(maxMessages)] && notices == old(notices)
      ensures scope == old(scope) && selectedFolderId == old(selectedFolderId) &&
        selectedDialogKey == old(selectedDialogKey) && maxMessages == old(maxMessages)
    {
      state := AgentState(Reviewing, "Running AI review agent...");
      sent := sent + [RunReview(maxMessages)];
    }

    /** Either fetch failed; `httpMessage` is the message of an HttpError, None for another error. */
    method FetchFailed(httpMessage: Option<string>)
      modifies this
      ensures state == AgentState(Failed, FailureText(httpMessage, "Failed to fetch messages"))
      ensures sent == old(sent) && notices == old(notices) + [ErrorNotice("Failed to fetch messages")]
      ensures scope == old(scope) && selectedFolderId == old(selectedFolderId) &&
        selectedDialogKey == old(selectedDialogKey) && maxMessages == old(maxMessages)
    {
      state := AgentState(Failed, FailureText(httpMessage, "Failed to fetch messages"));
      notices := notices + [ErrorNotice("Failed to fetch messages")];
    }

    method ReviewSucceeded()
      modifies this
      ensures state == AgentState(Complete, "Review complete! New vacancies added to Kanban.")
      ensures sent == old(sent) && notices == old(notices) + [SuccessNotice("Agent review completed successfully!")]
      ensures scope == old(scope) && selectedFolderId == old(selectedFolderId) &&
        selectedDialogKey == old(selectedDialogKey) && maxMessages == old(maxMessages)
    {
      state := AgentState(Complete, "Review complete! New vacancies added to Kanban.");
      notices := notices + [SuccessNotice("Agent review completed successfully!")];
    }

    method ReviewFailed(httpMessage: Option<string>)
      modifies this
      ensures state == AgentState(Failed, FailureText(httpMessage, "Failed to run agent review"))
      ensures sent == old(sent) && notices == old(notices) + [ErrorNotice("Agent review failed")]
      ensures scope == old(scope) && selectedFolderId == old(selectedFolderId) &&
        selectedDialogKey == old(selectedDialogKey) && maxMessages == old(maxMessages)
    {
      state := AgentState(Failed, FailureText(httpMessage, "Failed to run agent review"));
      notices := notices + [ErrorNotice("Agent review failed")];
    }
  }

  /** A run over a chosen dialog fetches exactly that dialog. */
  lemma DialogRunTargetsDialog(d: Dialog)
    ensures FetchMessages(DialogIdOfKey(DialogKey(d)), 1000).chatId == Some(d.id as real)
  {
    DialogKeyRoundTrip(d);
  }
}
