/**
 * The review pipeline of agents/agents/service.py: the prompt lookup and the budgeted batch loop
 * of `review_messages`, and one `run_review_cycle` (fetch, agent call, bounds check of the
 * agent's indices, rewriting of Telegram-id contacts, save).
 */
module AgentsService {
  import opened Wrappers
  import opened Strings
  import opened Decimal
  import opened Models
  import opened AgentsProcessor
  import opened AgentsDbOps

  /** A row of the prompt table: one version of a prompt. */
  datatype StoredPrompt = StoredPrompt(id: int, version: int, content: string)

  datatype AgentError = PromptNotFound(promptId: int)

  /** The latest version of a prompt (`order_by(version.desc()).limit(1)`), or ValueError. */
  function LatestPrompt(prompts: seq<StoredPrompt>, promptId: int): (r: Result<StoredPrompt, AgentError>)
    ensures r.Err? <==> forall k :: 0 <= k < |prompts| ==> prompts[k].id != promptId
    ensures r.Err? ==> r.error == PromptNotFound(promptId)
    ensures r.Ok? ==> r.value in prompts && r.value.id == promptId
    ensures r.Ok? ==> forall k :: 0 <= k < |prompts| && prompts[k].id == promptId ==> prompts[k].version <= r.value.version
  {
    if |prompts| == 0 then Err(PromptNotFound(promptId))
    else
      var rest := LatestPrompt(prompts[1..], promptId);
      assert forall k :: 1 <= k < |prompts| ==> prompts[k] == prompts[1..][k - 1];
      if prompts[0].id == promptId && (rest.Err? || rest.value.version < prompts[0].version) then Ok(prompts[0])
      else rest
  }

  const MaxBatch: nat := 10

  function Min(a: int, b: int): int {
    if a < b then a else b
  }

  function Sum(s: seq<nat>): nat
    decreases |s|
  {
    if |s| == 0 then 0 else Sum(s[..|s| - 1]) + s[|s| - 1]
  }

  /** The batch size of the next cycle after `processed` messages, None once the budget is spent. */
  function NextBatch(maxMessages: Option<int>, processed: int): (r: Option<nat>)
    ensures maxMessages.None? ==> r == Some(MaxBatch)
    ensures maxMessages.Some? ==> (r.None? <==> maxMessages.value - processed <= 0)
    ensures r.Some? ==> 1 <= r.value <= MaxBatch
    ensures r.Some? && maxMessages.Some? ==> processed + r.value <= maxMessages.value
    ensures r.Some? && maxMessages.Some? ==> r.value == Min(MaxBatch, maxMessages.value - processed)
  {
    if maxMessages.None? then Some(MaxBatch)
    else
      var remaining := maxMessages.value - processed;
      if remaining <= 0 then None else Some(Min(MaxBatch, remaining))
  }

  /** How many unreviewed messages the k-th cycle would find; none once the list runs out. */
  function Available(available: seq<nat>, k: nat): nat {
    if k < |available| then available[k] else 0
  }

  /** Cycle `k` asked for the batch the budget allowed after the earlier cycles, and processed as
      many messages as it found, up to that batch. */
  predicate CycleOk(maxMessages: Option<int>, available: seq<nat>, batches: seq<nat>, counts: seq<nat>, k: int) {
    && 0 <= k < |counts| <= |batches|
    && NextBatch(maxMessages, Sum(counts[..k])) == Some(batches[k])
    && counts[k] == Min(Available(available, k), batches[k])
  }

  /** Recording one more cycle keeps the earlier cycles' facts. */
  lemma ExtendCycles(maxMessages: Option<int>, available: seq<nat>, batches: seq<nat>, counts: seq<nat>, b: nat, c: nat)
    requires |batches| == |counts|
    requires forall k :: 0 <= k < |counts| ==> CycleOk(maxMessages, available, batches, counts, k)
    requires NextBatch(maxMessages, Sum(counts)) == Some(b) && c == Min(Available(available, |counts|), b)
    ensures forall k :: 0 <= k < |counts| + 1 ==> CycleOk(maxMessages, available, batches + [b], counts + [c], k)
    ensures Sum(counts + [c]) == Sum(counts) + c
  {
    var counts' := counts + [c];
    assert counts'[..|counts|] == counts;
    forall k | 0 <= k < |counts|
      ensures CycleOk(maxMessages, available, batches + [b], counts', k)
    {
      assert counts'[..k] == counts[..k];
      assert (batches + [b])[k] == batches[k] && counts'[k] == counts[k];
      assert CycleOk(maxMessages, available, batches, counts, k);
    }
  }

  /**
   * The loop of `review_messages`. Each cycle fetches at most its batch size, so cycle k processes
   * min(available k, batch). Returns the total and, per cycle run, its batch size and count.
   */
  method ReviewMessages(maxMessages: Option<int>, available: seq<nat>)
    returns (total: nat, batches: seq<nat>, counts: seq<nat>)
    ensures |batches| == |counts| <= |available| + 1
    ensures total == Sum(counts)
    ensures forall k :: 0 <= k < |counts| ==> CycleOk(maxMessages, available, batches, counts, k)
    ensures forall k :: 0 <= k < |counts| - 1 ==> counts[k] == batches[k]
    ensures |counts| == 0 ==> NextBatch(maxMessages, 0).None?
    ensures |counts| > 0 ==>
      var last := |counts| - 1;
      counts[last] == 0 || counts[last] < batches[last] || NextBatch(maxMessages, total).None?
    ensures maxMessages.Some? && |counts| > 0 ==> total <= maxMessages.value
  {
    total, batches, counts := 0, [], [];
    while true
      invariant |batches| == |counts| <= |available|
      invariant total == Sum(counts)
      invariant forall k :: 0 <= k < |counts| ==> CycleOk(maxMessages, available, batches, counts, k)
      invariant forall k :: 0 <= k < |counts| ==> counts[k] == batches[k]
      invariant maxMessages.Some? && |counts| > 0 ==> total <= maxMessages.value
      decreases |available| - |counts|
    {
      var batchSize: nat := MaxBatch;
      if maxMessages.Some? {
        var remaining := maxMessages.value - total;
        if remaining <= 0 {
          break;
        }
        batchSize := Min(MaxBatch, remaining);
      }
      var numProcessed: nat := Min(Available(available, |counts|), batchSize);
      ExtendCycles(maxMessages, available, batches, counts, batchSize, numProcessed);
      batches, counts := batches + [batchSize], counts + [numProcessed];
      if numProcessed == 0 {
        break;
      }
      total := total + numProcessed;
      if numProcessed < batchSize {
        break;
      }
    }
  }

  /** Without a budget every cycle asks for a full batch of 10. */
  lemma UnboundedBatches(available: seq<nat>, batches: seq<nat>, counts: seq<nat>)
    requires |batches| == |counts|
    requires forall k :: 0 <= k < |counts| ==> CycleOk(None, available, batches, counts, k)
    ensures forall k :: 0 <= k < |batches| ==> batches[k] == MaxBatch
  {
    forall k | 0 <= k < |batches|
      ensures batches[k] == MaxBatch
    {
      assert CycleOk(None, available, batches, counts, k);
    }
  }

  /** The username lookup: (account id, Telegram id) to a username, None when it fails. */
  type Resolver = (int, int) -> Option<string>

  /** A TELEGRAM_ID contact with an all-digit value whose lookup yields a non-empty username
      becomes that TELEGRAM_USERNAME; every other contact stays as it is. */
  function ResolvedContact(c: Contact, accountId: int, resolve: Resolver): (r: Contact)
    ensures c.kind != TelegramId ==> r == c
    ensures r != c ==> r.kind == TelegramUsername && c.kind == TelegramId && IsAllDigits(c.value)
    ensures c.kind == TelegramId && IsAllDigits(c.value) ==>
      var u := resolve(accountId, DigitsValue(c.value));
      r == (if u.Some? && u.value != "" then Contact(TelegramUsername, u.value) else c)
    ensures c.kind == TelegramId && !IsAllDigits(c.value) ==> r == c
  {
    if c.kind == TelegramId && IsAllDigits(c.value) then
      var u := resolve(accountId, DigitsValue(c.value));
      if u.Some? && u.value != "" then Contact(TelegramUsername, u.value) else c
    else c
  }

  /** The inner loop of run_review_cycle that rewrites the contacts of one review. */
  method ResolveContacts(contacts: seq<Contact>, accountId: int, resolve: Resolver) returns (out: seq<Contact>)
    ensures |out| == |contacts|
    ensures forall k :: 0 <= k < |contacts| ==> out[k] == ResolvedContact(contacts[k], accountId, resolve)
  {
    out := contacts;
    var k := 0;
    while k < |out|
      invariant 0 <= k <= |out| == |contacts|
      invariant forall j :: 0 <= j < k ==> out[j] == ResolvedContact(contacts[j], accountId, resolve)
      invariant forall j :: k <= j < |out| ==> out[j] == contacts[j]
    {
      var contact := out[k];
      if contact.kind == TelegramId {
        if IsAllDigits(contact.value) {
          var tgId := DigitsValue(contact.value);
          var username := resolve(accountId, tgId);
          if username.Some? && username.value != "" {
            out := out[k := Contact(TelegramUsername, username.value)];
          }
        }
      }
      k := k + 1;
    }
  }

  /** The review stored for agent output `o`, which names message `m` of the batch. */
  function Draft(m: MessageRow, o: ReviewOutput, resolve: Resolver, promptId: Option<int>, promptVersion: Option<int>): VacancyReview {
    VacancyReview(0, m.id, o.decision, o.seniority,
                  seq(|o.contacts|, k requires 0 <= k < |o.contacts| => ResolvedContact(o.contacts[k], m.accountId, resolve)),
                  o.position, o.description, o.requirements, o.salaryFrom, o.salaryTo, promptId, promptVersion)
  }

  /** The reviews a cycle saves: one per agent output whose index names a message of the batch. */
  function Drafts(ms: seq<MessageRow>, outs: seq<ReviewOutput>, resolve: Resolver,
                  promptId: Option<int>, promptVersion: Option<int>): seq<VacancyReview>
    decreases |outs|
  {
    if |outs| == 0 then []
    else
      var o := outs[|outs| - 1];
      Drafts(ms, outs[..|outs| - 1], resolve, promptId, promptVersion)
      + (if 0 <= o.index < |ms| then [Draft(ms[o.index], o, resolve, promptId, promptVersion)] else [])
  }

  /** Indices outside the batch are skipped; every saved review carries the message id of the
      batch entry its output names, and the prompt id and version of the run. */
  lemma {:induction false} DraftsFromBatch(ms: seq<MessageRow>, outs: seq<ReviewOutput>, resolve: Resolver,
                                           promptId: Option<int>, promptVersion: Option<int>)
    ensures var ds := Drafts(ms, outs, resolve, promptId, promptVersion);
      && |ds| <= |outs|
      && (forall d :: d in ds ==> d.promptId == promptId && d.promptVersion == promptVersion)
      && (forall d :: d in ds ==> exists k :: 0 <= k < |outs| && 0 <= outs[k].index < |ms| && d.messageId == ms[outs[k].index].id
                                                          && d.decision == outs[k].decision)
    ensures (forall k :: 0 <= k < |outs| ==> !(0 <= outs[k].index < |ms|)) ==> Drafts(ms, outs, resolve, promptId, promptVersion) == []
    ensures (forall k :: 0 <= k < |outs| ==> 0 <= outs[k].index < |ms|) ==> |Drafts(ms, outs, resolve, promptId, promptVersion)| == |outs|
    decreases |outs|
  {
    if |outs| > 0 {
      var front := outs[..|outs| - 1];
      DraftsFromBatch(ms, front, resolve, promptId, promptVersion);
      assert forall k :: 0 <= k < |front| ==> front[k] == outs[k];
    }
  }

  /** The loop of run_review_cycle over the agent's reviews. */
  method BuildDrafts(ms: seq<MessageRow>, outs: seq<ReviewOutput>, resolve: Resolver,
                     promptId: Option<int>, promptVersion: Option<int>) returns (drafts: seq<VacancyReview>)
    ensures drafts == Drafts(ms, outs, resolve, promptId, promptVersion)
  {
    drafts := [];
    var i := 0;
    while i < |outs|
      invariant 0 <= i <= |outs|
      invariant drafts == Drafts(ms, outs[..i], resolve, promptId, promptVersion)
    {
      var reviewData := outs[i];
      assert outs[..i + 1][..i] == outs[..i];
      if 0 <= reviewData.index < |ms| {
        var cfg := ms[reviewData.index];
        var contacts := ResolveContacts(reviewData.contacts, cfg.accountId, resolve);
        assert contacts == seq(|reviewData.contacts|, k requires 0 <= k < |reviewData.contacts| =>
                                 ResolvedContact(reviewData.contacts[k], cfg.accountId, resolve));
        var review := VacancyReview(0, cfg.id, reviewData.decision, reviewData.seniority, contacts,
                                    reviewData.position, reviewData.description, reviewData.requirements,
                                    reviewData.salaryFrom, reviewData.salaryTo, promptId, promptVersion);
        drafts := drafts + [review];
      }
      i := i + 1;
    }
    assert outs[..i] == outs;
  }

  /** The prompt view of a fetched message. */
  function PromptMessages(ms: seq<MessageRow>): (r: seq<PromptMessage>)
    ensures |r| == |ms| && forall k :: 0 <= k < |ms| ==> r[k] == PromptMessage(ms[k].id, ms[k].text)
  {
    seq(|ms|, k requires 0 <= k < |ms| => PromptMessage(ms[k].id, ms[k].text))
  }

  /**
   * `run_review_cycle`: fetches up to `batchSize` messages; with none it returns 0 and touches
   * nothing. Otherwise the agent is asked once, the in-range reviews are saved, and the result is
   * the number of messages fetched, however many reviews were saved.
   */
  method RunReviewCycle(db: ReviewDb, rows: seq<MessageRow>, links: set<FolderLink>, systemPrompt: string,
                        promptId: Option<int>, promptVersion: Option<int>, batchSize: nat,
                        accountId: Option<int>, chatId: Option<int>, folderId: Option<int>, unreviewedOnly: bool,
                        agent: (string, string) -> seq<ReviewOutput>, resolve: Resolver)
    returns (processed: nat)
    modifies db
    ensures var ms := MessagesForReview(rows, ReviewQuery(batchSize, accountId, chatId, folderId, unreviewedOnly), links, old(db.reviews));
      && processed == |ms| <= batchSize
      && (|ms| == 0 ==> db.State() == old(db.State()))
      && (|ms| > 0 ==> db.State() == SaveAll(old(db.State()),
            Drafts(ms, agent(systemPrompt, Prompt(PromptMessages(ms))), resolve, promptId, promptVersion)))
  {
    var messages := MessagesForReview(rows, ReviewQuery(batchSize, accountId, chatId, folderId, unreviewedOnly), links, db.reviews);
    if |messages| == 0 {
      return 0;
    }
    var batchOutput, _ := ProcessMessages(PromptMessages(messages), p => agent(systemPrompt, p));
    var reviewsToSave := BuildDrafts(messages, batchOutput, resolve, promptId, promptVersion);
    db.SaveReviews(reviewsToSave);
    processed := |messages|;
  }
}
