/**
 * The account picker of frontend/src/pages/telegram/components/AccountSwitcher.tsx: initials and
 * display names, the selected account, and what a click on an entry sends to the page.
 */
module AccountSwitcher {
  import opened Wrappers
  import opened Strings
  import opened FrontendTypes

  /** `.map(n => n[0]).filter(Boolean).join('')`: the first character of every non-empty piece. */
  function FirstLetters(parts: seq<string>): (r: string)
    ensures |r| <= |parts|
    decreases |parts|
  {
    if |parts| == 0 then ""
    else (if parts[0] != [] then [parts[0][0]] else "") + FirstLetters(parts[1..])
  }

  /** `s.slice(-2)`: the last two characters, or all of a shorter text. */
  function LastTwo(s: string): (r: string)
    ensures |r| == if |s| < 2 then |s| else 2
    ensures r == s[|s| - |r|..]
  {
    if |s| < 2 then s else s[|s| - 2..]
  }

  /** The uppercased first letters of the pieces, cut to two. */
  function NameInitials(parts: seq<string>): (r: string)
    ensures |r| <= 2
    ensures |parts| > 0 && parts[0] != [] ==> |r| >= 1
  {
    var letters := ToUpper(FirstLetters(parts));
    letters[..if |letters| < 2 then |letters| else 2]
  }

  /** `getInitials(account)`: with a non-blank name, the uppercased first letters of its words cut
      to two; otherwise the last two characters of the phone, or "?" without one. */
  function Initials(account: TelegramAccount): (r: string)
    ensures 1 <= |r| <= 2
    ensures (account.name.None? || Trim(account.name.value) == "") && !Filled(account.phone) ==> r == "?"
    ensures (account.name.None? || Trim(account.name.value) == "") && Filled(account.phone) ==> r == LastTwo(account.phone.value)
  {
    if account.name.Some? && Trim(account.name.value) != "" then
      var t := Trim(account.name.value);
      SplitTrimmedWords(t);
      var parts := SplitWs(t);
      assert parts[0] in parts;
      NameInitials(parts)
    else if account.phone.Some? && LastTwo(account.phone.value) != "" then LastTwo(account.phone.value)
    else "?"
  }

  lemma InitialsOfTrimmedName(account: TelegramAccount, s: string)
    requires account.name == Some(s) && Trimmed(s) && s != []
    ensures Initials(account) == NameInitials(SplitWs(s))
  {
  }

  /** With a name of two or more words the initials are the first letters of the first two words,
      where the chat list takes the last word instead. */
  lemma InitialsOfLongName(account: TelegramAccount, first: string, second: string, more: seq<string>)
    requires Word(first) && Word(second)
    requires forall k :: 0 <= k < |more| ==> Word(more[k])
    requires account.name == Some(first + " " + Spaced([second] + more))
    ensures Initials(account) == [Upper(first[0]), Upper(second[0])]
  {
    var tail := [second] + more;
    var ws := [first] + tail;
    WordsCons(second, more);
    WordsCons(first, tail);
    SpacedEnds(ws);
    SpacedSplit(ws);
    SpacedCons(first, tail);
    var s := Spaced(ws);
    InitialsOfTrimmedName(account, s);
    NameInitialsOfTwo(ws);
  }

  lemma NameInitialsOfTwo(parts: seq<string>)
    requires |parts| >= 2 && parts[0] != [] && parts[1] != []
    ensures NameInitials(parts) == [Upper(parts[0][0]), Upper(parts[1][0])]
  {
    assert FirstLetters(parts) == [parts[0][0]] + FirstLetters(parts[1..]);
    assert FirstLetters(parts[1..]) == [parts[1][0]] + FirstLetters(parts[1..][1..]);
  }

  /** `getDisplayName(account)`: name, else phone, else username, else "Unknown Account". */
  function DisplayName(account: TelegramAccount): (r: string)
    ensures r != ""
    ensures Filled(account.name) ==> r == account.name.value
    ensures !Filled(account.name) && Filled(account.phone) ==> r == account.phone.value
    ensures !Filled(account.name) && !Filled(account.phone) && Filled(account.username) ==> r == account.username.value
    ensures !Filled(account.name) && !Filled(account.phone) && !Filled(account.username) ==> r == "Unknown Account"
  {
    OrElse(account.name, OrElse(account.phone, OrElse(account.username, "Unknown Account")))
  }

  /** `accounts.find(a => a.id === selectedAccountId)`. */
  function SelectedAccount(accounts: seq<TelegramAccount>, selected: Option<int>): (r: Option<TelegramAccount>)
    ensures selected.None? ==> r.None?
    ensures r.Some? ==> r.value in accounts && Some(r.value.id) == selected
    ensures r.None? && selected.Some? ==> forall k :: 0 <= k < |accounts| ==> accounts[k].id != selected.value
    ensures r.Some? ==> exists k :: 0 <= k < |accounts| && accounts[k] == r.value &&
                          forall j :: 0 <= j < k ==> Some(accounts[j].id) != selected
  {
    if |accounts| == 0 then None
    else if Some(accounts[0].id) == selected then Some(accounts[0])
    else
      var r := SelectedAccount(accounts[1..], selected);
      if r.Some? then
        var k :| 0 <= k < |accounts[1..]| && accounts[1..][k] == r.value &&
                 forall j :: 0 <= j < k ==> Some(accounts[1..][j].id) != selected;
        assert accounts[k + 1] == r.value;
        r
      else r
  }

  /** The name on the closed picker. */
  function Heading(accounts: seq<TelegramAccount>, selected: Option<int>): (r: string)
    ensures SelectedAccount(accounts, selected).None? ==> r == "Select Account"
    ensures SelectedAccount(accounts, selected).Some? ==> r == DisplayName(SelectedAccount(accounts, selected).value)
  {
    match SelectedAccount(accounts, selected)
    case None => "Select Account"
    case Some(a) => DisplayName(a)
  }

  /** A callback the picker invokes on the page. */
  datatype Event = SelectAccount(id: int) | DeleteAccount(id: int) | AddAccount

  /** Clicking an entry selects its account. */
  function ClickEntry(account: TelegramAccount): (r: seq<Event>)
    ensures r == [SelectAccount(account.id)]
    ensures forall k :: 0 <= k < |r| ==> !r[k].DeleteAccount?
  {
    [SelectAccount(account.id)]
  }

  /** The delete button asks first (`confirmed` is the answer) and stops the click there, so the
      account is never also selected. */
  function ClickDelete(account: TelegramAccount, confirmed: bool): (r: seq<Event>)
    ensures confirmed <==> r == [DeleteAccount(account.id)]
    ensures !confirmed ==> r == []
    ensures forall k :: 0 <= k < |r| ==> !r[k].SelectAccount?
  {
    if confirmed then [DeleteAccount(account.id)] else []
  }

  /** What the picker shows. */
  datatype View = AddFirstAccount | Picker(heading: string, entries: seq<string>)

  /** No accounts: only the button that adds the first one; otherwise the picker with one named
      entry per account. */
  function Render(accounts: seq<TelegramAccount>, selected: Option<int>): (v: View)
    ensures accounts == [] <==> v == AddFirstAccount
    ensures accounts != [] ==>
      v.Picker? && v.heading == Heading(accounts, selected) && |v.entries| == |accounts| &&
      forall k :: 0 <= k < |accounts| ==> v.entries[k] == DisplayName(accounts[k])
  {
    if |accounts| == 0 then AddFirstAccount
    else Picker(Heading(accounts, selected), seq(|accounts|, k requires 0 <= k < |accounts| => DisplayName(accounts[k])))
  }
}
