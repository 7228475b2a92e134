/**
 * The rows of frontend/src/pages/telegram/components/ChatList.tsx: avatar initials, title and
 * subtitle of each chat, and the loading and empty states.
 */
module ChatList {
  import opened Wrappers
  import opened Strings
  import opened FrontendTypes

  /** The initials of the pieces of a split name. */
  function PartsInitials(parts: seq<string>): (r: string)
    requires |parts| > 1 ==> parts[0] != [] && parts[|parts| - 1] != []
    ensures |r| <= 2
    ensures |parts| == 1 ==> r == ToUpper(parts[0][..if |parts[0]| < 2 then |parts[0]| else 2])
    ensures |parts| > 1 ==> r == [Upper(parts[0][0]), Upper(parts[|parts| - 1][0])]
  {
    if |parts| == 0 then "?"
    else if |parts| == 1 then ToUpper(parts[0][..if |parts[0]| < 2 then |parts[0]| else 2])
    else ToUpper([parts[0][0], parts[|parts| - 1][0]])
  }

  /** `getInitials(name)`: two letters of a single word, else the first letters of the first and
      last words, uppercased; a blank name gives "". */
  function Initials(name: string): (r: string)
    ensures |r| <= 2
    ensures Trim(name) == "" ==> r == ""
  {
    var t := Trim(name);
    if t == [] then
      assert SplitWs(t) == [""];
      PartsInitials(SplitWs(t))
    else
      SplitTrimmedWords(t);
      var parts := SplitWs(t);
      assert parts[0] in parts && parts[|parts| - 1] in parts;
      PartsInitials(parts)
  }

  /** A name of one word gives its first two characters uppercased. */
  lemma InitialsOfWord(w: string)
    requires Word(w)
    ensures Initials(w) == ToUpper(w[..if |w| < 2 then |w| else 2])
  {
    assert Trimmed(w);
    SplitWsWord(w);
  }

  /** On trimmed text the initials are those of its split. */
  lemma InitialsOfTrimmed(s: string)
    requires Trimmed(s) && s != []
    ensures SplitWs(s)[0] != [] && SplitWs(s)[|SplitWs(s)| - 1] != []
    ensures Initials(s) == PartsInitials(SplitWs(s))
  {
    SplitTrimmedWords(s);
    assert SplitWs(s)[0] in SplitWs(s) && SplitWs(s)[|SplitWs(s)| - 1] in SplitWs(s);
  }

  /** Trimmed text that splits into several pieces: the first letters of the first and last. */
  lemma InitialsOfSplit(s: string, parts: seq<string>)
    requires Trimmed(s) && s != [] && SplitWs(s) == parts && |parts| > 1
    ensures parts[0] != [] && parts[|parts| - 1] != []
    ensures Initials(s) == [Upper(parts[0][0]), Upper(parts[|parts| - 1][0])]
  {
    InitialsOfTrimmed(s);
  }

  /** Words separated by single spaces: first letter of the first and of the last word. */
  lemma InitialsOfWords(first: string, middle: seq<string>, last: string)
    requires Word(first) && Word(last)
    requires forall k :: 0 <= k < |middle| ==> Word(middle[k])
    ensures Initials(first + " " + Spaced(middle + [last])) == [Upper(first[0]), Upper(last[0])]
  {
    var tail := middle + [last];
    var ws := [first] + tail;
    WordsSnoc(middle, last);
    WordsCons(first, tail);
    SpacedEnds(ws);
    SpacedSplit(ws);
    SpacedCons(first, tail);
    InitialsOfSplit(Spaced(ws), ws);
  }

  /** A blank name has no initials. */
  lemma BlankInitials(name: string)
    requires forall k :: 0 <= k < |name| ==> IsSpace(name[k])
    ensures Initials(name) == ""
  {
  }

  /** The title: name, else username, else "Unknown". */
  function Title(chat: Dialog): (r: string)
    ensures Filled(chat.name) ==> r == chat.name.value
    ensures !Filled(chat.name) && Filled(chat.username) ==> r == chat.username.value
    ensures !Filled(chat.name) && !Filled(chat.username) ==> r == "Unknown"
  {
    OrElse(chat.name, OrElse(chat.username, "Unknown"))
  }

  /** The avatar: initials of name, else username, else "U". */
  function Avatar(chat: Dialog): (r: string)
    ensures |r| <= 2
    ensures Filled(chat.name) ==> r == Initials(chat.name.value)
    ensures !Filled(chat.name) && Filled(chat.username) ==> r == Initials(chat.username.value)
    ensures !Filled(chat.name) && !Filled(chat.username) ==> r == "U"
  {
    var source := OrElse(chat.name, OrElse(chat.username, "U"));
    if !Filled(chat.name) && !Filled(chat.username) then
      InitialsOfWord("U");
      Initials(source)
    else Initials(source)
  }

  /** A chat with a name or a username shows the initials of its title; one with neither shows
      "U" where the title says "Unknown". */
  lemma AvatarOfTitle(chat: Dialog)
    ensures Filled(chat.name) || Filled(chat.username) ==> Avatar(chat) == Initials(Title(chat))
    ensures !Filled(chat.name) && !Filled(chat.username) ==> Avatar(chat) == "U" && Title(chat) == "Unknown"
  {
  }

  /** The subtitle: the handle when the chat has both a name and a username, else its type. */
  function Subtitle(chat: Dialog): (r: string)
    ensures Filled(chat.name) && Filled(chat.username) ==> r == "@" + chat.username.value
    ensures !(Filled(chat.name) && Filled(chat.username)) ==> r == chat.entityType
  {
    if Filled(chat.name) && Filled(chat.username) then "@" + chat.username.value else chat.entityType
  }

  datatype Row = Row(avatar: string, title: string, subtitle: string)

  /** What the list shows. */
  datatype View = Placeholders(count: nat) | NoChats | Rows(rows: seq<Row>)

  /** Loading shows ten placeholder rows, an empty list the empty state, otherwise one row per chat. */
  function Render(chats: seq<Dialog>, isLoading: bool): (v: View)
    ensures isLoading ==> v == Placeholders(10)
    ensures !isLoading && chats == [] ==> v == NoChats
    ensures !isLoading && chats != [] ==>
      v.Rows? && |v.rows| == |chats| &&
      forall k :: 0 <= k < |chats| ==> v.rows[k] == Row(Avatar(chats[k]), Title(chats[k]), Subtitle(chats[k]))
  {
    if isLoading then Placeholders(10)
    else if |chats| == 0 then NoChats
    else Rows(seq(|chats|, k requires 0 <= k < |chats| => Row(Avatar(chats[k]), Title(chats[k]), Subtitle(chats[k]))))
  }
}
