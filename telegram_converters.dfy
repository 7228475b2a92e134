/**
 * The converters from Telethon objects to the stored kinds and ids
 * (telegram/telegram/converters.py), and the channel-id spelling used wherever a channel
 * peer is turned into a dialog id.
 */
module TelegramConverters {
  import opened Wrappers
  import opened Decimal
  import opened Models

  /** The ValueError cases the converters raise. */
  datatype ConvertError = UnknownDialogType | UnknownPeerType | NoPeerId | ChannelIdNotInteger

  /** The three kind flags of a Telethon dialog. */
  datatype DialogFlags = DialogFlags(isUser: bool, isGroup: bool, isChannel: bool)

  /** `extract_dialog_type`: is_user wins over is_group, which wins over is_channel. */
  function ExtractDialogType(d: DialogFlags): (r: Result<DialogType, ConvertError>)
    ensures r == Ok(DialogUser) <==> d.isUser
    ensures r == Ok(DialogGroup) <==> !d.isUser && d.isGroup
    ensures r == Ok(DialogChannel) <==> !d.isUser && !d.isGroup && d.isChannel
    ensures r.Err? <==> !d.isUser && !d.isGroup && !d.isChannel
    ensures r.Err? ==> r.error == UnknownDialogType
  {
    if d.isUser then Ok(DialogUser)
    else if d.isGroup then Ok(DialogGroup)
    else if d.isChannel then Ok(DialogChannel)
    else Err(UnknownDialogType)
  }

  /** The attribute dictionary of a Telethon peer object, in attribute order. */
  type PeerFields = seq<(string, Option<int>)>

  /** `id_dict.get(key)`: the value stored under `key`, None when it is missing or None. */
  function Get(f: PeerFields, key: string): (r: Option<int>)
    ensures r.Some? ==> exists i :: 0 <= i < |f| && f[i].0 == key && f[i].1 == r
    ensures (forall i :: 0 <= i < |f| ==> f[i].0 != key) ==> r.None?
  {
    if |f| == 0 then None
    else if f[0].0 == key then f[0].1
    else Get(f[1..], key)
  }

  /** Index of the first attribute whose value is not None, or |f| when there is none. */
  function FirstPresent(f: PeerFields): (i: nat)
    ensures i <= |f|
    ensures forall j :: 0 <= j < i ==> f[j].1.None?
    ensures i < |f| ==> f[i].1.Some?
  {
    if |f| == 0 || f[0].1.Some? then 0 else 1 + FirstPresent(f[1..])
  }

  /** The sender and chat peers of a Telethon message. */
  datatype MessagePeers = MessagePeers(fromId: Option<PeerFields>, peerId: PeerFields)

  /** The peer both extractors read: from_id, or peer_id when from_id is None. */
  function Source(m: MessagePeers): PeerFields {
    if m.fromId.Some? then m.fromId.value else m.peerId
  }

  /** `int("-100" + str(channel_id))`: the dialog id Telegram clients give a channel. */
  function ChannelChatId(channelId: int): Option<int> {
    ParseInt("-100" + Show(channelId))
  }

  /** `extract_peer_type`: user_id beats chat_id, which beats channel_id. */
  function ExtractPeerType(m: MessagePeers): (r: Result<PeerType, ConvertError>)
    ensures r == Ok(UserPeer) <==> Get(Source(m), "user_id").Some?
    ensures r == Ok(ChatPeer) <==> Get(Source(m), "user_id").None? && Get(Source(m), "chat_id").Some?
    ensures r == Ok(ChannelPeer) <==>
      Get(Source(m), "user_id").None? && Get(Source(m), "chat_id").None? && Get(Source(m), "channel_id").Some?
    ensures r.Err? ==> r.error == UnknownPeerType
  {
    var f := Source(m);
    if Get(f, "user_id").Some? then Ok(UserPeer)
    else if Get(f, "chat_id").Some? then Ok(ChatPeer)
    else if Get(f, "channel_id").Some? then Ok(ChannelPeer)
    else Err(UnknownPeerType)
  }

  /**
   * `extract_peer_id`: a present channel_id is always spelled as a channel dialog id; otherwise
   * the first present attribute value is the id.
   */
  function ExtractPeerId(m: MessagePeers): (r: Result<int, ConvertError>)
    ensures Get(Source(m), "channel_id").Some? ==>
      var c := Get(Source(m), "channel_id").value;
      (r.Ok? <==> c >= 0) && (r.Ok? ==> r.value <= -100 && Show(r.value) == "-100" + Show(c))
    ensures Get(Source(m), "channel_id").None? ==>
      var f := Source(m);
      var i := FirstPresent(f);
      (r.Ok? <==> i < |f|) && (r.Ok? ==> Some(r.value) == f[i].1) && (r.Err? ==> r.error == NoPeerId)
  {
    var f := Source(m);
    match Get(f, "channel_id")
    case Some(c) =>
      ChannelChatIdValue(c);
      if c >= 0 then ChannelChatIdSpelling(c); Ok(ChannelChatId(c).value) else Err(ChannelIdNotInteger)
    case None =>
      var i := FirstPresent(f);
      if i < |f| then Ok(f[i].1.value) else Err(NoPeerId)
  }

  /** The channel dialog id of a non-negative channel id is -(100·10^k + c), k the digit count;
      a negative channel id makes `int` raise because of the second minus sign. */
  lemma ChannelChatIdValue(c: int)
    ensures c >= 0 ==> ChannelChatId(c) == Some(-(100 * Pow10(|ShowNat(c)|) + c))
    ensures c >= 0 ==> ChannelChatId(c).value <= -100
    ensures c < 0 ==> ChannelChatId(c).None?
  {
    if c >= 0 {
      var u := ShowNat(c);
      DigitsValueOfShowNat(c);
      NegHundred(u, c, 100 * Pow10(|u|) + c);
    } else {
      var s := "-100" + Show(c);
      assert s[4] == '-';
      assert !AllDigits(s[1..]) by { assert s[1..][3] == '-'; }
      assert !AllDigits(s);
    }
  }

  /** "100" in front of a canonical spelling of `n` is a canonical spelling of 100·10^k + n. */
  lemma HundredPrefix(u: string, n: nat)
    requires Canonical(u) && DigitsValue(u) == n
    ensures Canonical("100" + u)
    ensures DigitsValue("100" + u) == 100 * Pow10(|u|) + n
  {
    DigitsValueAppend("100", u);
    assert DigitsValue("100") == 100 by {
      assert "100"[..2] == "10" && "10"[..1] == "1" && "1"[..0] == "";
    }
    var t := "100" + u;
    assert t[0] == '1';
  }

  /** For a canonical spelling `u` of `n`, "-100" + `u` reads as -(100·10^k + n) and that value
      is spelled "-100" + `u` again. */
  lemma NegHundred(u: string, n: nat, v: nat)
    requires Canonical(u) && DigitsValue(u) == n && v == 100 * Pow10(|u|) + n
    ensures ParseInt("-100" + u) == Some(-(v as int))
    ensures Show(-(v as int)) == "-100" + u
  {
    var t := "100" + u;
    HundredPrefix(u, n);
    ParseIntOfCanonical(t, v);
    ShowNatOfDigits(t);
    assert "-" + t == "-100" + u;
  }

  /** Spelled back in decimal, a channel dialog id reads "-100" followed by the channel id. */
  lemma ChannelChatIdSpelling(c: int)
    requires c >= 0
    ensures ChannelChatId(c).Some?
    ensures Show(ChannelChatId(c).value) == "-100" + Show(c)
  {
    ChannelChatIdValue(c);
    ShowOfChannelValue(c);
  }

  lemma ShowOfChannelValue(c: nat)
    ensures Show(-(100 * Pow10(|ShowNat(c)|) + c)) == "-100" + Show(c)
  {
    var u := ShowNat(c);
    DigitsValueOfShowNat(c);
    NegHundred(u, c, 100 * Pow10(|u|) + c);
  }

  /** Different channels get different dialog ids, and none of them collides with a
      non-negative user or chat id. */
  lemma ChannelChatIdInjective(c1: int, c2: int, other: int)
    requires c1 >= 0 && c2 >= 0 && other >= 0
    ensures ChannelChatId(c1) == ChannelChatId(c2) ==> c1 == c2
    ensures ChannelChatId(c1) != Some(other)
  {
    ChannelChatIdValue(c1);
    if ChannelChatId(c1) == ChannelChatId(c2) {
      ChannelChatIdSpelling(c1);
      ChannelChatIdSpelling(c2);
      var s1, s2 := Show(c1), Show(c2);
      assert ("-100" + s1)[4..] == s1 && ("-100" + s2)[4..] == s2;
      ParseIntOfShow(c1);
      ParseIntOfShow(c2);
    }
  }
}
