/**
 * The records of frontend/src/api/types.ts that the Telegram pages read, and JavaScript's
 * truthiness on optional text.
 */
module FrontendTypes {
  import opened Wrappers

  /** A dialog as listed: `entity_type` is kept as the text the server sends. */
  datatype Dialog = Dialog(id: int, accountId: int, entityType: string, username: Option<string>, name: Option<string>)

  /** A connected account; the optional fields are None when absent. */
  datatype TelegramAccount = TelegramAccount(
    id: int, apiId: int, apiHash: string, phone: Option<string>, name: Option<string>, username: Option<string>)

  /** The signed-in user. */
  datatype User = User(id: int, email: string, fullName: string)

  /** A Telegram folder; `chatIds` is None when the server sends null. */
  datatype TelegramFolder = TelegramFolder(id: int, title: string, chatIds: Option<seq<int>>)

  /** Optional text is truthy when present and non-empty. */
  predicate Filled(s: Option<string>) {
    s.Some? && s.value != ""
  }

  /** `s || fallback`. */
  function OrElse(s: Option<string>, fallback: string): (r: string)
    ensures Filled(s) ==> r == s.value
    ensures !Filled(s) ==> r == fallback
  {
    if Filled(s) then s.value else fallback
  }

  /** A number is truthy when present and non-zero. */
  predicate Truthy(n: Option<int>) {
    n.Some? && n.value != 0
  }
}
