/**
 * The chats page: the session check on entry and the per-chat latest-message
 * map. Local storage and JSON parsing are replaced by their results.
 */
module ChatsPage {
  import opened Wrappers
  import opened Domain

  const LoginRoute := "/login"

  /** Where the session check leads. */
  datatype AuthOutcome = RedirectToLogin | SignedIn(user: User)

  /**
   * `checkAuth`'s decision: no stored value (or an empty one, which is falsy)
   * and a value that does not parse both go to the login page.
   */
  function AuthDecision(stored: Option<string>, parsed: Option<User>): (r: AuthOutcome)
    ensures r.SignedIn? <==> stored.Some? && stored.value != "" && parsed.Some?
    ensures r.SignedIn? ==> r.user == parsed.value
  {
    if stored.None? || stored.value == "" then RedirectToLogin
    else if parsed.None? then RedirectToLogin
    else SignedIn(parsed.value)
  }

  /** `{...prev, [chatId]: message}`. */
  function WithLatest(latest: map<string, Message>, chatId: string, message: Message): (r: map<string, Message>)
    ensures chatId in r && r[chatId] == message
    ensures r.Keys == latest.Keys + {chatId}
    ensures forall k :: k in latest && k != chatId ==> r[k] == latest[k]
  {
    latest[chatId := message]
  }

  /** Repeating an update changes nothing more. */
  lemma WithLatestIdempotent(latest: map<string, Message>, chatId: string, message: Message)
    ensures WithLatest(WithLatest(latest, chatId, message), chatId, message) == WithLatest(latest, chatId, message)
  {
  }

  /** A later update for the same chat overwrites the earlier one. */
  lemma WithLatestOverwrites(latest: map<string, Message>, chatId: string, first: Message, second: Message)
    ensures WithLatest(WithLatest(latest, chatId, first), chatId, second) == WithLatest(latest, chatId, second)
  {
  }

  /** Updates for different chats commute. */
  lemma WithLatestCommutes(latest: map<string, Message>, a: string, ma: Message, b: string, mb: Message)
    requires a != b
    ensures WithLatest(WithLatest(latest, a, ma), b, mb) == WithLatest(WithLatest(latest, b, mb), a, ma)
  {
  }

  class ChatsPage {
    var user: Option<User>
    var loading: bool
    var latestMessages: map<string, Message>
    /** The route passed to `router.replace`, if any. */
    var redirectedTo: Option<string>

    constructor ()
      ensures user == None && loading && latestMessages == map[] && redirectedTo == None
    {
      user := None;
      loading := true;
      latestMessages := map[];
      redirectedTo := None;
    }

    /** `checkAuth`, run once on mount: `loading` ends false on every path. */
    method CheckAuth(stored: Option<string>, parsed: Option<User>)
      modifies this
      ensures !loading
      ensures AuthDecision(stored, parsed) == RedirectToLogin ==> redirectedTo == Some(LoginRoute) && user == old(user)
      ensures AuthDecision(stored, parsed).SignedIn? ==>
        user == Some(AuthDecision(stored, parsed).user) && redirectedTo == old(redirectedTo)
      ensures latestMessages == old(latestMessages)
    {
      match AuthDecision(stored, parsed) {
        case RedirectToLogin =>
          redirectedTo := Some(LoginRoute);
        case SignedIn(u) =>
          user := Some(u);
      }
      loading := false;
    }

    /** `updateLatestMessage`. */
    method UpdateLatestMessage(chatId: string, message: Message)
      modifies this
      ensures latestMessages == WithLatest(old(latestMessages), chatId, message)
      ensures user == old(user) && loading == old(loading) && redirectedTo == old(redirectedTo)
    {
      latestMessages := WithLatest(latestMessages, chatId, message);
    }
  }
}
