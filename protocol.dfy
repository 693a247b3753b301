/** The messages and records exchanged between the popup, the background
    worker and the content script. */
module Protocol {

  datatype Option<+T> = None | Some(value: T)

  /** What the login form sends: `{email, password}`. */
  datatype Credentials = Credentials(email: string, password: string)

  /** The `data` record of a successful remote sign-in. */
  datatype SessionData = SessionData(token: string, email: string, name: string, role: string)

  /** The `user` record of a CHECK_AUTH reply, read back from storage; a key
      that is not stored reads as `undefined` (None). */
  datatype User = User(email: Option<string>, name: Option<string>, role: Option<string>)

  /** The reply to a `signIn` message: `{success, data?, message?}`. */
  datatype SignInAnswer = SignInAnswer(success: bool, data: Option<SessionData>, message: Option<string>)

  /** Replies the background worker sends through `sendResponse`. */
  datatype Response =
    | SignedIn(answer: SignInAnswer)
    | LoggedOut(success: bool)
    | AuthState(isLoggedIn: bool, success: bool, user: Option<User>)

  /** A runtime message as the background worker's listener sees it: the
      optional `action` and `type` properties and the `data` payload. */
  datatype Message = Message(action: Option<string>, kind: Option<string>, data: Credentials)

  /** A reply a tab's content script gives to `chrome.tabs.sendMessage`:
      the `'pong'` string or the `{success}` object. */
  datatype TabReply = TextReply(text: string) | AckReply(success: bool)

  const SignInAction := "signIn"
  const LogoutType := "LOGOUT"
  const CheckAuthType := "CHECK_AUTH"
  const PingAction := "ping"
  const ToggleAction := "togglePopup"
  const PongText := "pong"

  /** JavaScript truthiness of an optional numeric id: `undefined` and `0` are falsy. */
  predicate Truthy(id: Option<int>) {
    id.Some? && id.value != 0
  }

  /** JavaScript truthiness of an optional string: `undefined` and `''` are falsy. */
  predicate NonEmpty(s: Option<string>) {
    s.Some? && s.value != ""
  }

  /** The `signIn` message the login form sends. */
  function SignInMessage(c: Credentials): (m: Message) {
    Message(Some(SignInAction), None, c)
  }
}
