/** The background service worker: the icon-click handler with its
    content-script injection, and the coordinator that owns the session kept
    in extension storage (sign-in, token verification, CHECK_AUTH, LOGOUT). */
module Background {
  import opened Text
  import opened Protocol

  // ---------------------------------------------------------------------
  // Icon click and content-script injection
  // ---------------------------------------------------------------------

  /** URL prefixes of browser-internal pages no script may be injected into. */
  const RestrictedPrefixes: seq<string> := ["chrome://", "edge://", "about:"]

  /** The bundle `executeScript` injects into a tab. */
  const ContentScriptFile := "content/index.iife.js"

  /** The part of a `chrome.tabs.Tab` the click handler looks at. */
  datatype Tab = Tab(id: Option<int>, url: Option<string>)

  /** Whether the click handler goes on past its guard: the tab has a truthy
      id and a non-empty url that starts with no restricted prefix. */
  function CanInject(tab: Tab): (ok: bool)
    ensures ok <==>
      && Truthy(tab.id)
      && NonEmpty(tab.url)
      && forall p :: p in RestrictedPrefixes ==>
           !(|p| <= |tab.url.value| && tab.url.value[..|p|] == p)
  {
    if !Truthy(tab.id) || !NonEmpty(tab.url) then false
    else
      var url := tab.url.value;
      !(StartsWith(url, "chrome://") || StartsWith(url, "edge://") || StartsWith(url, "about:"))
  }

  /** Whether a ping answer leaves the content script to be injected: every
      answer except exactly the string `'pong'`, including no answer at all. */
  predicate NeedsInjection(answer: Option<TabReply>) {
    answer != Some(TextReply(PongText))
  }

  // ---------------------------------------------------------------------
  // Session storage and the remote authentication service
  // ---------------------------------------------------------------------

  const TokenKey := "token"
  const EmailKey := "email"
  const NameKey := "name"
  const RoleKey := "role"

  /** The four keys the session consists of. */
  const SessionKeys: set<string> := {TokenKey, EmailKey, NameKey, RoleKey}

  /** `chrome.storage.local` as a map from key to stored string. */
  type Store = map<string, string>

  /** The text every sign-in exception is reported with. */
  const UncaughtSignInError := "Uncaught error. Please try again"

  /** The outcome of the sign-in POST: a body with status `success` and its
      `data`, a body with another status and its optional `message`, or an
      exception (network failure, malformed JSON, a success body without
      `data`); an exception happens before anything is stored. */
  datatype SignInReply =
    | SignInOk(data: SessionData)
    | SignInRejected(message: Option<string>)
    | SignInThrew

  /** The outcome of the verify-token GET: a body with status `success` and
      its `user`, a body with another status, or an exception. */
  datatype VerifyReply =
    | VerifyOk(email: string, name: string)
    | VerifyRejected
    | VerifyThrew

  /** The HTTP calls the worker makes, with what it sends. */
  datatype HttpRequest = SignInPost(credentials: Credentials) | VerifyGet(bearer: string)

  /** What the worker sends into a tab or does to it. */
  datatype TabEvent =
    | PingSent(tab: int)
    | ScriptInjected(tab: int, file: string)
    | ToggleSent(tab: int)
    | SignInNotice(tab: int, status: string, data: Option<SessionData>, message: Option<string>)

  /** The store entries a successful sign-in writes. */
  function SessionEntries(d: SessionData): (m: Store)
    ensures m.Keys == SessionKeys
    ensures m[TokenKey] == d.token && m[EmailKey] == d.email
    ensures m[NameKey] == d.name && m[RoleKey] == d.role
  {
    map[TokenKey := d.token, EmailKey := d.email, NameKey := d.name, RoleKey := d.role]
  }

  /** The four `set` calls of a successful sign-in, one key at a time, leave
      the store holding the whole session over what it held before. */
  lemma StoredSession(s: Store, d: SessionData)
    ensures s[TokenKey := d.token][EmailKey := d.email][NameKey := d.name][RoleKey := d.role]
      == s + SessionEntries(d)
    ensures SessionKeys <= (s + SessionEntries(d)).Keys
  {
  }

  /** `!token` is false: a non-empty token is stored. */
  predicate HasToken(s: Store) {
    TokenKey in s && s[TokenKey] != ""
  }

  /** The value `get` returns for a key: `undefined` when it is not stored. */
  function Lookup(s: Store, k: string): (v: Option<string>)
  {
    if k in s then Some(s[k]) else None
  }

  /** The session is whole: all four keys are stored, or none is. */
  predicate SessionWhole(s: Store) {
    SessionKeys <= s.Keys || SessionKeys !! s.Keys
  }

  /** What a sign-in answers the caller for each outcome of the POST. */
  function SignInOutcome(reply: SignInReply): (a: SignInAnswer) {
    match reply
    case SignInOk(data) => SignInAnswer(true, Some(data), None)
    case SignInRejected(message) => SignInAnswer(false, None, message)
    case SignInThrew => SignInAnswer(false, None, Some(UncaughtSignInError))
  }

  /** The store after a sign-in with this outcome. */
  function SignInStore(s: Store, reply: SignInReply): (t: Store) {
    if reply.SignInOk? then s + SessionEntries(reply.data) else s
  }

  /** The `signInResponse` sent to the originating tab, when its id is
      truthy, for the answer the caller gets. */
  function SignInNotices(tabId: Option<int>, a: SignInAnswer): (n: seq<TabEvent>) {
    if Truthy(tabId) then
      [SignInNotice(tabId.value, if a.success then "success" else "error", a.data,
                    if a.success then Some("") else a.message)]
    else []
  }

  /** The store after `verifyToken`: unchanged without a token; with one,
      `email` and `name` refreshed on a success body and the four session
      keys removed otherwise. Keys outside the session are never touched,
      and on a refresh the token and role stay as they were. */
  function AfterVerify(s: Store, r: VerifyReply): (t: Store)
    ensures forall k :: k in s && k !in SessionKeys ==> k in t && t[k] == s[k]
    ensures HasToken(s) && r.VerifyOk? ==>
      && t.Keys == s.Keys + {EmailKey, NameKey}
      && t[TokenKey] == s[TokenKey] && Lookup(t, RoleKey) == Lookup(s, RoleKey)
      && t[EmailKey] == r.email && t[NameKey] == r.name
    ensures HasToken(s) && !r.VerifyOk? ==> t.Keys == s.Keys - SessionKeys
    ensures HasToken(t) ==> HasToken(s) && r.VerifyOk?
    ensures SessionWhole(s) ==> SessionWhole(t)
  {
    if !HasToken(s) then s
    else if r.VerifyOk? then s[EmailKey := r.email][NameKey := r.name]
    else s - SessionKeys
  }

  /** The requests `verifyToken` makes: one GET bearing the stored token,
      or none without a token. */
  function VerifyRequests(s: Store): (q: seq<HttpRequest>) {
    if HasToken(s) then [VerifyGet(s[TokenKey])] else []
  }

  /** The `checkAuth` answer from the verification result and the store
      read after it. */
  function AuthAnswer(valid: bool, t: Store): (a: Response)
    ensures a.AuthState? && a.success
    ensures a.isLoggedIn == valid && (a.user.Some? <==> valid)
  {
    if valid then AuthState(true, true, Some(User(Lookup(t, EmailKey), Lookup(t, NameKey), Lookup(t, RoleKey))))
    else AuthState(false, true, None)
  }

  /** The user CHECK_AUTH reports after a successful verification is the
      refreshed email and name with the role stored before. */
  lemma ReportedUserIsRefreshed(s: Store, r: VerifyReply)
    requires HasToken(s) && r.VerifyOk?
    ensures AuthAnswer(true, AfterVerify(s, r)).user == Some(User(Some(r.email), Some(r.name), Lookup(s, RoleKey)))
  {
    var t := AfterVerify(s, r);
    assert Lookup(t, EmailKey) == Some(r.email);
    assert Lookup(t, NameKey) == Some(r.name);
  }

  /** The process-wide background worker. */
  class Coordinator {
    /** `chrome.storage.local`. */
    var store: Store
    /** Everything sent to or done in a tab, oldest first. */
    var tabLog: seq<TabEvent>
    /** Every HTTP request made, oldest first. */
    var requests: seq<HttpRequest>

    constructor (initial: Store)
      ensures store == initial && tabLog == [] && requests == []
    {
      store := initial;
      tabLog := [];
      requests := [];
    }

    /** `ensureContentScriptInjected`: ping the tab and inject the content
        script unless it answered `'pong'`. `injected` tells whether
        `executeScript` succeeded; `ok` is false when the function throws. */
    method EnsureContentScriptInjected(tabId: int, answer: Option<TabReply>, injected: bool)
      returns (ok: bool)
      modifies this`tabLog
      ensures !NeedsInjection(answer) ==> ok && tabLog == old(tabLog) + [PingSent(tabId)]
      ensures NeedsInjection(answer) ==>
        ok == injected && tabLog == old(tabLog) + [PingSent(tabId), ScriptInjected(tabId, ContentScriptFile)]
    {
      tabLog := tabLog + [PingSent(tabId)];
      if answer == Some(TextReply(PongText)) {
        return true;
      }
      tabLog := tabLog + [ScriptInjected(tabId, ContentScriptFile)];
      ok := injected;
    }

    /** The `action.onClicked` listener: nothing happens for a tab that
        fails the guard; otherwise the content script is made present and,
        unless that threw, the panel is toggled. */
    method OnIconClicked(tab: Tab, answer: Option<TabReply>, injected: bool)
      modifies this`tabLog
      ensures !CanInject(tab) ==> tabLog == old(tabLog)
      ensures CanInject(tab) ==>
        var id := tab.id.value;
        tabLog == old(tabLog) + [PingSent(id)]
                  + (if NeedsInjection(answer) then [ScriptInjected(id, ContentScriptFile)] else [])
                  + (if !NeedsInjection(answer) || injected then [ToggleSent(id)] else [])
    {
      if !CanInject(tab) {
        return;
      }
      var id := tab.id.value;
      var ok := EnsureContentScriptInjected(id, answer, injected);
      if ok {
        tabLog := tabLog + [ToggleSent(id)];
      }
    }

    /** `signIn`: post the credentials; on a success body store the four
        session keys, otherwise leave the store as it was; tell the
        originating tab (when its id is truthy) and answer the caller. */
    method SignIn(credentials: Credentials, tabId: Option<int>, reply: SignInReply)
      returns (answer: SignInAnswer)
      modifies this`store, this`tabLog, this`requests
      ensures requests == old(requests) + [SignInPost(credentials)]
      ensures reply.SignInOk? ==> store == old(store) + SessionEntries(reply.data)
      ensures !reply.SignInOk? ==> store == old(store)
      ensures old(SessionWhole(store)) ==> SessionWhole(store)
      ensures answer.success <==> reply.SignInOk?
      ensures reply.SignInOk? ==> answer == SignInAnswer(true, Some(reply.data), None)
      ensures reply.SignInRejected? ==> answer == SignInAnswer(false, None, reply.message)
      ensures reply.SignInThrew? ==> answer == SignInAnswer(false, None, Some(UncaughtSignInError))
      ensures !Truthy(tabId) ==> tabLog == old(tabLog)
      ensures Truthy(tabId) ==> tabLog == old(tabLog) + [SignInNotice(tabId.value,
        if answer.success then "success" else "error",
        answer.data,
        if answer.success then Some("") else answer.message)]
      ensures answer == SignInOutcome(reply) && store == SignInStore(old(store), reply)
      ensures tabLog == old(tabLog) + SignInNotices(tabId, answer)
    {
      requests := requests + [SignInPost(credentials)];
      match reply
      case SignInOk(data) =>
        store := store[TokenKey := data.token];
        store := store[EmailKey := data.email];
        store := store[NameKey := data.name];
        store := store[RoleKey := data.role];
        StoredSession(old(store), data);
        if Truthy(tabId) {
          tabLog := tabLog + [SignInNotice(tabId.value, "success", Some(data), Some(""))];
        }
        answer := SignInAnswer(true, Some(data), None);
      case SignInRejected(message) =>
        if Truthy(tabId) {
          tabLog := tabLog + [SignInNotice(tabId.value, "error", None, message)];
        }
        answer := SignInAnswer(false, None, message);
      case SignInThrew =>
        if Truthy(tabId) {
          tabLog := tabLog + [SignInNotice(tabId.value, "error", None, Some(UncaughtSignInError))];
        }
        answer := SignInAnswer(false, None, Some(UncaughtSignInError));
    }

    /** `verifyToken`: with no stored token answer false at once; otherwise
        send the token as bearer credential, refresh `email` and `name` on a
        success body, and remove the whole session on anything else. */
    method VerifyToken(reply: VerifyReply) returns (valid: bool)
      modifies this`store, this`requests
      ensures !HasToken(old(store)) ==> !valid && store == old(store) && requests == old(requests)
      ensures HasToken(old(store)) ==> requests == old(requests) + [VerifyGet(old(store)[TokenKey])]
      ensures HasToken(old(store)) ==> (valid <==> reply.VerifyOk?)
      ensures HasToken(old(store)) && reply.VerifyOk? ==>
        store == old(store)[EmailKey := reply.email][NameKey := reply.name]
      ensures HasToken(old(store)) && !reply.VerifyOk? ==> store == old(store) - SessionKeys
      ensures old(SessionWhole(store)) ==> SessionWhole(store)
      ensures valid == (HasToken(old(store)) && reply.VerifyOk?)
      ensures store == AfterVerify(old(store), reply)
      ensures requests == old(requests) + VerifyRequests(old(store))
    {
      if !HasToken(store) {
        return false;
      }
      requests := requests + [VerifyGet(store[TokenKey])];
      if reply.VerifyOk? {
        store := store[EmailKey := reply.email];
        store := store[NameKey := reply.name];
        valid := true;
      } else {
        store := store - SessionKeys;
        valid := false;
      }
    }

    /** `checkAuth`: always verify first, then report the stored user when
        the token is valid and `user: null` otherwise. */
    method CheckAuth(reply: VerifyReply) returns (state: Response)
      modifies this`store, this`requests
      ensures state.AuthState? && state.success
      ensures state.isLoggedIn <==> HasToken(old(store)) && reply.VerifyOk?
      ensures state.user.Some? <==> state.isLoggedIn
      ensures state.isLoggedIn ==>
        state.user == Some(User(Some(reply.email), Some(reply.name), Lookup(old(store), RoleKey)))
      ensures !state.isLoggedIn ==> !HasToken(store)
      ensures HasToken(old(store)) && reply.VerifyOk? ==>
        store == old(store)[EmailKey := reply.email][NameKey := reply.name]
      ensures HasToken(old(store)) && !reply.VerifyOk? ==> store == old(store) - SessionKeys
      ensures !HasToken(old(store)) ==> store == old(store) && requests == old(requests)
      ensures HasToken(old(store)) ==> requests == old(requests) + [VerifyGet(old(store)[TokenKey])]
      ensures old(SessionWhole(store)) ==> SessionWhole(store)
      ensures state == AuthAnswer(HasToken(old(store)) && reply.VerifyOk?, store)
      ensures store == AfterVerify(old(store), reply)
      ensures requests == old(requests) + VerifyRequests(old(store))
    {
      var valid := VerifyToken(reply);
      if valid {
        var user := User(Lookup(store, EmailKey), Lookup(store, NameKey), Lookup(store, RoleKey));
        state := AuthState(true, true, Some(user));
      } else {
        state := AuthState(false, true, None);
      }
    }

    /** The LOGOUT branch: remove the four session keys, answer success. */
    method Logout() returns (ack: Response)
      modifies this`store
      ensures store == old(store) - SessionKeys
      ensures ack == LoggedOut(true)
      ensures SessionWhole(store)
    {
      store := store - SessionKeys;
      ack := LoggedOut(true);
    }

    /** The `onStartup` listener: verify the stored token once. */
    method OnStartup(reply: VerifyReply)
      modifies this`store, this`requests
      ensures HasToken(old(store)) && !reply.VerifyOk? ==> store == old(store) - SessionKeys
      ensures HasToken(old(store)) && reply.VerifyOk? ==>
        store == old(store)[EmailKey := reply.email][NameKey := reply.name]
      ensures !HasToken(old(store)) ==> store == old(store) && requests == old(requests)
      ensures HasToken(old(store)) ==> requests == old(requests) + [VerifyGet(old(store)[TokenKey])]
      ensures store == AfterVerify(old(store), reply)
      ensures old(SessionWhole(store)) ==> SessionWhole(store)
    {
      var _ := VerifyToken(reply);
    }

    /** The `runtime.onMessage` listener: `action: 'signIn'` first, then
        `type: 'LOGOUT'`, then `type: 'CHECK_AUTH'`; any other message gets
        no response (None) and changes nothing. The remote replies are the
        ones the call would get, and only the branch taken consults one. */
    method OnMessage(msg: Message, senderTab: Option<int>, signInReply: SignInReply, verifyReply: VerifyReply)
      returns (response: Option<Response>)
      modifies this`store, this`tabLog, this`requests
      ensures msg.action == Some(SignInAction) ==>
        && response == Some(SignedIn(SignInOutcome(signInReply)))
        && store == SignInStore(old(store), signInReply)
        && requests == old(requests) + [SignInPost(msg.data)]
        && tabLog == old(tabLog) + SignInNotices(senderTab, SignInOutcome(signInReply))
      ensures msg.action == Some(SignInAction) ==>
        && response.Some? && response.value.SignedIn?
        && (response.value.answer.success <==> signInReply.SignInOk?)
        && (signInReply.SignInOk? ==>
              store == old(store) + SessionEntries(signInReply.data)
              && response.value.answer.data == Some(signInReply.data))
        && (!signInReply.SignInOk? ==> store == old(store) && response.value.answer.data == None)
        && (signInReply.SignInRejected? ==> response.value.answer.message == signInReply.message)
        && (signInReply.SignInThrew? ==> response.value.answer.message == Some(UncaughtSignInError))
      ensures msg.action != Some(SignInAction) && msg.kind == Some(LogoutType) ==>
        response == Some(LoggedOut(true)) && store == old(store) - SessionKeys
        && tabLog == old(tabLog) && requests == old(requests)
      ensures msg.action != Some(SignInAction) && msg.kind == Some(CheckAuthType) ==>
        && response == Some(AuthAnswer(HasToken(old(store)) && verifyReply.VerifyOk?, store))
        && store == AfterVerify(old(store), verifyReply)
        && requests == old(requests) + VerifyRequests(old(store))
        && tabLog == old(tabLog)
      ensures msg.action != Some(SignInAction) && msg.kind == Some(CheckAuthType) ==>
        && response.Some? && response.value.AuthState? && response.value.success
        && (response.value.isLoggedIn <==> HasToken(old(store)) && verifyReply.VerifyOk?)
        && (response.value.isLoggedIn ==>
              response.value.user == Some(User(Some(verifyReply.email), Some(verifyReply.name), Lookup(old(store), RoleKey))))
        && (!response.value.isLoggedIn ==> response.value.user == None && !HasToken(store))
      ensures msg.action != Some(SignInAction) && msg.kind != Some(LogoutType) && msg.kind != Some(CheckAuthType) ==>
        response == None && store == old(store) && tabLog == old(tabLog) && requests == old(requests)
      ensures old(SessionWhole(store)) ==> SessionWhole(store)
    {
      if msg.action == Some(SignInAction) {
        var answer := SignIn(msg.data, senderTab, signInReply);
        response := Some(SignedIn(answer));
      } else if msg.kind == Some(LogoutType) {
        var ack := Logout();
        response := Some(ack);
      } else if msg.kind == Some(CheckAuthType) {
        var state := CheckAuth(verifyReply);
        response := Some(state);
      } else {
        response := None;
      }
    }
  }

  // ---------------------------------------------------------------------
  // Properties of the store transitions
  // ---------------------------------------------------------------------

  /** Removing the session twice is removing it once: LOGOUT is idempotent. */
  lemma LogoutIdempotent(s: Store)
    ensures (s - SessionKeys) - SessionKeys == s - SessionKeys
    ensures SessionKeys !! (s - SessionKeys).Keys
  {
  }

  /** Every store transition keeps the session whole. */
  lemma TransitionsKeepSessionWhole(s: Store, d: SessionData, email: string, name: string)
    requires SessionWhole(s)
    ensures SessionWhole(s + SessionEntries(d))
    ensures SessionWhole(s - SessionKeys)
    ensures HasToken(s) ==> SessionWhole(s[EmailKey := email][NameKey := name])
  {
  }
}
