/** Runs of the three components against fixed inputs, proved from their
    contracts alone. */
module Scenarios {
  import opened Text
  import opened Protocol
  import opened Background
  import opened Content
  import opened SignIn

  /** LOGOUT twice answers `{success: true}` both times and leaves the same
      store, with no session key left. */
  method LogoutTwice(initial: Store) returns (first: Response, second: Response, afterFirst: Store, afterSecond: Store)
    ensures first == LoggedOut(true) && second == LoggedOut(true)
    ensures afterFirst == afterSecond && SessionKeys !! afterSecond.Keys
  {
    var c := new Coordinator(initial);
    var none := Credentials("", "");
    var r1 := c.OnMessage(Message(None, Some(LogoutType), none), None, SignInThrew, VerifyThrew);
    afterFirst := c.store;
    var r2 := c.OnMessage(Message(None, Some(LogoutType), none), None, SignInThrew, VerifyThrew);
    afterSecond := c.store;
    LogoutIdempotent(initial);
    first, second := r1.value, r2.value;
  }

  /** A successful sign-in from an empty store stores exactly the four
      values, and a CHECK_AUTH whose verification succeeds reports the
      stored role. */
  method SignInThenCheckAuth() returns (stored: Store, state: Response)
    ensures stored == map["token" := "T1", "email" := "a@b.com", "name" := "A", "role" := "doctor"]
    ensures state == AuthState(true, true, Some(User(Some("a@b.com"), Some("A"), Some("doctor"))))
  {
    var c := new Coordinator(map[]);
    var data := SessionData("T1", "a@b.com", "A", "doctor");
    var answer := c.SignIn(Credentials("a@b.com", "Valid1!x"), Some(7), SignInOk(data));
    stored := c.store;
    state := c.CheckAuth(VerifyOk("a@b.com", "A"));
  }

  /** A stored token the service rejects: the session is removed, and a
      second CHECK_AUTH reports logged out without any further request. */
  method RejectedTokenClearsSession() returns (first: Response, second: Response, stored: Store, calls: nat)
    ensures first == AuthState(false, true, None) && second == AuthState(false, true, None)
    ensures stored == map[] && calls == 1
  {
    var initial := map["token" := "T1", "email" := "a@b.com", "name" := "A", "role" := "doctor"];
    assert initial - SessionKeys == map[] by {
      assert (initial - SessionKeys).Keys == {};
    }
    var c := new Coordinator(initial);
    first := c.CheckAuth(VerifyRejected);
    second := c.CheckAuth(VerifyRejected);
    stored := c.store;
    calls := |c.requests|;
  }

  /** A fresh form, filled in with an email and a password meeting the rule
      and submitted: the one `signIn` message carries what was typed. */
  method SubmitStrongPassword(email: string, password: string) returns (form: LoginForm)
    requires ValidatePassword(password)
    ensures fresh(form) && form.hasCallback
    ensures form.sent == [SignInMessage(Credentials(email, password))]
    ensures form.loading && form.error == ""
  {
    form := new LoginForm(true);
    form.HandleChange(EmailField, email);
    form.HandleChange(PasswordField, password);
    form.HandleSubmit(false);
  }

  /** A strong password submitted from the form, rejected by the service
      with a message: the store is as before and the form shows the message. */
  method RejectedSignInReachesForm(initial: Store, email: string, password: string, message: string)
    returns (stored: Store, error: string, loading: bool)
    requires ValidatePassword(password) && message != ""
    ensures stored == initial
    ensures error == message && !loading
  {
    var form := SubmitStrongPassword(email, password);
    var c := new Coordinator(initial);
    var response := c.OnMessage(form.sent[0], None, SignInRejected(Some(message)), VerifyThrew);
    form.HandleReply(Some(response.value.answer));
    stored, error, loading := c.store, form.error, form.loading;
  }

  /** A weak password is stopped at the form: nothing is sent. */
  method WeakPasswordStopsSubmit() returns (sent: seq<Message>, error: string)
    ensures sent == [] && error == WeakPasswordError
  {
    var form := new LoginForm(true);
    form.HandleChange(PasswordField, "abc12345");
    LowercaseAndDigitsRejected();
    form.HandleSubmit(false);
    sent, error := form.sent, form.error;
  }

  /** Open the panel, start a drag and a resize, toggle again: no document
      handler and no container is left. */
  method ToggleTwiceLeavesNoListeners() returns (listeners: set<Listener>, box: Option<Box>, open: bool)
    ensures listeners == {} && box == None && !open
  {
    var b := new Bridge();
    var _, _ := b.OnRuntimeMessage(Some(ToggleAction));
    b.StartDragging(120, 110);
    b.StartResizing(495, 595);
    var _, _ := b.OnRuntimeMessage(Some(ToggleAction));
    listeners, box, open := b.docListeners, b.container, b.isPopupOpen;
  }

  /** A frame message from a window other than the iframe's changes
      nothing, whatever it asks for. */
  method ForeignFrameMessageIgnored(url: string) returns (box: Option<Box>, tabs: seq<string>)
    ensures box == Some(InitialBox) && tabs == []
  {
    var b := new Bridge();
    var _, _ := b.OnRuntimeMessage(Some(ToggleAction));
    b.OnFrameLoad();
    var frame := b.frameHandlers[0];
    b.HandleFrameMessage(0, Some(frame + 1), ClosePopup);
    b.HandleFrameMessage(0, None, Navigate(Some(url)));
    box, tabs := b.container, b.openedTabs;
  }

  /** Pressing the resize handle at (495, 595) and moving to (595, 695) in
      a 1920 x 1080 viewport: the resize handler widens the panel to 500 by
      600, and the drag the same press started moves it 100 px right and
      down, so the panel's corner travels twice as far as the pointer. */
  method ResizeHandleAlsoDrags() returns (box: Box)
    ensures box == Box(200, 200, 500, 600)
  {
    var b := new Bridge();
    var _, _ := b.OnRuntimeMessage(Some(ToggleAction));
    b.MouseDownOnResizeHandle(10, 495, 595);
    // `document` runs its `mousemove` handlers in the order they were added.
    b.OnResize(595, 695);
    b.OnDrag(595, 695, 1920, 1080);
    box := b.container.value;
  }

  /** The same press and move when the handle keeps the press to itself:
      the panel stays where it was and only grows. */
  method ResizeHandleContainedOnlyResizes() returns (box: Box)
    ensures box == Box(100, 100, 500, 600)
  {
    var b := new Bridge();
    var _, _ := b.OnRuntimeMessage(Some(ToggleAction));
    b.MouseDownOnResizeHandleContained(10, 495, 595);
    b.OnResize(595, 695);
    b.OnDrag(595, 695, 1920, 1080);
    box := b.container.value;
  }

  /** The iframe loads, is sent to another extension page and loads again:
      it now has two `message` handlers, and one `navigate` to an outside url
      is acted on by both, requesting the same tab twice. */
  method ReloadedFrameHandlesTwice(inside: string, outside: string) returns (handlers: seq<nat>, tabs: seq<string>)
    requires LoadsInFrame(Some(inside)) && OpensTab(Some(outside))
    ensures |handlers| == 2 && handlers[0] == handlers[1]
    ensures tabs == [outside, outside]
  {
    var b := new Bridge();
    var _, _ := b.OnRuntimeMessage(Some(ToggleAction));
    var frame := b.popupElement.value;
    b.OnFrameLoad();
    b.HandleFrameMessage(0, Some(frame), Navigate(Some(inside)));
    b.OnFrameLoad();
    // The window runs every `message` handler for the one event.
    b.HandleFrameMessage(0, Some(frame), Navigate(Some(outside)));
    b.HandleFrameMessage(1, Some(frame), Navigate(Some(outside)));
    handlers, tabs := b.frameHandlers, b.openedTabs;
  }

  /** With the handler added on the first load only, the same run keeps one
      handler and requests the tab once. */
  method ReloadedFrameHandlesOnce(inside: string, outside: string) returns (handlers: seq<nat>, tabs: seq<string>)
    requires LoadsInFrame(Some(inside)) && OpensTab(Some(outside))
    ensures |handlers| == 1
    ensures tabs == [outside]
  {
    var b := new Bridge();
    var _, _ := b.OnRuntimeMessage(Some(ToggleAction));
    var frame := b.popupElement.value;
    b.OnFrameLoadOnce();
    b.HandleFrameMessage(0, Some(frame), Navigate(Some(inside)));
    b.OnFrameLoadOnce();
    b.HandleFrameMessage(0, Some(frame), Navigate(Some(outside)));
    handlers, tabs := b.frameHandlers, b.openedTabs;
  }
}
