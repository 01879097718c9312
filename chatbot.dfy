/** The controller of the embeddable chat widget: the open/closed toggle, the
    greeting that seeds the conversation, the notification-permission button,
    the new-reply detector behind the sound cue and the system notification,
    and the small views derived from a turn's role and the session status.
    The conversation hook, the browser's Notification API and the audio cue
    are outside the model: what they supply is passed in as parameters and
    what they would receive is returned. */
module Chatbot {

  datatype Option<T> = None | Some(value: T)

  /** Who a conversation turn belongs to; `Data` is a structured payload. */
  datatype Role = User | Assistant | Data

  /** One conversation turn. */
  datatype Msg = Msg(id: string, role: Role, content: string)

  /** The three values of a notification permission, in the browser and locally. */
  datatype Perm = Default | Granted | Denied

  /** The conversation hook's status: waiting for input, or a request in flight. */
  datatype Status = AwaitingMessage | InProgress

  /** A system notification as it would be raised. */
  datatype Notice = Notice(title: string, body: string)

  /** Which of the two top-level pieces is rendered. */
  datatype View = View(trigger: bool, window: bool)

  /** What the message component receives for one turn: its `role` prop and
      its children. `Text` is the turn's content; `Payload` is the fragment
      built for a data turn (its description and JSON dump). */
  datatype Body = Text(text: string) | Payload
  datatype Bubble = Bubble(role: Role, body: Body)

  /** The browser's permission together with the widget's own copy of it. */
  datatype PermissionState = PermissionState(browser: Perm, local: Perm)

  const InitialMessageId: string := "initial-message"
  const DefaultGreeting: string := "Hi there! How can I help you today?"
  const DefaultTitle: string := "Chatbot"
  const NoticeTitlePrefix: string := "New message from "
  const NoticeBody: string := "You have a new reply!"

  // ---------------------------------------------------------------------------
  // Open/closed toggle

  /** The trigger is rendered while closed, the window while open. */
  function Shown(isOpen: bool): (v: View)
    ensures v.window == isOpen
    ensures v.trigger != v.window
  {
    View(!isOpen, isOpen)
  }

  /** Whether the widget is open after `n` clicks on the trigger or the close
      control, starting from `isOpen`. */
  function ToggledTimes(isOpen: bool, n: nat): (open: bool)
  {
    if n == 0 then isOpen else !ToggledTimes(isOpen, n - 1)
  }

  /** An even number of toggles restores the state, an odd number flips it. */
  lemma {:induction false} ToggleParity(isOpen: bool, n: nat)
    ensures ToggledTimes(isOpen, n) == (if n % 2 == 0 then isOpen else !isOpen)
  {
    if n > 0 {
      ToggleParity(isOpen, n - 1);
    }
  }

  // ---------------------------------------------------------------------------
  // Seeding

  /** The greeting turn the conversation is seeded with. */
  function Greeting(text: string): (m: Msg)
  {
    Msg(InitialMessageId, Assistant, text)
  }

  // ---------------------------------------------------------------------------
  // Counting assistant turns

  /** The assistant turns of a conversation, in order. */
  function AssistantMessages(msgs: seq<Msg>): (r: seq<Msg>)
    ensures |r| <= |msgs|
    ensures forall i :: 0 <= i < |r| ==> r[i].role == Assistant
    ensures forall m :: m in r ==> m in msgs
    ensures forall m :: m in msgs && m.role == Assistant ==> m in r
  {
    if msgs == [] then []
    else (if msgs[0].role == Assistant then [msgs[0]] else []) + AssistantMessages(msgs[1..])
  }

  function AssistantCount(msgs: seq<Msg>): (n: nat)
  {
    |AssistantMessages(msgs)|
  }

  /** Counting distributes over concatenation. */
  lemma {:induction false} AssistantCountAppend(a: seq<Msg>, b: seq<Msg>)
    ensures AssistantCount(a + b) == AssistantCount(a) + AssistantCount(b)
  {
    if a == [] {
      assert a + b == b;
    } else {
      assert (a + b)[0] == a[0];
      assert (a + b)[1..] == a[1..] + b;
      AssistantCountAppend(a[1..], b);
    }
  }

  /** The positions of the assistant turns: an independent account of the count. */
  function AssistantIndices(msgs: seq<Msg>): (ix: set<int>)
  {
    set i | 0 <= i < |msgs| && msgs[i].role == Assistant
  }

  /** Appending a turn adds its position exactly when it is an assistant turn. */
  lemma AssistantIndicesSnoc(front: seq<Msg>, last: Msg)
    ensures AssistantIndices(front + [last])
         == AssistantIndices(front) + (if last.role == Assistant then {|front|} else {})
  {
  }

  /** The filtered count is exactly the number of positions holding an
      assistant turn, so each such turn is counted once. */
  lemma {:induction false} AssistantCountIsIndexCount(msgs: seq<Msg>)
    ensures AssistantCount(msgs) == |AssistantIndices(msgs)|
  {
    if msgs == [] {
      assert AssistantIndices(msgs) == {};
    } else {
      var n := |msgs| - 1;
      var front, last := msgs[..n], msgs[n];
      assert front + [last] == msgs;
      AssistantCountIsIndexCount(front);
      AssistantCountAppend(front, [last]);
      assert AssistantMessages([last]) == (if last.role == Assistant then [last] else []) + AssistantMessages([]);
      AssistantIndicesSnoc(front, last);
      assert n !in AssistantIndices(front);
    }
  }

  /** A conversation without assistant turns counts zero. */
  lemma {:induction false} NoAssistantCountsZero(msgs: seq<Msg>)
    requires forall i :: 0 <= i < |msgs| ==> msgs[i].role != Assistant
    ensures AssistantCount(msgs) == 0
  {
    if msgs != [] {
      NoAssistantCountsZero(msgs[1..]);
    }
  }

  // ---------------------------------------------------------------------------
  // New-reply detection

  /** The last turn is the seeded greeting. An empty conversation has no last
      turn, so it does not end with the greeting. */
  predicate EndsWithGreeting(msgs: seq<Msg>)
  {
    |msgs| > 0 && msgs[|msgs| - 1].id == InitialMessageId
  }

  /** The effect's firing condition: more assistant turns than at the previous
      run, and the newest turn is not the greeting. */
  predicate NewReply(msgs: seq<Msg>, prevAiCount: nat)
  {
    AssistantCount(msgs) > prevAiCount && !EndsWithGreeting(msgs)
  }

  /** The seeded greeting never alerts, whatever was counted before. */
  lemma GreetingNeverAlerts(text: string, prevAiCount: nat)
    ensures !NewReply([Greeting(text)], prevAiCount)
  {
  }

  /** The effect stores the count it saw, so running it again on the same
      turns (because only the title or the permission changed) is silent. */
  lemma RerunNeverAlerts(msgs: seq<Msg>)
    ensures !NewReply(msgs, AssistantCount(msgs))
  {
  }

  /** Cutting the conversation down to a prefix never alerts. */
  lemma TruncationNeverAlerts(msgs: seq<Msg>, k: nat)
    requires k <= |msgs|
    ensures !NewReply(msgs[..k], AssistantCount(msgs))
  {
    assert msgs[..k] + msgs[k..] == msgs;
    AssistantCountAppend(msgs[..k], msgs[k..]);
  }

  /** After the greeting has been counted, user turns followed by one
      assistant reply (not the greeting) alert. */
  lemma ReplyAfterGreetingAlerts(text: string, userTurns: seq<Msg>, reply: Msg)
    requires forall i :: 0 <= i < |userTurns| ==> userTurns[i].role == User
    requires reply.role == Assistant && reply.id != InitialMessageId
    ensures NewReply([Greeting(text)] + userTurns + [reply], AssistantCount([Greeting(text)]))
  {
    NoAssistantCountsZero(userTurns);
    AssistantCountAppend([Greeting(text)], userTurns);
    AssistantCountAppend([Greeting(text)] + userTurns, [reply]);
    assert AssistantMessages([reply]) == [reply] + AssistantMessages([]);
  }

  /** The system notification raised for a new reply. */
  function NoticeFor(title: string): (n: Notice)
    ensures |n.title| == |NoticeTitlePrefix| + |title|
    ensures n.title[..|NoticeTitlePrefix|] == NoticeTitlePrefix
    ensures n.title[|NoticeTitlePrefix|..] == title
    ensures n.body == NoticeBody
  {
    Notice(NoticeTitlePrefix + title, NoticeBody)
  }

  // ---------------------------------------------------------------------------
  // Notification-permission button

  /** One click on the bell: unsupported browsers ignore it; a browser that has
      granted only clears the local copy; a denied one is never asked again;
      otherwise the browser is asked and both copies adopt its answer. */
  function Click(s: PermissionState, supported: bool, answer: Perm): (t: PermissionState)
  {
    if !supported then s
    else if s.browser == Granted then PermissionState(s.browser, Default)
    else if s.browser != Denied then PermissionState(answer, answer)
    else s
  }

  /** Whether a click asks the browser for permission. */
  predicate Asks(s: PermissionState, supported: bool)
  {
    supported && s.browser != Granted && s.browser != Denied
  }

  /** The state after a run of clicks, the i-th answered by `answers[i]` if asked. */
  function ClickAll(s: PermissionState, supported: bool, answers: seq<Perm>): (t: PermissionState)
    decreases |answers|
  {
    if answers == [] then s else ClickAll(Click(s, supported, answers[0]), supported, answers[1..])
  }

  /** How many of those clicks ask the browser. */
  function Requests(s: PermissionState, supported: bool, answers: seq<Perm>): (n: nat)
    decreases |answers|
  {
    if answers == [] then 0
    else (if Asks(s, supported) then 1 else 0) + Requests(Click(s, supported, answers[0]), supported, answers[1..])
  }

  /** Once the browser has denied, clicking never asks again and changes nothing. */
  lemma {:induction false} DeniedIsSticky(s: PermissionState, supported: bool, answers: seq<Perm>)
    requires s.browser == Denied
    ensures ClickAll(s, supported, answers) == s
    ensures Requests(s, supported, answers) == 0
  {
    if answers != [] {
      DeniedIsSticky(s, supported, answers[1..]);
    }
  }

  /** Once the browser has granted, clicking never asks and can only leave the
      local copy at default: the bell cannot switch system notifications back on. */
  lemma {:induction false} GrantedBrowserPinsDefault(s: PermissionState, answers: seq<Perm>)
    requires s.browser == Granted
    requires answers != []
    ensures ClickAll(s, true, answers) == PermissionState(Granted, Default)
    ensures Requests(s, true, answers) == 0
    decreases |answers|
  {
    if |answers| > 1 {
      GrantedBrowserPinsDefault(PermissionState(Granted, Default), answers[1..]);
    }
  }

  /** However the browser answers, it is asked at most once for any answer
      other than default: a decisive answer ends the prompting. */
  lemma {:induction false} DecisiveAnswerEndsPrompting(s: PermissionState, supported: bool, answers: seq<Perm>)
    requires s.browser == Default && supported
    requires answers != [] && answers[0] != Default
    ensures Requests(s, supported, answers) == 1
    ensures ClickAll(s, supported, answers).local == (if answers[0] == Granted && |answers| > 1 then Default else answers[0])
  {
    var t := Click(s, supported, answers[0]);
    if t.browser == Denied {
      DeniedIsSticky(t, supported, answers[1..]);
    } else if |answers| > 1 {
      GrantedBrowserPinsDefault(t, answers[1..]);
    }
  }

  // ---------------------------------------------------------------------------
  // Derived views

  /** Data turns are drawn in the assistant's style; the others in their own. */
  function DisplayRole(role: Role): (r: Role)
    ensures r != Data
    ensures role == Data ==> r == Assistant
    ensures role != Data ==> r == role
  {
    if role == Data then Assistant else role
  }

  /** The props one turn hands to the message component: non-data turns pass
      their content unchanged as children. */
  function Render(m: Msg): (b: Bubble)
    ensures b.role != Data
    ensures b.role == User <==> m.role == User
    ensures b.body.Text? <==> m.role != Data
    ensures m.role != Data ==> b.body.text == m.content
  {
    Bubble(DisplayRole(m.role), if m.role == Data then Payload else Text(m.content))
  }

  /** The message list: one bubble per turn, in order. */
  function RenderAll(msgs: seq<Msg>): (r: seq<Bubble>)
    ensures |r| == |msgs|
    ensures forall i :: 0 <= i < |msgs| ==> r[i] == Render(msgs[i])
  {
    if msgs == [] then [] else [Render(msgs[0])] + RenderAll(msgs[1..])
  }

  /** No bubble on screen carries the data style, and a bubble is drawn as the
      user's exactly when its turn is the user's. */
  lemma RenderedRoles(msgs: seq<Msg>, i: nat)
    requires i < |msgs|
    ensures RenderAll(msgs)[i].role != Data
    ensures RenderAll(msgs)[i].role == User <==> msgs[i].role == User
  {
  }

  /** The composer input and the submit button are disabled. */
  predicate InputDisabled(status: Status)
  {
    status != AwaitingMessage
  }

  /** The thinking indicator is shown. */
  predicate ThinkingShown(status: Status)
  {
    status == InProgress
  }

  /** Input is disabled exactly while the thinking indicator is shown. */
  lemma DisabledIffThinking(status: Status)
    ensures InputDisabled(status) <==> ThinkingShown(status)
  {
  }

  // ---------------------------------------------------------------------------
  // The controller

  class ChatbotController {
    var isOpen: bool
    var permission: Perm
    /** The assistant count seen by the previous run of the notification effect. */
    var prevAiCount: nat
    /** The conversation as the hook holds it. */
    var messages: seq<Msg>

    /** A freshly mounted widget: closed, local permission default, nothing
        counted and no turns yet. */
    constructor ()
      ensures !isOpen && permission == Default && prevAiCount == 0 && messages == []
    {
      isOpen := false;
      permission := Default;
      prevAiCount := 0;
      messages := [];
    }

    /** Clicking the trigger, the header background or the close button. */
    method Toggle()
      modifies this`isOpen
      ensures isOpen == !old(isOpen)
      ensures isOpen == ToggledTimes(old(isOpen), 1)
      ensures Shown(isOpen).trigger == old(Shown(isOpen).window)
    {
      isOpen := !isOpen;
    }

    /** The hook replacing the conversation (its own updates, or the setter). */
    method SetMessages(ms: seq<Msg>)
      modifies this`messages
      ensures messages == ms
    {
      messages := ms;
    }

    /** Seeding with `greeting` replaces any history by the single greeting turn. */
    method Seed(greeting: string)
      modifies this`messages
      ensures |messages| == 1
      ensures messages[0].id == InitialMessageId
      ensures messages[0].role == Assistant
      ensures messages[0].content == greeting
      ensures AssistantCount(messages) == 1 && EndsWithGreeting(messages)
    {
      SetMessages([Greeting(greeting)]);
      assert AssistantMessages(messages) == [messages[0]] + AssistantMessages([]);
    }

    /** A click on the bell. `supported` says whether the browser has a
        Notification API, `browserPerm` is its current permission and
        `requestResult` the answer a permission request would resolve to. */
    method ToggleNotifications(supported: bool, browserPerm: Perm, requestResult: Perm)
      returns (requested: bool)
      modifies this`permission
      ensures requested <==> supported && browserPerm == Default
      ensures !supported ==> permission == old(permission)
      ensures supported && browserPerm == Granted ==> permission == Default
      ensures supported && browserPerm == Denied ==> permission == old(permission)
      ensures requested ==> permission == requestResult
      ensures permission == Click(PermissionState(browserPerm, old(permission)), supported, requestResult).local
      ensures requested == Asks(PermissionState(browserPerm, old(permission)), supported)
    {
      requested := false;
      if supported {
        if browserPerm == Granted {
          permission := Default;
        } else if browserPerm != Denied {
          requested := true;
          permission := requestResult;
        }
      }
    }

    /** The effect that runs after the turns, the title or the permission
        change: it plays the cue for a new reply, raises a system notification
        when notifications are supported and granted, and stores the count. */
    method OnMessagesEffect(supported: bool, title: string)
      returns (soundFired: bool, notice: Option<Notice>)
      modifies this`prevAiCount
      ensures soundFired <==> AssistantCount(messages) > old(prevAiCount) && !EndsWithGreeting(messages)
      ensures soundFired == NewReply(messages, old(prevAiCount))
      ensures notice.Some? <==> soundFired && supported && permission == Granted
      ensures notice.Some? ==> notice.value == NoticeFor(title)
      ensures prevAiCount == AssistantCount(messages)
    {
      var aiMessages := AssistantCount(messages);
      soundFired := false;
      notice := None;
      if aiMessages > prevAiCount && (|messages| == 0 || messages[|messages| - 1].id != InitialMessageId) {
        soundFired := true;
        if supported && permission == Granted {
          notice := Some(NoticeFor(title));
        }
      }
      prevAiCount := aiMessages;
    }
  }

  /** A session with the default props: mount (the effect first runs on the
      empty conversation), seed, grant notifications, a user turn, a reply,
      then a rerun caused by a title change. Only the reply alerts, and it
      raises one notice. */
  method DefaultSessionAlertsOnce()
  {
    var title, greeting := DefaultTitle, DefaultGreeting;
    var c := new ChatbotController();
    var fired, notice := c.OnMessagesEffect(true, title);
    assert !fired;

    c.Seed(greeting);
    fired, notice := c.OnMessagesEffect(true, title);
    assert !fired && c.prevAiCount == 1;

    var asked := c.ToggleNotifications(true, Default, Granted);
    assert asked && c.permission == Granted;
    fired, notice := c.OnMessagesEffect(true, title);
    assert !fired;

    var user := Msg("u1", User, "hello");
    c.SetMessages([Greeting(greeting), user]);
    NoAssistantCountsZero([user]);
    AssistantCountAppend([Greeting(greeting)], [user]);
    fired, notice := c.OnMessagesEffect(true, title);
    assert !fired;

    var reply := Msg("a1", Assistant, "Hi!");
    c.SetMessages([Greeting(greeting), user, reply]);
    ReplyAfterGreetingAlerts(greeting, [user], reply);
    assert [Greeting(greeting)] + [user] + [reply] == [Greeting(greeting), user, reply];
    fired, notice := c.OnMessagesEffect(true, title);
    assert NoticeTitlePrefix + DefaultTitle == "New message from Chatbot";
    assert fired && notice == Some(Notice("New message from Chatbot", "You have a new reply!"));

    fired, notice := c.OnMessagesEffect(true, "Helper");
    assert !fired && notice == None;
  }
}
