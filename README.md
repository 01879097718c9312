# Chat widget controller

A model of the `Chatbot` controller in `components/chatbot.tsx`: the state machine behind an embeddable chat widget. The widget is a floating trigger button that opens into a conversation window. The model covers:

- the open/closed toggle, and which of trigger and window is rendered;
- seeding the conversation with a greeting turn, whose id is `initial-message`;
- the bell button that switches system notifications on and off against the browser's notification permission (`default`, `granted`, `denied`);
- the new-reply detector. It compares the number of `assistant` turns with the count stored by its previous run. It plays the sound cue and, when permitted, raises a system notification only for a real new reply, never for the greeting;
- the derived views: `data` turns drawn in the assistant's style; the input and submit button disabled unless the status is `awaiting_message`; the thinking indicator shown while it is `in_progress`.

Everything is in `chatbot.dfy`, module `Chatbot`. The class `ChatbotController` holds the controller's state: `isOpen`, `permission`, `prevAiCount` (the stored count) and `messages`. Its methods are the source's handlers and effects. Counting, rendering, gating and one click of the bell are pure functions, and lemmas state the properties of those functions. The browser and the conversation hook are parameters:

- whether the Notification API exists;
- the browser's current permission;
- the answer a permission request resolves to;
- the conversation the hook delivers, through `SetMessages`.

The sound cue is the boolean `soundFired`. The system notification is the returned `Notice`. The method `DefaultSessionAlertsOnce` walks through one session with the default props: mount, seed, grant (followed by the rerun the permission change causes), a user turn, a reply, and a rerun. It proves that only the reply alerts, and that it raises exactly one notice, titled `New message from Chatbot`.

## Model

| member | source | states |
|---|---|---|
| Chatbot.Shown | components/chatbot.tsx:489-492 | the window is rendered iff the widget is open, and exactly one of trigger and window is rendered |
| Chatbot.ToggleParity | components/chatbot.tsx:443 | after n toggles the widget is in its starting state iff n is even, and flipped iff n is odd |
| Chatbot.ChatbotController.constructor | components/chatbot.tsx:405-465 | a mounted widget starts closed with local permission `default` (lines 405-406), its stored count is 0 (`useRef(0)`, line 465), and it has no turns, the hook's initial state |
| Chatbot.ChatbotController.Toggle | components/chatbot.tsx:443 | `isOpen` is negated and nothing else changes; this is one step of `ToggledTimes`, which `ToggleParity` is about; the trigger is shown iff the window was shown before |
| Chatbot.ChatbotController.SetMessages | components/chatbot.tsx:409-418 | the hook's update replaces the conversation and changes nothing else |
| Chatbot.ChatbotController.Seed | components/chatbot.tsx:421-429 | the conversation becomes exactly one turn: id `initial-message`, role assistant, content the greeting; any earlier history is gone; it counts one assistant turn and ends with the greeting |
| Chatbot.AssistantMessages | components/chatbot.tsx:469 | the filtered list holds only assistant turns, each taken from the conversation, it holds every assistant turn of the conversation, and it is no longer than the conversation; its exact length is fixed by `AssistantCountIsIndexCount` |
| Chatbot.AssistantCountAppend | components/chatbot.tsx:469 | the assistant count of a concatenation is the sum of the counts of its parts |
| Chatbot.AssistantIndicesSnoc | components/chatbot.tsx:469 | appending a turn adds its position to the assistant positions exactly when it is an assistant turn |
| Chatbot.AssistantCountIsIndexCount | components/chatbot.tsx:469 | the filtered count equals the number of positions holding an assistant turn, so each assistant turn is counted exactly once |
| Chatbot.NoAssistantCountsZero | components/chatbot.tsx:469 | a conversation with no assistant turn counts zero |
| Chatbot.ChatbotController.OnMessagesEffect | components/chatbot.tsx:468-485 | the cue fires iff the assistant count exceeds the stored count and the last turn is not the greeting, which is `NewReply`, the predicate the detector lemmas are about; a notice is raised iff the cue fires, the API exists and local permission is granted; the notice is `NoticeFor(title)`; afterwards the stored count equals the current count whether or not anything fired |
| Chatbot.GreetingNeverAlerts | components/chatbot.tsx:472-474 | a conversation that is just the greeting never alerts, whatever count was stored |
| Chatbot.RerunNeverAlerts | components/chatbot.tsx:484-485 | once the count is stored, a rerun on the same turns (after only the title or permission changed) never alerts |
| Chatbot.TruncationNeverAlerts | components/chatbot.tsx:469-484 | cutting the conversation to any prefix never alerts |
| Chatbot.ReplyAfterGreetingAlerts | components/chatbot.tsx:468-485 | after the greeting is counted, any run of user turns followed by one assistant reply that is not the greeting does alert |
| Chatbot.NoticeFor | components/chatbot.tsx:478-480 | the notice title is `New message from ` followed by the configured title, and the body is `You have a new reply!` |
| Chatbot.ChatbotController.ToggleNotifications | components/chatbot.tsx:450-462 | without the API it changes nothing; if the browser granted, local permission becomes `default`; if denied, nothing changes; otherwise the browser is asked and local permission becomes the answer; it asks iff the API exists and the browser permission is `default` |
| Chatbot.DeniedIsSticky | components/chatbot.tsx:456-459 | once the browser has denied, any number of clicks leaves both permissions unchanged and never asks again |
| Chatbot.GrantedBrowserPinsDefault | components/chatbot.tsx:452-455 | once the browser has granted, clicks never ask and always leave local permission at `default`, so the bell cannot switch system notifications back on |
| Chatbot.DecisiveAnswerEndsPrompting | components/chatbot.tsx:450-462 | starting from `default`, if the first answer is `granted` or `denied`, the browser is asked exactly once over any run of clicks; local permission ends at that answer, or at `default` when granted and clicked again |
| Chatbot.DisplayRole | components/chatbot.tsx:520-523 | a `data` turn is displayed as `assistant`, every other turn keeps its own role, so the displayed role is never `data` |
| Chatbot.Render | components/chatbot.tsx:518-536 | of the `role` prop and children the message component receives: the role is never `data`; it is user-styled iff its turn is the user's; it gets a text body iff the turn is not data, and then the bubble receives the turn's content unchanged (Markdown rendering of assistant turns is left out) |
| Chatbot.RenderAll | components/chatbot.tsx:517-537 | the list has one bubble per turn, in the same order |
| Chatbot.RenderedRoles | components/chatbot.tsx:517-524 | in the rendered list, no bubble is data-styled, and bubble i is user-styled iff turn i is the user's |
| Chatbot.DisabledIffThinking | components/chatbot.tsx:538-547 | input and submit are disabled iff the status is not `awaiting_message`, which is exactly when the thinking indicator (`in_progress`) shows |

## Left out

- The notification sound synthesiser (components/chatbot.tsx:335-390). It builds a Web Audio graph with floating-point envelopes and random noise. Playing it is the boolean `soundFired`.
- Markdown rendering of assistant turns (components/chatbot.tsx:181-263). It is a third-party parser plus CSS classes.
- The description and JSON dump of a `data` turn (components/chatbot.tsx:530-532). This is library serialisation of an untyped payload. The children the message component receives are the opaque `Payload`.
- Chatbot.Render: states the `role` prop and the children the message component receives, not what appears on screen. A data turn, once given the assistant role, takes the Markdown branch (components/chatbot.tsx:181), which passes its children to the Markdown renderer as a string (line 262). The data fragment is not a string, so what appears for a data turn is not its payload: the bubble is empty or rendering fails, depending on the renderer's version.
- The conversation hook: `useAssistant`, `submitMessage`, `handleInputChange` and form submission (components/chatbot.tsx:409-418, 445-448). It is a network client with asynchronous completion. The turns and the status are inputs.
- Turns with the hook's other roles (`system`, `function`, `tool`). The `as` at components/chatbot.tsx:523 is only a type assertion. At run time such a turn reaches the message component with its own role, gets the non-user style (lines 168 and 176-178) and is rendered raw, without Markdown (lines 181 and 265). The model has only the user, assistant and data roles.
- The auto-scroll effect (components/chatbot.tsx:431-441). It is a DOM query plus a timer.
- The presentational primitives (components/chatbot.tsx:15-333). They are styling and prop forwarding.
- The browser's Notification API. Its presence, current permission and request answer are parameters, and the raised notification is a returned value. The permission request is asynchronous in the source. The model applies its answer at once, so it does not capture a second click arriving while a prompt is still open.
- Chatbot.ChatbotController.OnMessagesEffect: assumes that the sound cue and the Notification constructor return normally. In the source, the error escapes the effect before line 484 and React unmounts the widget up to the nearest error boundary. The model always stores the count and carries on.
- Chatbot.ChatbotController.ToggleNotifications: assumes that the permission request resolves. In the source, a rejected request never calls the setter, so local permission keeps its old value. The model always adopts `requestResult`.
- React's scheduling. The model does not decide when the effect runs. `OnMessagesEffect` is one run, and a caller invokes it after each change to the turns, the title or the permission.
