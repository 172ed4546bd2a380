# Call signalling and chat logic of the chat client, in Dafny

This project models the client of a real-time chat application with
voice and video calls. At its centre is the call signalling state machine,
which has three layers:

- **The media session** (`WebRTCService`, module `WebRTC`). This is one local
  capture stream, one accumulating remote stream and one peer transport. The
  call state follows the transport's connection events. Tracks are stopped and
  enabled in place. Candidates and answers are applied only when a transport
  exists, and `close` tears everything down.
- **The call controller** (the `useWebRTC` hook, module `CallHook`, class
  `CallController`). It holds the call state the screen shows, the streams,
  the mute and camera flags, the call id it is bound to and the pending
  incoming call. It runs the caller path (initiate, `call:initiated`,
  `call:accepted`, offer, answer) and the callee path (`call:incoming`,
  accept, `rtc:offer`, answer). Every `call:*` and `rtc:*` event it receives is
  filtered by call id. Ending a call resets everything.
- **The call provider** (module `CallContext`). It remembers the peer and the
  kind of call, and it decides whether the incoming-call modal or the call
  overlay is on screen. The overlay's own display logic is in module
  `CallView`.

The rest of the client's deterministic logic is modelled too:

- `ChatPage`: the chat page's message and conversation lists, with optimistic
  `temp-` messages, re-sorting most recent first, the typing map and the
  header information.
- `Composer`: the message composer's typing flag, its stop timer and submit.
- `Register`: the registration form's ordered validation and error mapping.
- `GroupModal`: the create-group dialog.
- `SidebarFilter`: the sidebar's conversation filter.
- `ConversationEntry`: a conversation-list entry's name and preview.

## How it is modelled

- The browser objects are classes whose fields the methods change in place:
  - a track (`MediaTrack`) has a kind and the `enabled`/`stopped` flags;
  - a stream (`MediaStream`) holds a sequence of tracks;
  - the transport (`PeerTransport`) records the tracks it sends, its local and
    remote descriptions, the candidates it applied and whether it is closed.
- SDP text and candidates are opaque strings.
- Whatever the browser or the server decides enters as a method parameter:
  - whether capture is granted;
  - the SDP the transport generates;
  - whether the transport accepts a candidate;
  - the server's reply to a request (`None` for a failed request);
  - the time `Date.now()` returns.
- The signalling socket (`Signaling.Socket`) is the append-only sequence of
  events emitted on it. Server events are the arguments of the controller's
  handler methods.
- The hook's React state for the call state and the two streams is a
  `CallbackSink` object. The media session reports to it through its
  callbacks.
- Each handler is one atomic step. An `await` completes in place, and a
  rejected `await` ends the handler at that point, as in the source.
- JavaScript truthiness of optional strings is `Types.Truthy`: both a missing
  string and `""` are falsy.
- Timestamps are the integers `Date.getTime()` yields.
- `trim`, `toLowerCase`, `startsWith` and `includes` are defined in module
  `Text`.

### Behaviour worth noting

The model follows the code, including where it does less than one might
expect:

- `acceptCall` leaves the state as it was: Ringing, or Idle when
  `initWebRTC` closed an earlier media session. Only the transport's
  connection events move it on to Connecting.
- `call:accepted` leads to `createOffer`, which sets the state to Calling.
- Remote ICE candidates are applied at once, with no buffering. Without a
  transport the call fails with "No peer connection".
- No step has a timeout. A second `call:incoming` while ringing overwrites
  the pending call.
- An asynchronous step runs to its end even when the call ends while it is
  in flight.
- After `initiateCall` the state is Calling with no bound call id until
  `call:initiated` arrives, so a non-idle state can come without a bound
  call.
- `endCall` leaves a pending one-shot `call:initiated` listener registered
  (`CallController.awaitingInitiated` survives `EndCall`).
- A `startCall` whose capture is refused still leaves the peer recorded in
  the provider.
- The candidate-forwarding callback keeps the call id bound when its media
  session was built, and each side builds its session before its call id
  is bound: the caller in `initiateCall`, before `call:initiated`, and the
  callee in `acceptCall`, before it binds the pending id. So on a fresh
  controller neither side forwards any local candidate, and a controller
  with an earlier bound id forwards them under that earlier id
  (`CallScenarios.CallerForwardsNothing`, `CallScenarios.CalleeForwardsNothing`).
- The remote stream ignores a track it already holds, as the platform's
  `MediaStream.addTrack` does, so a track repeated across track events is
  held once.
- The message type declaration lists TEXT, IMAGE, FILE and SYSTEM, while
  the conversation preview also switches on VIDEO and AUDIO, so the model's
  `MessageType` has all six.

## Model

| member | source | states |
|---|---|---|
| WebRTC.StateForConnection | src/services/webrtcService.ts:92-104 | connecting leads to Connecting and connected to Connected; disconnected, failed and closed lead to Ended; new leaves the state alone (each an iff) |
| WebRTC.FirstOfKind | src/services/webrtcService.ts:167 | the index is that of the first track of the kind (`getAudioTracks()[0]`), or the length when there is none |
| WebRTC.StopAll | src/services/webrtcService.ts:200-201 | every track of the sequence is stopped and its enabled flag is unchanged |
| WebRTC.MediaStream.AddTrack | src/services/webrtcService.ts:77 | a track the stream already holds leaves it unchanged; any other is appended |
| WebRTC.MediaStream.AddTracks | src/services/webrtcService.ts:76-78 | the tracks become AppendNew of the old tracks and the added ones |
| WebRTC.WebRTCService.constructor | src/services/webrtcService.ts:31-39 | no transport, no streams, state idle, callbacks captured |
| WebRTC.WebRTCService.SetCallState | src/services/webrtcService.ts:41-44 | the state is stored and the sink is told exactly that state; nothing else of the sink changes |
| WebRTC.WebRTCService.InitializeMedia | src/services/webrtcService.ts:46-58 | success iff capture is granted; refusal fails with the fixed message and changes nothing; success gives a fresh stream of one audio track, then a video track iff video was asked for, handed to the sink |
| WebRTC.WebRTCService.CreatePeerConnection | src/services/webrtcService.ts:61-113 | a fresh open transport whose senders are exactly the local tracks in stream order, with no descriptions or candidates |
| WebRTC.WebRTCService.OnTrack | src/services/webrtcService.ts:71-79 | the remote stream is created and handed to the sink only on the first event; its tracks become AppendNew of the old ones and the event's, so a track already held is not added twice |
| WebRTC.WebRTCService.OnIceCandidate | src/services/webrtcService.ts:83-87 | only a non-null candidate is forwarded, as one `rtc:ice-candidate` tagged with the captured call id, and only while that id is a non-empty string |
| WebRTC.WebRTCService.OnConnectionStateChange | src/services/webrtcService.ts:90-105 | the state becomes StateForConnection of the event and the sink is told; a `new` event changes nothing |
| WebRTC.WebRTCService.CreateOffer | src/services/webrtcService.ts:115-129 | builds the transport when there is none; the offer is committed as local description; the state is then Calling; nothing else of an existing transport changes |
| WebRTC.WebRTCService.HandleOffer | src/services/webrtcService.ts:131-142 | builds the transport when there is none; the remote description is the offer and the local description the answer returned; the state is untouched |
| WebRTC.WebRTCService.HandleAnswer | src/services/webrtcService.ts:144-150 | succeeds iff a transport exists (else "No peer connection"); then the remote description is the answer and nothing else changes |
| WebRTC.WebRTCService.AddIceCandidate | src/services/webrtcService.ts:152-162 | succeeds iff a transport exists (else "No peer connection"); a refused candidate is swallowed; only an accepted one is appended |
| WebRTC.WebRTCService.ToggleFirst | src/services/webrtcService.ts:164-184 | flips the first track of the kind and answers whether it is now disabled; answers false and changes nothing without a stream or such a track; no other track changes |
| WebRTC.WebRTCService.ToggleMute | src/services/webrtcService.ts:164-173 | as ToggleFirst for the first audio track: true iff now muted; every other track keeps its enabled flag and no track's stopped flag changes |
| WebRTC.WebRTCService.ToggleCamera | src/services/webrtcService.ts:175-184 | as ToggleFirst for the first video track: true iff the camera is now off; every other track keeps its enabled flag and no track's stopped flag changes |
| WebRTC.WebRTCService.Close | src/services/webrtcService.ts:198-211 | every local and remote track stopped, the transport closed, all three references null, state Idle and the sink told so |
| CallScenarios.CloseTwice | src/services/webrtcService.ts:198-211 | closing twice ends exactly where closing once does |
| CallScenarios.ToggleTwice | src/services/webrtcService.ts:164-184 | two toggles restore every track's flag; the second answer negates the first when such a track exists, and both are false otherwise |
| CallScenarios.CallerForwardsNothing | src/hooks/useWebRTC.ts:44-57 | a fresh controller that initiates and then gets `call:initiated` is bound to that id, yet its session forwards no local candidate; only `call:initiate` was sent |
| CallScenarios.CalleeForwardsNothing | src/hooks/useWebRTC.ts:44-57 | a fresh controller that receives `call:incoming` and accepts is bound to that id, yet its session forwards no local candidate; only `call:accept` was sent |
| Signaling.Socket.Emit | src/types/socket.types.ts:24-30 | the event is appended to what the socket has sent |
| CallHook.Cleared | src/hooks/useWebRTC.ts:168-177 | idle, both streams null, flags false, no bound call, no pending call |
| CallHook.IsCurrent | src/hooks/useWebRTC.ts:74 | an event is for the current call iff a call id is bound and equals the event's; with none bound no event is |
| CallHook.CallController.constructor | src/hooks/useWebRTC.ts:23-35 | the initial hook state: idle, no streams, flags false, no call id, no pending call, no session |
| CallHook.CallController.DropSession | src/hooks/useWebRTC.ts:39-41 | an existing session is closed (tracks stopped, transport closed, state Idle) and dropped; nothing is emitted |
| CallHook.CallController.InitWebRTC | src/hooks/useWebRTC.ts:38-58 | any earlier session is closed first; the new session reports to the hook and captures the socket and the call id bound now |
| CallHook.CallController.OpenSession | src/hooks/useWebRTC.ts:126-127 | any earlier session is closed (tracks stopped, transport closed) and replaced by a new one; capture with video iff asked; success iff granted, and on success the view shows the new local stream |
| CallHook.CallController.OnIncoming | src/hooks/useWebRTC.ts:64-71 | the pending call becomes (callId, initiator, type) and the state Ringing, whatever the state was |
| CallHook.CallController.OnInitiated | src/hooks/useWebRTC.ts:134-138 | only the first `call:initiated` after an initiate binds its call id and removes the listener; later ones change nothing |
| CallHook.CallController.OnAccepted | src/hooks/useWebRTC.ts:73-78 | for the bound call with a session: exactly one `rtc:offer` tagged with that call id, offer committed, state Calling; any other event changes nothing |
| CallHook.CallController.OnRejected | src/hooks/useWebRTC.ts:80-84 | for the bound call: the call is ended as by EndCall; a stale call id changes nothing |
| CallHook.CallController.OnEnded | src/hooks/useWebRTC.ts:86-90 | for the bound call: the call is ended as by EndCall; a stale call id changes nothing |
| CallHook.CallController.OnOffer | src/hooks/useWebRTC.ts:92-97 | for the bound call with a session: offer committed, answer committed and sent as one `rtc:answer` with the same call id; otherwise nothing changes |
| CallHook.CallController.OnAnswer | src/hooks/useWebRTC.ts:99-103 | for the bound call with a transport: the answer becomes the remote description; otherwise nothing changes |
| CallHook.CallController.OnRemoteCandidate | src/hooks/useWebRTC.ts:105-109 | for the bound call with a transport: the candidate is applied at once if accepted; otherwise nothing changes |
| CallHook.CallController.InitiateCall | src/hooks/useWebRTC.ts:123-139 | nothing without a socket; else any earlier session is closed and a new one captures video iff the type is VIDEO; only when capture succeeds: state Calling, one `call:initiate`, one-shot listener armed |
| CallHook.CallController.AcceptCall | src/hooks/useWebRTC.ts:142-151 | nothing without a socket or a pending call; else any earlier session is closed and a new one captures video iff the pending type is VIDEO; on success the pending id is bound, sent in one `call:accept`, and the pending call cleared |
| CallHook.CallController.RejectCall | src/hooks/useWebRTC.ts:154-160 | nothing without a socket or a pending call; else one `call:reject` with the pending id, pending call cleared, state Idle |
| CallHook.CallController.EndCall | src/hooks/useWebRTC.ts:163-178 | `call:end` is sent iff there is a socket and a bound (non-empty) call id; the session is closed and dropped and the hook state is Cleared |
| CallHook.CallController.ToggleMute | src/hooks/useWebRTC.ts:181-186 | with a session, only the first audio track is flipped (every other local track keeps its enabled flag, and no stopped flag changes) and `isMuted` becomes whether it is now disabled; without one nothing changes |
| CallHook.CallController.ToggleCamera | src/hooks/useWebRTC.ts:189-194 | with a session, only the first video track is flipped (every other local track keeps its enabled flag, and no stopped flag changes) and `isCameraOff` becomes whether it is now disabled; without one nothing changes |
| CallHook.CallController.Unmount | src/hooks/useWebRTC.ts:197-201 | the session, if any, is closed; the reference and the rest of the hook state are kept |
| CallContext.ShowIncomingModal | src/contexts/CallContext.tsx:57-58 | the modal is shown iff there is a pending call and the state is Ringing |
| CallContext.ShowCallOverlay | src/contexts/CallContext.tsx:68 | the overlay is shown iff the state is neither idle nor ringing and a peer is known; it excludes the modal for every pending call |
| CallContext.ScreensExclusive | src/contexts/CallContext.tsx:51-68 | the modal and the overlay are never shown together, and neither is shown when idle |
| CallContext.RemoteName | src/contexts/CallContext.tsx:74 | the peer's display name when non-empty, else the username |
| CallContext.IsInCall | src/contexts/CallContext.tsx:51 | in a call iff the state is anything but idle (an ended call still counts) |
| CallContext.CallProvider.constructor | src/contexts/CallContext.tsx:14-15 | no peer, voice, and a fresh idle controller |
| CallContext.CallProvider.OverlayShown | src/contexts/CallContext.tsx:68 | the overlay is up iff the controller's state is neither idle nor ringing and a peer is recorded |
| CallContext.CallProvider.ReceiveIncoming | src/contexts/CallContext.tsx:57-58 | after `call:incoming` the pending call is the one received and the modal is shown, the overlay not; the provider's peer and type are kept |
| CallContext.CallProvider.StartCall | src/contexts/CallContext.tsx:32-36 | the peer and type are recorded whatever happens; with a socket and granted capture, one `call:initiate` for the peer's id, state Calling and the overlay shown |
| CallContext.CallProvider.HandleAcceptCall | src/contexts/CallContext.tsx:38-44 | nothing without a pending call; else the peer and type are copied from it; with a socket and granted capture the call is bound, `call:accept` sent and the pending call cleared; without a socket the controller is untouched; with capture refused nothing is sent and the call stays pending and unbound |
| CallContext.CallProvider.HandleEndCall | src/contexts/CallContext.tsx:46-49 | the call is ended as by EndCall and the peer forgotten; afterwards neither the modal nor the overlay is shown |
| CallView.StatusText | src/components/call/CallContainer.tsx:33-46 | calling, ringing, connecting and connected map to their labels (each an iff); the text is empty iff the state is idle or ended |
| CallView.StatusTextDistinct | src/components/call/CallContainer.tsx:34-44 | two different states share a status text only when both are idle or ended |
| CallView.IsVideoCall | src/components/call/CallContainer.tsx:31 | a video call iff the type is VIDEO |
| CallView.ShowStatusOverlay | src/components/call/CallContainer.tsx:101 | the spinner overlay is shown iff the call is a video call and not connected |
| CallView.ShowVisualizer | src/components/call/CallContainer.tsx:83 | the visualizer appears iff the call is a connected voice call, and never with the status overlay |
| CallView.OverlayOrVisualizer | src/components/call/CallContainer.tsx:71-101 | one of the two is on screen iff exactly one of "video call" and "connected" holds |
| CallView.UpperChar | src/components/call/CallContainer.tsx:76 | a lower-case letter maps to the upper-case letter whose lower case it is; other characters are kept |
| CallView.Initial | src/components/call/CallContainer.tsx:76 | empty iff the name is; otherwise the upper-cased first character |
| Types.UserLabel | src/components/sidebar/ConversationItem.tsx:17 | the display name when it is a non-empty string, else the username |
| Types.OtherParticipant | src/components/sidebar/ConversationItem.tsx:14 | none iff every participant is the signed-in user; else the first participant who is not |
| Types.FindParticipant | src/pages/ChatPage.tsx:101 | none iff no participant has the id; else the first participant with that id |
| Text.Trim | src/components/chat/MessageInput.tsx:41 | the result is a substring of the input with only white space cut off at both ends, and neither starts nor ends with white space |
| Text.TrimEmptyIffAllWhite | src/components/chat/MessageInput.tsx:42 | a string trims to empty iff it is all white space |
| Text.TrimIdempotent | src/components/chat/MessageInput.tsx:41 | trimming twice is trimming once |
| Text.ToLower | src/components/sidebar/Sidebar.tsx:30 | same length, each character lower-cased |
| Text.ToLowerIdempotent | src/components/sidebar/Sidebar.tsx:30 | lower-casing twice is lower-casing once |
| Text.IncludesIffOccurs | src/components/sidebar/Sidebar.tsx:30 | `includes` holds iff the text occurs at some position |
| Text.IncludesEmpty | src/components/sidebar/Sidebar.tsx:30 | every string includes the empty string |
| Text.Decimal | src/pages/ChatPage.tsx:124 | a non-empty string of decimal digits, without a leading zero, whose value is the number |
| Text.DecimalInjective | src/pages/ChatPage.tsx:124 | different numbers have different decimal strings |
| Sequences.Filter | src/components/sidebar/Sidebar.tsx:26 | every element of the result passes, and each passing element occurs as often as in the input, each failing one not at all |
| Sequences.FilterSubsequence | src/components/sidebar/Sidebar.tsx:26 | filtering never adds or reorders: the result is a subsequence |
| Sequences.FilterAll | src/components/sidebar/Sidebar.tsx:27 | a filter every element passes returns the whole sequence |
| Sequences.AppendNew | src/services/webrtcService.ts:76-78 | the old sequence is a prefix of the result; every added element is in it and nothing else is; a duplicate-free sequence stays duplicate-free |
| Sequences.AppendNewHeld | src/services/webrtcService.ts:76-78 | adding only elements already held changes nothing |
| Sequences.AppendNewDistinct | src/services/webrtcService.ts:76-78 | adding distinct elements none of which is held appends them all, in order |
| ChatPage.WithoutTemp | src/pages/ChatPage.tsx:78 | no temporary message remains, and every other message occurs as often as before |
| ChatPage.WithoutTempSubsequence | src/pages/ChatPage.tsx:78 | the remaining messages keep their order |
| ChatPage.ReconcileMessages | src/pages/ChatPage.tsx:74-83 | the new message is last; before it, the list without temporary messages for an own message, or the old list unchanged for anyone else's |
| ChatPage.OwnMessageClearsTemp | src/pages/ChatPage.tsx:76-79 | after an own message no temporary message remains except that message, and every non-temporary message survives |
| ChatPage.WithLastMessage | src/pages/ChatPage.tsx:87-90 | the matching conversation gets the message and its time; every other conversation is unchanged |
| ChatPage.Insert | src/pages/ChatPage.tsx:91 | inserting adds exactly one element |
| ChatPage.SortByRecency | src/pages/ChatPage.tsx:91 | sorting keeps the length |
| ChatPage.InsertPermutes | src/pages/ChatPage.tsx:91 | insertion adds exactly the inserted conversation to the multiset |
| ChatPage.InsertSorted | src/pages/ChatPage.tsx:91 | insertion into a list sorted most recent first keeps it sorted |
| ChatPage.SortByRecencyCorrect | src/pages/ChatPage.tsx:86-92 | the sorted list is sorted most recent first and is a permutation of the input |
| ChatPage.TypingUpdate | src/pages/ChatPage.tsx:96-110 | a start adds userId to username only for a participant of the selection; a stop removes the key; no other entry changes |
| ChatPage.AddIfAbsent | src/pages/ChatPage.tsx:182-186 | a listed conversation leaves the list as it is; otherwise it is put in front; either way it is listed |
| ChatPage.AddIfAbsentIdempotent | src/pages/ChatPage.tsx:182-186 | adding a conversation twice is adding it once |
| ChatPage.GetOtherUser | src/pages/ChatPage.tsx:209-212 | none without a selection or for a group; for a direct conversation, the first participant who is not the signed-in user (OtherParticipant), none iff there is none |
| ChatPage.GetConversationInfo | src/pages/ChatPage.tsx:223-240 | none without a selection; a group shows its name or "Grupo" and its participant count; a direct conversation has info iff it has a peer, showing the peer's label and presence |
| ChatPage.OptimisticMessage | src/pages/ChatPage.tsx:123-132 | a `temp-` id, the content, type TEXT, status SENT, the sender and the conversation |
| ChatPage.OptimisticIdsDistinct | src/pages/ChatPage.tsx:124 | optimistic messages made at different times have different ids |
| ChatPage.ChatPageState.constructor | src/pages/ChatPage.tsx:25-30 | no selection, no messages, an empty typing map |
| ChatPage.ChatPageState.HandleNewMessage | src/pages/ChatPage.tsx:73-93 | the messages are reconciled; the conversations are the updated list sorted most recent first, a permutation of it |
| ChatPage.ChatPageState.HandleTypingUpdate | src/pages/ChatPage.tsx:96-110 | the typing map becomes TypingUpdate of it; nothing else changes |
| ChatPage.ChatPageState.HandleSendMessage | src/pages/ChatPage.tsx:119-136 | nothing without a selection, a socket or a signed-in user; else exactly one optimistic message appended and one `message:send` when the conversation id is non-empty |
| ChatPage.ChatPageState.HandleStartConversation | src/pages/ChatPage.tsx:175-192 | a failed request changes nothing; else the conversation is added if absent and selected |
| ChatPage.ChatPageState.HandleGroupCreated | src/pages/ChatPage.tsx:217-220 | the group is always put in front and selected |
| Composer.LastTypingSignal | src/components/chat/MessageInput.tsx:13-18 | none iff only sends were made; else one of the calls made, a start or stop, after which only sends follow |
| Composer.SendDisabled | src/components/chat/MessageInput.tsx:70 | the button is enabled iff the input is enabled and the trimmed text is not empty |
| Composer.SendEnabledIffText | src/components/chat/MessageInput.tsx:70 | the button is enabled iff the input is enabled and some character is not white space |
| Composer.MessageInput.constructor | src/components/chat/MessageInput.tsx:11-13 | empty text, not typing, no timer, no calls |
| Composer.MessageInput.Change | src/components/chat/MessageInput.tsx:15-29 | the text is replaced; a start is signalled only on the change from not typing; the pending timer is replaced by a new one; the invariant holds |
| Composer.MessageInput.TimerExpires | src/components/chat/MessageInput.tsx:25-28 | only the pending timer fires: typing cleared and one stop signalled; any other timer changes nothing |
| Composer.MessageInput.Submit | src/components/chat/MessageInput.tsx:39-52 | blank text does nothing; else the trimmed text is sent, then a stop, with the input emptied, the timer cleared and the flag reset |
| Composer.MessageInput.Unmount | src/components/chat/MessageInput.tsx:31-37 | the pending timer is cleared; nothing else changes |
| Register.Validate | src/pages/RegisterPage.tsx:21-34 | no error iff passwords match and both lengths suffice; mismatch is reported first, then a short password, then a short username |
| Register.ErrorFor | src/pages/RegisterPage.tsx:43-47 | the duplicate-account message iff the code is USER_EXISTS, else the generic message |
| Register.RegisterForm.constructor | src/pages/RegisterPage.tsx:11-12 | no error, not loading, no request, no navigation |
| Register.RegisterForm.Submit | src/pages/RegisterPage.tsx:17-51 | a failing check shows its message and sends nothing; else exactly one request; success clears the error and navigates to the chat, failure shows the mapped message; loading is off afterwards |
| GroupModal.ExcludeSelected | src/components/sidebar/CreateGroupModal.tsx:38-40 | no selected user remains, and every other result occurs as often as before |
| GroupModal.RemoveById | src/components/sidebar/CreateGroupModal.tsx:60 | no user with that id remains, and every other user occurs as often as before |
| GroupModal.RemoveKeepsOrder | src/components/sidebar/CreateGroupModal.tsx:60 | the remaining users keep their order |
| GroupModal.RemoveAbsent | src/components/sidebar/CreateGroupModal.tsx:60 | removing an id nobody has changes nothing |
| GroupModal.CreateDisabled | src/components/sidebar/CreateGroupModal.tsx:158 | the button is enabled iff the name is not blank, the selection is not empty and no request is running |
| GroupModal.Ids | src/components/sidebar/CreateGroupModal.tsx:70 | the ids in selection order |
| GroupModal.CreateGroupModal.constructor | src/components/sidebar/CreateGroupModal.tsx:13-18 | everything empty, nothing loading or creating |
| GroupModal.CreateGroupModal.SetGroupName | src/components/sidebar/CreateGroupModal.tsx:91 | only the name changes |
| GroupModal.CreateGroupModal.SetSearchQuery | src/components/sidebar/CreateGroupModal.tsx:99 | only the query changes |
| GroupModal.CreateGroupModal.SetOpen | src/components/sidebar/CreateGroupModal.tsx:20-26 | closing resets the name, the query and the selection; the results are kept |
| GroupModal.CreateGroupModal.Search | src/components/sidebar/CreateGroupModal.tsx:28-47 | closed: nothing; a query under 2 characters clears the results without a request; else one request, and its results minus the selected users replace the list (a failure keeps it) |
| GroupModal.CreateGroupModal.SelectUser | src/components/sidebar/CreateGroupModal.tsx:53-57 | the user is appended; the query and the results are cleared |
| GroupModal.CreateGroupModal.RemoveUser | src/components/sidebar/CreateGroupModal.tsx:59-61 | the selection becomes RemoveById of it; nothing else changes |
| GroupModal.CreateGroupModal.CreateGroup | src/components/sidebar/CreateGroupModal.tsx:63-79 | exactly one request is sent iff the button would be enabled (CreateDisabled with no request running), else none; the request has the trimmed name and the ids in order; on success the group is handed over and close requested; not creating afterwards |
| SidebarFilter.SearchName | src/components/sidebar/Sidebar.tsx:28-29 | a group's own name; for a direct conversation, the username of the first participant who is not the signed-in user |
| SidebarFilter.Matches | src/components/sidebar/Sidebar.tsx:27-30 | an empty filter matches everything; otherwise a match iff there is a search name in whose lower-cased form the lower-cased filter occurs |
| SidebarFilter.FilterConversations | src/components/sidebar/Sidebar.tsx:26-31 | every matching conversation occurs as often as in the input, and no other does |
| SidebarFilter.EmptyFilterKeepsAll | src/components/sidebar/Sidebar.tsx:27 | an empty filter keeps every conversation, in order |
| SidebarFilter.FilterKeepsOrder | src/components/sidebar/Sidebar.tsx:26 | the result is a subsequence of the input |
| SidebarFilter.NamelessExcluded | src/components/sidebar/Sidebar.tsx:30 | with a non-empty filter, a conversation without a name is excluded |
| SidebarFilter.MatchIgnoresCase | src/components/sidebar/Sidebar.tsx:30 | matching ignores the case of the filter, and a verbatim occurrence in the name always matches |
| ConversationEntry.DisplayName | src/components/sidebar/ConversationItem.tsx:14-17 | a group's own name; for a direct conversation, the label of the first participant who is not the signed-in user (OtherParticipant), none iff there is none |
| ConversationEntry.MediaLabel | src/components/sidebar/ConversationItem.tsx:35-43 | IMAGE, VIDEO, AUDIO and FILE each get their own fixed label; TEXT and SYSTEM get none |
| ConversationEntry.LastMessagePreview | src/components/sidebar/ConversationItem.tsx:31-47 | empty without a last message; the fixed label for media; the content verbatim otherwise |
| ConversationEntry.MediaLabelsDistinct | src/components/sidebar/ConversationItem.tsx:35-43 | the four media labels are pairwise distinct |

## Left out

- ChatPage.SortByRecency: the contract states sorted and a permutation. It
  does not state stability (equally recent conversations keep their order),
  although the definition is stable like the runtime's sort.
- ChatPage.Insert and ChatPage.SortByRecency: their own contracts state only
  lengths. What they mean is proved in InsertPermutes, InsertSorted and
  SortByRecencyCorrect.
- Dates: timestamps are integers, and date strings are not parsed. So a
  date that fails to parse (NaN in the sort comparator) is not modelled.
  `formatTime` and locale formatting are not modelled either.
- Text.ToLower and CallView.UpperChar map ASCII and Latin-1 letters only.
  Other Unicode case mappings (ß, ÿ, µ and letters outside Latin-1) are
  not modelled.
- Register.Validate and GroupModal.CreateGroupModal.Search count lengths in
  Dafny characters (code points), where JavaScript's `length` counts UTF-16
  units: a password, username or query with characters outside the Basic
  Multilingual Plane is longer in the source than in the model, so the
  `MinPasswordLength`, `MinUsernameLength` and `MinQueryLength` checks can
  differ for such input.
- CallView.Initial: takes the first Dafny character (code point) of the
  name, where `charAt(0)` takes the first UTF-16 unit. For a name starting
  outside the Basic Multilingual Plane (an emoji, say) the source shows a
  lone high surrogate and the model the whole character.
- SDP content, the `ICE_SERVERS` configuration and browser errors are not
  modelled. Descriptions and candidates are opaque tokens, and the
  browser's decisions are parameters.
- The getters `getLocalStream`, `getRemoteStream` and `getCallState` are
  plain field reads. The model reads the fields directly.
- React effect re-subscription and batching are not modelled. Each handler
  reads the controller's current fields, which is what the re-registered
  listeners see. The candidate-forwarding closure keeps the id captured when
  its session was built.
- Timing is not modelled: the typing stop timer's 2-second delay and the
  search debounce are left out, and each search is the settled one.
- Map insertion order in the typing map (which the typing indicator reads)
  is not modelled. The map is a Dafny `map`.
- Network I/O and socket set-up are not modelled: connecting the socket,
  joining rooms, the emit wrappers of the socket hook, loading
  conversations and messages, and presence updates. Server replies are
  parameters.
- Authentication (login, the auth context, token storage) has only I/O and
  is not part of this model.
- Sending media messages (`handleSendMedia`), the media message view and the
  audio recorder are not modelled. They are device, timer and
  floating-point code.
- The user search modal and the purely presentational components (call
  controls, incoming-call modal, header, video player, typing indicator,
  message item, app shell) are not modelled.
- An end-to-end caller/callee scenario across several controller steps is
  not stated as one method. Each step is specified on its own, and chaining
  them is left to the reader of those contracts.
