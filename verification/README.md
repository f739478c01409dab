# Collaborative whiteboard: shape list, relay server and room pages

This project models the core of a collaborative whiteboard in Dafny. Users
draw rectangles, circles, lines, arrows and pencil strokes on a shared
canvas. Each client keeps its own list of shapes (`existingShapes`). It
sends every local change to a WebSocket relay server as `shape:create`,
`shape:remove`, `shape:update` or `shape:clear`. The server forwards each
change to the other members of the room. Peers apply a change by list
index: push, `splice(idx, 1)`, `list[index] = shape` and `length = 0`.

The model covers:

- `draw.dfy` (module `Draw`): the shape union; the list operations with
  JavaScript's index rules; the four remote handlers; the mouse handlers
  (eraser, select-and-drag, create on mouse-up, clear-all) as methods of
  the class `Whiteboard`, whose fields are the handlers' shared closure
  state; the reverse scan for the topmost shape under the mouse; and
  convergence lemmas. A convergence lemma says that a peer that held the
  sender's old list holds the sender's new list after it applies the
  relayed change.
- `relay.dfy` (module `Relay`): the WebSocket server. It covers the
  handshake gate and the room member sets. It relays shape and chat events
  to every member of the room except the sender. It stores `shape:create`
  and chat rows after relaying them. These steps form a trace of actions
  kept in the class `Server`.
- `jwt.dfy` (module `Jwt`): the payload `jwt.verify` returns. Both servers
  use it.
- `auth_middleware.dfy` (module `AuthMiddleware`): the HTTP `Verify_jwt`
  middleware. It covers the choice between the cookie and a bearer header,
  the 401 replies, and how `req.userId` and `req.name` are set.
- `canvas_join.dfy` (module `CanvasJoin`): the canvas page's join state. It
  covers the guard that sends `room:join`, the acknowledgement and admin
  result handlers, the admin's request modal, the shape fetch, the effect
  cleanup and the order of render checks.
- `notifications.dfy` (module `Notifications`): the admin's pending
  join-request list (`addRequest`, `removeRequest`).
- `profile.dfy` (module `Profile`): the avatar initials, the photo checks,
  and the username and photo update handlers of the profile menu.
- `toolbar.dfy` (module `Toolbar`): the tool table with its shortcuts, the
  key-press lookup, the cursor for each tool and the selected tool.
- `schemas.dfy` (module `Schemas`): the zod request schemas for sign-up,
  sign-in and room creation.
- `jsstrings.dfy` (module `JsStrings`): the JavaScript string operations
  the other modules need (`split`, `join`, `startsWith`, ASCII
  `toUpperCase`, `trim`, `String(n)`). `wrappers.dfy` holds `Option` and
  `Result`.

Parameters stand in for what the model cannot compute:

- Coordinates are JavaScript numbers, modelled as `real` without rounding.
- Results the source gets from `Math.sqrt`, `Math.atan2`, `Math.cos` and
  `Math.sin` are parameters (`Draw.Geometry`). The arrowhead is a function
  `Draw.ArrowHead` from an arrow's extent to the offsets of its two head
  points from the tip; mouse-up and the drag handler both use it.
- So is the hit test for circles, lines, arrows and pencil strokes
  (`Draw.NearStroke`). The rectangle hit test is modelled exactly.
- Token verification is a parameter (`Jwt.Verifier`).
- So is zod's email pattern.
- So are the replies of the database and of HTTP requests (`stored`,
  `Reply`, `FetchOutcome`).

The room-admission protocol is described in the repository's
documentation: a pending state, an admin approval and a `room:join:result`.
The relay server's source does not implement it. Its `room:join` handler
joins the room at once, never calls the client's acknowledgement and
never emits `room:join:result`. The model follows the code:
`Relay.Server.RoomJoin` joins unconditionally. The page's handlers are
modelled as the page defines them, and with this server they are never
triggered.

## Model

| member | source | states |
|---|---|---|
| Draw.TypeName | apps/excalidraw_frontend/app/draw/index.ts:372 | the `type` sent with `shape:create` is "RECT", "CIRCLE", "LINE", "ARROW" or "PENCIL", each exactly for its own kind |
| Draw.SpliceStart | apps/excalidraw_frontend/app/draw/index.ts:171 | `splice` counts a negative index back from the end and clamps it at 0 |
| Draw.SpliceOne | apps/excalidraw_frontend/app/draw/index.ts:171 | `splice(idx, 1)` removes exactly the entry at the start index and shifts later entries down one place, giving a permutation of the list minus that entry; a start at or past the end changes nothing |
| Draw.Store | apps/excalidraw_frontend/app/draw/index.ts:166 | `list[index] = shape` replaces only that entry inside the list, appends at index `length`, and leaves the elements unchanged for a negative index |
| Draw.Apply | apps/excalidraw_frontend/app/draw/index.ts:149-173 | a remote `shape:created` pushes the shape after the existing ones; `shape:clear` empties the list |
| Draw.TopmostHit | apps/excalidraw_frontend/app/draw/index.ts:181-208 | the index found is the highest one whose shape contains the point, and no entry above it contains the point; with none found, no entry contains it |
| Draw.ScanTopmost | apps/excalidraw_frontend/app/draw/index.ts:254-255 | the reverse `for` loop from `length - 1` down to 0 stops at the same index as `TopmostHit` |
| Draw.Erase | apps/excalidraw_frontend/app/draw/index.ts:253-266 | the eraser removes one shape exactly when some shape is under the mouse, and otherwise leaves the list unchanged; the removed shape is the topmost hit and the others keep their order |
| Draw.EraseConverges | apps/excalidraw_frontend/app/draw/index.ts:256-258 | a peer applying the eraser's `shape:remove {idx}` ends with the eraser's own list |
| Draw.MoveOrigin | apps/excalidraw_frontend/app/draw/index.ts:391-431 | the dragged shape's origin (a pencil stroke's first point) lands on `(dx, dy)`; the kind, a line's and an arrow's extent, a rectangle's size and a circle's radius are kept; an arrow's head is recomputed from its new extent by `head`; every pencil point moves by the same offset |
| Draw.TranslateInverse | apps/excalidraw_frontend/app/draw/index.ts:403-430 | moving a shape by an offset and back by its opposite restores the shape |
| Draw.MoveOriginIsTranslation | apps/excalidraw_frontend/app/draw/index.ts:396-431 | for a shape whose arrowhead already fits its extent, every branch of the drag update is one rigid translation of the whole shape |
| Draw.TranslateKeepsHeadFit | apps/excalidraw_frontend/app/draw/index.ts:417-423 | translating an arrow keeps its head fitted to its extent |
| Draw.DragRefitsHead | apps/excalidraw_frontend/app/draw/index.ts:417-423 | for a head function that does not leave a zero head in place, dragging an arrow whose head was not fitted is not a plain translation: the head is recomputed |
| Draw.Drag | apps/excalidraw_frontend/app/draw/index.ts:391-431 | a drag step changes only the dragged entry and keeps the list length |
| Draw.DragConverges | apps/excalidraw_frontend/app/draw/index.ts:433-439 | a peer storing the `shape:update {index, shape}` payload ends with the dragging client's list |
| Draw.NewShape | apps/excalidraw_frontend/app/draw/index.ts:308-364 | mouse-up creates a shape of the current tool's kind; it creates nothing for select and eraser, for an arrow released at the start's x, or for a pencil with no recorded points |
| Draw.PushOpt | apps/excalidraw_frontend/app/draw/index.ts:309-361 | the list after mouse-up is the old list, plus the new shape when there is one |
| Draw.CreateEmission | apps/excalidraw_frontend/app/draw/index.ts:367-375 | with a drawing tool and a non-empty list, `shape:create` is sent with the list's last entry and its upper-cased type |
| Draw.CreateConvergesWhenPushed | apps/excalidraw_frontend/app/draw/index.ts:296-382 | when mouse-up pushed a shape, a peer applying the emission ends with the sender's list |
| Draw.CreateEmissionDuplicates | apps/excalidraw_frontend/app/draw/index.ts:324-375 | an arrow released at the start's x pushes nothing but still emits the old last rectangle, and the peer's list then differs from the sender's |
| Draw.IntendedCreateEmission | apps/excalidraw_frontend/app/draw/index.ts:367-375 | corrected emission: `shape:create` is sent exactly when this mouse-up created a shape |
| Draw.IntendedCreateConverges | apps/excalidraw_frontend/app/draw/index.ts:296-382 | with the corrected emission, every mouse-up leaves peers equal to the sender |
| Draw.RectDrawnBackwardsMissed | apps/excalidraw_frontend/app/draw/index.ts:184-186 | a rectangle drawn from (10, 10) back to (0, 0) is not hit at its centre (5, 5) |
| Draw.NegativeSideNeverHit | apps/excalidraw_frontend/app/draw/index.ts:184-186 | a rectangle with a negative width or height is never hit, wherever the mouse is |
| Draw.IntendedRectHit | apps/excalidraw_frontend/app/draw/index.ts:184-186 | the corrected rectangle test agrees with the written one for rectangles drawn rightwards and downwards; it does not depend on the corner the drag started from; it contains both corners of the drag |
| Draw.ApplyAllConverges | apps/excalidraw_frontend/app/draw/index.ts:149-173 | replaying, in order, a sender's changes that each converge leaves a peer that started equal to the sender equal to it |
| Draw.ConcurrentRemovesLoseShape | apps/excalidraw_frontend/app/draw/index.ts:170-171 | two concurrent erasures of the first of two shapes, each replayed at the other client, remove both shapes |
| Draw.Whiteboard.constructor | apps/excalidraw_frontend/app/draw/index.ts:92-108 | the handlers start with the given list and tool, nothing pressed, no drag and an empty pencil path |
| Draw.Whiteboard.OnShapeCreated | apps/excalidraw_frontend/app/draw/index.ts:149-154 | the list becomes `Apply(old, Created(shape))` |
| Draw.Whiteboard.OnShapeClear | apps/excalidraw_frontend/app/draw/index.ts:156-162 | the list becomes empty |
| Draw.Whiteboard.OnShapeUpdate | apps/excalidraw_frontend/app/draw/index.ts:165-168 | the list becomes `Apply(old, Updated(index, shape))` |
| Draw.Whiteboard.OnShapeRemove | apps/excalidraw_frontend/app/draw/index.ts:170-173 | the list becomes `Apply(old, Removed(idx))` |
| Draw.Whiteboard.SetTool | apps/excalidraw_frontend/app/draw/index.ts:506-508 | the current tool becomes the given one |
| Draw.Whiteboard.MouseDown | apps/excalidraw_frontend/app/draw/index.ts:242-294 | records the press point; the eraser removes the topmost hit and emits its index when online; select starts dragging the topmost hit with the offset from its origin; the drag offsets change only in that case; other tools change neither the list nor the drag state |
| Draw.Whiteboard.MouseMove | apps/excalidraw_frontend/app/draw/index.ts:384-496 | while dragging, the list becomes `Drag(old, i, …)` and the moved shape is emitted with its index; the handler stops when the index no longer names an entry or the entry is an empty stroke; otherwise a pressed pencil appends `(x, clientY)` to the path |
| Draw.Whiteboard.MouseUp | apps/excalidraw_frontend/app/draw/index.ts:296-382 | ending a drag clears the drag state and creates nothing; otherwise the list becomes `PushOpt(old, NewShape(…))`, a used pencil path is reset, and the emission is `CreateEmission` as written |
| Draw.Whiteboard.ClearAll | apps/excalidraw_frontend/app/draw/index.ts:518-529 | the list becomes empty and `shape:clear` is emitted when online, which makes peers empty theirs too |
| Relay.Gate | apps/ws-backend/src/index.ts:24-47 | a token that is not one string is refused with "Unauthorized: token missing", and one that verification rejects with "Unauthorized: invalid token"; a connection is accepted exactly when verification succeeds, with the payload's `id` attached |
| Relay.JoinRoom | apps/ws-backend/src/index.ts:57-59 | `socket.join` adds the connection to that room only |
| Relay.LeaveRoom | apps/ws-backend/src/index.ts:61-63 | `socket.leave` removes the connection from that room only |
| Relay.LeaveAll | apps/ws-backend/src/index.ts:53-55 | on disconnect the connection leaves every room |
| Relay.Recipients | apps/ws-backend/src/index.ts:66 | `socket.to(room)` reaches exactly the room's members other than the sender |
| Relay.JoinedReceives | apps/ws-backend/src/index.ts:57-59 | after joining, a connection receives what any other member sends to the room |
| Relay.JoinLeaveRestores | apps/ws-backend/src/index.ts:57-63 | joining a room one was not in, then leaving it, restores every room's members |
| Relay.JoinIdempotent | apps/ws-backend/src/index.ts:57-59 | joining twice is joining once |
| Relay.LeftReceivesNothing | apps/ws-backend/src/index.ts:53-63 | after leaving or disconnecting, a connection receives nothing sent to that room |
| Relay.RelayEvent | apps/ws-backend/src/index.ts:65-76 | clear, remove and update payloads are forwarded unchanged under their own event name |
| Relay.Server.constructor | apps/ws-backend/src/index.ts:12-21 | the server starts with no connections, no rooms and an empty trace |
| Relay.Server.Connect | apps/ws-backend/src/index.ts:24-47 | the result is the gate's verdict; only an accepted connection is recorded, with its `userId` |
| Relay.Server.Disconnect | apps/ws-backend/src/index.ts:53-55 | the connection and its `userId` are dropped, and its room memberships with them |
| Relay.Server.RoomJoin | apps/ws-backend/src/index.ts:57-59 | membership becomes `JoinRoom(old, c, room)`, with no admission check |
| Relay.Server.RoomLeave | apps/ws-backend/src/index.ts:61-63 | membership becomes `LeaveRoom(old, c, room)` |
| Relay.Server.RelayShape | apps/ws-backend/src/index.ts:65-76 | one relay of the unchanged payload to the room's other members is appended to the trace, and nothing is stored |
| Relay.Server.ShapeCreate | apps/ws-backend/src/index.ts:78-91 | `data` is relayed as `shape:created`; then, if the write succeeds, the row with the sender's `userId` is stored |
| Relay.Server.OnMessage | apps/ws-backend/src/index.ts:93-119 | `join_room` and `leave_room` change membership; `chat` relays `{roomId, message}` and then stores the message; any other type does nothing |
| Relay.RelayBeforePersist | apps/ws-backend/src/index.ts:82-90 | the relay is the step's first action whether or not the row is stored, and a stored row carries the sender's `userId` |
| Jwt.IdOf | apps/ws-backend/src/index.ts:41 | a string payload has no `id` |
| Jwt.NameOf | apps/http-backend/src/middleware/auth.middleware.ts:33 | a string payload has no `name` |
| AuthMiddleware.PickHeader | apps/http-backend/src/middleware/auth.middleware.ts:6 | the lower-case `authorization` header is used when truthy, else `Authorization` |
| AuthMiddleware.SelectToken | apps/http-backend/src/middleware/auth.middleware.ts:11-15 | a non-empty cookie wins; else a string header starting with "Bearer " yields the text after the prefix up to the next space; else there is no token |
| AuthMiddleware.BearerTokenStopsAtSpace | apps/http-backend/src/middleware/auth.middleware.ts:13-14 | "Bearer a b" yields the token "a" |
| AuthMiddleware.BearerEmptyToken | apps/http-backend/src/middleware/auth.middleware.ts:13-14 | "Bearer " yields the empty token, not a missing one |
| AuthMiddleware.EmptyCookieFallsThrough | apps/http-backend/src/middleware/auth.middleware.ts:11-14 | an empty cookie falls through to the bearer header |
| AuthMiddleware.Authenticate | apps/http-backend/src/middleware/auth.middleware.ts:4-42 | no token gives 401 "unauthorized token missing"; a token verification rejects calls `next` with "error in verification of jwt"; a truthy payload calls `next` with its `id` and `name`; a falsy payload gives 401 "unauthorized" |
| AuthMiddleware.Request.constructor | apps/http-backend/src/middleware/auth.middleware.ts:4 | the request carries the cookie and both header spellings, with no user attached yet |
| AuthMiddleware.VerifyJwt | apps/http-backend/src/middleware/auth.middleware.ts:4-42 | returns `Authenticate`'s verdict; `req.userId` and `req.name` are set exactly when `next` is called without an error |
| CanvasJoin.ReasonOr | apps/excalidraw_frontend/components/Canvas.tsx:50 | an absent or empty reason gives the fallback message |
| CanvasJoin.JoinToSend | apps/excalidraw_frontend/components/Canvas.tsx:42-47 | `room:join` is sent exactly when there is a socket, loading is over and the room id is not -1 |
| CanvasJoin.ViewOf | apps/excalidraw_frontend/components/Canvas.tsx:135-143 | each view is shown exactly under its condition in the render order; the approval modal appears only for the admin holding a request |
| CanvasJoin.JoinPage.constructor | apps/excalidraw_frontend/components/Canvas.tsx:29-39 | not joined, not pending, fetching, no shapes, no error, no request |
| CanvasJoin.JoinPage.OnJoinAck | apps/excalidraw_frontend/components/Canvas.tsx:48-64 | a failure records the reason (or "JOIN_FAILED") and clears both flags; a pending success sets only `pendingApproval`; any other success sets only `joined`; the two flags are never both set |
| CanvasJoin.JoinPage.OnJoinResult | apps/excalidraw_frontend/components/Canvas.tsx:78-88 | a rejection records the reason (or "REJECTED_BY_ADMIN") and clears both flags; an approval sets `joined` and clears `pendingApproval` |
| CanvasJoin.JoinPage.Cleanup | apps/excalidraw_frontend/components/Canvas.tsx:67-71 | `room:leave` is sent and both flags are cleared |
| CanvasJoin.JoinPage.OnJoinRequest | apps/excalidraw_frontend/components/Canvas.tsx:100-102 | the request is kept for the modal |
| CanvasJoin.JoinPage.Respond | apps/excalidraw_frontend/components/Canvas.tsx:149-176 | the decision is sent with the request's room and user, and the request is dropped |
| CanvasJoin.JoinPage.StartFetch | apps/excalidraw_frontend/components/Canvas.tsx:110-114 | the fetch starts once joined |
| CanvasJoin.JoinPage.FinishFetch | apps/excalidraw_frontend/components/Canvas.tsx:121-128 | returned data replaces the shapes; a failed request records "FETCH_FAILED"; fetching ends either way |
| Notifications.RequestId | apps/excalidraw_frontend/app/hooks/useNotifications.tsx:42 | the id is the room id in decimal (a "-" exactly when negative, then decimal digits with no leading zero that denote its absolute value), then "-", then the user id |
| Notifications.RequestIdInjective | apps/excalidraw_frontend/app/hooks/useNotifications.tsx:39-51 | two requests get the same id only when they share the room id and the user id, so the duplicate check at line 39 compares exactly those two |
| Notifications.Ids | apps/excalidraw_frontend/app/hooks/useNotifications.tsx:39 | the set of ids is exactly those present in the list |
| Notifications.EntryFor | apps/excalidraw_frontend/app/hooks/useNotifications.tsx:41-47 | each entry copies its user's id and name, the room and the current time |
| Notifications.Entries | apps/excalidraw_frontend/app/hooks/useNotifications.tsx:41-47 | one entry per incoming user, in order |
| Notifications.DropKnown | apps/excalidraw_frontend/app/hooks/useNotifications.tsx:51 | an entry is kept exactly when its id was not already known |
| Notifications.AddRequest | apps/excalidraw_frontend/app/hooks/useNotifications.tsx:35-54 | the old list is kept as a prefix; every appended entry is an incoming user's entry whose id was not in the old list, and every such entry is appended |
| Notifications.DropKnownAppend | apps/excalidraw_frontend/app/hooks/useNotifications.tsx:51 | filtering keeps order across a concatenation |
| Notifications.AppendedInUserOrder | apps/excalidraw_frontend/app/hooks/useNotifications.tsx:49-52 | appended entries follow the order of the incoming users |
| Notifications.DropAllKnown | apps/excalidraw_frontend/app/hooks/useNotifications.tsx:51 | nothing survives when every id is known |
| Notifications.AddRequestIdempotent | apps/excalidraw_frontend/app/hooks/useNotifications.tsx:35-54 | adding the same payload again, at any time, adds nothing |
| Notifications.BatchDuplicatesKept | apps/excalidraw_frontend/app/hooks/useNotifications.tsx:39-52 | a payload naming one new user twice appends two entries with the same id |
| Notifications.RemoveRequest | apps/excalidraw_frontend/app/hooks/useNotifications.tsx:56-58 | exactly the entries with other ids remain, so the id is gone |
| Notifications.RemoveRequestAppend | apps/excalidraw_frontend/app/hooks/useNotifications.tsx:57 | removal keeps order across a concatenation |
| Notifications.RemoveAbsent | apps/excalidraw_frontend/app/hooks/useNotifications.tsx:56-58 | removing an id the list does not hold changes nothing |
| Notifications.RemoveIdempotent | apps/excalidraw_frontend/app/hooks/useNotifications.tsx:56-58 | removing twice is removing once |
| Profile.FirstChars | apps/excalidraw_frontend/components/profile-dropdown.tsx:191-192 | at most one character per word; an empty word contributes nothing |
| Profile.WordStartsFrom | apps/excalidraw_frontend/components/profile-dropdown.tsx:189-192 | the word starts of a text never include a space |
| Profile.FirstCharsAreWordStarts | apps/excalidraw_frontend/components/profile-dropdown.tsx:189-192 | the first characters of the words split on " " are exactly the text's word starts, in order |
| Profile.Initials | apps/excalidraw_frontend/components/profile-dropdown.tsx:188-195 | at most two characters: the first two upper-cased word starts; an empty username gives "" |
| Profile.ExtraSpacesIgnored | apps/excalidraw_frontend/components/profile-dropdown.tsx:189-192 | doubling a space between words does not change the initials |
| Profile.WordStartsAfterSpace | apps/excalidraw_frontend/components/profile-dropdown.tsx:189-192 | the word starts of a concatenation are those of the first part, then those of the second part read from where the first part ends |
| Profile.WordStartsConcat | apps/excalidraw_frontend/components/profile-dropdown.tsx:189-192 | the same, from either scan state |
| Profile.CheckPhoto | apps/excalidraw_frontend/components/profile-dropdown.tsx:124-140 | no file does nothing; a non-"image/" type is refused first; a file over 5 MiB is refused; every other file is accepted unchanged |
| Profile.SizeBoundary | apps/excalidraw_frontend/components/profile-dropdown.tsx:137 | exactly 5 MiB passes; one byte more is refused |
| Profile.MessageOr | apps/excalidraw_frontend/components/profile-dropdown.tsx:118 | the server's message when non-empty, else the fallback |
| Profile.ProfileMenu.constructor | apps/excalidraw_frontend/components/profile-dropdown.tsx:35-43 | every text field starts empty and every flag false |
| Profile.ProfileMenu.AvatarText | apps/excalidraw_frontend/components/profile-dropdown.tsx:188-195 | the avatar shows the initials of the current username, at most two characters |
| Profile.ProfileMenu.StartEditing | apps/excalidraw_frontend/components/profile-dropdown.tsx:303 | edit mode starts |
| Profile.ProfileMenu.CancelEditing | apps/excalidraw_frontend/components/profile-dropdown.tsx:287-290 | edit mode ends and the input is reset to the current name |
| Profile.ProfileMenu.UpdateUsername | apps/excalidraw_frontend/components/profile-dropdown.tsx:92-122 | a blank name is refused with "Username cannot be empty" and nothing is sent; otherwise success takes the edited name and leaves edit mode, failure shows the server's message or the default, and loading ends either way |
| Profile.ProfileMenu.SelectPhoto | apps/excalidraw_frontend/components/profile-dropdown.tsx:124-186 | an upload happens exactly when the file passes the checks; a refused file only sets the error, leaving the upload flag and the preview as they were; the photo URL changes only on a successful upload; the preview is cleared after any upload |
| Toolbar.ShortcutOf | apps/excalidraw_frontend/components/CanvasRoom.tsx:41-49 | each tool's shortcut is the one listed for it in the table |
| Toolbar.Find | apps/excalidraw_frontend/components/CanvasRoom.tsx:117 | `find` returns a table entry with that shortcut, or none when no entry has it |
| Toolbar.ShortcutsDistinct | apps/excalidraw_frontend/components/CanvasRoom.tsx:41-49 | the seven shortcuts and the seven ids are pairwise distinct |
| Toolbar.FindShortcut | apps/excalidraw_frontend/components/CanvasRoom.tsx:41-49 | the lookup yields tool `t`'s entry exactly for `t`'s shortcut |
| Toolbar.EntryShortcut | apps/excalidraw_frontend/components/CanvasRoom.tsx:41-49 | every table entry carries its own tool's label and shortcut |
| Toolbar.AfterKey | apps/excalidraw_frontend/components/CanvasRoom.tsx:113-121 | key presses aimed at a text input are ignored; an unknown key keeps the tool; a change selects the tool whose shortcut is the upper-cased key |
| Toolbar.KeySelectsTool | apps/excalidraw_frontend/components/CanvasRoom.tsx:113-121 | a tool's shortcut, upper or lower case, selects that tool |
| Toolbar.Cursor | apps/excalidraw_frontend/components/CanvasRoom.tsx:133-142 | "default" exactly for select, "cell" exactly for the eraser, "crosshair" otherwise |
| Toolbar.ToolSelection.constructor | apps/excalidraw_frontend/components/CanvasRoom.tsx:57 | the rectangle tool is selected first |
| Toolbar.ToolSelection.KeyDown | apps/excalidraw_frontend/components/CanvasRoom.tsx:113-121 | the selected tool becomes `AfterKey(old, key, targetIsInput)` |
| Toolbar.ToolSelection.Click | apps/excalidraw_frontend/components/CanvasRoom.tsx:176-178 | clicking a button selects its tool |
| Schemas.Utf16Length | packages/common/src/types.ts:15 | the JavaScript length lies between the character count and twice that count |
| Schemas.Utf16LengthBmp | packages/common/src/types.ts:15 | for text inside the Basic Multilingual Plane, the JavaScript length is the character count |
| Schemas.RoomIssues | packages/common/src/types.ts:15 | there are no issues exactly when the name is a string of 3 to 20 UTF-16 units |
| Schemas.ParseCreateRoom | packages/common/src/types.ts:14-16 | room creation is accepted exactly for a string name of 3 to 20 UTF-16 units, which is returned unchanged; any refusal carries at least one issue |
| Schemas.RoomNameBoundaries | packages/common/src/types.ts:15 | names of 2 and 21 characters are refused; names of 3 and 20 are accepted |
| Schemas.EmailIssues | packages/common/src/types.ts:4 | the email field passes exactly when it is a string matching the email pattern |
| Schemas.StringIssues | packages/common/src/types.ts:5-6 | a `z.string()` field passes exactly when it is a string, the empty string included |
| Schemas.ParseCreateUser | packages/common/src/types.ts:3-7 | sign-up is accepted exactly when the email is valid and password and name are strings; the fields are returned unchanged |
| Schemas.ParseSignIn | packages/common/src/types.ts:9-12 | sign-in is accepted exactly when the email is valid and the password is a string |
| Schemas.SignUpImpliesSignIn | packages/common/src/types.ts:3-12 | every accepted sign-up body also passes sign-in |
| JsStrings.Split | apps/http-backend/src/middleware/auth.middleware.ts:14 | `split` on one character gives one more piece than there are separators, and no piece holds the separator |
| JsStrings.JoinSplit | apps/excalidraw_frontend/components/profile-dropdown.tsx:190-192 | joining the pieces of a split on the same separator gives back the text |
| JsStrings.UpTo | apps/http-backend/src/middleware/auth.middleware.ts:14 | the text up to the first separator is a separator-free prefix, followed by a separator when shorter than the text |
| JsStrings.SplitHead | apps/http-backend/src/middleware/auth.middleware.ts:14 | the first piece of a split is the text up to the first separator |
| JsStrings.SplitAfterWord | apps/http-backend/src/middleware/auth.middleware.ts:14 | splitting a separator-free word, a separator and a rest gives the word, then the pieces of the rest |
| JsStrings.UpperChar | apps/excalidraw_frontend/components/CanvasRoom.tsx:116 | ASCII lower-case letters map to upper case; every other character is kept |
| JsStrings.ToUpper | apps/excalidraw_frontend/components/CanvasRoom.tsx:116 | upper-casing keeps the length and maps each character on its own |
| JsStrings.ToUpperAppend | apps/excalidraw_frontend/components/profile-dropdown.tsx:193 | upper-casing distributes over concatenation |
| JsStrings.Trim | apps/excalidraw_frontend/components/profile-dropdown.tsx:93 | the trimmed text is the slice of the input left after its leading whitespace, followed only by whitespace; it neither starts nor ends with whitespace |
| JsStrings.TrimEmptyIffBlank | apps/excalidraw_frontend/components/profile-dropdown.tsx:93 | a trimmed text is empty exactly when every character is whitespace |
| JsStrings.LeadingSpace | apps/excalidraw_frontend/components/profile-dropdown.tsx:93 | counts the leading whitespace: every character before the count is whitespace and the one at it is not |
| JsStrings.TrailingSpace | apps/excalidraw_frontend/components/profile-dropdown.tsx:93 | counts the trailing whitespace: every character after the count's start is whitespace and the one before it is not |
| JsStrings.TrimSlice | apps/excalidraw_frontend/components/profile-dropdown.tsx:93 | what lies between the leading and the trailing whitespace is a slice of the text, followed only by whitespace, and neither starts nor ends with whitespace |
| JsStrings.NatToString | apps/excalidraw_frontend/app/hooks/useNotifications.tsx:42 | a natural number renders as a non-empty string of decimal digits, with no leading zero, whose decimal value is the number |
| JsStrings.IntToString | apps/excalidraw_frontend/app/hooks/useNotifications.tsx:42 | an integer renders with a leading "-" exactly when negative, followed only by decimal digits with no leading zero that denote its absolute value |
| JsStrings.IntToStringInjective | apps/excalidraw_frontend/app/hooks/useNotifications.tsx:42 | distinct integers render differently |

## Left out

- Floating point: coordinates are exact reals. `Math.sqrt`, `Math.atan2`, `Math.cos` and `Math.sin` values are parameters. So is the hit test of circles, lines, arrows and pencil strokes, with `distanceToLine` (draw/index.ts:210-240).
- Canvas rendering (`clearCanvas`, `strokeRect`, the rubber-band preview drawn on mouse-move), the resize handler and listener cleanup: these draw and change no model state.
- `getCanvasCoordinates`: handlers take the canvas point as a parameter. The source's version reads `coords.x`, a name not in its own scope, and this model does not follow that.
- The offline mode (`token === "dummy"`) with its localStorage load and save: the model covers the online path and the offline case with no socket (`online` false).
- `Draw.Store`: an index more than one past the end makes a sparse JavaScript array with holes; the model leaves the list unchanged there.
- `Draw.Whiteboard.MouseMove`: the source throws when the dragged index no longer names an entry or names an empty pencil stroke; the model stops the handler at that point, with no change and no emission.
- `Draw.Whiteboard.MouseDown`: for an empty pencil stroke the source throws after setting the drag state; the model sets the same drag state and leaves the offsets unchanged.
- The Socket.IO transport and its Redis adapter, CORS and the port: relays are recorded as trace actions, not delivered.
- Concurrency and interleaving between clients: `Draw.ApplyAllConverges` covers one sender's changes in order; `Draw.ConcurrentRemovesLoseShape` shows one interleaving that loses a shape.
- Prisma: a database write is the `stored` flag; the rejected promise of a failed write is not modelled.
- `Relay.Gate`: `jwt.verify`, with its secret, is the `Jwt.Verifier` parameter, and `id` is an integer.
- `AuthMiddleware.Authenticate`: the secret and the `jsonwebtoken` library are behind `Jwt.Verifier`; Express's `res.status().json()` is a returned verdict.
- `CanvasJoin.JoinPage`: React effects and their dependency arrays are not modelled. The methods are the handlers; `CanvasJoin.JoinToSend` and `Cleanup` are the effect's body and its cleanup. The HTTP shape fetch is its `FetchOutcome`.
- `Notifications.AddRequest`: `Date.now()` is the parameter `now`, so the model gives every entry of one payload the same timestamp, where the source reads the clock once per entry; the React state setter is the function's result.
- `Profile.ProfileMenu.SelectPhoto`: the FileReader preview (`photoPreview` set to a data URL) is not modelled. Neither is resetting the file input.
- `Profile.ProfileMenu.UpdateUsername`: the three-second `setTimeout` that clears the success message is left out, as is the `PUT` request itself.
- `loadUserProfile`, the dropdown's outside-click handler and the rendered markup of the profile menu: they set display state only.
- `Profile.FirstChars`: `w[0]` in JavaScript is the first UTF-16 code unit; the model takes the first character of a `string`, which is a whole code point, so an emoji or another character outside the Basic Multilingual Plane yields the whole character where the source yields a lone surrogate, which a Dafny `string` cannot hold.
- `Profile.Initials`: upper-casing is ASCII-only (see `JsStrings.ToUpper`), so "é" stays "é" and "ß" stays "ß" where `toUpperCase` gives "É" and "SS"; `slice(0, 2)` is modelled as two characters, not two UTF-16 code units, for the reason given under `Profile.FirstChars`.
- `JsStrings.ToUpper`: maps ASCII letters only, not the full Unicode case mapping of `toUpperCase`. Tool shortcuts and shape kinds are ASCII.
- `Schemas.EmailIssues`: zod's email regular expression is the parameter `isEmail`; issue messages are reduced to their kind and field.
- HTTP controllers and routers, the sign-in page, the navigation bar and the socket hook: these are outside the modelled core.

## Findings

| source | as written | input that shows it | evidently intended | confidence | as-written member | corrected member |
|---|---|---|---|---|---|---|
| apps/excalidraw_frontend/app/draw/index.ts:367-375 | after mouse-up, `shape:create` is sent with the list's last shape whenever the tool draws and the list is non-empty, even if this mouse-up pushed nothing | list `[rect]`, arrow tool, mouse released at the start's x (start (5, 5), end (5, 9)): nothing is pushed, but every peer appends a second copy of the rectangle | emit `shape:create` only for a shape this mouse-up created | not executed | Draw.CreateEmissionDuplicates | Draw.IntendedCreateConverges |
| apps/excalidraw_frontend/app/draw/index.ts:184-186 | the rectangle hit test assumes a non-negative width and height, but a rectangle dragged leftwards or upwards keeps negative ones (lines 313-314) | rectangle drawn from (10, 10) to (0, 0), mouse at its centre (5, 5): not hit, so neither the eraser nor select can reach it | test the point against the normalised rectangle, whatever the drag direction | not executed | Draw.RectDrawnBackwardsMissed | Draw.IntendedRectHit |

`Draw.Whiteboard` models the handlers as written, so it uses the written
emission and hit test. The corrected definitions are
`Draw.IntendedCreateEmission` and `Draw.IntendedIsPointInShape`, and
their properties are proved beside the as-written ones.
