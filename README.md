# WorldTree relay client, modelled in Dafny

The WorldTree relay is a WebSocket server that hands each client an identity,
lets it name the users it listens to, forwards their `data` frames to it and
pings it. This project models the client side of that protocol as two
PlayCanvas scripts implement it:

- `ws` (`viverse-components/ws.js`, module `WsScript`). It picks the server
  address from preset and custom settings. It says hello with a `reconnect`
  frame, asks to listen to one target user and keeps that user's last data
  record. It renders the record into a hover label and identities into a
  debug overlay. A ping arms a flash and a pulse. A click on the entity sends
  a chat line.
- `bodyVisOrig` (`viverse-components/bodyVis-orig.js`, module
  `BodyVisScript`). It connects to a fixed relay and listens to one target
  user, whom a context menu can change. On the frame after a new record
  arrives it moves each of fifteen joint spheres that the record gives a
  usable position. Then it re-places the twelve connectors between joints.

Shared pieces live in two modules:

- `Text` holds JavaScript's `trim` (with the ECMAScript whitespace set),
  `join` and a one-character `split`.
- `Protocol` holds the frames as datatypes. Inbound frames are `Welcome`,
  `Ping`, `Data`, `Unrecognised` for any other `type`, and `Malformed` for a
  text `JSON.parse` rejects. Outbound frames are `Reconnect`,
  `UpdateListeningTo` and `Chat`.

Each script is a class whose fields are the script's own fields. The socket
is an `outbox` sequence: `socket.send` appends one frame to it. The sphere and
connector entities are two maps, from joint name to position and from
connector name to placement. Editor attributes that the script never writes
are `const` fields.

Each event handler is a method. Its contract gives the new state in full, so
that every field it may not touch is listed as unchanged. The two loops of
`update` are proved against the fold functions `MoveAll` and `PlaceAll`.
Lemmas then state what those folds mean: each joint follows the joint rule,
each connector spans its own two joints, and no entry appears or disappears.
The label texts are functions, and lemmas state what they read as line by
line.

The relay server itself is not part of these files and is not modelled:
only the frames a client sends and receives appear.

## Model

| member | source | states |
|---|---|---|
| Text.Trim | viverse-components/ws.js:91-92 | `String.prototype.trim`: leading, then trailing whitespace dropped; what it keeps is stated by `Text.TrimStrips` |
| Text.TrimStrips | viverse-components/ws.js:91-92 | `trim` returns the empty string exactly when the input is all whitespace; otherwise the result begins and ends with a non-whitespace character and is a slice of the input with only whitespace cut off either side |
| Text.TrimStartDrops | viverse-components/ws.js:91-92 | dropping leading whitespace leaves a suffix of the input, removes only whitespace, and stops at a non-whitespace character |
| Text.TrimEndDrops | viverse-components/ws.js:91-92 | dropping trailing whitespace leaves a prefix of the input, removes only whitespace, and stops at a non-whitespace character |
| Text.Join | viverse-components/ws.js:280-282 | `Array.prototype.join`: the pieces with the separator between each neighbouring pair; read back by `Text.SplitJoin` |
| Text.Split | viverse-components/ws.js:280-284 | `split` at a one-character separator never gives an empty list; it is the reference the label texts are read back with |
| Text.SplitJoin | viverse-components/ws.js:280-284 | splitting a `join` at its separator gives the joined list back when no piece contains the separator |
| Text.SplitConcat | viverse-components/ws.js:280-284 | splitting `a + sep + b` is splitting `a` followed by splitting `b` |
| Text.JoinSnoc | viverse-components/ws.js:280-284 | joining a list with one more piece appends the separator and that piece |
| Text.SplitWithoutSeparator | viverse-components/ws.js:280-284 | a text without the separator splits into itself alone |
| Text.LastPieceAfterSeparator | viverse-components/ws.js:93 | the last piece of `a + sep + b`, for `b` without the separator, is `b` |
| Text.SeparatedInjective | viverse-components/bodyVis-orig.js:99 | `a + sep + b` determines `a` and `b` when the first parts hold no separator |
| Protocol.Lookup | viverse-components/bodyVis-orig.js:202-204 | `lastReceivedData[key]`: the first entry under the key of an object, nothing for a non-object; what it finds is stated by `Protocol.LookupFinds` |
| Protocol.LookupFinds | viverse-components/bodyVis-orig.js:202-204 | reading a key of the data record finds a value exactly when the record is an object with an entry under that key, and the value is that entry's; a non-object finds nothing |
| Protocol.LookupEntriesFinds | viverse-components/bodyVis-orig.js:202-204 | the same for a list of entries, by induction on the list |
| Protocol.LookupDistinctKeys | viverse-components/bodyVis-orig.js:202-204 | with distinct keys, as in a JavaScript object, the value found under a key is the value of that key's entry |
| Protocol.StoredSecret | viverse-components/ws.js:315-317 | `getStoredSecret` always gives null (also bodyVis-orig.js:241-243), which is why both `OnOpen` methods send `Reconnect(None)` |
| Protocol.Display | viverse-components/ws.js:273-274 | the 'N/A' fallback is never empty, is the identity whenever that is a non-empty string, and is otherwise "N/A" |
| Protocol.ListeningFrames | viverse-components/ws.js:291-298 | `updateListeningTo` sends no frame for an empty target, and otherwise exactly one `updatelisteningto` frame whose list is the target alone |
| WsScript.ChooseSetting | viverse-components/ws.js:91-92 | `custom.trim()`, or the preset when that is empty, for one setting; its meaning is stated by `WsScript.ChooseSettingPicks` |
| WsScript.GetServerUrl | viverse-components/ws.js:90-94 | the chosen host, a colon and the chosen port; taken apart again by `WsScript.ServerUrlParts` |
| WsScript.ChooseSettingPicks | viverse-components/ws.js:91-92 | a custom host or port that is not blank wins, with surrounding whitespace removed; a blank one leaves the preset |
| WsScript.ServerUrlParts | viverse-components/ws.js:90-94 | the address is the chosen host, a colon and the chosen port, and its last colon-separated piece is that port |
| WsScript.DefaultServerUrl | viverse-components/ws.js:17-47 | with the default attributes the address is `wss://worldtree.online:3001` |
| WsScript.HoverLabel | viverse-components/ws.js:279-287 | the text written into the hover label in each of the two branches; read line by line by `WsScript.HoverLabelByLine` |
| WsScript.HoverLabelByLine | viverse-components/ws.js:278-288 | with a data object, the hover label is one "key: value" line per entry in order, then "Session UUID: " and the identity or "N/A"; without one it is "Hovered!" and that session line |
| WsScript.RecordLabelByLine | viverse-components/ws.js:280-284 | the entries joined by line breaks and followed by the session line read as those entry lines and then the session line |
| WsScript.SessionLineIsOneLine | viverse-components/ws.js:283 | the session line is a single line when the identity has no line break |
| WsScript.TwoLines | viverse-components/ws.js:286 | two one-line texts joined by a line break read as those two lines |
| WsScript.DebugOverlay | viverse-components/ws.js:273-275 | the text written into the debug overlay; read line by line by `WsScript.DebugOverlayByLine` |
| WsScript.DebugOverlayByLine | viverse-components/ws.js:272-276 | the debug overlay is two lines: "Your UserID: " with the identity or "N/A", then "Listening To: " with the target or "N/A" |
| WsScript.OverlayLinesAreOneLine | viverse-components/ws.js:275 | each of the two overlay lines is a single line when the identity and target have no line break |
| WsScript.Ws.constructor | viverse-components/ws.js:51-86 | `initialize`: not connected, no identity, no data, effects idle, the label and overlay initial texts, nothing sent, and a socket opening to the configured address |
| WsScript.Ws.ConnectWebSocket | viverse-components/ws.js:96-105 | the socket is opened to `getServerUrl()` |
| WsScript.Ws.OnOpen | viverse-components/ws.js:125-132 | connected, and exactly one `reconnect` frame with a null secret is sent |
| WsScript.Ws.OnClose | viverse-components/ws.js:162-165 | disconnected, and no other field changes |
| WsScript.Ws.UpdateListeningTo | viverse-components/ws.js:291-298 | the frames sent are `ListeningFrames(targetUserId)` |
| WsScript.Ws.UpdateDebugOverlay | viverse-components/ws.js:272-276 | the overlay text becomes `DebugOverlay(userId, targetUserId)` |
| WsScript.Ws.UpdateHoverLabel | viverse-components/ws.js:278-288 | the label text becomes `HoverLabel(lastReceivedData, userId)` |
| WsScript.Ws.HandlePing | viverse-components/ws.js:300-304 | the flash timer is set to 0.5; the pulse timer is set to 0.25 when scaling with the heartbeat and is otherwise untouched |
| WsScript.Ws.OnMessage | viverse-components/ws.js:134-156 | a welcome sets the identity, sends the listening frames and refreshes the overlay; a ping arms the timers; a data frame from the target with a payload replaces the record and refreshes the label; any other data frame, any other type and any unparsable text change nothing and send nothing |
| WsScript.Ws.SendMessage | viverse-components/ws.js:340-354 | while connected, exactly one `chat` frame with the text and the time is sent; otherwise nothing is |
| WsScript.Ws.OnMouseDown | viverse-components/ws.js:190-209 | a click sends the greeting chat frame exactly when it hits this entity while connected, and nothing otherwise |
| BodyVisScript.BodyPartsDistinct | viverse-components/bodyVis-orig.js:48-56 | the fifteen joint names are pairwise distinct |
| BodyVisScript.BodyPartNamesPlain | viverse-components/bodyVis-orig.js:48-56 | no joint name contains '-' or ':' |
| BodyVisScript.ConnectorJointsAreBodyParts | viverse-components/bodyVis-orig.js:74-87 | every joint named by a connector pair is one of the body parts |
| BodyVisScript.ConnectorPairsDistinct | viverse-components/bodyVis-orig.js:74-87 | the twelve connector pairs are pairwise distinct |
| BodyVisScript.PairKey | viverse-components/bodyVis-orig.js:99 | `pair.join('-')` for a two-joint pair; shown injective by `BodyVisScript.PairKeysDistinct` |
| BodyVisScript.PairKeysDistinct | viverse-components/bodyVis-orig.js:99 | distinct pairs whose first joints hold no '-' give distinct `pair.join('-')` names |
| BodyVisScript.ConnectorKeysDistinct | viverse-components/bodyVis-orig.js:89-100 | the twelve connector names are pairwise distinct, so there are exactly twelve connectors |
| BodyVisScript.DistinctImageSize | viverse-components/bodyVis-orig.js:89-100 | distinct names for the first `n` pairs make a set of `n` names |
| BodyVisScript.CoordinateKeysDistinct | viverse-components/bodyVis-orig.js:202-204 | different joints or different axes are read from different `part:axis` keys |
| BodyVisScript.TablesAreSound | viverse-components/bodyVis-orig.js:48-100 | the joints are distinct, every connector joins two joints, and connector names are distinct |
| BodyVisScript.ReadJoint | viverse-components/bodyVis-orig.js:202-207 | the three coordinates read and parsed, kept only when none is NaN or zero; stated by `BodyVisScript.JointRule` |
| BodyVisScript.NextPosition | viverse-components/bodyVis-orig.js:206-209 | the new local position of one joint: the read position scaled, or the old one; stated by `BodyVisScript.JointRule` |
| BodyVisScript.JointRule | viverse-components/bodyVis-orig.js:201-210 | a joint moves only when its x, y and z values parse as numbers and are all non-zero, and then to those values scaled; otherwise, including when a key is missing, it stays |
| BodyVisScript.ScalarMovesNothing | viverse-components/bodyVis-orig.js:201-210 | a data payload that is not an object moves no joint |
| BodyVisScript.MoveAll | viverse-components/bodyVis-orig.js:201-210 | the spheres after the joint loop has run over a list of joints; its meaning is stated by `BodyVisScript.MoveAllMoves` |
| BodyVisScript.MoveAllMoves | viverse-components/bodyVis-orig.js:201-210 | the joint loop adds no sphere, applies the joint rule to every listed joint and leaves every other sphere where it was |
| BodyVisScript.PlaceAll | viverse-components/bodyVis-orig.js:213-226 | the connectors after the connector loop has run over a list of pairs; its meaning is stated by `BodyVisScript.PlaceAllSpans`, `BodyVisScript.PlaceAllKeepsKeys` and `BodyVisScript.PlaceAllLeavesOthers` |
| BodyVisScript.UpdateMovesAndPlaces | viverse-components/bodyVis-orig.js:201-226 | for sound tables and full sphere and connector maps, one pass of `update` moves every joint by the joint rule and leaves every connector spanning the new positions of its two joints, with no sphere or connector added or lost |
| BodyVisScript.PlaceAllKeepsKeys | viverse-components/bodyVis-orig.js:213-226 | placing connectors that already exist adds no connector |
| BodyVisScript.PlaceAllSpans | viverse-components/bodyVis-orig.js:213-226 | when no two pairs share a name, the connector loop leaves each pair's connector present and spanning that pair's two joints |
| BodyVisScript.PlaceAllLeavesOthers | viverse-components/bodyVis-orig.js:213-226 | the connector loop leaves every entry that is not one of its pairs' connectors as it was |
| BodyVisScript.LookupsSucceed | viverse-components/bodyVis-orig.js:208-222 | with a sphere for every joint and a connector for every pair, every sphere and connector lookup `update` makes succeeds |
| BodyVisScript.NewSpheres | viverse-components/bodyVis-orig.js:58-70 | the loop in `initialize` makes exactly one sphere per joint, each at the origin |
| BodyVisScript.NewConnectors | viverse-components/bodyVis-orig.js:89-100 | the loop in `initialize` makes exactly one connector per pair, stored under `pair.join('-')` and not yet placed |
| BodyVisScript.BodyVisOrig.constructor | viverse-components/bodyVis-orig.js:39-108 | `initialize`: the two tables, which are sound (distinct joints, connectors between joints, distinct connector names), a sphere at the origin for every joint, an unplaced connector for every pair, an empty record not ready, not connected, no identity, nothing sent, and a socket opening to the fixed relay |
| BodyVisScript.BodyVisOrig.ConnectWebSocket | viverse-components/bodyVis-orig.js:159-166 | the socket is opened to `wss://worldtree.onrender.com` |
| BodyVisScript.BodyVisOrig.OnOpen | viverse-components/bodyVis-orig.js:168-177 | connected, and exactly one `reconnect` frame with a null secret is sent |
| BodyVisScript.BodyVisOrig.OnClose | viverse-components/bodyVis-orig.js:249-253 | disconnected, and no other field changes |
| BodyVisScript.BodyVisOrig.UpdateListeningTo | viverse-components/bodyVis-orig.js:231-239 | the frames sent are `ListeningFrames(targetUserId)` |
| BodyVisScript.BodyVisOrig.OnMessage | viverse-components/bodyVis-orig.js:179-196 | a welcome sets the identity and sends the listening frames; a data frame from the target with a payload replaces the record and marks it ready; every other frame, unparsable text included, changes nothing |
| BodyVisScript.BodyVisOrig.SubmitTarget | viverse-components/bodyVis-orig.js:131-135 | the typed text becomes the target, and the frames sent name that target alone (none for empty text) |
| BodyVisScript.BodyVisOrig.Update | viverse-components/bodyVis-orig.js:198-229 | nothing changes unless a record is ready; otherwise the spheres become `MoveAll` and the connectors `PlaceAll` of the old ones over the whole tables, the sphere and connector sets stay whole, and the record is no longer ready; with the sound tables the constructor guarantees, `BodyVisScript.UpdateMovesAndPlaces` turns this into every joint following the joint rule and every connector spanning its two joints |
| BodyVisScript.BodyVisOrig.MoveJoints | viverse-components/bodyVis-orig.js:201-210 | the joint loop leaves the spheres as `MoveAll` of the old spheres over all body parts |
| BodyVisScript.BodyVisOrig.PlaceConnectors | viverse-components/bodyVis-orig.js:213-226 | the connector loop leaves the connectors as `PlaceAll` of the old connectors over all pairs |

## Left out

- `viverse-components/mouseOverTooltip.js`: DOM tooltip styling driven by a raycast, with no state of its own.
- DOM overlays: the creation and styling of the label, the debug and send overlays and the context menu, `appendSendMessage` with its removal timer, and `onDestroy`. Only the label and overlay texts are modelled.
- Camera and raycast (`onMouseMove`, `getActiveCamera`, `findTextElement`, `screenToWorld`, `raycastFirst`): engine calls. A click is the boolean `hitThis`.
- Transport: `new WebSocket`, listener wiring, the socket's ready state and the 5000 ms reconnect timer. Opening a socket is recording its address. `send` is appending to `outbox`. `onClose` is its flag change.
- `onError`: it only logs.
- JSON: `JSON.parse` and `JSON.stringify` are library calls. Frames are datatypes, and a parse failure is `Malformed`. A payload's values are their string renderings. Entries keep the order `Object.entries` gives.
- `Ws.prototype.update` (`ws.js:319-338`): floating-point animation of the emissive flash and the scale pulse.
- The connector geometry in `BodyVisOrig.update` (`lerp`, `sub2`, `length`, `lookAt`, `setLocalScale`) and the world transform that `getPosition` applies. A connector records the two joint positions it spans, taken as the spheres' local positions.
- `parseFloat`: it is the parameter `parse`, with `None` for NaN. Infinite values are not represented.
- Timestamps: `Date.now()` is the parameter `now`. The ping's text element line (`ws.js:306-309`) needs `toLocaleTimeString()` and an engine text element, so it is left out.
- The right-click handler that shows the context menu (`bodyVis-orig.js:150-157`) and the menu's close button: display only.
- `swap` (`bodyVis-orig.js:255-263`): engine hot-reload.
- Attributes that only affect rendering: the sphere material, the sphere size, and `scaleWithHeartbeat` in `bodyVisOrig`, which nothing reads.
- BodyVisScript.BodyVisOrig.SubmitTarget: requires `enableContextMenu`, because the submit button exists only when the context menu was created.
