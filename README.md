# Remaudio backend core, modelled in Dafny

This project models the core of the Remaudio music backend:

- **The multiplayer relay.** A `MultiplayService` keeps three in-memory maps:
  - rooms, each with one host socket, at most ten follower sockets, a creation time and a last-activity time;
  - an index from socket to room;
  - per-socket network statistics.

  The `MultiplayGateway` turns socket messages (`join_room`, `playback_event`, `leave_room`, connect and disconnect) into calls on the service, and sends replies.
- **Upload validation in the songs service.** This covers the ordered checks on an uploaded audio file, the record built for it, and how failures of the storage upload and the database save are turned into HTTP errors. It also covers the file-name and duration helpers and the partial update of a song.
- **Relation-list edits.** The playlist and user `update` operations share the same editing rule: reject unknown ids, append the ids not already present, then filter out the ids to remove. Playlist deletion and user creation are modelled too.

How the model is built:

- **The relay has two layers.**
  - The value `Relay.Registry` is the relay's abstract state. The pure transition functions `Join`, `Forward`, `Disconnect` and `Sweep` say, in their contracts, what each operation promises. The registry invariant `Relay.Inv` says that every room has at most ten distinct followers and that every index entry names a present room in which that socket is host or follower. Each transition function preserves it.
  - `RelayService.MultiplayService` is a class with the three maps as fields. Its methods update those fields step by step, with loops over followers and over index entries. Each handler that has a transition function (CreateOrJoinRoom, ForwardEvent, HandleDisconnect, CleanupInactiveRooms) is proved to reach exactly the state, and send exactly the messages, that the function describes. The other methods state their effect on the maps directly.
- **Emits become an outbox.** Socket emits are appended to the outbox of a `Transport.Server`, as (recipient, event) pairs in emit order.
- **The other services work on maps.**
  - The songs, playlists and users services are classes over maps from id to record, which stand for the repositories.
  - The calls to the storage service and to `bcrypt` are inputs: outcome values and a hash function.
  - A log of the storage and repository calls records the order of upload, save and rollback.

Observations from the source:

- **Roles are not validated.** `createOrJoinRoom` tests only `role === 'host'` (src/multiplay/multiplay.service.ts:65), so any other role joins as a follower.
- **The gateway handles only three messages.** These are `join_room`, `playback_event` and `leave_room` (src/multiplay/multiplay.gateway.ts:45-92), besides connect and disconnect.
- **A non-host `playback_event` gets no reply.** `forwardEvent` only logs and returns (src/multiplay/multiplay.service.ts:110-114).
- **The inactivity sweep notifies nobody.** It deletes rooms and index entries without an emit (src/multiplay/multiplay.service.ts:173-191).
- **Network statistics are never recorded in practice.** `trackConnection` is never called by the gateway, so the statistics map only ever loses entries; `TrackConnection` is modelled as the service offers it.
- **Every upload fails the buffer check.** `src/songs/songs.controller.ts` configures multer with disk storage, which supplies no buffer. The model leaves the presence of a buffer as an input.

## Model

| member | source | states |
|---|---|---|
| Relay.Join | src/multiplay/multiplay.service.ts:62-101 | A `host` join succeeds exactly when the room id is free, creating a room with that host, no followers and both timestamps `now`; otherwise "Room already exists with different host". Any other role joins exactly when the room exists and has fewer than 10 followers, otherwise "Room not found…" or "Room is full…". A join adds the socket to the follower set, keeps the earlier followers in order and sets lastActivity. A refusal changes nothing; a success records socket → room. The registry invariant is preserved. |
| Relay.Forward | src/multiplay/multiplay.service.ts:103-131 | Forwarded exactly when the room exists and the sender is its host. A refusal changes nothing and sends nothing. A success changes only that room's lastActivity and sends one sync event per follower, in follower order, all with the same forward time. The invariant is preserved. |
| Relay.ForwardReachesEachFollowerOnce | src/multiplay/multiplay.service.ts:120-128 | Under the invariant, a forwarded event reaches every follower, nobody else, and no recipient twice. |
| Relay.Disconnect | src/multiplay/multiplay.service.ts:133-170 | The socket's statistics are always dropped. A socket with no (truthy) index entry, or whose room is gone, changes nothing else. Every notification sent is a room_closed. Rooms, index and statistics only lose entries. The invariant is preserved. |
| Relay.HostDisconnectClosesRoom | src/multiplay/multiplay.service.ts:145-169 | A host's departure removes its room. It sends exactly one room_closed per follower. The rooms become the old ones minus that room. The index loses exactly the host and the followers, and so do the statistics, so no index entry names the room any more and every other room is unchanged. |
| Relay.FollowerDisconnectKeepsRoom | src/multiplay/multiplay.service.ts:163-169 | A follower's departure sends nothing. The room stays with the same host, and only that socket leaves the follower set, with the other followers in their order. The index and the statistics lose exactly that socket. Other rooms are unchanged. |
| Relay.DisconnectTwiceIsNoop | src/multiplay/multiplay.service.ts:133-143 | A second disconnect or leave by the same socket changes nothing and sends nothing. |
| Relay.Sweep | src/multiplay/multiplay.service.ts:173-191 | Keeps exactly the rooms with `now - lastActivity <= 30 min` (strict `>` removes), unchanged. It drops exactly the index entries and statistics of sockets mapped to a removed room, sends nothing, and preserves the invariant. |
| Relay.RoomConnectionsBound | src/multiplay/multiplay.service.ts:88-98 | Under the invariant, at most 11 index entries name any one room: its host and at most ten followers. |
| Relay.ConnectionsBound | src/multiplay/multiplay.service.ts:88-98 | Under the invariant, the index holds at most eleven times as many entries as there are rooms. |
| Seqs.Insert | src/multiplay/multiplay.service.ts:92 | Set add: the elements become the old ones plus the socket, with no repeats, and the existing order is kept as a prefix. |
| Seqs.Remove | src/multiplay/multiplay.service.ts:166 | Set delete: the elements become the old ones minus the socket, with no repeats, and the rest keep their order. |
| Transport.Server.EmitEach | src/multiplay/multiplay.service.ts:123-128 | A forEach of emits appends one delivery per recipient, in recipient order, to the outbox. |
| RelayService.MultiplayService.constructor | src/multiplay/multiplay.service.ts:22-31 | Starts with three empty maps, satisfying the invariant. |
| RelayService.MultiplayService.TrackConnection | src/multiplay/multiplay.service.ts:34-42 | (Re)sets only that socket's statistics to connection time `now` and zero counters; rooms and index are unchanged. |
| RelayService.MultiplayService.UpdateNetworkStats | src/multiplay/multiplay.service.ts:45-55 | For a tracked socket, sets lastPingTime to `now` and adds exactly 1 to messageCount. For an untracked socket, changes nothing. |
| RelayService.MultiplayService.GetNetworkStats | src/multiplay/multiplay.service.ts:58-60 | The socket's record if tracked, otherwise none. |
| RelayService.MultiplayService.CreateOrJoinRoom | src/multiplay/multiplay.service.ts:62-101 | Returns the message, and leaves exactly the state, that Relay.Join gives; keeps the invariant. |
| RelayService.MultiplayService.ForwardEvent | src/multiplay/multiplay.service.ts:103-131 | Returns, leaves exactly the state, and appends exactly the deliveries that Relay.Forward gives; keeps the invariant. |
| RelayService.MultiplayService.HandleDisconnect | src/multiplay/multiplay.service.ts:133-170 | Leaves exactly the state, and appends exactly the deliveries, that Relay.Disconnect gives. Keeps the invariant. |
| RelayService.MultiplayService.Unregister | src/multiplay/multiplay.service.ts:157-160 | Removes exactly the given sockets from index and statistics; rooms are unchanged. |
| RelayService.MultiplayService.DropSocketsOf | src/multiplay/multiplay.service.ts:183-188 | Removes exactly the sockets mapped to the room from index and statistics; rooms are unchanged. |
| RelayService.MultiplayService.CleanupInactiveRooms | src/multiplay/multiplay.service.ts:173-191 | Visiting the rooms one at a time leaves exactly the state Relay.Sweep gives; keeps the invariant. |
| RelayService.MultiplayService.GetRoomInfo | src/multiplay/multiplay.service.ts:194-207 | None exactly for an unknown room. Otherwise gives the room id, the host, the number of distinct followers, maxFollowers 10, both timestamps and isActive. Under the invariant, followerCount ≤ maxFollowers. |
| RelayService.MultiplayService.GetServerStats | src/multiplay/multiplay.service.ts:210-221 | totalRooms = number of rooms and totalConnections = number of index entries; one summary per room with its follower count and timestamps. Under the invariant, totalConnections ≤ 11 · totalRooms. |
| Gateway.MultiplayGateway.constructor | src/multiplay/multiplay.gateway.ts:27 | Wraps a service whose state satisfies the invariant and has no room keyed by the empty string. |
| Gateway.MultiplayGateway.HandleConnection | src/multiplay/multiplay.gateway.ts:29-38 | Only sends connection_status{connected: true, socketId} to the new socket; the service is untouched. |
| Gateway.MultiplayGateway.HandleDisconnect | src/multiplay/multiplay.gateway.ts:40-43 | Performs Relay.Disconnect. Afterwards the socket has no index entry and no statistics. |
| Gateway.MultiplayGateway.HandleJoinRoom | src/multiplay/multiplay.gateway.ts:46-65 | A falsy roomId or role sends "Invalid room data" and leaves the service unchanged. Otherwise performs Relay.Join and replies join_status with its message, roomId, role and success exactly when the message is "joined". |
| Gateway.MultiplayGateway.HandlePlaybackEvent | src/multiplay/multiplay.gateway.ts:68-79 | A falsy roomId changes nothing and sends nothing. Otherwise performs Relay.Forward with the client as sender; the sender gets no reply. |
| Gateway.MultiplayGateway.HandleLeaveRoom | src/multiplay/multiplay.gateway.ts:82-92 | Performs Relay.Disconnect, keyed on the socket rather than the payload's roomId, then always sends "Left room successfully". Afterwards the socket has no index entry and no statistics. |
| Gateway.MultiplayGateway.Tick | src/multiplay/multiplay.service.ts:26-31 | The timer firing performs Relay.Sweep and keeps the gateway invariant. |
| Gateway.IndexedMeansRegistered | src/multiplay/multiplay.service.ts:136-143 | With no room keyed "", a socket has an index entry exactly when disconnect will act on it. |
| Gateway.DisconnectForgetsSocket | src/multiplay/multiplay.service.ts:136-169 | With no room keyed "", a disconnect leaves the socket with no index entry and no statistics, and still no room keyed "". |
| Gateway.OnlyHostPublishes | src/multiplay/multiplay.service.ts:110-114 | A playback event from anyone but the room's host (a follower included) changes nothing and reaches nobody. |
| Songs.AllowedMimeTypeIsAudioOrVideo | src/songs/songs.service.ts:23-41 | A MIME type passes the pattern-or-list test exactly when it starts with `audio/` or `video/`; the list adds nothing. |
| Songs.RoundedHundredths | src/songs/songs.service.ts:82 | The hundredths of a MiB nearest to the size, the larger on a tie. |
| Songs.MebibytesFixed2 | src/songs/songs.service.ts:82 | The size in MiB written with two decimals and no leading zero in the whole part: it starts with '0' exactly when the rounded size is below 1 MiB, and then reads "0.xx". Read back, it is within half a hundredth of the size (ties rounded up), as toFixed(2) prescribes. |
| Songs.CheckUpload | src/songs/songs.service.ts:58-101 | Passes exactly for a present file with a buffer, size in 1..100 MiB and an audio/video type. The failures, in order: "No file uploaded", "Invalid file data - file buffer is empty", the 413 "File size (<MebibytesFixed2 of the size>MB) exceeds maximum limit of 100MB" whatever the type, "Cannot upload empty file" for size 0 whatever the type, and "Invalid file type: <type>. Only audio files are allowed." Every failure but the 413 is a 400. |
| Songs.ExtensionUnique | src/songs/songs.service.ts:236 | At most one position of a name starts a match of `/\.[^/.]+$/`. |
| Songs.LastDotBefore | src/songs/songs.service.ts:236 | Finds the dot from which the prefix has no later dot or slash, or shows there is none. |
| Songs.RemoveFileExtension | src/songs/songs.service.ts:235-237 | The result is a prefix of the name. It equals the name exactly when no extension match exists, and otherwise ends just before the match. |
| Strings.TwoDigits | src/songs/songs.service.ts:248 | Two digits whose value is the number (padStart(2, '0')). |
| Songs.FormatDuration | src/songs/songs.service.ts:240-249 | The result is "0:00" exactly for a missing or non-positive duration. |
| Songs.FormatDurationReadsBack | src/songs/songs.service.ts:240-249 | "0:00" for a missing or non-positive duration. Otherwise the result is `m:ss` with ss < 60 and m·60 + ss equal to the seconds. The minutes are the single digit "0" for a duration under a minute, and have no leading zero otherwise. |
| Songs.NewSong | src/songs/songs.service.ts:139-145 | The name is RemoveFileExtension of the original name, the duration is FormatDuration of the response's duration, the artist is "Unknown Artist", there is no cover, and the URL and public id come from the upload response. |
| Songs.StepError | src/songs/songs.service.ts:113-166 | The upload-and-save block fails exactly unless the upload returned a URL and a public id and the save returned a truthy id. A thrown upload or save error is the one reported. |
| Songs.ClassifyUploadError | src/songs/songs.service.ts:208-231 | The result is always a 400, 413 or 500. Mentioning "Cloudinary" gives a 400. Otherwise, mentioning "Database" or being a QueryFailedError gives the fixed 500. Otherwise the error passes through unchanged exactly when it is a 400 or 413, and any other error becomes the 500 "Failed to upload audio file: " with its message, or "Unknown error" when the message is falsy. |
| Songs.DatabaseMessages | src/songs/songs.service.ts:160-166 | The two save-result messages mention "Database" and not "Cloudinary". |
| Songs.CloudinaryMessages | src/songs/songs.service.ts:117-126 | The three messages for a bad storage response mention "Cloudinary". |
| Songs.StepFailuresClassified | src/songs/songs.service.ts:113-219 | A bad storage response is reported as a 400 and a bad save result as a 500. |
| Songs.ApplySongUpdate | src/songs/songs.service.ts:283-291 | A present name or artist replaces the old one, even when empty; updatedAt becomes `now`; every other field is unchanged. |
| Songs.SongUpdateIdempotent | src/songs/songs.service.ts:283-291 | Applying the same update twice equals applying it once at the later time. |
| Songs.SongsService.constructor | src/songs/songs.service.ts:46-51 | An empty table and call log. |
| Songs.SongsService.Create | src/songs/songs.service.ts:53-233 | A failed guard makes no call. Otherwise the calls are: upload; then save only if the upload gave a URL and public id; then delete, exactly on failure after a public id came back. Success exactly when no step error occurs, storing the new song under the repository's id. A failure reports the classified error, is always a 400, 413 or 500, and stores nothing. |
| Songs.SongsService.Update | src/songs/songs.service.ts:276-293 | An unknown id gives 404 "Song with ID <id> not found" and changes nothing. Otherwise it stores and returns ApplySongUpdate of the record. |
| IdLists.FindExisting | src/playlists/playlists.service.ts:78-80 | The requested ids that exist, each once. |
| IdLists.MissingIdsAreAbsent | src/playlists/playlists.service.ts:82-88 | The missing ids are exactly the requested ids not in the table, in request order with repeats. There are none exactly when every requested id exists. |
| IdLists.AppendNew | src/playlists/playlists.service.ts:90-92 | The old list is kept as a prefix. The ids become the old ones plus the found ones, with no repeats if there were none. |
| IdLists.RemoveIds | src/playlists/playlists.service.ts:96-100 | The ids become the old ones minus the removed ones. The survivors keep their order (the result is a subsequence of the list), distinctness is kept, and nothing changes when no listed id is removed. |
| IdLists.EditIds | src/playlists/playlists.service.ts:77-100 | Fails exactly when some requested id is unknown, listing the unknown ids in request order. Otherwise the ids become (old ∪ added) − removed, with no repeats if there were none, and the surviving old ids come first in their old order. Empty add and remove lists change nothing. |
| IdLists.EditList | src/user/user.service.ts:92-115 | The guarded add-then-remove block computes exactly IdLists.EditIds. |
| IdLists.RemoveWinsOverAdd | src/playlists/playlists.service.ts:77-100 | An id both added and removed ends up absent; an id only added ends up present. |
| IdLists.EmptyEditKeeps | src/user/user.service.ts:92-115 | Empty add and remove lists leave the list unchanged, so an absent list and an empty one behave alike. |
| Playlists.PlaylistsService.constructor | src/playlists/playlists.service.ts:11-17 | Starts from the given playlist and song tables. |
| Playlists.PlaylistsService.Update | src/playlists/playlists.service.ts:58-106 | Fails with "Playlist not found" when the playlist is unknown, or with "Songs not found: <ids>" when a song to add is unknown, and then saves nothing. Otherwise it replaces the name only when the new one is truthy, sets the songs to IdLists.EditIds and sets updatedAt. |
| Playlists.PlaylistsService.Remove | src/playlists/playlists.service.ts:110-117 | An unknown id gives the plain error "playlist not found" and changes nothing. Otherwise it deletes exactly that playlist. |
| Users.ProfilePicLiteralMangled | src/user/entities/user.entity.ts:38 | The default picture literal as JavaScript reads it holds two carriage returns and no backslash, so it differs from the path it spells. |
| Users.DefaultProfilePicIsPath | src/user/entities/user.entity.ts:38 | The corrected default is the path `D:`, `remaudio v2`, `remaudio`, `src`, `default_user.png` joined by backslashes. |
| Users.PictureLessUserAsWritten | src/user/entities/user.entity.ts:38 | With the entity's literal as written, a user created without a picture gets that literal, which holds a carriage return and differs from the intended path. |
| Users.PictureLessUserCorrected | src/user/entities/user.entity.ts:38 | With the corrected default, a user created without a picture gets the backslash-joined path. |
| Users.UserService.constructor | src/user/user.service.ts:17-27 | An empty user table over the given song and playlist tables, with the given default picture of the user entity. |
| Users.UserService.Create | src/user/user.service.ts:29-44 | Fails, exactly when the password is missing, with bcrypt's "data and salt arguments required"; then nothing is saved. Otherwise it stores a new user under a fresh id. Name and email are copied and the password is stored as its hash. googleId and profilePic are set only when truthy, otherwise there is no googleId and the entity's default picture. Songs and playlists start empty. The stored record is Users.NewUser of the input with the fresh id. |
| Users.UserService.Update | src/user/user.service.ts:70-147 | Fails on an unknown user ("user with <id> not found"), then on unknown songs ("Songs not found: …"), then on unknown playlists ("playlists not found: …"), and then saves nothing. Otherwise name and password are replaced only when truthy, the password by its hash. Songs and playlists are set by IdLists.EditIds, updatedAt is set, and nothing else changes. |
| Scenarios.HostFollowerSession | src/multiplay/multiplay.service.ts:62-170 | Host H opens "abc" and a second host is refused. F1 joins. H's event reaches only F1, with the forward time, and F1's own event goes nowhere. H's disconnect sends F1 one room_closed and leaves no rooms and no index entries. |
| Scenarios.SweepAroundThreshold | src/multiplay/multiplay.service.ts:173-191 | At 100 min, a room idle for 31 min is swept with its socket's index entry and statistics. Rooms idle for 29 min and for exactly 30 min stay. |

## Left out

- The Socket.io transport is not modelled. This covers subscribing and unsubscribing sockets to socket.io rooms (`client.join`, `client.leave`), delivery itself, and failed deliveries; an emit is an outbox entry.
- Logging (`console.log`, the Nest `Logger`) is not modelled, and neither are the timings it reports.
- The clock is a parameter. Each handler receives one integer `now`, where the source reads the clock several times: one `Date.now()` per room_closed notification and separate `new Date()` objects for createdAt and lastActivity. `connection_status` carries the integer instead of an ISO date string.
- The five-minute `setInterval` in the service constructor is not modelled; `CleanupInactiveRooms` and `MultiplayGateway.Tick` are the sweep run once at a given time.
- Message bodies are maps from string to string. Non-string `roomId` or `role` values are not modelled. The sync event carries the body and the forward time side by side, rather than as the merged object `{...data, serverForwardTime}`.
- RelayService.MultiplayService.GetServerStats: returns the per-room summaries as a map keyed by room id, so the array order (the Map's insertion order) is not modelled.
- IdLists.FindExisting: the order of `findBy({ id: In(ids) })` results is up to the database. It is modelled as the order of first request, which affects only the order of appended ids.
- Absent id lists in the update bodies are modelled as empty lists. IdLists.EmptyEditKeeps shows the two behave alike.
- The storage service (upload and delete) and the repositories are not modelled. Upload and save are outcome inputs. A failure of the rollback delete is swallowed by the source and changes nothing, so it is not modelled. Database constraints are not modelled: the unique email; the non-null `name` and `password` columns of users (src/user/entities/user.entity.ts:13-14, 25-26); the non-null `name` of songs and playlists; the non-null `filePath` column; relation ownership of a playlist.
- Users.UserService.Update: saving `user.songs` through the one-to-many relation (src/user/entities/user.entity.ts:46-50) re-parents each added song to this user and orphans each removed one; `user.playlists` (lines 40-44) behaves the same way. The model keeps each user's song and playlist ids as separate lists, so two users may list the same song or playlist in the model.
- Songs.MebibytesFixed2: does not model exponential notation, which `toFixed` uses only for values of 10^21 and above, or the limits of double precision for sizes beyond 2^53 bytes.
- Songs.FormatDurationReadsBack: takes integer seconds, so NaN and fractional durations from the storage service are not modelled.
- JSON `null` values in update bodies are not modelled; a field is either absent or a string.
- `bcrypt.hash` is a function parameter: salting and asynchrony are not modelled. Its rejection of a missing password is modelled in Users.UserService.Create as a plain error carrying bcrypt's message. How Nest turns that error into an HTTP response is not modelled.
- Ids are natural numbers. The controllers pass `+id` from the route, which is NaN for a non-numeric parameter and can be negative or fractional; such ids are not modelled.
- Authentication, the storage service wrapper, e-mail validation, controllers, modules and the remaining service methods (find, list, delete of songs and users) are not part of this model.

## Findings

| source | as written | input that shows it | evidently intended | confidence | as-written member | corrected member |
|---|---|---|---|---|---|---|
| src/user/entities/user.entity.ts:38 | The default `profilePic` is an ordinary string literal. In it, `\r` is a carriage return and `\s`, `\d` lose their backslash. | Any user created without a picture (the service built with PROFILE_PIC_AS_WRITTEN) gets "D:", CR, "emaudio v2", CR, "emaudiosrcdefault_user.png". | The path `D:\remaudio v2\remaudio\src\default_user.png`, with escaped backslashes. | high, from JavaScript's escape rules; not executed | Users.PictureLessUserAsWritten | Users.PictureLessUserCorrected |
