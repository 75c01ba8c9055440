# Two-person room signaling, modelled in Dafny

This project models the core of a WebRTC signaling service written in Go for
App Engine (`src/app.go`). The service pairs two users in a named room. It
tracks whether each user's push channel is connected. It relays opaque JSON
signaling messages from one occupant to the other.

- `rooms.dfy` (module `Rooms`). `RoomState` is the room value kept in the
  datastore: two user slots, where `""` marks an empty slot, and one connected
  flag per slot. Its member functions are the specifications of the room
  operations. `Room` is the record a handler loads and changes in place. Its
  methods `AddUser`, `RemoveUser`, `ConnectUser` and `Occupants` follow the Go
  pointer-receiver methods, and each is proved against the matching
  `RoomState` function.
- `client_ids.dfy` (module `ClientIds`). This models the channel client
  identity `user + "@" + room` and its decoding. `Split` models Go's
  `strings.Split` with a one-character separator, and `JoinWith` is its
  inverse. `ParseClientId` is characterised exactly: the user is the text
  before the first `@`, and the room is the text between the first and the
  second `@`. Encoding then decoding gives back the pair exactly when neither
  part contains `@`.
- `signaling.dfy` (module `Signaling`). `Coordinator` holds the datastore as a
  `map<string, RoomState>` and the channel service as a log of attempted
  sends. The four handlers are methods:
  - `Join` models the page request handled by `Main`.
  - `Connected` and `Disconnected` model the channel presence callbacks.
  - `OnMessage` models the message relay.

  Whether each datastore call fails is an input. A read of a name that is not
  stored also fails. Each handler's postcondition gives the complete new store
  and send log. Each handler also preserves the store invariant `Valid`: every
  stored room has at least one occupant, and a connected flag is set only on
  an occupied slot. `Join` and `Connected` need a non-empty user for this.
  `JoinLifeCycle`, `ConnectInPairedRoom`, `RelayInPairedRoom` and
  `LeavePairedRoom` are client methods. They derive the room life cycle from
  the handler contracts alone.

The model follows the code where it departs from the service's intended design:

- Decoding a client identity keeps only the text up to the next `@` as the room.
  It does not keep everything after the first `@`.
- `Join` treats every failed read as "room absent". After any such failure it
  stores a fresh room holding only the new user, and this can overwrite a
  stored room.
- `Disconnected` looks up the other occupant after the leaving user has been
  removed. For a non-empty user who was in the room, the first "disconnected"
  notice therefore goes to `"@" + room`, not to the remaining peer.
  `Disconnected`'s postcondition and `LeavePairedRoom` state this.
- `OnMessage` logs a failed read and goes on with the zero room. The payload is
  then sent to `"@" + room`.
- A stored room with no occupant matches none of `Join`'s cases. The user is
  not added, but a channel token is still issued. Under the store invariant
  `Valid` no such room is ever stored, and `Join`'s contract states this.

## Model

| member | source | states |
|---|---|---|
| `Rooms.RoomState.Occupancy` | src/app.go:73-78 | the count is at most 2; it is 0 exactly when both slots are empty and 2 exactly when both are filled |
| `Rooms.RoomState.OtherUser` | src/app.go:33-41 | for two distinct occupants each one's other is the other occupant; a user in neither slot gets "" |
| `Rooms.RoomState.WithUser` | src/app.go:43-49 | the user takes slot 1 if it is empty, else slot 2 if that is empty, else nothing changes; existing occupants and both flags are kept; a non-empty user joining a non-full room raises occupancy by one; the room invariant is preserved |
| `Rooms.RoomState.WithoutUser` | src/app.go:51-62 | every slot equal to the user is cleared with its flag; other slots and flags are kept; a non-empty user in neither slot leaves the room unchanged; occupancy never grows; the room invariant is preserved |
| `Rooms.RoomState.WithConnected` | src/app.go:64-71 | a flag becomes set exactly when it was set or its slot holds the user; user names are unchanged; for a non-empty user the room invariant is preserved |
| `Rooms.Room.constructor` | src/app.go:124 | a newly allocated room record has both slots empty and both flags clear |
| `Rooms.Room.Load` | src/app.go:80-85 | a successful datastore read overwrites every field with the stored value |
| `Rooms.Room.AddUser` | src/app.go:43-49 | the record's new value is `WithUser` of its old value |
| `Rooms.Room.RemoveUser` | src/app.go:51-62 | the record's new value is `WithoutUser` of its old value; the result is true exactly when both slots are now empty |
| `Rooms.Room.ConnectUser` | src/app.go:64-71 | the record's new value is `WithConnected` of its old value |
| `Rooms.Room.Occupants` | src/app.go:73-78 | the counter equals `Occupancy`, lies in 0..2 and is 0 exactly when both slots are empty |
| `ClientIds.Occurrences` | src/app.go:290 | the count of a character is at most the text's length and is 0 exactly when the character does not occur |
| `ClientIds.Split` | src/app.go:290 | there is at least one part; no part contains the separator; joining the parts with the separator gives the input back; input that contains the separator gives at least two parts |
| `ClientIds.SplitCount` | src/app.go:290 | splitting gives exactly one more part than there are separators in the text |
| `ClientIds.SplitWithoutSeparator` | src/app.go:290 | splitting text without a separator gives that text as the only part |
| `ClientIds.SplitAfterPrefix` | src/app.go:290 | a separator-free prefix followed by the separator becomes the first part, and the rest is split on its own |
| `ClientIds.SplitJoinWith` | src/app.go:290 | splitting separator-free parts joined with the separator gives back exactly those parts, so with `Split`'s contract splitting and joining are inverse to each other |
| `ClientIds.JoinWithFirstTwo` | src/app.go:290-292 | in text joined from two or more parts, the first part is followed by the separator, and the second part follows it and ends at the end of the text or at a separator |
| `ClientIds.ParseClientId` | src/app.go:289-293 | needs an '@'; the user is the text before the first '@'; the room is the text after it up to the next '@' or the end; neither result contains '@' |
| `ClientIds.ParseMakeClientId` | src/app.go:285-293 | for a user without '@', decoding an encoded identity gives the user back and only the part of the room before its first '@' |
| `ClientIds.ClientIdRoundTrip` | src/app.go:285-293 | decoding an encoded identity gives back (room, user) exactly when neither contains '@' |
| `Signaling.Coordinator.GetRoom` | src/app.go:80-85 | the read succeeds exactly when it does not fail and the name is stored; it returns a fresh record holding the stored value, or the zero room on failure |
| `Signaling.Coordinator.PutRoom` | src/app.go:87-91 | on success the name maps to the record's value; on failure the store is unchanged |
| `Signaling.Coordinator.DelRoom` | src/app.go:93-97 | on success the name is removed from the store; on failure the store is unchanged |
| `Signaling.Coordinator.Send` | src/app.go:278-280 | an attempted send is appended to the log whether or not delivery succeeds |
| `Signaling.Coordinator.Join` | src/app.go:116-151 | after a failed read, a successful write stores a fresh room holding only the user in slot 1; at occupancy 1 a successful write stores the room with the user added; on a failed write the store is unchanged; occupancy 2 leaves the store alone and issues no token; occupancy 0 leaves the store alone and issues a token; a failed write issues no token; nothing is sent; under the store invariant a successful read never finds an empty room, so the occupancy-0 case cannot arise; for a non-empty user the store invariant is preserved |
| `Signaling.Coordinator.Connected` | src/app.go:191-214 | after a successful read and write, the stored room has the user marked connected, and exactly two "connected" sends follow, to the other occupant's identity and then to the user's; any failure changes nothing; for a non-empty user the store invariant is preserved |
| `Signaling.Coordinator.Disconnected` | src/app.go:216-251 | nothing is sent exactly when removal leaves the room empty, and then the room is deleted unless the delete fails, which leaves the store unchanged; otherwise a successful write stores the reduced room and exactly two "disconnected" sends follow, to the identity built from the other occupant after removal and then to the user's; for a non-empty user who was in the room the first send goes to "@" + room; the store invariant is preserved |
| `Signaling.Coordinator.OnMessage` | src/app.go:253-283 | the store is unchanged; an unreadable body sends nothing; otherwise exactly one send carries the payload unchanged to the identity of the user's other occupant, and after a failed read that identity is "@" + room |

## Left out

- HTTP plumbing is not modelled: the response writer, form values, writing "OK", and the redirect from "/" to a generated room name (src/app.go:101-116). `Join` takes the room name as an input.
- Template parsing and rendering, Accept-Language handling and the minified-build check (src/app.go:153-170, 179-187) are presentation and file-system work.
- `Random` and `rand.Seed` (src/app.go:295-304, 316-317) are random. `Join` takes the user name as an input. Its alphabet has no '@', so the round-trip lemma applies to generated names.
- `ReadData` and JSON decoding (src/app.go:258-269, 306-312) are a foreign library. The payload has the type parameter `J`, and `None` stands for a body that could not be read or decoded.
- The datastore and channel APIs (src/app.go:80-97, 173, 202, 278) are replaced by the store map and the send log. Each datastore failure is a boolean input.
- Join: the channel token is represented by the client identity it is created for. A failure of `channel.Create` only changes the HTTP response, so it is not modelled.
- GetRoom: a failed read yields the zero room. A datastore error that partially loads the record before failing is not modelled.
- A malformed client identity without '@' makes the Go handlers index out of range. `Connected`, `Disconnected` and `OnMessage` require an '@' instead.
- Races between concurrent handler invocations are not modelled. Each handler's read-modify-write of the store runs as one step.
- Logging calls and route registration in `init` (src/app.go:315-323) are left out.
