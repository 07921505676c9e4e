# dunst: the D-Bus side of the notification daemon

This project models the request handling of dunst's `dunst_dbus.c`. dunst is
a notification daemon that serves the Desktop Notifications protocol on the
session bus. The model covers:

- one poll step (`dbus_poll`): it lets the transport work within a timeout,
  pops at most one message and routes it by method name to one of four
  handlers;
- the handlers `notify`, `getCapabilities`, `getServerInformation` and
  `closeNotification`;
- the soft typed argument read `_extract_basic`;
- the hint reader `_extract_hint` and the nested hint loop of `notify`,
  which take the `urgency`, `fgcolor` and `bgcolor` hints;
- the rounding of the expiry and the notification record handed to the
  queue.

The model is split into four modules:

- `DBusTypes` (`dbus_types.dfy`): the typed arguments of a message and the
  message iterator. A `DBusMessageIter` lives on the caller's stack and libdbus
  updates it through a pointer. Here it is the value `Cursor`, and the
  handlers reassign it.
- `Hints` (`hints.dfy`): the hint walk.
  - `ScanEntry` and `ScanHints` say, element by element, what the walk
    computes.
  - `ExtractHint`, `WalkEntry` and `WalkHints` are the daemon's loops: the
    do/while of `_extract_hint` and the two nested while loops.
    `ExtractHint` is proved to compute the key-matching step of `ScanEntry`
    (a store of the next element's first value, `Store(target,
    FirstChild(..))`); `WalkEntry` is proved to compute `ScanEntry` and
    `WalkHints` to compute `ScanHints`.
  - The lemmas state:
    - the last entry for a key wins when its value has the target's own
      width (an int32 or uint32 for urgency, a string for a colour); a byte
      urgency replaces only the low byte (see `ByteUrgencyLastWins`);
    - an absent hint leaves its default;
    - unknown keys change nothing;
    - entries with different keys commute.
- `NotifyDecoder` (`notify_decoder.dfy`): the positional decoding of a
  Notify request, the expiry rounding and the record.
  - `DecodeNotify`, the cursor-stepping code, is proved equal to the
    positional reading `Decode`.
  - `BuildRecord`, the code with the colour loop over an array, is proved
    equal to `Record`.
- `Server` (`server.dfy`): the class `Daemon`. Its state is what the handlers
  change in place:
  - the reply serial `dbus_serial`;
  - a trace of the calls the core makes to the outside world (transport,
    notification queue, window, error output);
  - whether the process is still running.

Several things the daemon gets from its environment are method parameters,
not modelled behaviour:

- the outcome of each libdbus call that can fail for lack of memory (`Lib`);
- the message the transport hands over;
- the id the notification queue assigns;
- the value that `closeNotification`'s uninitialised `id` happens to hold.

What each handler does is stated as a trace function (`CapabilitiesTrace`,
`NotifyTrace`, …) together with `SerialAfter` and `StatusAfter`. Lemmas then
project a trace onto:

- the replies it delivers (`Replies`);
- the calls it makes to the outside services (`ServiceCalls`).

Behaviours of `dunst_dbus.c` worth knowing, all of which the model keeps:

- `notify` never flushes the connection.
- `closeNotification` sends its reply without incrementing the serial, and
  never releases that reply.
- `getServerInformation` increments the serial only after its four strings
  have been appended.
- `notify` increments the serial on entry, whether or not a reply goes out.
  So the serial does not count sent replies.
- A missing application name, summary, body or icon is not stored as absent.
  `notify` hands the NULL pointer to `strdup`, and the model records this as
  the process crashing (`Crashed`).
- A failed send of the server information reply ends the process. A failed
  send of the capabilities reply is only reported. A failed or empty Notify
  reply is not checked at all.

## Model

| member | source | states |
|---|---|---|
| DBusTypes.ExtractBasic | dunst_dbus.c:14-20 | Returns the current argument exactly when its type is the expected one, and nothing otherwise; the iterator is never moved. |
| DBusTypes.Next | dunst_dbus.c:221-237 | Advancing the iterator moves it one argument forward but never past the end. The flag it returns is true exactly when the iterator then stands on an argument. |
| DBusTypes.Recurse | dunst_dbus.c:236 | A recursion gives a fresh iterator over the current container's elements, starting at the first. |
| DBusTypes.ArgType | dunst_dbus.c:241-245 | The type the iterator stands on is `DBUS_TYPE_INVALID` exactly when it is past the last argument, and otherwise the type of the current argument. |
| DBusTypes.AsInt32 | dunst_dbus.c:148 | The 32 bits of a uint32 read into a C int: the same value modulo 2^32, and negative exactly from 2^31 upward. |
| DBusTypes.AsUint32 | dunst_dbus.c:283 | The C `int id` appended as a uint32: the same value modulo 2^32, unchanged when it is already in 0..2^32-1, and read back as a C int it gives the original id for every int32. |
| Hints.HintTarget | dunst_dbus.c:251-253 | A key names a target exactly when it equals that target's name ("urgency", "fgcolor", "bgcolor"). |
| Hints.StoreInt | dunst_dbus.c:32-34 | get_basic into the int urgency: an int32 replaces it, a uint32 replaces it bit for bit, and a byte replaces only its low byte while keeping the high bytes. When the entry holds no value, or a value that is not an int32, uint32 or byte, the urgency is unchanged. |
| Hints.StoreStr | dunst_dbus.c:32-34 | get_basic into a colour pointer: a string is stored, and anything else leaves the pointer as it was. |
| Hints.Store | dunst_dbus.c:30-34 | Storing a hint value writes only its own target; the other two are unchanged. |
| Hints.StoreIdempotent | dunst_dbus.c:31-34 | Storing the same value twice equals storing it once. This is why re-reading the value in the do/while loop is harmless. |
| Hints.StoresCommute | dunst_dbus.c:251-253 | Stores into different targets can be swapped. |
| Hints.FirstChild | dunst_dbus.c:29-32 | The value of the element after a key is what the cursor sees after one step past the key and a recursion into that element; past the last element there is none. |
| Hints.ExtractHint | dunst_dbus.c:22-36 | When the key differs from the name, neither the entry iterator nor the target changes. When it matches, the target holds the first value inside the next element and the entry iterator ends at the entry's end. |
| Hints.WalkEntry | dunst_dbus.c:243-255 | The inner loop over one entry computes `ScanEntry` of the entry from its first element. |
| Hints.WalkHints | dunst_dbus.c:241-257 | The nested loops compute `ScanHints` of the whole hint array from the seeded values. |
| Hints.ScanHintsAppend | dunst_dbus.c:241-257 | Walking two consecutive pieces of a hint array equals walking the whole array. |
| Hints.ScanEntryKeepsUnnamed | dunst_dbus.c:243-255 | Within one entry, a target whose name no element carries is unchanged. |
| Hints.AbsentHintUntouched | dunst_dbus.c:241-257 | If no element of any entry names a target, that target keeps its seeded value, whatever else the array holds. |
| Hints.UnknownKeysIgnored | dunst_dbus.c:241-257 | A hint array whose keys are all unknown, or not strings, leaves all three slots exactly as seeded. |
| Hints.ScanHintEntry | dunst_dbus.c:243-255 | For a well-formed (string, variant) entry, the walk stores the variant's value into the target its key names, or does nothing when the key names none. |
| Hints.HintsLastWins | dunst_dbus.c:241-257 | In a well-formed hint table, when the last entry carrying a target's key holds a value of the target's own width (an int32 or uint32 for urgency, a string for a colour), the target holds that value; when no entry carries the key, it keeps its seeded value. A byte urgency only replaces the low byte: see `ByteUrgencyLastWins`. |
| Hints.ByteUrgencyLastWins | dunst_dbus.c:241-257 | When all urgency entries are bytes and the seed fits a byte, the urgency is the last byte sent, or the seeded value when none is sent. It stays within 0..255. |
| Hints.HintsCommute | dunst_dbus.c:241-257 | Two adjacent entries with different keys can be swapped without changing the result. |
| NotifyDecoder.DecodeNotify | dunst_dbus.c:205-257 | The cursor-stepping argument reading of `notify` gives exactly the positional reading. The fields are: application name at 0, replaced id at 1, icon at 2, summary at 3, body at 4, hints at 6 and expiry at 7. A missing or mistyped argument keeps its seeded default. |
| NotifyDecoder.HintArray | dunst_dbus.c:236 | The hints are the elements of the array at position 6; for a basic value there, or a request with fewer than seven arguments, there are none. |
| NotifyDecoder.ExtractString | dunst_dbus.c:219-231 | A string target changes only when the current argument is a string. |
| NotifyDecoder.ExtractUint32 | dunst_dbus.c:222 | The replaced id changes only when the current argument is a uint32. |
| NotifyDecoder.ExtractInt32 | dunst_dbus.c:239 | The expiry changes only when the current argument is an int32. |
| NotifyDecoder.RoundTimeout | dunst_dbus.c:259-265 | A positive expiry in milliseconds is rounded half up to seconds, with a floor of 1. Zero and negative values pass through unchanged. |
| NotifyDecoder.RoundTimeoutBoundaries | dunst_dbus.c:259-265 | Boundary values: 1, 499, 500 and 1499 give 1; 1500 gives 2; 2500 gives 3; 0 and -1 are kept. |
| NotifyDecoder.RoundTimeoutFits | dunst_dbus.c:259-270 | The rounded value of any int32 expiry fits the C int `timeout` of the record. |
| NotifyDecoder.RoundTimeoutAsWritten | dunst_dbus.c:259-265 | The rounding as the 32-bit code computes it, with the wrapping sum and truncating division. It keeps non-positive values and gives at least 1 for positive ones. |
| NotifyDecoder.RoundTimeoutAgrees | dunst_dbus.c:261 | For every expiry up to 2^31-1-500, the 32-bit code gives the intended rounding. |
| NotifyDecoder.RoundTimeoutOverflow | dunst_dbus.c:261 | For every expiry above 2147483147 ms the sum wraps negative and the code yields 1 second, where the intended rounding gives at least 2147483 seconds (2147484 at expiry 2147483647). |
| NotifyDecoder.Record | dunst_dbus.c:266-276 | The record copies the four strings and takes the expiry rounded without overflow (`RoundTimeout`) and the urgency from the hints. All colour slots are empty except FG and BG, which hold the colour hints. A missing string is a strdup of NULL. |
| NotifyDecoder.BuildRecord | dunst_dbus.c:259-276 | The rounding of the expiry (on unbounded integers), the string copies, the loop clearing every colour slot, and the FG/BG stores together build exactly `Record`. |
| NotifyDecoder.DecodeEmpty | dunst_dbus.c:205-214 | A request without arguments decodes to the seeded defaults: no strings, id 0, urgency 1, no colours, expiry -1. |
| NotifyDecoder.DecodeIgnoresActions | dunst_dbus.c:233-234 | The actions argument at position 5 is stepped over and never read. |
| NotifyDecoder.DecodeIgnoresExtra | dunst_dbus.c:237-239 | Arguments after the expiry are never read. |
| NotifyDecoder.DecodeMistypedField | dunst_dbus.c:217-239 | An argument of an unread type at a read position resets only its own field to the default and disturbs no other field. Past position 7 it changes nothing. |
| NotifyDecoder.DecodeExample | dunst_dbus.c:205-276 | The example request (urgency hint 2, expiry 2500) builds a record with urgency 2, timeout 3, replaced id 0 and no colours. |
| Server.Route | dunst_dbus.c:84-103 | A message is routed to a method exactly when it is a method call carrying that method's name whose interface is the notifications interface or is left out. |
| Server.IsMethodCall | dunst_dbus.c:84-103 | A method call without an interface passes exactly when its member matches; a call naming another interface, or a message that is not a method call, never passes. |
| Server.RouteByInterface | dunst_dbus.c:84-103 | A method call without an interface is routed by its member name alone; one naming another interface is not routed. |
| Server.DispatchExclusive | dunst_dbus.c:84-103 | No message passes two of the four tests, so at most one handler runs. |
| Server.Succ32 | dunst_dbus.c:114 | Incrementing the dbus_uint32_t serial adds one, wrapping from 2^32-1 to 0. |
| Server.Daemon.constructor | dunst_dbus.c:12 | The serial starts at 0, nothing has been called yet, and the process runs. |
| Server.Daemon.HandleGetCapabilities | dunst_dbus.c:107-134 | The serial is incremented first. Without a reply nothing else happens, and a failed append is reported. Otherwise ["body"] is sent, then either flushed and released or reported on failure. |
| Server.Daemon.HandleCloseNotification | dunst_dbus.c:136-156 | Without a reply nothing happens. Otherwise the queue is asked to close the decoded id, or the uninitialised value when the argument is not a uint32. Then an empty reply is sent and flushed, and the serial is left alone. |
| Server.Daemon.HandleGetServerInformation | dunst_dbus.c:158-193 | A failed append is reported without incrementing the serial. Otherwise the serial is incremented and the four identity strings are sent. A failed send exits with EXIT_FAILURE. |
| Server.Daemon.HandleNotify | dunst_dbus.c:195-287 | The serial is incremented. The decoded record goes to the queue once, with the replaced id, then the window is mapped and the assigned id is sent as a uint32 (or an empty reply when the append fails). A missing string crashes before any of this. |
| Server.Daemon.Dispatch | dunst_dbus.c:84-103 | The four method tests run in order. The routed handler's effects happen exactly once and no other handler's do. |
| Server.Daemon.Poll | dunst_dbus.c:72-105 | One poll step does the transport work and the pop. With no message nothing else changes. Otherwise the routed handler runs (or none) and the message is released unless the process died. |
| Server.CapabilitiesEffects | dunst_dbus.c:107-134 | GetCapabilities delivers ["body"] exactly when allocation, appending and sending all succeed, and never reaches the queue or the window. |
| Server.ServerInformationEffects | dunst_dbus.c:158-193 | GetServerInformation delivers the four identity strings exactly when appending and sending succeed, whatever the request holds. It reaches no service. |
| Server.CloseEffects | dunst_dbus.c:136-156 | Once its reply exists, CloseNotification makes exactly one queue call, with the decoded id. It delivers an empty reply exactly when the send succeeds. |
| Server.NotifyEffects | dunst_dbus.c:266-286 | Notify makes exactly two service calls, the queue with the built record and the replaced id and then the window, and delivers the assigned id when the send succeeds. It makes neither when a string is missing. |
| Server.NotifyReply | dunst_dbus.c:280-283 | When appending succeeds the reply is one uint32 whose bits read as a C int give back the assigned id; otherwise the reply is empty. |
| Server.HandlerEffects | dunst_dbus.c:107-287 | Every handler delivers at most one reply, and it is that method's own reply. Only Notify and CloseNotification reach the outside services. |
| Server.PollAtMostOneReply | dunst_dbus.c:72-105 | A poll step delivers at most one reply. An empty queue, or a message that is none of the four method calls, gets no reply and reaches no service. A routed message delivers exactly its handler's replies and reaches exactly its handler's services. |
| Server.CloseNotificationExample | dunst_dbus.c:146-154 | A CloseNotification for id 7 asks the queue to close 7 and delivers an empty reply. |
| Server.CloseIdDecoded | dunst_dbus.c:140-150 | A uint32 id below 2^31 reaches the queue unchanged. A missing or mistyped argument passes the uninitialised value instead. |
| Server.CloseId | dunst_dbus.c:140-148 | The id passed to the queue keeps the 32 bits of a uint32 first argument; when the first argument is missing or of another type, it is whatever the uninitialised `int id` held. |
| Server.NotifyExample | dunst_dbus.c:195-287 | The example request reaches the queue once, as a record with urgency 2 and timeout 3 and replaced id 0. The window is then mapped and the reply carries the id the queue returned. |

## Left out

- `initdbus` (the connection set-up and name request) is not part of this model.
- The transport is not modelled. Reading, writing, flushing, sending and releasing appear only as events in the trace.
- `dbus_connection_send` writes the serial it assigns back through its third argument, into `dbus_serial`. The model keeps only the daemon's own increments, because the value libdbus assigns is outside this code.
- The notification queue (`init_notification`, `close_notification`) and the window (`map_win`) are outside this code. They appear as events, and the id the queue assigns is a parameter.
- The message, the failure outcomes of libdbus's allocations and appends, and the contents of `closeNotification`'s uninitialised `id` are parameters, because they come from the environment.
- Hints.StoreInt: a string or another basic value read into the int urgency is not modelled and leaves it unchanged. On a real host the raw bytes land in the int. The byte case assumes a little-endian host.
- Hints.StoreStr: a value other than a string read into a colour pointer is not modelled and leaves it unchanged. On a real host, raw bytes are written over the pointer.
- DBusTypes.Recurse: recursing into a value that is not a container, or past the last argument, is refused by libdbus (a failed check that aborts the process or leaves the sub-iterator unset, depending on the build). The model gives an empty walk in both cases. So a Notify with fewer than seven arguments walks no hints and, when its four strings are present, is delivered normally (`HintArray` is empty), where dunst may end or read an unset iterator.
- Server.Daemon.HandleNotify: the reply of `notify` is used without checking its allocation. The model assumes the allocation succeeds.
- Server.Daemon.HandleGetServerInformation: the reply of `getServerInformation` is used without checking its allocation. The model assumes the allocation succeeds.
- NotifyDecoder.BuildRecord: the record is built with the corrected rounding `RoundTimeout`, not the 32-bit arithmetic of the code (see ## Findings). For an expiry above 2147483147 ms the model's record holds the intended number of seconds, where the code, if the sum wraps, stores 1.
- NotifyDecoder.Record: uses the corrected rounding for the same reason as `BuildRecord`.
- A NULL returned by the `malloc` of the record in `notify` (`dunst_dbus.c:212`), which the code dereferences at `dunst_dbus.c:266`, is not modelled: the allocation is taken to succeed. Neither is the leak of an unsent reply.
- The NotificationClosed signal is never emitted by this code, so it has no counterpart in the model.
- `ColBG`, `ColFG` and `ColLast` take the values of `dunst.h` (0, 1 and 2). `dunst.h` is not part of this model.

## Findings

| source | as written | input that shows it | evidently intended | confidence | as-written member | corrected member |
|---|---|---|---|---|---|---|
| dunst_dbus.c:261 | `expires = (expires + 500) / 1000` on a 32-bit int: the sum overflows for expiries above 2147483147 ms, and on two's complement hardware it wraps negative, so the clamp yields 1 second | any expires above 2147483147, e.g. 2147483647 | round half up to 2147484 seconds | not executed | NotifyDecoder.RoundTimeoutOverflow | NotifyDecoder.RoundTimeout |
