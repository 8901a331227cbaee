# OPC UA chat server: verified model of the relay and the server method

The server exposes one object, `MyChatObjects`, holding two string variables.
Clients write a message into `MyChatVar_Input`. The server's serving loop
relays it into `MyChatVar_Display`. It pauses, checks Input, and when Input
holds anything other than the empty string `""` it copies that value into
Display, resets Input to `""` and logs the value. A variable's value is
modelled as `Value`: a string (`Str`) or the null string (`Null`) that a
client may write. The source's test is inequality with `""`, so a null Input
is relayed like any non-empty string.
The server also exposes one method node, `ServerMethod`, whose callback
doubles a 64-bit integer.

The project has three modules:

- `ServerMethod` (`server_method.dfy`) models the callback `func` as a pure
  function. It also models the method node's declared signature: one Int64
  argument and one Int64 result.
- `RelaySpec` (`relay_spec.dfy`) holds the value-level state (`RelayState`)
  and the specification functions: a client write, one poll step, one loop
  iteration and a run of the loop. It also holds a reference definition
  computed from the clients' writes alone (`Transfers`) and the lemmas that
  connect the two.
- `ChatObjects` (`chat_objects.dfy`) holds the class `ChatObjects`. Its
  fields `input`, `display`, `inputWritable` and `displayWritable` change in
  place. Its constructor builds the start state. `ClientWrite`, `Poll` and
  the bounded loop `Serve` are each proved equal to the specification
  function for the same step.

The clients' activity is a parameter of `Serve`. Each element of `rounds` is
the list of writes clients make during one pause, and it is followed by one
poll step. The poll step is atomic. The model keeps the source's two reads of
Input, but both see the same value.

## Model

| member | source | states |
|---|---|---|
| `ServerMethod.Func` | opcua-server.py:8-10 | The result is even and halving it gives back the argument, so it is exactly twice the argument, including for 0 and negative arguments. |
| `ServerMethod.SignatureIsOneInt64In` | opcua-server.py:32-38 | A one-element argument list conforms to the method node's declared argument types exactly when it is an Int64 value in the signed 64-bit range. |
| `ServerMethod.ResultFitsOutputIff` | opcua-server.py:36-37 | For every accepted argument, the callback's result conforms to the declared Int64 result type exactly when the argument lies in [-2^62, 2^62 - 1]. |
| `ChatObjects.ChatObjects.constructor` | opcua-server.py:27-31 | At startup Input holds `""`, Display holds `"Starting Chat"`, and Input is client-writable while Display is not. |
| `ChatObjects.ChatObjects.ClientWrite` | opcua-server.py:31 | A write to a writable variable stores the value and reports Good. A write to a read-only variable is refused and changes nothing. Display never changes while it is read-only, and the flags never change. |
| `ChatObjects.ChatObjects.Poll` | opcua-server.py:47-52 | Afterwards Input is `""`. An Input other than `""`, null included, moves into Display and is returned for the log line. An Input equal to `""` leaves everything unchanged and nothing is logged. |
| `ChatObjects.ChatObjects.Serve` | opcua-server.py:41-52 | A bounded run of the serving loop (client writes, then one poll, per iteration) ends in the state given by `Served` and returns exactly the values `ServeLog` says were logged. |
| `RelaySpec.PollIdempotent` | opcua-server.py:48-51 | After any poll Input is `""`. A second poll gives the same state and logs nothing. |
| `RelaySpec.PollLogsIffChanges` | opcua-server.py:48-52 | A poll emits a log line if and only if it changes the state. |
| `RelaySpec.WritesKeepFlags` | opcua-server.py:31 | No sequence of client writes changes either writable flag. |
| `RelaySpec.ClientWritesOnlyInput` | opcua-server.py:28-31 | Under the server's access levels, any sequence of client writes leaves Display and the flags unchanged. Input ends with the last value written to it, or keeps its value if none was written. |
| `RelaySpec.LastWriteWins` | opcua-server.py:48-51 | After writes s1..sk to Input and one poll, Input is `""`. If sk is not `""` (a null included), Display becomes sk and sk is logged. If sk is `""`, Display keeps its previous value and nothing is logged. |
| `RelaySpec.ServedAgreesWithTransfers` | opcua-server.py:42-52 | From any state with empty Input and the server's access levels, any run of the loop leaves Input empty and Display equal to the last final write of a round that is not `""` (or unchanged if there was none). The log is exactly those values, in order. |
| `RelaySpec.ServedFromStartup` | opcua-server.py:27-52 | From the startup state, Display shows "Starting Chat" until the first transfer and afterwards the last transferred value. Input is `""` after every run, and the log is exactly the transferred values. |
| `RelaySpec.EmptyWritesKeepDisplay` | opcua-server.py:48 | If every round's last write to Input is `""` (or Input is not written), the loop never changes the state and logs nothing, so Display keeps its value. |

## Left out

- Server initialisation, endpoint URL, server name and namespace registration (opcua-server.py:16-23) are calls into the asyncua library. Its index assignment and duplicate-node failures are not visible, so they are not modelled.
- The `@uamethod` decorator's argument coercion and rejection of ill-typed arguments belong to the library. `Conforms` states which arguments and results match the declared signature. No call path that rejects an argument is modelled.
- Func: the `parent` argument is ignored by the source, so the model drops it. The model does not say what the library does when the doubled value is outside the Int64 range, because the Python product is unbounded and encoding it is the library's job. `ResultFitsOutputIff` states exactly when that happens.
- `ClientWrite`: the refusal of a write to a read-only variable is done by the library. The model returns `BadNotWritable` and changes nothing. The library's exact status code is not modelled.
- The `async with server` scope, `asyncio.sleep(0.1)` and the unbounded `while True` (opcua-server.py:41-45) are not modelled as such. `Serve` runs a finite number of iterations given as a parameter. Timing and cancellation are not modelled.
- The race between a client write and the two reads and the reset at opcua-server.py:48-51 is not modelled. The poll step is atomic, so a write that would land between the read and the reset cannot happen in the model.
- Values of a type other than string or null written into Input are not modelled. The source's `!= ''` test would relay them too. Whether the library accepts such a write into a String variable is not visible.
- Logging and printing (opcua-server.py:39-40, 52, 57-59) are output. The startup messages are not modelled. For the per-transfer line, only the transferred value is recorded (the `Poll` result and the `Serve` transcript). The `"## "` prefix and the text form of a value (a null prints as `None`) are not modelled.
- Wire encoding, sessions and the secure channel are entirely inside the library and are not modelled.
