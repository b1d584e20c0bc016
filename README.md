# handy-eddie, modelled in Dafny

handy-eddie turns a phone into a remote touchpad and keyboard for a PC. A
browser client sends small JSON commands over a WebSocket. The server turns
them into host input: cursor moves, clicks, keystrokes, media keys and
power actions. The repository has two servers:

- a Windows C# server (`WebSocketServer` and its controllers);
- an older Rust server (`server/src/main.rs`) built on warp and rdev.

This project models the command path of both servers and proves properties
of the model:

- `Common`: shared definitions.
  - Exceptions are modelled as `Option`/`Result` results.
  - `Int32` is the 32-bit integer type, and `Wrap32` is C#'s unchecked wrap-around.
  - `ToLower` is ASCII-only lower-casing.
  - `IntToDecimal` renders integers in decimal, and a round-trip lemma covers it.
- `Json`: the parsed JSON document, as an abstract value. A frame is either
  `Malformed` or a `Parsed` root. The module also holds the `JsonElement`
  accessors the C# code uses, together with the exceptions they throw.
- `MouseControl`: `MouseController` is a class. It holds the cursor, whether
  `GetCursorPos` succeeds, and the ordered record of host calls
  (`SetCursorPos`, `mouse_event`). Each method is proved against a pure host
  transition (`MoveRelativeOn`, `ClickOn`).
- `KeyInputs`, `KeyboardControl`, `MediaControl`: the Win32 `INPUT` records.
  - Each keystroke is a two-element `array` that is filled in place and then
    passed to `SendInput`.
  - `sent` is the ordered record of everything sent so far.
  - Text is a sequence of UTF-16 code units (`bv16`, the width of a C# `char`).
- `SystemControl`: sleep, shutdown, restart and lock. Log lines and host
  facility calls go into one ordered `effects` record. The exception a
  facility may throw is an input.
- `StaticFiles`: how a non-WebSocket request is served.
  - `Path.GetExtension` picks the extension.
  - The content-type table maps it to a type.
  - `/` becomes `/index.html`, and leading slashes are trimmed.
  - A missing file is answered with 404. The asset tree is a map from file
    names to contents.
- `Server`: the `WebSocketServer` class.
  - `StartAsync`/`Stop` manage the running flag and the listener. The bind
    outcome and the local address are inputs.
  - Requests are split into WebSocket upgrades and plain requests.
  - A receive loop runs over a finite sequence of frames.
  - `ProcessMouseCommand` decodes a frame (`DecodeMouseCommand`), calls the
    mouse controller and logs.
- `RustServer`: the serde decoding of the tagged `MouseAction` enum and the
  `handle_ws` loop.
  - rdev's `simulate` and `eprintln!` are a `Host` class. The set of
    `simulate` calls that fail is an input.
  - The remote-address filter admits private IPv4 addresses only. It is
    proved equal to the CIDR blocks of RFC 1918, section 3.
  - `ServersAgree` relates the Rust decoder to the C# one.

Where the server code and the rest of the repository disagree, the model
follows the server code:

- The C# `ProcessMouseCommand` dispatches only `move` and `click`
  (handy-eddie/WebSocketServer.cs:233-262). The browser client also sends
  `mousedown`/`mouseup` frames (handy-eddie/client/src/Touchpad.tsx:193,217),
  `scroll` frames (VerticalScrollBar.tsx:9), `keyboard` frames
  (ArrowControls.tsx:7), `media` frames (VideoControls.tsx:7) and system
  commands (SystemCommands.tsx:69-91), and handy-eddie/Form1.cs:28,35 builds
  the server with a `(port, secureMode)` constructor and reads its
  `SecurityCode`. `WebSocketServer.cs` has none of these, so those frames
  are ignored. The Keyboard, Media and System controllers are modelled on
  their own, through their public methods.
- `Stop` logs "Server stopped" at most once per listener, and every time
  when the server was never started. A closed listener stays in its field:
  a second `Stop` after a start, and any `Stop` after a start that failed
  with an error other than access denied, throws `ObjectDisposedException`
  and logs nothing.
- A coordinate written `-0` is read as 0 by the C# server but makes the
  Rust server skip the frame, because serde_json reads `-0` as a float.
- `MoveRelative` adds the deltas with unchecked 32-bit arithmetic, so an
  overflowing sum wraps around.
- The Rust server moves the cursor to absolute coordinates
  (`EventType::MouseMove`). The C# server moves it relative to its current
  position.

## Model

| member | source | states |
|---|---|---|
| Common.ToLower | handy-eddie/MouseController.cs:48 | each character is lowered on its own and the length is kept; its idempotence is ToLowerIdempotent |
| Common.IntToDecimal | handy-eddie/WebSocketServer.cs:246 | the decimal rendering of an interpolated int; non-empty, and NatToDecimalRoundTrip and IntToDecimalInjective show it loses nothing |
| Common.Wrap32 | handy-eddie/MouseController.cs:39 | the result is the sum modulo 2^32 in the int range, and equals the sum when that fits |
| Common.ToLowerIdempotent | handy-eddie/MouseController.cs:48 | a lower-cased name has no upper-case letter and is unchanged by lower-casing again |
| Common.NatToDecimalRoundTrip | handy-eddie/WebSocketServer.cs:246 | reading back the decimal digits of an interpolated number gives the number |
| Common.IntToDecimalInjective | handy-eddie/WebSocketServer.cs:156 | two numbers with the same decimal rendering are equal |
| Json.TryGetProperty | handy-eddie/WebSocketServer.cs:230 | throws exactly on a non-object; otherwise reports presence of the name and its value |
| Json.GetString | handy-eddie/WebSocketServer.cs:254 | a string gives it, JSON null gives null, and every other kind throws |
| Json.GetInt32 | handy-eddie/WebSocketServer.cs:241-242 | succeeds exactly on integer literals within the 32-bit range, with that value, and on -0, as 0 |
| MouseControl.ButtonFlags | handy-eddie/MouseController.cs:48-67 | the down and up flags of each case of the switch, none otherwise; stated by ClickOfEachButton and FlagPairsDisjoint |
| MouseControl.ClickEvents | handy-eddie/MouseController.cs:43-68 | the mouse_event calls of Click; stated by ClickEventsShape and ClickCaseInsensitive |
| MouseControl.ClickEventsShape | handy-eddie/MouseController.cs:43-68 | a known button emits one DOWN flag then the matching UP flag; any other name emits nothing |
| MouseControl.ClickCaseInsensitive | handy-eddie/MouseController.cs:48 | names equal up to letter case click the same button |
| MouseControl.ClickOfEachButton | handy-eddie/MouseController.cs:23-67 | left is 0x2/0x4, right 0x8/0x10, middle 0x20/0x40, and "back" does nothing |
| MouseControl.FlagPairsDisjoint | handy-eddie/MouseController.cs:23-28 | flags of different buttons never coincide, and down differs from up |
| MouseControl.MoveRelativeExact | handy-eddie/MouseController.cs:35-41 | without overflow the cursor lands on current + delta with one cursor write |
| MouseControl.MoveRelativeUnreadable | handy-eddie/MouseController.cs:37 | when the cursor cannot be read nothing is written |
| MouseControl.MoveRelativeUndo | handy-eddie/MouseController.cs:39 | the negated move restores the cursor, wrap-around included |
| MouseControl.MouseController.GetCursorPos | handy-eddie/MouseController.cs:11 | reports success exactly when the host can read the cursor, and then its position |
| MouseControl.MouseController.SetCursorPos | handy-eddie/MouseController.cs:8 | the cursor becomes the point and one cursor write is recorded |
| MouseControl.MouseController.MouseEventCall | handy-eddie/MouseController.cs:14 | one button event with the given flags is recorded, nothing else changes |
| MouseControl.MouseController.Move | handy-eddie/MouseController.cs:30-33 | the cursor is set to exactly (x, y) |
| MouseControl.MouseController.MoveRelative | handy-eddie/MouseController.cs:35-41 | the new host state is the relative-move transition of the old one |
| MouseControl.MouseController.Click | handy-eddie/MouseController.cs:43-68 | the recorded events grow by exactly the click events of the button |
| KeyInputs.KeyPair | handy-eddie/KeyboardController.cs:80-118 | two keyboard records with the same key, the given flags down and the same plus KEYUP up |
| KeyboardControl.TextInputs | handy-eddie/KeyboardController.cs:64-73 | the records SendText sends; stated by TextInputsLength, TextInputsAt, TextInputsAppend and TypedTextOfText |
| KeyboardControl.TextInputsLength | handy-eddie/KeyboardController.cs:64-73 | n code units give 2n records |
| KeyboardControl.TextInputsAt | handy-eddie/KeyboardController.cs:121-160 | record 2i is the UNICODE down of code unit i and record 2i+1 its UNICODE up |
| KeyboardControl.TextNeverSendsEnter | handy-eddie/KeyboardController.cs:64-73 | text only ever sends wVk 0 with the UNICODE flag, never the Enter keystroke |
| KeyboardControl.TextInputsAppend | handy-eddie/KeyboardController.cs:69-72 | typing a + b sends the records of a, then those of b |
| KeyboardControl.TypedTextOfText | handy-eddie/KeyboardController.cs:64-73 | reading the Unicode key-downs of what SendText sent gives back the text |
| KeyboardControl.EnterKeystroke | handy-eddie/KeyboardController.cs:75-119 | Enter is VK_RETURN down with no flags then up with KEYUP, and types no text |
| KeyboardControl.KeyboardController.SendInput | handy-eddie/KeyboardController.cs:8 | the array's records are appended in order |
| KeyboardControl.KeyboardController.SendText | handy-eddie/KeyboardController.cs:64-73 | null or empty text sends nothing; otherwise the pairs of its code units in order |
| KeyboardControl.KeyboardController.SendEnter | handy-eddie/KeyboardController.cs:75-78 | exactly the VK_RETURN pair is sent |
| KeyboardControl.KeyboardController.SendKey | handy-eddie/KeyboardController.cs:80-119 | exactly the virtual-key pair is sent |
| KeyboardControl.KeyboardController.SendChar | handy-eddie/KeyboardController.cs:121-160 | exactly the Unicode pair of the code unit is sent |
| MediaControl.VirtualKey | handy-eddie/MediaController.cs:72-82 | the switch on the lower-cased command; stated by VirtualKeyTable, VirtualKeyKnown, VirtualKeyInjective and VirtualKeyCaseInsensitive |
| MediaControl.CommandInputs | handy-eddie/MediaController.cs:70-88 | what ExecuteMediaCommand sends; stated by CommandInputsShape |
| MediaControl.VirtualKeyTable | handy-eddie/MediaController.cs:62-82 | the i-th command name, in any case, selects the i-th media key |
| MediaControl.VirtualKeyKnown | handy-eddie/MediaController.cs:72-87 | the key is non-zero exactly when the lower-cased name is one of the seven commands |
| MediaControl.VirtualKeyInjective | handy-eddie/MediaController.cs:62-68 | two names share a key only when they name the same command |
| MediaControl.VirtualKeyCaseInsensitive | handy-eddie/MediaController.cs:72 | the key does not depend on letter case |
| MediaControl.CommandInputsShape | handy-eddie/MediaController.cs:84-129 | a known command sends EXTENDEDKEY down then EXTENDEDKEY plus KEYUP up; an unknown one sends nothing |
| MediaControl.MediaExamples | handy-eddie/MediaController.cs:70-88 | "PlayPause" is 0xB3, "VolumeUp" is 0xAF, and "rewind" sends nothing |
| MediaControl.MediaController.SendInput | handy-eddie/MediaController.cs:8 | the array's records are appended in order |
| MediaControl.MediaController.ExecuteMediaCommand | handy-eddie/MediaController.cs:70-88 | exactly the command's inputs are sent |
| MediaControl.MediaController.SendMediaKey | handy-eddie/MediaController.cs:90-129 | exactly the extended-key pair is sent |
| SystemControl.CommandEffects | handy-eddie/handy-eddie/SystemController.cs:16-43 | the log lines and facility calls of a non-null command; stated by UnknownCommand, LogBeforeAct, FacilityOfEachCommand, FaultIsContained and CaseInsensitive |
| SystemControl.UnknownCommand | handy-eddie/handy-eddie/SystemController.cs:34-36 | an unknown name logs one "Unknown system command" line and has no power or lock effect |
| SystemControl.LogBeforeAct | handy-eddie/handy-eddie/SystemController.cs:45-87 | the first record is a log line; at most one facility effect, last, right after a log line |
| SystemControl.FacilityOfEachCommand | handy-eddie/handy-eddie/SystemController.cs:45-87 | sleep suspends (false, true, true), shutdown and restart start shutdown /s or /r /t 0, lock locks |
| SystemControl.FaultIsContained | handy-eddie/handy-eddie/SystemController.cs:39-42 | a throwing facility records no effect and logs the error quoting the command as given |
| SystemControl.CaseInsensitive | handy-eddie/handy-eddie/SystemController.cs:20 | names equal up to case have the same effects |
| SystemControl.NullCommandContained | handy-eddie/handy-eddie/SystemController.cs:18-42 | a null command is caught: one error line quoting an empty command, no facility effect |
| SystemControl.SystemController.ExecuteCommand | handy-eddie/handy-eddie/SystemController.cs:16-43 | the record grows by exactly the command's effects, null included, and nothing is thrown |
| SystemControl.SystemController.Invoke | handy-eddie/handy-eddie/SystemController.cs:45-49 | log first, then the facility unless it throws; the fault is passed on |
| SystemControl.SystemController.Sleep | handy-eddie/handy-eddie/SystemController.cs:45-49 | logs "Putting system to sleep..." then requests suspend (false, true, true) |
| SystemControl.SystemController.Shutdown | handy-eddie/handy-eddie/SystemController.cs:51-65 | logs "Shutting down system..." then starts shutdown /s /t 0 |
| SystemControl.SystemController.Restart | handy-eddie/handy-eddie/SystemController.cs:67-81 | logs "Restarting system..." then starts shutdown /r /t 0 |
| SystemControl.SystemController.Lock | handy-eddie/handy-eddie/SystemController.cs:83-87 | logs "Locking workstation..." then locks the workstation |
| StaticFiles.GetExtension | handy-eddie/WebSocketServer.cs:302 | `Path.GetExtension`; stated by ExtensionShape, ExtensionOfName, ExtensionOfBareName and ExtensionOfLower |
| StaticFiles.GetContentType | handy-eddie/WebSocketServer.cs:300-314 | the extension switch; stated by ContentTypeDefault, ContentTypeCaseInsensitive and the two example lemmas |
| StaticFiles.TrimStartSlash | handy-eddie/WebSocketServer.cs:281 | `TrimStart('/')`, never longer than its input; stated by TrimStartSlashSpec |
| StaticFiles.ServeStaticFile | handy-eddie/WebSocketServer.cs:270-298 | the response to a plain request; stated by RootIsIndex and NotFoundIff |
| StaticFiles.ExtensionShape | handy-eddie/WebSocketServer.cs:302 | an extension is empty or a final '.' plus at least one character, with no dot or separator after it |
| StaticFiles.ExtensionOfName | handy-eddie/WebSocketServer.cs:302 | every name ending in '.' plus a dot- and separator-free suffix has that extension |
| StaticFiles.ExtensionOfBareName | handy-eddie/WebSocketServer.cs:302 | a last segment without a dot has no extension, whatever the directories are called |
| StaticFiles.ExtensionOfLower | handy-eddie/WebSocketServer.cs:302 | lower-casing a path lower-cases its extension and nothing else |
| StaticFiles.ContentTypeDefault | handy-eddie/WebSocketServer.cs:300-314 | octet-stream exactly when the lower-cased extension is not one of the seven listed |
| StaticFiles.ContentTypeCaseInsensitive | handy-eddie/WebSocketServer.cs:302 | the content type does not depend on letter case |
| StaticFiles.ContentTypeExamples | handy-eddie/WebSocketServer.cs:300-314 | /INDEX.HTML is text/html and /app.js is JavaScript |
| StaticFiles.ContentTypeUnlistedExamples | handy-eddie/WebSocketServer.cs:300-314 | .webp, and a dot that belongs to a directory name, give octet-stream |
| StaticFiles.TrimStartSlashSpec | handy-eddie/WebSocketServer.cs:281 | trimming removes exactly the leading run of slashes |
| StaticFiles.RootIsIndex | handy-eddie/WebSocketServer.cs:273-287 | / and a missing path are served as /index.html, as text/html when the file exists |
| StaticFiles.NotFoundIff | handy-eddie/WebSocketServer.cs:270-298 | 404 with the "404 Not Found" body exactly when the trimmed name is missing, else 200 with that file's bytes; content type always set |
| Server.DecodeMouseCommand | handy-eddie/WebSocketServer.cs:223-262 | the try block of ProcessMouseCommand as a value; stated by the Decode lemmas below and ServersAgree |
| Server.DecodeEncode | handy-eddie/WebSocketServer.cs:223-262 | every move and click the client writes decodes back to itself |
| Server.DecodeWithoutType | handy-eddie/WebSocketServer.cs:230-231 | an object without a type property does nothing |
| Server.DecodeMoveFrame | handy-eddie/WebSocketServer.cs:237-249 | a move with both int32 coordinates moves by them; a missing one does nothing; a non-int32 one is an error |
| Server.DecodeClickFrame | handy-eddie/WebSocketServer.cs:251-261 | a click clicks its button string, null means "left", no button does nothing, other kinds are errors |
| Server.DecodeOtherType | handy-eddie/WebSocketServer.cs:233-262 | a null or unknown type string is ignored: no call, no error |
| Server.DecodeErrors | handy-eddie/WebSocketServer.cs:225-233 | malformed JSON, a non-object root and a non-string type are each caught as an error |
| Server.FailureIsContained | handy-eddie/WebSocketServer.cs:264-267 | an error never reaches the controller and logs one error line; an ignored frame leaves no trace |
| Server.SessionMouse | handy-eddie/WebSocketServer.cs:196-220 | the host state after the frames of a session; stated by the Session lemmas below |
| Server.SessionLog | handy-eddie/WebSocketServer.cs:196-220 | the log lines of a session; stated by the Session lemmas below |
| Server.MalformedFrameSkipped | handy-eddie/WebSocketServer.cs:210-214 | a frame that fails to decode logs an error and the session goes on with the next frame |
| Server.SessionEndsAt | handy-eddie/WebSocketServer.cs:201-220 | nothing after a close frame or a receive failure is actuated |
| Server.SessionSplit | handy-eddie/WebSocketServer.cs:201-215 | frames are actuated and logged in receive order, so a session splits at any point before its end |
| Server.BinaryFramesIgnored | handy-eddie/WebSocketServer.cs:205-214 | binary frames have no effect and log nothing |
| Server.StartedLinesAdvertise | handy-eddie/WebSocketServer.cs:122-125 | the start lines carry the LAN URL twice and the localhost URL on the same port, and the URL determines the port |
| Server.AccessDeniedNamesPort | handy-eddie/WebSocketServer.cs:154-156 | the access-denied message ends with the urlacl command, and that command determines the port |
| Server.WebSocketServer.constructor | handy-eddie/WebSocketServer.cs:12-24 | stores the port, no listener, not running, debug logging on, a fresh mouse controller |
| Server.WebSocketServer.SetDebugLogging | handy-eddie/WebSocketServer.cs:26-30 | the flag takes the value |
| Server.WebSocketServer.StartAsync | handy-eddie/WebSocketServer.cs:104-159 | no-op when running; on bind success running and the four start lines; on error 5 the listener is dropped and the privilege error names the port; other codes propagate and leave the listener closed |
| Server.WebSocketServer.Stop | handy-eddie/WebSocketServer.cs:316-322 | not running and any listener closed; throws exactly when the listener was already closed, and otherwise logs "Server stopped" |
| Server.StopTwice | handy-eddie/WebSocketServer.cs:316-322 | a started server logs "Server stopped" once over two stops and the second throws; a never-started one logs it on each stop |
| Server.WebSocketServer.ProcessMouseCommand | handy-eddie/WebSocketServer.cs:223-268 | the mouse state and the log advance by exactly the decoded command's call and lines |
| Server.WebSocketServer.ReceiveLoop | handy-eddie/WebSocketServer.cs:196-220 | the mouse state and log are those of the session over the received frames |
| Server.WebSocketServer.HandleWebSocket | handy-eddie/WebSocketServer.cs:180-221 | a failed accept answers 500 and logs; an accepted one logs "connected" then runs the session |
| Server.WebSocketServer.HandleRequest | handy-eddie/WebSocketServer.cs:161-178 | upgrades become sessions; any other request is the static-file response |
| Server.StopAfterFailedStart | handy-eddie/WebSocketServer.cs:316-322 | after a start refused with a code other than 5, Stop throws and logs nothing |
| Server.StartAfterAccessDenied | handy-eddie/WebSocketServer.cs:148-153 | after an access-denied start, the same server starts when the bind then succeeds |
| RustServer.SerdeI32 | server/src/main.rs:39 | an `i32` field accepts exactly integer literals in the 32-bit range, with their value, so -0 is rejected |
| RustServer.ParseAction | server/src/main.rs:35-49 | `from_str::<MouseAction>`; stated by ParseEncode, ParseOnlyFromEncoding, ParseIgnoresExtraFields and ParseExamples |
| RustServer.ParseEncode | server/src/main.rs:35-42 | every action decodes from its own JSON encoding |
| RustServer.ParseOnlyFromEncoding | server/src/main.rs:49 | an accepted document is an object containing its action's encoding |
| RustServer.ParseIgnoresExtraFields | server/src/main.rs:35-42 | fields other than type, x, y and button make no difference |
| RustServer.ParseExamples | server/src/main.rs:35-42 | a capitalised tag, a null button, a fractional or out-of-range coordinate are rejected |
| RustServer.ButtonOf | server/src/main.rs:60-68 | the match on the button name; stated by ButtonOfName and ButtonOfExamples |
| RustServer.StepOf | server/src/main.rs:48-78 | the events or error line of one message; stated by MoveIsOneEvent, ClickPressesThenReleases, UnknownButtonContinues and SkippedMessage |
| RustServer.ButtonOfName | server/src/main.rs:60-68 | a name selects a button exactly when it is that button's lower-case name |
| RustServer.ButtonOfExamples | server/src/main.rs:60-68 | "Left", "" and "back" select no button |
| RustServer.MoveIsOneEvent | server/src/main.rs:51-57 | a move is one MouseMove to exactly (x, y) |
| RustServer.ClickPressesThenReleases | server/src/main.rs:59-74 | a known button is pressed then released, and a failed press or release is printed without stopping the other |
| RustServer.UnknownButtonContinues | server/src/main.rs:64-67 | an unknown button prints one line, emits nothing, and the next message is handled |
| RustServer.SkippedMessage | server/src/main.rs:48-49 | non-text messages and text that does not decode are skipped silently |
| RustServer.StreamErrorStops | server/src/main.rs:47 | nothing after a stream error is handled |
| RustServer.ReliableHostPrintsOnlyUnknownButtons | server/src/main.rs:47-79 | when simulate never fails, every printed line names an unknown button |
| RustServer.Host.SimulateEvent | server/src/main.rs:52 | the attempt is recorded whether or not it fails, and fails exactly when refused |
| RustServer.Host.PrintError | server/src/main.rs:56 | one stderr line is appended |
| RustServer.HandleMessage | server/src/main.rs:48-78 | the attempts and stderr grow by exactly the message's events and error lines |
| RustServer.HandleItem | server/src/main.rs:47-79 | one loop turn advances the attempts and stderr by exactly the current message's share of the rest of the stream |
| RustServer.HandleWs | server/src/main.rs:44-80 | the attempts and stderr are those of the session over the received items |
| RustServer.IsPrivate | server/src/main.rs:89 | `Ipv4Addr::is_private`; stated by IsPrivateIsRfc1918 |
| RustServer.Admit | server/src/main.rs:86-97 | the remote-address filter; stated by AdmitIff and AdmitExamples |
| RustServer.IsPrivateIsRfc1918 | server/src/main.rs:89 | the octet test equals membership of 10/8, 172.16/12 or 192.168/16 |
| RustServer.AdmitIff | server/src/main.rs:86-97 | a request is admitted exactly when it has an IPv4 remote address in a private block |
| RustServer.AdmitExamples | server/src/main.rs:86-97 | 192.168.1.20 and 172.31.255.255 pass; 172.32.0.1, loopback, 8.8.8.8 and no address are forbidden |
| RustServer.MinusZeroDisagrees | server/src/main.rs:35-49 | a move frame with x written -0 is skipped by the Rust server and moves by (0, y) in the C# one |
| RustServer.ServersAgree | server/src/main.rs:35-49 | whatever the Rust server accepts, the C# server decodes to the same command; C# also accepts a null button |

## Left out

- Win32 and OS calls (`SetCursorPos`, `GetCursorPos`, `mouse_event`, `SendInput`, `SetSuspendState`, `LockWorkStation`, `Process.Start`, rdev's `simulate`). Each becomes an append to an ordered record, and its failure is an input. `SendInput`'s count of injected events is not modelled.
- `SetCursorPos` clamping to the screen: outside the model. The cursor is whatever was last set.
- `string.ToLower()`: modelled as ASCII lower-casing. Culture mappings, such as the Kelvin sign lowering to 'k', are not modelled.
- MediaControl.MediaController.ExecuteMediaCommand: a null command is not modelled. It throws out of the method, so the parameter is a non-nullable string. A null `SendText` argument and a null system command are modelled.
- `LogMessage` events: lines are recorded whether or not a handler is attached. An exception thrown by a handler is not modelled.
- Exception messages: modelled as their cause (`Fault`, `CommunicationError`, rdev's error value left abstract), not as text.
- JSON text: a frame is an already-parsed document. The parser, UTF-8 decoding and the 1024-byte receive buffer are not modelled. That buffer truncates long or fragmented messages, so the model assumes each frame fits a single receive.
- Repeated property names: not modelled, because an object is a map. C# reads the last occurrence. serde rejects a repeated `type`, or a repeated field of the selected variant (`x` or `y` for a move, `button` for a click), and accepts any other repeated field.
- serde's sequence form of an internally tagged variant is not modelled. Numbers are plain integers, the literal `-0`, or `NonInteger`: no JSON integer is read as anything but its value, except `-0`.
- Common.IntToDecimal: the minus sign is '-'. C# interpolation formats with the current culture, whose `NegativeSign` may be another character (U+2212 in some cultures); that dependence is not modelled.
- `GetLocalIPAddress` (DNS) is a parameter of `StartAsync`. The QR code, `println!` banners, warp routing (`/qr`, `/ws`, static files under `../client/dist`) and `local_ip` are not part of this model.
- `EnsureFirewallRule`: it runs `netsh advfirewall` and logs. It swallows all of its own errors and never changes the outcome of `StartAsync`, so it is left out together with its log lines.
- The accept loop (`GetContextAsync`, "Incoming connection" and "Error" log lines, `Task.Run` per request) and all concurrency, including tokio/warp serving. One request and one session are modelled sequentially.
- Server.WebSocketServer.HandleRequest: the "Request error" catch for I/O exceptions while serving a file is not modelled. `Path.Combine` with a rooted path, and case-insensitive lookup on the Windows file system, are not modelled either: the asset tree is an exact-name map.
- Server.WebSocketServer.StartAsync: exceptions other than `HttpListenerException` are not modelled.
- Server.WebSocketServer.Stop: of `HttpListener`'s behaviour after `Close`, only the disposal check of `HttpListener.Stop` is modelled, as the `disposed` result. How the escaping `ObjectDisposedException` reaches the caller is not modelled.
- RustServer.IsPrivate: no IPv6 address counts as private. The standard library defines `is_private` only for `Ipv4Addr`, and the server binds to an IPv4 local address.
