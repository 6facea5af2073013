# Telegram camera bot, modelled in Dafny

The repository holds two generations of a Telegram bot that answers chat
commands with pictures from a webcam.

- The **new generation** (`org.miri.camcapture`) polls `getUpdates` with the
  offset it will ask for next, `lastOffset`, and keeps that offset in memory.
  It strips the JSON quotes from each command, lower-cases it and switches on
  "image", "video", "detectOn" and "detectOff". It can watch for motion and
  send a frame to the chat that switched the watch on. Its `Main` loop polls
  every second and waits ten seconds after a failure. It exits only when the
  bot token cannot be read.
- The **legacy generation** (`org.cameracapture.telegram.miri`) keeps
  `lastUpdateId`, the id of the last update it handled, and writes it to the
  file `lastUpdateId`. It asks for that id plus one, or for no offset while
  the id is 0. It answers any text containing "/capture" with a photo and
  anything else with an explanation of the bot.

The model treats HTTP, JSON, the webcam, the file system and the clock as
oracles: each call's outcome is a parameter. Every call the bot makes to the
outside world is recorded, in order, in a trace (`World.Outbox`, a sequence
of `World.Effect`). The trace includes a `Dispatch` mark for each call of the
command handler and a `Logged` entry for each exception written to the log.

Each behaviour is modelled twice:

- a pure function says what an operation does to the trace and the state
  (`Commands.ExecuteRun`, `Bot.ProcessBatch`, `Bot.PollStep`,
  `LegacyBatch.ProcessBatch`, `MainLoop.Rounds`, ...);
- a class with the source's fields (`Bot.Telegram`, `Bot.MotionDetector`,
  `LegacyBot.TelegramCalls`, `LegacyBot.CameraCaptureBot`,
  `MainLoop.Poller`) does the same thing step by step, loops included. Each
  of its methods is proved to agree with the function.

The properties are then lemmas about the functions.

Modules:

| file | module | what it holds |
|---|---|---|
| java_lang.dfy | JavaLang | Java `int` wrap-around, `toLowerCase` and `contains` on ASCII, `n + ""`, `Integer.valueOf`, `readLine` |
| world.dfy | World | exceptions, calls to the outside, update records, JSON string text, oracles (`Env`, `Disk`, `LineRead`, `Fetch`) |
| camera_common.dfy | CameraCommon | the webcam, the resolution loop both cameras share, capture paths |
| default_camera.dfy | Camera | `DefaultCamera` (new generation) |
| commands.dfy | Commands | `Telegram.execute` and its sends; one motion event |
| bot.dfy | Bot | `Telegram` and `MotionDetector` (new generation) |
| main_loop.dfy | MainLoop | `Main.getUpdates` |
| legacy_camera.dfy | LegacyCamera | `CameraCapture` (legacy) |
| legacy_commands.dfy | LegacyCommands | `CameraCaptureBot.handleCommand`, `explainFunction`, `getBotToken` |
| legacy_batch.dfy | LegacyBatch | `TelegramCalls`: the offset rule, the offset file, `executeResponse`, `getUpdates` |
| legacy_bot.dfy | LegacyBot | the classes `CameraCaptureBot` and `TelegramCalls` (legacy) |
| generations.dfy | Generations | the two offset conventions compared |

Quirks of the code that the model states and proves:

- **The motion commands are unreachable.** `execute` lower-cases the command before the
  switch, and "detectOn" and "detectOff" contain an upper-case letter.
  `setMotionDetection` is therefore never reached from a chat
  (`Commands.MotionBranchesUnreachable`).
- **"/image" is not a command.** A command typed the way Telegram clients
  send commands, such as "/image", keeps its slash after normalisation and
  is not recognised (`Commands.SlashCommandNotRecognized`,
  `Bot.SlashCommandsNotRecognized`).
- **A malformed update stops the batch without moving the offset.** In the new
  generation, an update without a message, a text or a chat id throws
  outside the per-update `try`. `lastOffset` does not move, so the same batch
  is fetched again (`Bot.MalformedUpdateHaltsBatch`).
- **A mid-batch failure leaves a meaningless counter.** In the legacy
  generation, an `IOException` from a send in the middle of a batch leaves
  `lastUpdateId` at its starting value plus the number of updates handled,
  and the file is not written (`LegacyBatch.MidBatchIoFailure`).
- **The two generations use different offset conventions.** They ask for the
  same next offset after the same batch, except when the legacy id is 0: the
  legacy client then sends no offset at all
  (`Generations.SameBatchSameNextRequest`).
- **Chat ids are narrowed to 32 bits.** Both generations read the chat id
  and the update id with `getInt`, which keeps only the low 32 bits of the
  JSON number. Telegram group ids can be longer. Two chats whose ids differ
  by a multiple of 2^32 then get each other's replies and share a capture
  directory (`World.NarrowedChatsMerge`).
- **A legacy restart fails before the first batch.** The legacy client creates
  the offset file empty on its first start. A restart before the first batch
  has been written reads a null line and fails with NumberFormatException
  (`LegacyBatch.EmptyFileRestartFails`).

## Model

| member | source | states |
|---|---|---|
| JavaLang.WrapPeriodic | src/main/java/org/cameracapture/telegram/miri/TelegramCalls.java:143 | narrowing to an int forgets multiples of 2^32 |
| JavaLang.WrapStep | src/main/java/org/miri/camcapture/impl/Telegram.java:228 | `update_id + 1` on a Java int is the sum wrapped to 32 bits two's complement (the largest int goes to the smallest) |
| JavaLang.IncTimesWrap | src/main/java/org/cameracapture/telegram/miri/TelegramCalls.java:144 | a counter bumped k times with `++` holds the start plus k, wrapped as a 32-bit int |
| JavaLang.LowerFacts | src/main/java/org/miri/camcapture/impl/Telegram.java:72 | lower-casing keeps the length, maps each character on its own and leaves no upper-case letter |
| JavaLang.DecimalRoundTrip | src/main/java/org/cameracapture/telegram/miri/TelegramCalls.java:79 | `Integer.valueOf` reads back exactly the int that `id + ""` wrote |
| JavaLang.DecimalIsOneLine | src/main/java/org/cameracapture/telegram/miri/TelegramCalls.java:78 | `readLine` on a file holding an int's text returns that whole text |
| World.Extract | src/main/java/org/miri/camcapture/impl/Telegram.java:219-221 | an update yields its chat id and text exactly when message, text and chat id are all present (otherwise the lookup throws); the chat id is the JSON number narrowed to an int as `getInt` narrows it |
| World.NarrowedChatsMerge | src/main/java/org/miri/camcapture/impl/Telegram.java:221-223 | two chats whose JSON ids differ by a multiple of 2^32 reach the handler as the same chat id, so they share replies and capture directory |
| World.Sends | src/main/java/org/miri/camcapture/impl/Telegram.java:189-194 | sends go out in order; the one that throws IOException is the last, and nothing after it is sent |
| World.EscapePlain | src/main/java/org/miri/camcapture/impl/Telegram.java:220 | the JSON string text of a message with no quote, backslash or control character is the message itself |
| World.EscapeSpecial | src/main/java/org/miri/camcapture/impl/Telegram.java:220 | a message with a quote, a backslash or a control character is written with a backslash |
| CameraCommon.ChooseResolution | src/main/java/org/miri/camcapture/impl/DefaultCamera.java:60-67 | the chosen width is the maximum width; the first entry among equally wide ones wins and the height comes from it; 0x0 when no width is positive |
| CameraCommon.SetOptimalResolution | src/main/java/org/miri/camcapture/impl/DefaultCamera.java:55-70 | a null webcam is left alone; otherwise the view size becomes the first widest resolution, or 0x0 |
| CameraCommon.CapturePathNamesChat | src/main/java/org/miri/camcapture/impl/DefaultCamera.java:151-155 | `captures/<chat>/<timestamp><type>` reads back as the chat's directory, so chats with different int ids never share one |
| CameraCommon.DecimalHasNoSlash | src/main/java/org/miri/camcapture/impl/Telegram.java:223 | a chat id rendered from an int contains no '/' |
| Camera.DefaultCamera.constructor | src/main/java/org/miri/camcapture/impl/DefaultCamera.java:41-50 | a failed mkdir leaves the webcam null and the device untouched; otherwise the default webcam is kept and its view size is the first widest resolution, or 0x0 when no width is positive |
| Camera.SaveGivenImage | src/main/java/org/miri/camcapture/impl/DefaultCamera.java:88-98 | a frame is saved as a PNG path exactly when mkdir and the write succeed; otherwise FileAccessException |
| Camera.SaveImage | src/main/java/org/miri/camcapture/impl/DefaultCamera.java:76-82 | no webcam is a CameraException "Unable to find camera", the only CameraException; otherwise as saveImage(img, chatId) |
| Camera.SaveVideo | src/main/java/org/miri/camcapture/impl/DefaultCamera.java:104-117 | a null webcam is a NullPointerException; mkdir failure FileAccessException; encoder failure TelegramException; else an .mp4 path |
| Camera.SavedInChatDirectory | src/main/java/org/miri/camcapture/impl/DefaultCamera.java:151-155 | every saved still (.png) and clip (.mp4) lies in the directory of the chat it was taken for |
| Commands.Normalise | src/main/java/org/miri/camcapture/impl/Telegram.java:72 | the command minus its first and last character, lower-cased; shorter than 2 characters is StringIndexOutOfBounds |
| Commands.NormalisedIsLower | src/main/java/org/miri/camcapture/impl/Telegram.java:72 | character i of the normalised command is character i+1 lower-cased, and no upper-case letter is left |
| Commands.MotionBranchesUnreachable | src/main/java/org/miri/camcapture/impl/Telegram.java:72-88 | no normalised command selects the detectOn or detectOff branch |
| Commands.JsonWord | src/main/java/org/miri/camcapture/impl/Telegram.java:220 | for a plain word, the escaped text lower-cases to it exactly when the text does |
| Commands.JsonCommand | src/main/java/org/miri/camcapture/impl/Telegram.java:72-79 | a quoted message text normalises to its escaped text lower-cased; it selects image (video) exactly when the text lower-cases to "image" ("video") |
| Commands.CommandInChat | src/main/java/org/miri/camcapture/impl/Telegram.java:73-93 | every branch of the switch calls out only about the chat the command came from and dispatches nothing |
| Commands.ExecuteStaysInChat | src/main/java/org/miri/camcapture/impl/Telegram.java:68-94 | execute is marked once, first, and all its calls concern its own chat |
| Commands.SendImageCapturesFirst | src/main/java/org/miri/camcapture/impl/Telegram.java:114-132 | the still is taken first; a failed capture sends nothing; then "Sending image..." and the chat's own photo, in order |
| Commands.SendVideoAnnouncesFirst | src/main/java/org/miri/camcapture/impl/Telegram.java:139-148 | "Sending video..." goes first; a failed recording leaves just that message sent; then the clip |
| Commands.ExecuteBranches | src/main/java/org/miri/camcapture/impl/Telegram.java:73-93 | exactly "image" and "video" reach the camera; any other command sends exactly one not-recognised message, which throws only if that send fails |
| Commands.SlashCommandNotRecognized | src/main/java/org/miri/camcapture/impl/Telegram.java:72-92 | a "/word" message gets only the not-recognised message |
| Commands.MotionEventOrder | src/main/java/org/miri/camcapture/impl/MotionDetector.java:42-50 | a motion event saves, announces, then sends the photo, all to the chat bound at event time; a failed save sends nothing; a failure is logged and ends the event |
| Bot.ProcessBatch | src/main/java/org/miri/camcapture/impl/Telegram.java:216-229 | a batch either ends with lastOffset = last id + 1, or throws NullPointer/IndexOutOfBounds with lastOffset unchanged; the last id is read as an int |
| Bot.HandledDispatchesOnce | src/main/java/org/miri/camcapture/impl/Telegram.java:222-226 | one update's execute, whatever it throws, leaves exactly its own Dispatch mark |
| Bot.OutcomesMarkedOnce | src/main/java/org/miri/camcapture/impl/Telegram.java:218-227 | each well-formed update of a batch is marked once, with its own chat and command |
| Bot.BatchDispatchesInOrder | src/main/java/org/miri/camcapture/impl/Telegram.java:218-227 | while updates are well formed each is dispatched once, in array order; a command's exception does not stop the loop |
| Bot.MalformedUpdateHaltsBatch | src/main/java/org/miri/camcapture/impl/Telegram.java:219-228 | an update missing message, text or chat id throws; the earlier ones were dispatched, the later ones not, and lastOffset does not move |
| Bot.CompletedBatchAdvances | src/main/java/org/miri/camcapture/impl/Telegram.java:228 | a complete batch dispatches every update in order and sets lastOffset to the last id + 1 |
| Bot.UrlFor | src/main/java/org/miri/camcapture/impl/Telegram.java:176-180 | a built URL is kept; the token is read only while the URL is empty, and an unreadable token is BotTokenAccessException |
| Bot.PollStep | src/main/java/org/miri/camcapture/impl/Telegram.java:47-62 | getUpdates asks with offset=lastOffset; a failure leaves lastOffset unchanged; it throws the token exception, with no call made, exactly when the URL is unbuilt and the token unreadable |
| Bot.NothingToDispatch | src/main/java/org/miri/camcapture/impl/Telegram.java:52-61 | a non-200 status and an empty result dispatch nothing and leave lastOffset; only the first throws |
| Bot.SlashCommandsNotRecognized | src/main/java/org/miri/camcapture/impl/Telegram.java:216-229 | the batch "/x" (id 5), "/y" (id 6) at offset 5 gets two not-recognised messages, in order, and offset 7 |
| Bot.MotionDetector.Start | src/main/java/org/miri/camcapture/impl/MotionDetector.java:31-35 | binds the chat (the last start wins), registers the listener and starts the detector |
| Bot.MotionDetector.Stop | src/main/java/org/miri/camcapture/impl/MotionDetector.java:37-39 | only removes the listener; the bound chat stays |
| Bot.MotionDetector.MotionDetected | src/main/java/org/miri/camcapture/impl/MotionDetector.java:42-50 | appends the caught motion-event run for the bound chat to the trace |
| Bot.Telegram.GetBotUrl | src/main/java/org/miri/camcapture/impl/Telegram.java:176-180 | returns UrlFor of the old URL and caches a built one |
| Bot.Telegram.SendMessage | src/main/java/org/miri/camcapture/impl/Telegram.java:102-108 | one sendMessage call, which may throw IOException |
| Bot.Telegram.SendImageFile | src/main/java/org/miri/camcapture/impl/Telegram.java:123-132 | "Sending image..." then the photo, as SendImageFileRun |
| Bot.Telegram.SendImage | src/main/java/org/miri/camcapture/impl/Telegram.java:114-118 | capture, then sendImage(chatId, file), as SendImageRun |
| Bot.Telegram.SendVideo | src/main/java/org/miri/camcapture/impl/Telegram.java:139-149 | announce, record, send, as SendVideoRun |
| Bot.Telegram.SetMotionDetection | src/main/java/org/miri/camcapture/impl/Telegram.java:154-163 | starts (binding the chat) or stops the detector, then sends the matching message |
| Bot.Telegram.Branch | src/main/java/org/miri/camcapture/impl/Telegram.java:73-93 | runs the selected branch as BranchRun; only the motion branches touch the detector |
| Bot.Telegram.Execute | src/main/java/org/miri/camcapture/impl/Telegram.java:68-94 | records the dispatch, then normalises and runs the branch, as ExecuteRun |
| Bot.Telegram.ExecuteCaught | src/main/java/org/miri/camcapture/impl/Telegram.java:222-226 | execute with its exception caught and logged; nothing escapes |
| Bot.Telegram.DispatchOne | src/main/java/org/miri/camcapture/impl/Telegram.java:219-226 | reads one update's fields; stops exactly on a malformed update, else runs its command caught |
| Bot.Telegram.DispatchStep | src/main/java/org/miri/camcapture/impl/Telegram.java:218-227 | one iteration of the loop moves the trace from DispatchUpTo(i) to DispatchUpTo(i+1) |
| Bot.Telegram.DispatchAll | src/main/java/org/miri/camcapture/impl/Telegram.java:218-227 | the loop leaves the trace and halt flag of DispatchUpTo over the whole batch |
| Bot.Telegram.ExecuteResponse | src/main/java/org/miri/camcapture/impl/Telegram.java:216-229 | trace, lastOffset and exception are those of ProcessBatch |
| Bot.Telegram.GetUpdates | src/main/java/org/miri/camcapture/impl/Telegram.java:47-62 | trace, lastOffset, URL and exception are those of PollStep |
| Bot.Telegram.HandleFetch | src/main/java/org/miri/camcapture/impl/Telegram.java:50-61 | status check, empty check and executeResponse, as Fetched |
| MainLoop.NextAction | src/main/java/org/miri/camcapture/Main.java:24-36 | exit(1) exactly on BotTokenAccessException; 1000 ms after a clean round; 10000 ms after any other exception or an interrupted sleep |
| MainLoop.ClientKeepsLaws | src/main/java/org/miri/camcapture/impl/Telegram.java:47-62 | getUpdates keeps what the loop relies on: a failure leaves the offset, the token exception comes only with no URL and no call made |
| MainLoop.RoundsChain | src/main/java/org/miri/camcapture/Main.java:22-37 | the first round polls with the starting offset and every later round with the offset the previous round left; a failed round leaves its offset as it was, so the same updates are asked for again; the client ends with the last round's offset; only the last round can exit |
| MainLoop.UrlKept | src/main/java/org/miri/camcapture/impl/Telegram.java:176-180 | after the first round the URL stays built, so the token file is not read again |
| MainLoop.ExitOnlyAtStart | src/main/java/org/miri/camcapture/Main.java:26-29 | the process exits exactly in the first round with no URL and an unreadable token, logging the exception and making no other call |
| MainLoop.ExitedStays | src/main/java/org/miri/camcapture/Main.java:29 | after System.exit, later rounds do nothing |
| MainLoop.Poller.PollOnce | src/main/java/org/miri/camcapture/Main.java:23-36 | one iteration: getUpdates, its exception logged, and NextAction |
| MainLoop.Poller.Turn | src/main/java/org/miri/camcapture/Main.java:22-37 | round i moves the client's state and trace from Rounds of i ticks to Rounds of i+1 |
| MainLoop.Poller.GetUpdates | src/main/java/org/miri/camcapture/Main.java:21-38 | the loop leaves the trace and client state of Rounds and returns the exit status exactly when the process exits |
| LegacyCamera.Init | src/main/java/org/cameracapture/telegram/miri/camera/CameraCapture.java:33-42 | sets the view size first (the first widest resolution, or 0x0 when no width is positive), then fails with "Unable to create camera directory" exactly when mkdir fails |
| LegacyCamera.CaptureGivenImage | src/main/java/org/cameracapture/telegram/miri/camera/CameraCapture.java:100-115 | a failed mkdir is swallowed and yields a null file; a failed write is "Unable to capture image"; otherwise the PNG path |
| LegacyCamera.CaptureImage | src/main/java/org/cameracapture/telegram/miri/camera/CameraCapture.java:85-91 | no webcam is "Unable to find camera"; otherwise as capture(image, chatId); failures are CameraCaptureException only |
| LegacyCamera.CaptureLandsInChat | src/main/java/org/cameracapture/telegram/miri/camera/CameraCapture.java:103-107 | a file is returned exactly with a webcam and a cooperating disk, and it is a PNG in the chat's directory |
| LegacyCommands.ExplainFunction | src/main/java/org/cameracapture/telegram/miri/bot/CameraCaptureBot.java:88-92 | the explanation names the "/capture" command |
| LegacyCommands.CaptureInChat | src/main/java/org/cameracapture/telegram/miri/bot/CameraCaptureBot.java:72-80 | the capture branch dispatches nothing and concerns only its chat |
| LegacyCommands.CaptureFaults | src/main/java/org/cameracapture/telegram/miri/bot/CameraCaptureBot.java:73-79 | the capture branch throws nothing but IOException, when the send of a null photo file behaves like any other send |
| LegacyCommands.HandleCommandContract | src/main/java/org/cameracapture/telegram/miri/bot/CameraCaptureBot.java:69-83 | handleCommand throws only IOException (when the send of a null photo file behaves like any other send), is marked once, first, and concerns only its chat |
| LegacyCommands.HandleCommandBranches | src/main/java/org/cameracapture/telegram/miri/bot/CameraCaptureBot.java:72-82 | the camera is used exactly when the text contains "/capture" and the first message went out; the exact calls of each branch |
| LegacyCommands.NoWebcamAnswered | src/main/java/org/cameracapture/telegram/miri/bot/CameraCaptureBot.java:74-79 | without a webcam, "/capture" is answered "Unable to capture image: Unable to find camera" and nothing is thrown |
| LegacyCommands.TokenLookup | src/main/java/org/cameracapture/telegram/miri/bot/CameraCaptureBot.java:53-57 | a cached token is returned; otherwise the file is read, and an unreadable file is FileAccessException |
| LegacyCommands.TokenCached | src/main/java/org/cameracapture/telegram/miri/bot/CameraCaptureBot.java:53-57 | once a token is read, later lookups return it whatever the file holds |
| LegacyBatch.RequestOffset | src/main/java/org/cameracapture/telegram/miri/TelegramCalls.java:120-123 | no offset exactly when lastUpdateId is 0; otherwise lastUpdateId + 1 |
| LegacyBatch.ReadLastUpdateId | src/main/java/org/cameracapture/telegram/miri/TelegramCalls.java:75-83 | only while the id is 0; a missing file is created empty and the id stays 0; a failed read is FileAccessException, unparsable text NumberFormatException |
| LegacyBatch.WriteLastUpdateId | src/main/java/org/cameracapture/telegram/miri/TelegramCalls.java:89-92 | the write succeeds exactly when the file system lets it, else FileAccessException |
| LegacyBatch.RestartRestoresOffset | src/main/java/org/cameracapture/telegram/miri/TelegramCalls.java:75-92 | what is written is what a restart reads, so the next request's offset survives a restart |
| LegacyBatch.EmptyFileRestartFails | src/main/java/org/cameracapture/telegram/miri/TelegramCalls.java:76-79 | a restart before the first batch is written fails with NumberFormatException |
| LegacyBatch.ProcessBatch | src/main/java/org/cameracapture/telegram/miri/TelegramCalls.java:138-149 | the file is written exactly when the batch completes, and then lastUpdateId is the last id and the file holds its text |
| LegacyBatch.HandledMarkedOnce | src/main/java/org/cameracapture/telegram/miri/TelegramCalls.java:145 | one handleCommand leaves exactly its own Dispatch mark |
| LegacyBatch.CounterCountsCalls | src/main/java/org/cameracapture/telegram/miri/TelegramCalls.java:140-146 | however the loop ends, lastUpdateId is its start plus the number of handleCommand calls, wrapped |
| LegacyBatch.HandledInOrder | src/main/java/org/cameracapture/telegram/miri/TelegramCalls.java:140-146 | updates are handed to handleCommand once each, in array order, with the chat id as decimal text |
| LegacyBatch.MidBatchIoFailure | src/main/java/org/cameracapture/telegram/miri/TelegramCalls.java:138-148 | an IOException at update i escapes; updates 0..i were handled; lastUpdateId is start + i + 1; nothing is written |
| LegacyBatch.CompletedBatchWrites | src/main/java/org/cameracapture/telegram/miri/TelegramCalls.java:147-148 | a complete batch sets lastUpdateId to the last id (not + 1) and writes it |
| LegacyBatch.PollStep | src/main/java/org/cameracapture/telegram/miri/TelegramCalls.java:100-113 | the request carries the offset rule; a write happens only on success |
| LegacyBatch.NothingToDispatch | src/main/java/org/cameracapture/telegram/miri/TelegramCalls.java:103-111 | a non-200 status and an empty result dispatch and write nothing and leave lastUpdateId; only the first throws |
| LegacyBot.CameraCaptureBot.GetBotToken | src/main/java/org/cameracapture/telegram/miri/bot/CameraCaptureBot.java:53-57 | returns TokenLookup of the cached token and caches what is read |
| LegacyBot.CameraCaptureBot.CaptureAndSend | src/main/java/org/cameracapture/telegram/miri/bot/CameraCaptureBot.java:73-79 | the capture branch, as CaptureRun |
| LegacyBot.CameraCaptureBot.HandleCommand | src/main/java/org/cameracapture/telegram/miri/bot/CameraCaptureBot.java:69-83 | handleCommand, as HandleCommandRun |
| LegacyBot.TelegramCalls.constructor | src/main/java/org/cameracapture/telegram/miri/TelegramCalls.java:35 | lastUpdateId starts at 0 |
| LegacyBot.TelegramCalls.ReadLastUpdateId | src/main/java/org/cameracapture/telegram/miri/TelegramCalls.java:75-83 | updates the id and the file as LegacyBatch.ReadLastUpdateId |
| LegacyBot.TelegramCalls.WriteLastUpdateId | src/main/java/org/cameracapture/telegram/miri/TelegramCalls.java:89-92 | stores the id's text in the file, or fails with FileAccessException leaving it |
| LegacyBot.TelegramCalls.SendMessage | src/main/java/org/cameracapture/telegram/miri/TelegramCalls.java:181-196 | one sendMessage call, which may throw IOException |
| LegacyBot.TelegramCalls.SendPhoto | src/main/java/org/cameracapture/telegram/miri/TelegramCalls.java:157-173 | one sendPhoto call with the file, possibly null, which may throw IOException |
| LegacyBot.TelegramCalls.HandleStep | src/main/java/org/cameracapture/telegram/miri/TelegramCalls.java:141-145 | one iteration moves trace, counter and exception from HandleUpTo(i) to HandleUpTo(i+1) |
| LegacyBot.TelegramCalls.HandleAll | src/main/java/org/cameracapture/telegram/miri/TelegramCalls.java:140-146 | the loop leaves trace, counter and exception of HandleUpTo over the whole batch |
| LegacyBot.TelegramCalls.ExecuteResponse | src/main/java/org/cameracapture/telegram/miri/TelegramCalls.java:138-149 | trace, lastUpdateId, file and exception are those of ProcessBatch |
| LegacyBot.TelegramCalls.GetUpdates | src/main/java/org/cameracapture/telegram/miri/TelegramCalls.java:100-113 | trace, lastUpdateId, file and exception are those of PollStep |
| Generations.OffsetConventions | src/main/java/org/cameracapture/telegram/miri/TelegramCalls.java:120-123 | the legacy request is "id + 1", the new convention's, for every id but 0, where it carries no offset |
| Generations.LegacyBatchCompletes | src/main/java/org/cameracapture/telegram/miri/TelegramCalls.java:140-146 | with no send failing, every handleCommand of a well-formed batch completes |
| Generations.SameBatchSameNextRequest | src/main/java/org/miri/camcapture/impl/Telegram.java:216-229 | both clients dispatch the same batch identically and then ask for the same next offset, except when the legacy id is 0 |

## Left out

- HTTP and JSON (Apache HttpClient, javax.json, multipart bodies) are foreign
  libraries. A fetch is an abstract outcome (`World.Fetch`): no answer, or a
  status and the update records. Each send is a call in the trace, with an
  oracle saying which send throws IOException. The URL texts and field names
  are not modelled. A status other than 200 on a send is only logged, and
  the log line is not modelled.
- Only the text parts of log messages are left out. A caught exception's
  log entry is in the trace as `Logged(kind)`.
- Webcam hardware, ImageIO, Xuggler encoding, `webcam.open` and the clock are
  oracles. The timestamp text and the file system's answer (`Disk`) are
  parameters, and so is whether a webcam exists.
- The HTTP library's handling of a null photo file is not modelled. The
  legacy camera returns null when it cannot make the directory, and the
  call is recorded with the null as an ordinary send that only an
  IOException can fail. The library may instead reject the null with an
  IllegalArgumentException. That would escape handleCommand,
  executeResponse and getUpdates, and nothing would catch it.
- LegacyCommands.CaptureFaults: "only IOException" holds only when the send
  of a null photo file behaves like any other send (see the line above).
- LegacyCommands.HandleCommandContract: "only IOException" holds only when
  the send of a null photo file behaves like any other send.
- LegacyBot.TelegramCalls.SendPhoto: a null file is sent like any other,
  so its only failure is the oracle's IOException.
- FileUtil is not part of this model. The offset file is a cell: missing,
  or holding a text. A write replaces the whole content; partial writes are
  not modelled.
- `String.toLowerCase`, `contains` and `Integer.valueOf` are modelled on
  ASCII, in a default locale without special casing rules. Non-ASCII
  letters and digits are outside the model. So is a Turkish or Azerbaijani
  default locale, where `toLowerCase` maps 'I' to a dotless 'ı' and
  "IMAGE" would not select the image branch.
- Threads and singletons are left out:
  - the double-checked `init()` methods and the enum singletons;
  - `System.exit` in `TelegramCalls.init`;
  - the composition of `TelegramCalls.init` and `CameraCaptureBot.init`;
  - TelegramCameraCapture.java, the legacy retry loop, which adds no state.

  The legacy static fields `bot` and `telegramCalls` become a constant field
  and a method parameter. The legacy `baseUrl` is not modelled, and nothing
  checks that it was built before a send.
- The webcam's motion detector is left out:
  - the listener list and whether adding the same listener twice registers
    it twice (`Bot.MotionDetector` records the calls, not the registry);
  - `setInterval`;
  - the asynchronous delivery of events. A motion event is one sequential
    step.
- Sleeps and `System.exit` are labelled actions (`MainLoop.Action`), not
  time or process termination.
- MainLoop.Rounds: the endless loop of `Main` runs for as many rounds as
  ticks are given. Its contract bounds only the number of rounds; what the
  rounds are is stated by the lemmas about it.
- World.EnvAt: an update past the end of the given worlds meets a world in
  which nothing fails. This is a modelling default, not source behaviour.
- Bot.Telegram.SendMessage, SendImageFile, SendImage, SendVideo,
  SetMotionDetection, Branch, Execute, ExecuteCaught, DispatchOne,
  DispatchStep, DispatchAll, ExecuteResponse, HandleFetch and
  Bot.MotionDetector.MotionDetected require the bot URL to be built
  already. Every send calls `getBotURL`, which could read the token file
  again. But these run only after `getUpdates` has built the URL
  (Telegram.java:48), or, for a motion event, after a detectOn command
  that came through `getUpdates`. The token read inside a send is
  therefore not modelled.
- `Dimension.getWidth()` is a double in Java. Widths and heights are natural
  numbers here.
