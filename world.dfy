/** Everything outside the bot's own logic, as both generations see it: the
    exceptions they raise or catch, the calls they make to the Bot API, the
    camera, the detector and the log (kept in order in an Outbox), the update
    records a getUpdates response carries, and the oracles that decide how the
    outside world answers each call. */
module World {
  import opened JavaLang

  /** The exceptions of both generations, by kind. */
  datatype Fault =
    | IoFault                         // IOException: an HTTP call did not get through
    | BotTokenAccess                  // BotTokenAccessException: the token file could not be read
    | CameraFault(message: string)    // CameraException / CameraCaptureException
    | FileAccess                      // FileAccessException
    | TelegramFault                   // TelegramException / TelegramCallsException
    | NullPointer                     // a field missing from an update, or a null webcam
    | IndexOutOfBounds                // String.substring or JsonArray.getJsonObject out of range
    | NumberFormat                    // Integer.valueOf on text that is not an int
    | Interrupted                     // InterruptedException from Thread.sleep

  /** One call made to the outside world, in the order it was made. A call
      that throws is recorded and is the last call of its run. */
  datatype Effect =
    | GetUpdates(offset: Option<int>)        // GET getUpdates, with or without an offset parameter
    | Message(chat: string, text: string)    // POST sendMessage
    | Photo(chat: string, file: Option<string>)  // POST sendPhoto; None is a null file
    | Video(chat: string, clip: string)      // POST sendVideo
    | Capture(chat: string)                  // the camera is asked for a still image for chat
    | Record(chat: string)                   // the camera is asked for a video for chat
    | SaveFrame(chat: string)                // a frame from the motion detector is saved for chat
    | Dispatch(chat: string, command: string)  // the command handler is called for one update
    | Logged(fault: Fault)                   // a caught exception is written to the log

  /** The chat a call is addressed to, if it has one. */
  function Target(e: Effect): Option<string> {
    match e
    case Message(c, _) => Some(c)
    case Photo(c, _) => Some(c)
    case Video(c, _) => Some(c)
    case Capture(c) => Some(c)
    case Record(c) => Some(c)
    case SaveFrame(c) => Some(c)
    case Dispatch(c, _) => Some(c)
    case _ => None
  }

  /** Every call in calls that concerns a chat concerns chat. */
  predicate AllTo(calls: seq<Effect>, chat: string) {
    forall i :: 0 <= i < |calls| ==> Target(calls[i]) in {None, Some(chat)}
  }

  /** The record of every call the bot has made to the outside world. */
  class Outbox {
    var calls: seq<Effect>

    constructor ()
      ensures calls == []
    {
      calls := [];
    }
  }

  // ---------------------------------------------------------------------
  // Update records

  /** A chat as JSON carries it: its id is a JSON number, and Telegram's
      group ids need more than 32 bits. */
  datatype RawChat = RawChat(id: Option<int>)
  datatype RawMessage = RawMessage(text: Option<string>, chat: Option<RawChat>)

  /** One element of the `result` array of a getUpdates response; any field
      may be missing. */
  datatype RawUpdate = RawUpdate(updateId: Option<int>, message: Option<RawMessage>)

  /** What fetching updates yields: no answer at all, or a status code with
      the `result` array. */
  datatype Fetch = Unreachable | Response(status: int, result: seq<RawUpdate>)

  function HexDigit(d: nat): char
    requires d < 16
  {
    if d < 10 then ('0' as int + d) as char else ('a' as int + d - 10) as char
  }

  /** How the JSON library writes one character inside a JSON string. */
  function EscapeChar(c: char): string {
    if c == '"' || c == '\\' then ['\\', c]
    else if c == '\U{8}' then "\\b"
    else if c == '\U{C}' then "\\f"
    else if c == '\n' then "\\n"
    else if c == '\r' then "\\r"
    else if c == '\t' then "\\t"
    else if c < ' ' then "\\u00" + [HexDigit(c as int / 16), HexDigit(c as int % 16)]
    else [c]
  }

  function Escape(s: string): string {
    if s == [] then [] else EscapeChar(s[0]) + Escape(s[1..])
  }

  /** What `JsonString.toString()` returns: the text in double quotes, escaped. */
  function JsonText(s: string): (r: string)
  {
    "\"" + Escape(s) + "\""
  }

  predicate IsSpecial(c: char) {
    c == '"' || c == '\\' || c < ' '
  }

  lemma {:induction false} EscapeAppend(a: string, b: string)
    ensures Escape(a + b) == Escape(a) + Escape(b)
  {
    if a != [] {
      assert (a + b)[1..] == a[1..] + b;
      EscapeAppend(a[1..], b);
    } else {
      assert a + b == b;
    }
  }

  /** Text without quotes, backslashes or control characters is written as is. */
  lemma {:induction false} EscapePlain(s: string)
    requires forall i :: 0 <= i < |s| ==> !IsSpecial(s[i])
    ensures Escape(s) == s
  {
    if s != [] {
      EscapePlain(s[1..]);
    }
  }

  /** Text with a quote, a backslash or a control character is written with
      a backslash. */
  lemma {:induction false} EscapeSpecial(s: string, k: int)
    requires 0 <= k < |s| && IsSpecial(s[k])
    ensures '\\' in Escape(s)
  {
    if k == 0 {
      assert EscapeChar(s[0])[0] == '\\';
      assert Escape(s)[0] == '\\';
    } else {
      EscapeSpecial(s[1..], k - 1);
      assert Escape(s) == EscapeChar(s[0]) + Escape(s[1..]);
    }
  }

  /** An update with every field the command handler needs. */
  predicate WellFormed(u: RawUpdate) {
    && u.message.Some? && u.message.value.text.Some?
    && u.message.value.chat.Some? && u.message.value.chat.value.id.Some?
  }

  /** The fields of one update the command handler is given: the chat id
      and the message text. */
  datatype Order = Order(id: Int32, text: string)

  /** `message`, then `message.text`, then `message.chat.id`, the id read
      with `getInt` and so narrowed to an int; None stands for the
      NullPointerException a missing field raises. */
  function Extract(u: RawUpdate): (r: Option<Order>)
    ensures r.Some? <==> WellFormed(u)
    ensures r.Some? ==> r.value.id == Wrap(u.message.value.chat.value.id.value) &&
                        r.value.text == u.message.value.text.value
  {
    match u.message
    case None => None
    case Some(m) =>
      match m.text
      case None => None
      case Some(text) =>
        match m.chat
        case None => None
        case Some(chat) =>
          match chat.id
          case None => None
          case Some(id) => Some(Order(Wrap(id), text))
  }

  /** The chat id as the handler receives it: the JSON number's text. */
  function ChatOf(o: Order): string {
    DecimalString(o.id)
  }

  /** `getInt` keeps only the low 32 bits of a JSON number, so two chats
      whose ids differ by a multiple of 2^32 (a 64-bit group id and its
      narrowed value, say) reach the handler as the same chat: the replies
      and the capture directory of one are those of the other. */
  lemma {:induction false} NarrowedChatsMerge(u: RawUpdate, v: RawUpdate, q: int)
    requires WellFormed(u) && WellFormed(v)
    requires v.message.value.chat.value.id.value == u.message.value.chat.value.id.value + q * Modulus
    requires v.message.value.text == u.message.value.text
    ensures Extract(u) == Extract(v)
    ensures ChatOf(Extract(u).value) == ChatOf(Extract(v).value)
  {
    WrapPeriodic(u.message.value.chat.value.id.value, q);
  }

  /** The command as the handler receives it: the JSON string's text,
      quotes included. */
  function CommandOf(o: Order): string {
    JsonText(o.text)
  }

  /** The Dispatch marks a run of well-formed updates should leave, in order. */
  function DispatchMarks(us: seq<RawUpdate>): (r: seq<Effect>)
    requires forall i :: 0 <= i < |us| ==> WellFormed(us[i])
    ensures |r| == |us|
  {
    if us == [] then []
    else
      assert WellFormed(us[|us| - 1]);
      var o := Extract(us[|us| - 1]).value;
      DispatchMarks(us[..|us| - 1]) + [Dispatch(ChatOf(o), CommandOf(o))]
  }

  /** The Dispatch marks among calls, in order. */
  function Dispatched(calls: seq<Effect>): seq<Effect> {
    if calls == [] then []
    else if calls[|calls| - 1].Dispatch? then Dispatched(calls[..|calls| - 1]) + [calls[|calls| - 1]]
    else Dispatched(calls[..|calls| - 1])
  }

  predicate NoDispatch(calls: seq<Effect>) {
    forall i :: 0 <= i < |calls| ==> !calls[i].Dispatch?
  }

  lemma {:induction false} DispatchedAppend(a: seq<Effect>, b: seq<Effect>)
    ensures Dispatched(a + b) == Dispatched(a) + Dispatched(b)
    decreases |b|
  {
    if b == [] {
      assert a + b == a;
    } else {
      var b' := b[..|b| - 1];
      assert (a + b)[..|a + b| - 1] == a + b';
      DispatchedAppend(a, b');
    }
  }

  lemma {:induction false} DispatchedNone(calls: seq<Effect>)
    requires NoDispatch(calls)
    ensures Dispatched(calls) == []
  {
    if calls != [] {
      DispatchedNone(calls[..|calls| - 1]);
    }
  }

  // ---------------------------------------------------------------------
  // Oracles and runs

  /** What reading the first line of a file yields: an exception, or the line
      (None is the null an empty file gives). */
  datatype LineRead = Unreadable | Line(line: Option<string>)

  /** How the file system answers one capture: mkdir fails, the write (or,
      for a video, the encoder) fails, or everything succeeds. */
  datatype Disk = DiskOk | MkdirFails | WriteFails

  /** How the outside world answers the calls of one command: the timestamp
      the clock gives, the file system's answer, and which of the command's
      HTTP sends (numbered from 0) throws IOException, if any. */
  datatype Env = Env(timestamp: string, disk: Disk, failSend: Option<nat>)

  /** The world the command of update i meets; past the end of envs
      nothing fails. */
  function EnvAt(envs: seq<Env>, i: int): Env {
    if 0 <= i < |envs| then envs[i] else Env("", DiskOk, None)
  }

  /** The calls one operation makes and the exception it ends with, if any. */
  datatype Run = Run(calls: seq<Effect>, fault: Option<Fault>)

  /** HTTP sends made one after the other; the one numbered failAt throws
      IOException, and nothing after it is sent. */
  function Sends(calls: seq<Effect>, failAt: Option<nat>): (r: Run)
    ensures r.fault.None? ==> r.calls == calls
    ensures r.fault.Some? ==> r.fault == Some(IoFault) && failAt.Some? &&
                              failAt.value < |calls| && r.calls == calls[..failAt.value + 1]
  {
    if failAt.Some? && failAt.value < |calls| then Run(calls[..failAt.value + 1], Some(IoFault))
    else Run(calls, None)
  }

  /** The numbering of the sends that follow k sends that went through. */
  function Skip(failAt: Option<nat>, k: nat): Option<nat> {
    if failAt.Some? && failAt.value >= k then Some(failAt.value - k) else None
  }

  /** first, and then second unless first threw. */
  function Then(first: Run, second: Run): Run {
    if first.fault.Some? then first else Run(first.calls + second.calls, second.fault)
  }

  lemma {:induction false} AppendAssoc(a: seq<Effect>, b: seq<Effect>, c: seq<Effect>)
    ensures (a + b) + c == a + (b + c)
  {
  }

  /** The calls of a run whose exception is caught and logged. */
  function Caught(r: Run): seq<Effect> {
    r.calls + (if r.fault.Some? then [Logged(r.fault.value)] else [])
  }
}
