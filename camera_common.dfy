/** What both generations' camera classes share: the webcam device, the rule
    that picks its resolution (the same loop appears in both), and the shape
    of the path a capture is saved under. */
module CameraCommon {
  import opened JavaLang

  /** `java.awt.Dimension`, with widths and heights as whole numbers. */
  datatype Dimension = Dimension(width: nat, height: nat)

  /** The webcam device: the resolutions it offers and the view size it is set to. */
  class Webcam {
    const resolutions: seq<Dimension>
    var viewSize: Dimension

    constructor (resolutions: seq<Dimension>, viewSize: Dimension)
      ensures this.resolutions == resolutions && this.viewSize == viewSize
    {
      this.resolutions := resolutions;
      this.viewSize := viewSize;
    }
  }

  /** res[k] is the first entry of the greatest width in res. */
  predicate FirstWidest(res: seq<Dimension>, k: int) {
    && 0 <= k < |res|
    && (forall j :: 0 <= j < |res| ==> res[j].width <= res[k].width)
    && (forall j :: 0 <= j < k ==> res[j].width < res[k].width)
  }

  /** The loop of setOptimalResolution: the widest resolution, the first one
      among equally wide ones, with its own height; 0x0 when there is none
      wider than 0. */
  method ChooseResolution(res: seq<Dimension>) returns (w: nat, h: nat)
    ensures forall j :: 0 <= j < |res| ==> res[j].width <= w
    ensures w == 0 ==> h == 0
    ensures w > 0 ==> exists k :: FirstWidest(res, k) && res[k] == Dimension(w, h)
  {
    w, h := 0, 0;
    for i := 0 to |res|
      invariant forall j :: 0 <= j < i ==> res[j].width <= w
      invariant w == 0 ==> h == 0
      invariant w > 0 ==> exists k :: 0 <= k < i && res[k] == Dimension(w, h) &&
                                      forall j :: 0 <= j < k ==> res[j].width < w
    {
      if w < res[i].width {
        w, h := res[i].width, res[i].height;
      }
    }
    if w > 0 {
      var k :| 0 <= k < |res| && res[k] == Dimension(w, h) && forall j :: 0 <= j < k ==> res[j].width < w;
      assert FirstWidest(res, k);
    }
  }

  /** setOptimalResolution: with no webcam nothing changes; otherwise the
      view size becomes the chosen resolution. */
  method SetOptimalResolution(webcam: Webcam?)
    modifies webcam
    ensures webcam != null ==> forall j :: 0 <= j < |webcam.resolutions| ==>
                                 webcam.resolutions[j].width <= webcam.viewSize.width
    ensures webcam != null && webcam.viewSize.width > 0 ==>
              exists k :: FirstWidest(webcam.resolutions, k) && webcam.resolutions[k] == webcam.viewSize
    ensures webcam != null && webcam.viewSize.width == 0 ==> webcam.viewSize == Dimension(0, 0)
  {
    if webcam == null {
      return;
    }
    var w, h := ChooseResolution(webcam.resolutions);
    webcam.viewSize := Dimension(w, h);
  }

  // ---------------------------------------------------------------------
  // Capture paths

  const CaptureDir: string := "captures"

  /** Where a capture for chat is saved: inside the chat's own directory. */
  function CapturePath(chat: string, timestamp: string, fileType: string): string {
    CaptureDir + "/" + chat + "/" + timestamp + fileType
  }

  predicate EndsWith(s: string, suffix: string) {
    |s| >= |suffix| && s[|s| - |suffix|..] == suffix
  }

  /** The text of s before its first occurrence of c. */
  function Before(s: string, c: char): string {
    if s == [] || s[0] == c then [] else [s[0]] + Before(s[1..], c)
  }

  /** The chat whose directory a path under "captures/" lies in. */
  function ChatOfPath(path: string): Option<string> {
    var prefix := CaptureDir + "/";
    if |path| >= |prefix| && path[..|prefix|] == prefix then Some(Before(path[|prefix|..], '/'))
    else None
  }

  lemma {:induction false} BeforeSeparator(a: string, c: char, b: string)
    requires c !in a
    ensures Before(a + [c] + b, c) == a
  {
    if a != [] {
      assert (a + [c] + b)[1..] == a[1..] + [c] + b;
      BeforeSeparator(a[1..], c, b);
    }
  }

  /** A capture path names its chat: the chat can be read back from it, so
      captures of different chats never share a directory. */
  lemma {:induction false} CapturePathNamesChat(chat: string, timestamp: string, fileType: string)
    requires '/' !in chat
    ensures ChatOfPath(CapturePath(chat, timestamp, fileType)) == Some(chat)
  {
    var prefix := CaptureDir + "/";
    var p := CapturePath(chat, timestamp, fileType);
    assert p == prefix + (chat + ['/'] + (timestamp + fileType));
    assert p[|prefix|..] == chat + ['/'] + (timestamp + fileType);
    BeforeSeparator(chat, '/', timestamp + fileType);
  }

  /** Chat ids are rendered from ints, so they never contain '/'. */
  lemma {:induction false} DecimalHasNoSlash(n: int)
    ensures '/' !in DecimalString(n)
  {
    var m: nat := if n < 0 then -n else n;
    DigitsRoundTrip(m);
  }
}
