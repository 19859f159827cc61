/**
 * The camera side of the server: the `video_captures` cache behind
 * `get_video_capture`, and the multipart chunks `generate_frames` yields.
 * Opening a device is not observable here except through a counter of opens;
 * `cap.read()` and `cv2.imencode` become a sequence of `FrameRead` outcomes.
 */
module Video {

  newtype byte = x: int | 0 <= x < 256

  const Width := 640
  const Height := 480

  /** One opened `cv2.VideoCapture`: its device, which open created it, and the requested size. */
  datatype Capture = Capture(device: int, serial: nat, width: int, height: int)

  /** The `video_captures` dictionary and the number of device opens so far. */
  datatype Registry = Registry(captures: map<int, Capture>, opens: nat)

  /** `video_captures` at start-up: empty, nothing opened. */
  const Empty := Registry(map[], 0)

  /** Every cached handle belongs to its key, and each open produced exactly one cached handle. */
  ghost predicate Valid(reg: Registry) {
    && (forall id :: id in reg.captures ==> reg.captures[id].device == id)
    && (forall id :: id in reg.captures ==> reg.captures[id].serial < reg.opens)
    && (forall a, b :: a in reg.captures && b in reg.captures && a != b ==>
          reg.captures[a].serial != reg.captures[b].serial)
    && |reg.captures| == reg.opens
  }

  datatype Lookup = Lookup(handle: Capture, registry: Registry)

  /**
   * `get_video_capture`: the cached handle for `id`, opening and caching a new
   * one at 640x480 on the first request. Nothing else in the cache changes.
   */
  function GetVideoCapture(reg: Registry, id: int): (r: Lookup)
    ensures id !in reg.captures ==> r.handle.device == id
    ensures id in r.registry.captures && r.registry.captures[id] == r.handle
    ensures r.registry.captures.Keys == reg.captures.Keys + {id}
    ensures forall k :: k in reg.captures ==> r.registry.captures[k] == reg.captures[k]
    ensures id in reg.captures ==> r.registry == reg
    ensures id !in reg.captures ==> r.registry.opens == reg.opens + 1 && r.handle.serial == reg.opens
  {
    if id in reg.captures then Lookup(reg.captures[id], reg)
    else
      var cap := Capture(id, reg.opens, Width, Height);
      Lookup(cap, Registry(reg.captures[id := cap], reg.opens + 1))
  }

  /** A repeated lookup returns the same handle and opens nothing. */
  lemma LookupIsIdempotent(reg: Registry, id: int)
    ensures var first := GetVideoCapture(reg, id);
            GetVideoCapture(first.registry, id) == first
  {
  }

  /** The start-up registry satisfies the invariant that lookups keep. */
  lemma EmptyIsValid()
    ensures Valid(Empty)
  {
  }

  lemma LookupKeepsValid(reg: Registry, id: int)
    requires Valid(reg)
    ensures Valid(GetVideoCapture(reg, id).registry)
    ensures GetVideoCapture(reg, id).handle.device == id
  {
    if id !in reg.captures {
      var r := GetVideoCapture(reg, id).registry;
      assert r.captures.Keys == reg.captures.Keys + {id};
      assert |r.captures.Keys| == |reg.captures.Keys| + 1;
    }
  }

  /**
   * Two lookups of the same device, one after the other, share one handle and
   * open the device at most once between them.
   */
  lemma SuccessiveLookupsShareHandle(reg: Registry, id: int)
    requires Valid(reg)
    ensures var a := GetVideoCapture(reg, id);
            var b := GetVideoCapture(a.registry, id);
            && a.handle == b.handle
            && b.registry.opens <= reg.opens + 1
            && Valid(b.registry)
  {
    LookupKeepsValid(reg, id);
    LookupIsIdempotent(reg, id);
  }

  /** Handles of different devices are different opens. */
  lemma DistinctDevicesDistinctHandles(reg: Registry, a: int, b: int)
    requires Valid(reg)
    requires a != b
    ensures var ra := GetVideoCapture(reg, a);
            var rb := GetVideoCapture(ra.registry, b);
            ra.handle.serial != rb.handle.serial
  {
    LookupKeepsValid(reg, a);
  }

  /** The bytes of an ASCII text. */
  function Ascii(s: string): (b: seq<byte>)
    ensures |b| == |s|
  {
    seq(|s|, i requires 0 <= i < |s| => (s[i] as int % 256) as byte)
  }

  const PartHeader: seq<byte> := Ascii("--frame\r\nContent-Type: image/jpeg\r\n\r\n")
  const PartTrailer: seq<byte> := Ascii("\r\n")

  /** One part of the `multipart/x-mixed-replace; boundary=frame` body. */
  function Part(jpeg: seq<byte>): (p: seq<byte>)
    ensures |p| == |PartHeader| + |jpeg| + |PartTrailer|
  {
    PartHeader + jpeg + PartTrailer
  }

  /** The image bytes a part carries. */
  function Unframe(part: seq<byte>): seq<byte>
    requires |PartHeader| + |PartTrailer| <= |part|
  {
    part[|PartHeader|..|part| - |PartTrailer|]
  }

  lemma UnframePart(jpeg: seq<byte>)
    ensures Unframe(Part(jpeg)) == jpeg
  {
    assert Part(jpeg)[|PartHeader|..|Part(jpeg)| - |PartTrailer|] == jpeg;
  }

  /** One `cap.read()` and, when it succeeded, one `cv2.imencode('.jpg', ...)`. */
  datatype FrameRead = FrameRead(readOk: bool, encodeOk: bool, jpeg: seq<byte>)

  /** The parts a stream yields for the given outcomes: stop at a failed read, skip a failed encode. */
  function Frames(outcomes: seq<FrameRead>): seq<seq<byte>>
    decreases |outcomes|
  {
    if outcomes == [] || !outcomes[0].readOk then []
    else (if outcomes[0].encodeOk then [Part(outcomes[0].jpeg)] else []) + Frames(outcomes[1..])
  }

  predicate Disconnects(outcomes: seq<FrameRead>) {
    exists i :: 0 <= i < |outcomes| && !outcomes[i].readOk
  }

  /**
   * `generate_frames` run against the device's first `|outcomes|` read outcomes:
   * the parts yielded, in order, and whether a failed read ended the stream.
   * The handle comes from (and may be added to) the cache.
   */
  method GenerateFrames(reg: Registry, id: int, outcomes: seq<FrameRead>)
    returns (reg': Registry, parts: seq<seq<byte>>, disconnected: bool)
    ensures reg' == GetVideoCapture(reg, id).registry
    ensures parts == Frames(outcomes)
    ensures disconnected <==> Disconnects(outcomes)
  {
    var lookup := GetVideoCapture(reg, id);
    reg' := lookup.registry;
    parts := [];
    disconnected := false;
    var i := 0;
    while i < |outcomes|
      invariant 0 <= i <= |outcomes|
      invariant forall j :: 0 <= j < i ==> outcomes[j].readOk
      invariant parts + Frames(outcomes[i..]) == Frames(outcomes)
    {
      var r := outcomes[i];
      if !r.readOk {
        disconnected := true;
        return;
      }
      assert outcomes[i..][1..] == outcomes[i + 1..];
      if r.encodeOk {
        parts := parts + [Part(r.jpeg)];
      }
      i := i + 1;
    }
  }

  /** Nothing after the first failed read is ever yielded. */
  lemma {:induction false} FramesStopAtFailedRead(before: seq<FrameRead>, failed: FrameRead, after: seq<FrameRead>)
    requires !failed.readOk
    ensures Frames(before + [failed] + after) == Frames(before)
    decreases |before|
  {
    if before == [] {
      assert (before + [failed] + after)[0] == failed;
    } else {
      var whole := before + [failed] + after;
      assert whole[0] == before[0];
      assert whole[1..] == before[1..] + [failed] + after;
      FramesStopAtFailedRead(before[1..], failed, after);
    }
  }

  /** A failed encode only drops its own frame: the stream goes on as if that read had not happened. */
  lemma {:induction false} FramesSkipFailedEncode(before: seq<FrameRead>, skipped: FrameRead, after: seq<FrameRead>)
    requires forall j :: 0 <= j < |before| ==> before[j].readOk
    requires skipped.readOk && !skipped.encodeOk
    ensures Frames(before + [skipped] + after) == Frames(before + after)
    decreases |before|
  {
    if before == [] {
      var whole := [skipped] + after;
      assert whole[1..] == after;
      assert Frames(whole) == Frames(after);
      assert before + [skipped] + after == whole;
      assert before + after == after;
    } else {
      var whole := before + [skipped] + after;
      assert whole[0] == before[0];
      assert whole[1..] == before[1..] + [skipped] + after;
      assert (before + after)[0] == before[0];
      assert (before + after)[1..] == before[1..] + after;
      FramesSkipFailedEncode(before[1..], skipped, after);
    }
  }

  /** Every yielded chunk is a complete part: header, image bytes, trailer; at most one per read. */
  lemma {:induction false} FramesAreParts(outcomes: seq<FrameRead>)
    ensures |Frames(outcomes)| <= |outcomes|
    ensures forall c :: c in Frames(outcomes) ==>
              |PartHeader| + |PartTrailer| <= |c| && c == Part(Unframe(c))
    decreases |outcomes|
  {
    if outcomes != [] && outcomes[0].readOk {
      FramesAreParts(outcomes[1..]);
      UnframePart(outcomes[0].jpeg);
    }
  }
}
