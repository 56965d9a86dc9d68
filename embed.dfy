/**
 * The embed script: once the document is ready, it registers every
 * `iframe.pleroma-embed` in document order, asks each one for its height,
 * and applies the heights that come back in `setHeightPleromaEmbed`
 * messages to the frame the message names by its registration index.
 */
module Embed {
  import opened JsValues
  import opened Decimal

  const SetHeightType := "setHeightPleromaEmbed"

  /** What `ready(loaded)` does with its callback. */
  datatype ReadyAction = RunNow | DeferToDOMContentLoaded

  function Ready(readyState: string): (r: ReadyAction)
    ensures r == RunNow <==> readyState == "interactive" || readyState == "complete"
  {
    if readyState in ["interactive", "complete"] then RunNow else DeferToDOMContentLoaded
  }

  /** An embedded iframe, as far as the script sets its properties. */
  datatype Frame = Frame(scrolling: string, overflow: string, height: Value)

  /** A message posted to the content window of the registered frame `target`. */
  datatype Post = Post(target: nat, message: Value)

  /** A frame as registration leaves it: scrolling off, overflow hidden. */
  function Prepared(f: Frame): (r: Frame)
    ensures r.scrolling == "no" && r.overflow == "hidden" && r.height == f.height
  {
    f.(scrolling := "no", overflow := "hidden")
  }

  function PreparedAll(matched: seq<Frame>): (r: seq<Frame>)
    ensures |r| == |matched|
    ensures forall i :: 0 <= i < |matched| ==> r[i] == Prepared(matched[i])
  {
    seq(|matched|, i requires 0 <= i < |matched| => Prepared(matched[i]))
  }

  /** The message a frame's `onload` posts: `{type: 'setHeightPleromaEmbed', id}`. */
  function Announcement(id: nat): Value {
    Object(map["type" := Str(SetHeightType), "id" := Num(id)])
  }

  /** The onload posts of `n` frames registered from index `start` on, each to itself. */
  function Announcements(start: nat, n: nat): (r: seq<Post>)
    ensures |r| == n
    ensures forall i :: 0 <= i < n ==> r[i] == Post(start + i, Announcement(start + i))
  {
    seq(n, i requires 0 <= i < n => Post(start + i, Announcement(start + i)))
  }

  lemma ParseOfDecimalStringAll()
    ensures forall i: nat :: ParseDecimal(DecimalString(i)) == i
  {
    forall i: nat
      ensures ParseDecimal(DecimalString(i)) == i
    {
      ParseOfDecimalString(i);
    }
  }

  /**
   * The array index that the property key `id` denotes: a non-negative
   * number, or a string that is the decimal spelling of one. `"01"`,
   * `"-1"` and `"length"` denote none. An object key is converted to a
   * string first; the model gives it no index (see the README).
   */
  function FrameIndex(id: Value): (r: Option<nat>)
    ensures forall i: nat :: r == Some(i) <==> (id == Num(i) || id == Str(DecimalString(i)))
  {
    ParseOfDecimalStringAll();
    match id
    case Num(n) => if n >= 0 then Some(n) else None
    case Str(s) =>
      if IsCanonical(s) then
        DecimalStringOfParse(s);
        Some(ParseDecimal(s))
      else None
    case _ => None
  }

  /** The message data after `e.data || {}`. */
  function Normalized(data: Value): (r: Value)
    ensures Truthy(data) ==> r == data
    ensures !Truthy(data) ==> r == Object(map[])
  {
    Or(data, Object(map[]))
  }

  /** The registered frame a message resizes, if any. */
  function Target(frames: seq<Frame>, data: Value): (r: Option<nat>)
    ensures r.Some? ==> r.value < |frames|
    ensures r.Some? <==>
      Member(Normalized(data), "type") == Str(SetHeightType)
      && exists i: nat :: i < |frames| && FrameIndex(Member(Normalized(data), "id")) == Some(i)
    ensures r.Some? ==> FrameIndex(Member(Normalized(data), "id")) == r
  {
    var d := Normalized(data);
    var index := FrameIndex(Member(d, "id"));
    if Member(d, "type") != Str(SetHeightType) || index.None? || index.value >= |frames| then None
    else index
  }

  /** The registry after the `message` handler has run on `data`. */
  function Resized(frames: seq<Frame>, data: Value): (r: seq<Frame>)
    ensures |r| == |frames|
    ensures Member(Normalized(data), "type") != Str(SetHeightType) ==> r == frames
    ensures (forall i: nat :: FrameIndex(Member(Normalized(data), "id")) == Some(i) ==> i >= |frames|)
      ==> r == frames
    ensures forall j :: 0 <= j < |frames| && Target(frames, data) != Some(j) ==> r[j] == frames[j]
    ensures Target(frames, data).Some? ==>
      var i := Target(frames, data).value;
      r[i] == frames[i].(height := Member(Normalized(data), "height"))
  {
    var t := Target(frames, data);
    if t.None? then frames
    else frames[t.value := frames[t.value].(height := Member(Normalized(data), "height"))]
  }

  /** A message without data is `{}` to the handler, and is ignored. */
  lemma MissingDataIgnored(frames: seq<Frame>)
    ensures Resized(frames, Undefined) == frames
    ensures Resized(frames, Null) == frames
  {
  }

  /**
   * A frame's own announcement, echoed back with a height, resizes that
   * frame and no other, whether the index comes back as a number or as
   * its string spelling.
   */
  lemma EchoResizesAnnouncer(frames: seq<Frame>, i: nat, h: Value)
    requires i < |frames|
    ensures var echo := Object(Announcement(i).fields["height" := h]);
      Resized(frames, echo) == frames[i := frames[i].(height := h)]
    ensures var echo := Object(map["type" := Str(SetHeightType), "id" := Str(DecimalString(i)), "height" := h]);
      Resized(frames, echo) == frames[i := frames[i].(height := h)]
  {
    var echo := Object(Announcement(i).fields["height" := h]);
    assert Member(Normalized(echo), "id") == Num(i);
    assert Target(frames, echo) == Some(i);
    var spelled := Object(map["type" := Str(SetHeightType), "id" := Str(DecimalString(i)), "height" := h]);
    assert Member(Normalized(spelled), "id") == Str(DecimalString(i));
    assert Target(frames, spelled) == Some(i);
  }

  class Registry {
    /** The `iframes` array, in registration order. */
    var frames: seq<Frame>
    /** The messages posted to the frames' content windows, in order. */
    var outbox: seq<Post>

    constructor ()
      ensures frames == [] && outbox == []
    {
      frames := [];
      outbox := [];
    }

    /** A registered frame's `onload`: it announces the id it was registered with. */
    method OnLoad(id: nat)
      requires id < |frames|
      modifies this`outbox
      ensures outbox == old(outbox) + [Post(id, Announcement(id))]
    {
      outbox := outbox + [Post(id, Announcement(id))];
    }

    /** One step of the registration loop: prepare, push, and run `onload` once. */
    method Register(f: Frame) returns (id: nat)
      modifies this
      ensures id == |old(frames)|
      ensures frames == old(frames) + [Prepared(f)]
      ensures outbox == old(outbox) + [Post(id, Announcement(id))]
    {
      var g := f.(scrolling := "no");
      g := g.(overflow := "hidden");
      frames := frames + [g];
      id := |frames| - 1;
      OnLoad(id);
    }

    /** The registration loop over the matched iframes, in document order. */
    method RegisterAll(matched: seq<Frame>)
      modifies this
      ensures frames == old(frames) + PreparedAll(matched)
      ensures outbox == old(outbox) + Announcements(|old(frames)|, |matched|)
    {
      var k := 0;
      while k < |matched|
        invariant 0 <= k <= |matched|
        invariant frames == old(frames) + PreparedAll(matched[..k])
        invariant outbox == old(outbox) + Announcements(|old(frames)|, k)
      {
        var id := Register(matched[k]);
        assert matched[..k + 1] == matched[..k] + [matched[k]];
        k := k + 1;
      }
      assert matched[..k] == matched;
    }

    /** The `message` listener. The sender's origin is not consulted. */
    method HandleMessage(data: Value)
      modifies this`frames
      ensures frames == Resized(old(frames), data)
    {
      var d := Or(data, Object(map[]));
      if Member(d, "type") != Str(SetHeightType) {
        return;
      }
      var index := FrameIndex(Member(d, "id"));
      if index.None? || index.value >= |frames| {
        return;
      }
      frames := frames[index.value := frames[index.value].(height := Member(d, "height"))];
    }
  }

  /** On a fresh registry, the i-th matched iframe is frame i and announces id i. */
  method RegisterDocument(matched: seq<Frame>) returns (r: Registry)
    ensures fresh(r)
    ensures r.frames == PreparedAll(matched)
    ensures r.outbox == Announcements(0, |matched|)
  {
    r := new Registry();
    r.RegisterAll(matched);
  }
}
