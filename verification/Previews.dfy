/** Body previews: the whole-body form, the chunk-by-chunk form of a response stream, and the audio upload. */
module Previews {
  import opened Numbers
  import opened Options

  type Byte = x: int | 0 <= x < 256 witness 0

  const ARCHIVE_BODY_LIMIT := 1024 * 1024

  datatype Preview = Preview(body: seq<Byte>, truncated: bool, bytes: int)

  const EMPTY := Preview([], false, 0)

  /** `body_preview`. */
  function BodyPreview(body: seq<Byte>): (seq<Byte>, bool) {
    var end := Min(|body|, ARCHIVE_BODY_LIMIT);
    (body[..end], |body| > end)
  }

  /** What one more chunk does to a preview that keeps at most `limit` bytes. */
  function Captured(p: Preview, chunk: seq<Byte>, limit: nat): (r: Preview)
    ensures |p.body| <= limit ==> |r.body| <= limit
  {
    var copied := if |p.body| < limit then Min(limit - |p.body|, |chunk|) else 0;
    Preview(p.body + chunk[..copied], p.truncated || copied < |chunk|, p.bytes + |chunk|)
  }

  function Concat(chunks: seq<seq<Byte>>): seq<Byte> {
    if chunks == [] then [] else Concat(chunks[..|chunks| - 1]) + chunks[|chunks| - 1]
  }

  function CapturedAll(chunks: seq<seq<Byte>>, limit: nat): Preview {
    if chunks == [] then EMPTY else Captured(CapturedAll(chunks[..|chunks| - 1], limit), chunks[|chunks| - 1], limit)
  }

  /**
   However a body is cut, its preview keeps the first `limit` bytes, says whether there were more, and counts
   them all.
   */
  lemma {:induction false} PreviewIgnoresChunking(chunks: seq<seq<Byte>>, limit: nat)
    ensures var total := Concat(chunks);
            CapturedAll(chunks, limit) == Preview(total[..Min(limit, |total|)], |total| > limit, |total|)
  {
    if chunks != [] {
      PreviewIgnoresChunking(chunks[..|chunks| - 1], limit);
      var before, chunk := Concat(chunks[..|chunks| - 1]), chunks[|chunks| - 1];
      var kept := Min(limit, |before| + |chunk|);
      assert (before + chunk)[..kept] ==
             if |before| < limit then before + chunk[..kept - |before|] else before[..limit];
    }
  }

  /** The streamed preview is the preview of the whole body. */
  lemma StreamedPreviewIsBodyPreview(chunks: seq<seq<Byte>>)
    ensures var p := CapturedAll(chunks, ARCHIVE_BODY_LIMIT);
            (p.body, p.truncated) == BodyPreview(Concat(chunks)) && p.bytes == |Concat(chunks)|
  {
    PreviewIgnoresChunking(chunks, ARCHIVE_BODY_LIMIT);
  }

  class StreamingPreview {
    var body: seq<Byte>
    var truncated: bool
    var bytes: int

    function Value(): Preview
      reads this
    {
      Preview(body, truncated, bytes)
    }

    constructor ()
      ensures Value() == EMPTY
    {
      body, truncated, bytes := [], false, 0;
    }

    method Capture(chunk: seq<Byte>)
      modifies this
      ensures Value() == Captured(old(Value()), chunk, ARCHIVE_BODY_LIMIT)
    {
      bytes := bytes + |chunk|;
      var remaining := if |body| < ARCHIVE_BODY_LIMIT then ARCHIVE_BODY_LIMIT - |body| else 0;
      var copied := Min(remaining, |chunk|);
      body := body + chunk[..copied];
      truncated := truncated || copied < |chunk|;
    }
  }

  datatype AudioSpool = AudioSpool(file: seq<Byte>, preview: Preview)

  predicate Delivered(stream: seq<Option<seq<Byte>>>) {
    forall i :: 0 <= i < |stream| ==> stream[i].Some?
  }

  function Chunks(stream: seq<Option<seq<Byte>>>): (chunks: seq<seq<Byte>>)
    requires Delivered(stream)
    ensures |chunks| == |stream|
  {
    seq(|stream|, i requires 0 <= i < |stream| => stream[i].value)
  }

  lemma ChunksAppended(stream: seq<Option<seq<Byte>>>, i: nat, limit: nat)
    requires i < |stream| && Delivered(stream[..i + 1])
    ensures Concat(Chunks(stream[..i + 1])) == Concat(Chunks(stream[..i])) + stream[i].value
    ensures CapturedAll(Chunks(stream[..i + 1]), limit) ==
            Captured(CapturedAll(Chunks(stream[..i]), limit), stream[i].value, limit)
  {
    assert stream[..i] == stream[..i + 1][..i];
    assert Chunks(stream[..i + 1])[..i] == Chunks(stream[..i]);
  }

  /**
   `AudioSpool::create`: an upload, any of whose chunks may fail to arrive. The spool exists exactly
   when all of them arrive; then the file holds the whole body and the preview describes it.
   */
  method CreateSpool(stream: seq<Option<seq<Byte>>>, limit: nat) returns (spool: Option<AudioSpool>)
    ensures spool.Some? <==> Delivered(stream)
    ensures Delivered(stream) ==>
              var total := Concat(Chunks(stream));
              spool == Some(AudioSpool(total, Preview(total[..Min(limit, |total|)], |total| > limit, |total|)))
  {
    var file, preview, truncated, bytes := [], [], false, 0;
    for i := 0 to |stream|
      invariant Delivered(stream[..i])
      invariant file == Concat(Chunks(stream[..i]))
      invariant Preview(preview, truncated, bytes) == CapturedAll(Chunks(stream[..i]), limit)
    {
      if stream[i].None? {
        return None;
      }
      var chunk := stream[i].value;
      file := file + chunk;
      bytes := bytes + |chunk|;
      var remaining := if |preview| < limit then limit - |preview| else 0;
      var copied := Min(remaining, |chunk|);
      preview := preview + chunk[..copied];
      truncated := truncated || copied < |chunk|;
      ChunksAppended(stream, i, limit);
    }
    assert stream[..|stream|] == stream;
    PreviewIgnoresChunking(Chunks(stream), limit);
    spool := Some(AudioSpool(file, Preview(preview, truncated, bytes)));
  }
}
