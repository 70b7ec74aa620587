/**
 * app/gemini/video_extraction.py: interval sampling of decoded frames, perceptual-hash
 * de-duplication against the last kept frame, JPEG preparation, the keyword-based OCR
 * split and the validation of a vision extraction. OpenCV's capture and JPEG codec,
 * `imagehash.phash` and EasyOCR are parameters; `compute_video_hash` (SHA-256 of the
 * file) is a parameter of the caller.
 */
module VideoExtraction {
  import opened Wrappers
  import opened JsonValue
  import Text
  import Seqs

  const DefaultIntervalMs: int := 300
  const DefaultThreshold: int := 5
  const JpegMime := "image/jpeg"

  /** A decoded frame; its pixels are never interpreted by the core. */
  datatype Image = Image(pixels: seq<int>)

  /**
   * `cv2.VideoCapture(path)`: whether it opened, and the frames `cap.read()` returns in
   * order, each with the capture position `CAP_PROP_POS_MSEC` reported for it (whole ms).
   */
  datatype Capture = Capture(isOpen: bool, stream: seq<(int, Image)>)

  /** A 64-bit perceptual hash (`imagehash.phash` with its default size). */
  type PHash = h: seq<bool> | |h| == 64 witness seq(64, _ => false)

  /** One entry of `prepare_frames`: `{"mime_type": ..., "data": ...}`. */
  datatype Prepared = Prepared(mimeType: string, data: seq<bv8>)

  // ---------------------------------------------------------------- extract_raw_frames

  /** The stream kept by interval sampling when the last kept position is `last`. */
  function Sampled(stream: seq<(int, Image)>, intervalMs: int, last: int): seq<(int, Image)>
    decreases |stream|
  {
    if stream == [] then []
    else if stream[0].0 - last >= intervalMs then [stream[0]] + Sampled(stream[1..], intervalMs, stream[0].0)
    else Sampled(stream[1..], intervalMs, last)
  }

  function Images(stream: seq<(int, Image)>): seq<Image> {
    seq(|stream|, k requires 0 <= k < |stream| => stream[k].1)
  }

  /** `extract_raw_frames(path, interval_ms)` on the capture opened for `path`. */
  method ExtractRawFrames(cap: Capture, intervalMs: int) returns (frames: seq<Image>)
    ensures !cap.isOpen ==> frames == []
    ensures cap.isOpen ==> frames == Images(Sampled(cap.stream, intervalMs, -intervalMs))
  {
    if !cap.isOpen {
      return [];
    }
    frames := [];
    var last := -intervalMs;
    ghost var kept: seq<(int, Image)> := [];
    var i := 0;
    while i < |cap.stream|
      invariant 0 <= i <= |cap.stream|
      invariant kept + Sampled(cap.stream[i..], intervalMs, last) == Sampled(cap.stream, intervalMs, -intervalMs)
      invariant frames == Images(kept)
    {
      assert cap.stream[i..][1..] == cap.stream[i + 1..];
      var (t, img) := cap.stream[i];
      if t - last >= intervalMs {
        assert kept + Sampled(cap.stream[i..], intervalMs, last)
            == (kept + [cap.stream[i]]) + Sampled(cap.stream[i + 1..], intervalMs, t);
        frames := frames + [img];
        kept := kept + [cap.stream[i]];
        last := t;
      }
      i := i + 1;
    }
    assert cap.stream[i..] == [];
  }

  /** Sampling keeps an in-order subsequence of the stream. */
  lemma {:induction false} SampledIsSubsequence(stream: seq<(int, Image)>, intervalMs: int, last: int)
    ensures Seqs.IsSubsequence(Sampled(stream, intervalMs, last), stream)
    decreases |stream|
  {
    if stream == [] {
      Seqs.EmptyIsSubsequence(stream);
    } else {
      assert [stream[0]] + stream[1..] == stream;
      if stream[0].0 - last >= intervalMs {
        SampledIsSubsequence(stream[1..], intervalMs, stream[0].0);
        Seqs.ConsSubsequence(stream[0], Sampled(stream[1..], intervalMs, stream[0].0), stream[1..]);
      } else {
        SampledIsSubsequence(stream[1..], intervalMs, last);
        Seqs.SkipSubsequence(stream[0], Sampled(stream[1..], intervalMs, last), stream[1..]);
      }
    }
  }

  /** Each kept position is at least `interval_ms` after the previous kept one (or after `last`). */
  lemma {:induction false} SampledSpacing(stream: seq<(int, Image)>, intervalMs: int, last: int)
    ensures var r := Sampled(stream, intervalMs, last);
      && (r != [] ==> r[0].0 - last >= intervalMs)
      && (forall k :: 0 < k < |r| ==> r[k].0 - r[k - 1].0 >= intervalMs)
    decreases |stream|
  {
    if stream != [] {
      if stream[0].0 - last >= intervalMs {
        SampledSpacing(stream[1..], intervalMs, stream[0].0);
        var r := Sampled(stream, intervalMs, last);
        assert r[1..] == Sampled(stream[1..], intervalMs, stream[0].0);
      } else {
        SampledSpacing(stream[1..], intervalMs, last);
      }
    }
  }

  /** Because `last` starts at `-interval_ms`, a first read at a position of 0 or more is kept. */
  lemma FirstReadKept(stream: seq<(int, Image)>, intervalMs: int)
    requires stream != [] && stream[0].0 >= 0
    ensures Sampled(stream, intervalMs, -intervalMs) != []
    ensures Sampled(stream, intervalMs, -intervalMs)[0] == stream[0]
  {
  }

  // ---------------------------------------------------------------- dedupe_frames

  /** `h1 - h2` on image hashes: the number of differing bits. */
  function Hamming(a: seq<bool>, b: seq<bool>): (d: nat)
    requires |a| == |b|
    ensures d <= |a|
    ensures a == b ==> d == 0
    decreases |a|
  {
    if a == [] then 0 else (if a[0] != b[0] then 1 else 0) + Hamming(a[1..], b[1..])
  }

  /** The frames kept by de-duplication when the last kept frame's hash is `last`. */
  function Deduped(frames: seq<Image>, phash: Image -> PHash, threshold: int, last: Option<PHash>): seq<Image>
    decreases |frames|
  {
    if frames == [] then []
    else
      var h := phash(frames[0]);
      if last.None? || Hamming(h, last.value) > threshold then [frames[0]] + Deduped(frames[1..], phash, threshold, Some(h))
      else Deduped(frames[1..], phash, threshold, last)
  }

  /** `dedupe_frames(frames, threshold)`. */
  method DedupeFrames(frames: seq<Image>, phash: Image -> PHash, threshold: int) returns (unique: seq<Image>)
    ensures unique == Deduped(frames, phash, threshold, None)
  {
    unique := [];
    var lastHash: Option<PHash> := None;
    var i := 0;
    while i < |frames|
      invariant 0 <= i <= |frames|
      invariant unique + Deduped(frames[i..], phash, threshold, lastHash) == Deduped(frames, phash, threshold, None)
    {
      assert frames[i..][1..] == frames[i + 1..];
      var h := phash(frames[i]);
      if lastHash.None? || Hamming(h, lastHash.value) > threshold {
        assert unique + Deduped(frames[i..], phash, threshold, lastHash)
            == (unique + [frames[i]]) + Deduped(frames[i + 1..], phash, threshold, Some(h));
        unique := unique + [frames[i]];
        lastHash := Some(h);
      }
      i := i + 1;
    }
    assert frames[i..] == [];
  }

  /** De-duplication keeps an in-order subsequence, starting with the first frame. */
  lemma {:induction false} DedupedIsSubsequence(frames: seq<Image>, phash: Image -> PHash, threshold: int, last: Option<PHash>)
    ensures Seqs.IsSubsequence(Deduped(frames, phash, threshold, last), frames)
    ensures frames != [] && last.None? ==> Deduped(frames, phash, threshold, last)[..1] == frames[..1]
    decreases |frames|
  {
    if frames == [] {
      Seqs.EmptyIsSubsequence(frames);
    } else {
      assert [frames[0]] + frames[1..] == frames;
      var h := phash(frames[0]);
      if last.None? || Hamming(h, last.value) > threshold {
        DedupedIsSubsequence(frames[1..], phash, threshold, Some(h));
        Seqs.ConsSubsequence(frames[0], Deduped(frames[1..], phash, threshold, Some(h)), frames[1..]);
      } else {
        DedupedIsSubsequence(frames[1..], phash, threshold, last);
        Seqs.SkipSubsequence(frames[0], Deduped(frames[1..], phash, threshold, last), frames[1..]);
      }
    }
  }

  /** Consecutive kept frames differ by more than `threshold` bits (and the first from `last`). */
  lemma {:induction false} DedupedSpacing(frames: seq<Image>, phash: Image -> PHash, threshold: int, last: Option<PHash>)
    ensures var r := Deduped(frames, phash, threshold, last);
      && (r != [] && last.Some? ==> Hamming(phash(r[0]), last.value) > threshold)
      && (forall k :: 0 < k < |r| ==> Hamming(phash(r[k]), phash(r[k - 1])) > threshold)
    decreases |frames|
  {
    if frames != [] {
      var h := phash(frames[0]);
      if last.None? || Hamming(h, last.value) > threshold {
        DedupedSpacing(frames[1..], phash, threshold, Some(h));
        var r := Deduped(frames, phash, threshold, last);
        assert r[1..] == Deduped(frames[1..], phash, threshold, Some(h));
      } else {
        DedupedSpacing(frames[1..], phash, threshold, last);
      }
    }
  }

  /** Frames that all hash like the last kept one are all dropped. */
  lemma {:induction false} DedupedSameHash(frames: seq<Image>, phash: Image -> PHash, threshold: int, h: PHash)
    requires threshold >= 0
    requires forall k :: 0 <= k < |frames| ==> phash(frames[k]) == h
    ensures Deduped(frames, phash, threshold, Some(h)) == []
    decreases |frames|
  {
    if frames != [] {
      DedupedSameHash(frames[1..], phash, threshold, h);
    }
  }

  /** A run of frames with one and the same hash collapses to its first frame. */
  lemma IdenticalRunCollapses(frames: seq<Image>, phash: Image -> PHash, threshold: int)
    requires threshold >= 0 && frames != []
    requires forall k :: 0 <= k < |frames| ==> phash(frames[k]) == phash(frames[0])
    ensures Deduped(frames, phash, threshold, None) == [frames[0]]
  {
    DedupedSameHash(frames[1..], phash, threshold, phash(frames[0]));
  }

  /**
   * The comparison is against the last kept frame: `c` is dropped when it is close to
   * the kept `a`, however far it is from the dropped `b` just before it.
   */
  lemma ComparedWithLastKept(a: Image, b: Image, c: Image, phash: Image -> PHash, threshold: int)
    requires Hamming(phash(b), phash(a)) <= threshold && Hamming(phash(c), phash(a)) <= threshold
    ensures Deduped([a, b, c], phash, threshold, None) == [a]
  {
    var ha := phash(a);
    assert [a, b, c][1..] == [b, c];
    assert [b, c][1..] == [c];
    assert [c][1..] == [];
    assert Deduped([c], phash, threshold, Some(ha)) == [];
    assert Deduped([b, c], phash, threshold, Some(ha)) == [];
  }

  // ---------------------------------------------------------------- prepare_frames

  /** `prepare_frames(frames)`, with `encode` standing for `cv2.imencode(".jpg", f)`. */
  method PrepareFrames(frames: seq<Image>, encode: Image -> seq<bv8>) returns (prepared: seq<Prepared>)
    ensures |prepared| == |frames|
    ensures forall k :: 0 <= k < |frames| ==> prepared[k].mimeType == JpegMime && prepared[k].data == encode(frames[k])
  {
    prepared := [];
    for i := 0 to |frames|
      invariant |prepared| == i
      invariant forall k :: 0 <= k < i ==> prepared[k].mimeType == JpegMime && prepared[k].data == encode(frames[k])
    {
      prepared := prepared + [Prepared(JpegMime, encode(frames[i]))];
    }
  }

  // ---------------------------------------------------------------- ocr_fallback

  /** A frame's text goes to the résumé when its lower-case form mentions experience or education. */
  predicate IsResumeText(text: string) {
    Text.Contains(Text.Lower(text), "experience") || Text.Contains(Text.Lower(text), "education")
  }

  predicate IsJdText(text: string) {
    !IsResumeText(text)
  }

  /** `" ".join(reader.readtext(img, detail=0))`, with `ocr` decoding and reading one JPEG. */
  function FrameTexts(frames: seq<Prepared>, ocr: seq<bv8> -> seq<string>): seq<string> {
    seq(|frames|, k requires 0 <= k < |frames| => Text.Join(ocr(frames[k].data), " "))
  }

  /** The `{"resume_text": ..., "jd_text": ...}` dict of the OCR fallback. */
  function OcrResult(resume: seq<string>, jd: seq<string>): Json {
    JObj(map["resume_text" := JStr(Text.Join(resume, "\n")), "jd_text" := JStr(Text.Join(jd, "\n"))])
  }

  /** `ocr_fallback(prepared_frames)`. */
  method OcrFallback(frames: seq<Prepared>, ocr: seq<bv8> -> seq<string>) returns (r: Json)
    ensures r == OcrResult(Seqs.Filter(IsResumeText, FrameTexts(frames, ocr)), Seqs.Filter(IsJdText, FrameTexts(frames, ocr)))
  {
    ghost var texts := FrameTexts(frames, ocr);
    var resume: seq<string> := [];
    var jd: seq<string> := [];
    for i := 0 to |frames|
      invariant resume == Seqs.Filter(IsResumeText, texts[..i])
      invariant jd == Seqs.Filter(IsJdText, texts[..i])
    {
      var text := Text.Join(ocr(frames[i].data), " ");
      assert texts[..i + 1] == texts[..i] + [text];
      Seqs.FilterAppend(IsResumeText, texts[..i], text);
      Seqs.FilterAppend(IsJdText, texts[..i], text);
      if Text.Contains(Text.Lower(text), "experience") || Text.Contains(Text.Lower(text), "education") {
        resume := resume + [text];
      } else {
        jd := jd + [text];
      }
    }
    assert texts[..|frames|] == texts;
    r := OcrResult(resume, jd);
  }

  /** Every frame's text lands in exactly one of the two lists, and the lists split the frames' count. */
  lemma {:induction false} OcrSplitsFrames(texts: seq<string>)
    ensures |Seqs.Filter(IsResumeText, texts)| + |Seqs.Filter(IsJdText, texts)| == |texts|
    ensures forall k :: 0 <= k < |texts| && IsResumeText(texts[k]) ==> texts[k] in Seqs.Filter(IsResumeText, texts)
    ensures forall k :: 0 <= k < |texts| && !IsResumeText(texts[k]) ==> texts[k] in Seqs.Filter(IsJdText, texts)
    ensures forall t :: t in Seqs.Filter(IsResumeText, texts) ==> IsResumeText(t) && t in texts
    ensures forall t :: t in Seqs.Filter(IsJdText, texts) ==> !IsResumeText(t) && t in texts
    decreases |texts|
  {
    if texts != [] {
      OcrSplitsFrames(texts[1..]);
    }
    forall k | 0 <= k < |texts| && IsResumeText(texts[k]) ensures texts[k] in Seqs.Filter(IsResumeText, texts) {
      Seqs.FilterKeeps(IsResumeText, texts, k);
    }
    forall k | 0 <= k < |texts| && !IsResumeText(texts[k]) ensures texts[k] in Seqs.Filter(IsJdText, texts) {
      Seqs.FilterKeeps(IsJdText, texts, k);
    }
    forall t | t in Seqs.Filter(IsResumeText, texts) ensures IsResumeText(t) && t in texts {
      Seqs.FilterFrom(IsResumeText, texts, t);
    }
    forall t | t in Seqs.Filter(IsJdText, texts) ensures !IsResumeText(t) && t in texts {
      Seqs.FilterFrom(IsJdText, texts, t);
    }
  }

  // ---------------------------------------------------------------- validate_extraction

  const EmptyExtraction := Error(GeminiSafetyError, "Empty or blocked extraction")
  const MissingFields := Error(GeminiSafetyError, "Missing expected fields in extraction")
  const SafetyBlock := Error(GeminiSafetyError, "Gemini Vision safety block detected")

  /** Python's name for the type of a JSON value. */
  function TypeName(v: Json): string {
    match v
    case JNull => "NoneType"
    case JBool(_) => "bool"
    case JInt(_) => "int"
    case JFloat(_) => "float"
    case JStr(_) => "str"
    case JArr(_) => "list"
    case JObj(_) => "dict"
  }

  /** `key in v`: dict keys, substrings of a string, elements of a list; other types raise. */
  function HasKey(v: Json, key: string): Result<bool> {
    match v
    case JObj(m) => Ok(key in m)
    case JStr(s) => Ok(Text.Contains(s, key))
    case JArr(items) => Ok(JStr(key) in items)
    case _ => Err(Error(TypeError, "argument of type '" + TypeName(v) + "' is not iterable"))
  }

  /**
   * `validate_extraction(data)`. It returns its input unchanged exactly when the input is
   * a dict holding both fields and no truthy `"blocked"`; a falsy input, a missing field
   * and a safety block raise `GeminiSafetyError`, and a string or list that passes the
   * membership tests fails on `.get`.
   */
  function ValidateExtraction(data: Json): (r: Result<Json>)
    ensures r.Ok? <==> data.JObj? && "resume_text" in data.fields && "jd_text" in data.fields
                       && !Truthy(Get(data.fields, "blocked", JBool(false)))
    ensures r.Ok? ==> r.value == data && Truthy(r.value)
    ensures !Truthy(data) ==> r == Err(EmptyExtraction)
    ensures data.JObj? && data.fields != map[] && ("resume_text" !in data.fields || "jd_text" !in data.fields) ==>
      r == Err(MissingFields)
    ensures data.JObj? && "resume_text" in data.fields && "jd_text" in data.fields ==>
      (Truthy(Get(data.fields, "blocked", JBool(false))) ==> r == Err(SafetyBlock))
  {
    if !Truthy(data) then Err(EmptyExtraction)
    else
      match HasKey(data, "resume_text")
      case Err(e) => Err(e)
      case Ok(hasResume) =>
        if !hasResume then Err(MissingFields)
        else
          match HasKey(data, "jd_text")
          case Err(e) => Err(e)
          case Ok(hasJd) =>
            if !hasJd then Err(MissingFields)
            else if !data.JObj? then Err(Error(AttributeError, "'" + TypeName(data) + "' object has no attribute 'get'"))
            else if Truthy(Get(data.fields, "blocked", JBool(false))) then Err(SafetyBlock)
            else Ok(data)
  }
}
