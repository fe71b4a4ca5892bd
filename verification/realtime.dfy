/** The streaming trackers of backend_ml/realtime_utils.py: an audio chunk
    buffer, an emotion history with a dominant-emotion and a trend query,
    and a face history with a first-label-wins name table. Each history is
    a `deque` with a fixed `maxlen`; the ghost field `received` of each
    class holds everything ever appended, so the deque is always the
    window of it.

    Clocks are parameters (`now`). Confidences are integers in hundredths
    and the emotion weights integers in tenths, so scores are exact. */
module Realtime {
  import opened Base

  // ---------------------------------------------------------------------------
  // Audio chunks
  // ---------------------------------------------------------------------------

  /** `deque(maxlen=1000)`. */
  const AudioBufferSize: nat := 1000

  /** One buffered `(audio_data, metadata)` pair. Metadata values are
      integers here. */
  datatype AudioChunk = AudioChunk(data: seq<bv8>, metadata: map<string, int>)

  /** `metadata.update({...})`: the caller's entries, with "timestamp",
      "chunk_size" and "sample_rate" set (and overwritten if present). */
  function ChunkMetadata(given: map<string, int>, data: seq<bv8>, now: int, sampleRate: int): (m: map<string, int>)
    ensures m.Keys == given.Keys + {"timestamp", "chunk_size", "sample_rate"}
    ensures m["timestamp"] == now && m["chunk_size"] == |data| && m["sample_rate"] == sampleRate
    ensures forall k :: k in given && k != "timestamp" && k != "chunk_size" && k != "sample_rate" ==> m[k] == given[k]
  {
    given["timestamp" := now]["chunk_size" := |data|]["sample_rate" := sampleRate]
  }

  class AudioProcessor {
    const sampleRate: int
    const chunkSize: int
    var buffer: seq<AudioChunk>
    ghost var received: seq<AudioChunk>

    ghost predicate Valid()
      reads this
    {
      buffer == Window(received, AudioBufferSize)
    }

    constructor (sampleRate: int, chunkSize: int)
      ensures this.sampleRate == sampleRate && this.chunkSize == chunkSize
      ensures buffer == [] && received == [] && Valid()
    {
      this.sampleRate, this.chunkSize := sampleRate, chunkSize;
      buffer, received := [], [];
    }

    /** `process_audio_chunk`: stores the chunk with its completed metadata,
        evicting the oldest one when 1000 are held. */
    method ProcessAudioChunk(data: seq<bv8>, metadata: Option<map<string, int>>, now: int)
      requires Valid()
      modifies this
      ensures Valid() && |buffer| <= AudioBufferSize
      ensures var given := if metadata.Some? then metadata.value else map[];
        var chunk := AudioChunk(data, ChunkMetadata(given, data, now, sampleRate));
        received == old(received) + [chunk] && buffer == BoundedAppend(old(buffer), chunk, AudioBufferSize)
    {
      var given := if metadata.Some? then metadata.value else map[];
      var chunk := AudioChunk(data, ChunkMetadata(given, data, now, sampleRate));
      WindowAppend(received, chunk, AudioBufferSize);
      buffer := BoundedAppend(buffer, chunk, AudioBufferSize);
      received := received + [chunk];
    }

    /** `get_audio_buffer(max_chunks)`: `list(buffer)[-max_chunks:]`. */
    function GetAudioBuffer(maxChunks: int): (r: seq<AudioChunk>)
      reads this
      ensures maxChunks >= 1 ==> r == Window(buffer, maxChunks)
      ensures maxChunks == 0 ==> r == buffer
      ensures maxChunks < 0 ==> r == if -maxChunks <= |buffer| then buffer[-maxChunks..] else []
    {
      WindowIsNegativeSlice(buffer, maxChunks);
      PySliceFrom(buffer, -maxChunks)
    }
  }

  /** The buffer returned for `n >= 1` is the last `min(n, |buffer|)`
      chunks received, oldest first. */
  lemma RecentChunks(p: AudioProcessor, n: int)
    requires p.Valid() && n >= 1
    ensures p.GetAudioBuffer(n) == Window(p.received, if n <= AudioBufferSize then n else AudioBufferSize)
  {
    WindowOfWindow(p.received, AudioBufferSize, n);
  }

  /** Taking the last `n` of the last `cap` is taking the last `min(n, cap)`. */
  lemma WindowOfWindow<T>(s: seq<T>, cap: nat, n: nat)
    ensures Window(Window(s, cap), n) == Window(s, if n <= cap then n else cap)
  {
  }

  // ---------------------------------------------------------------------------
  // Emotions
  // ---------------------------------------------------------------------------

  datatype EmotionRecord = EmotionRecord(emotion: string, confidence: int, timestamp: int)

  /** `emotion_weights`, in tenths, with 1.0 for any other emotion. */
  function Weight(emotion: string): (w: int)
    ensures 5 <= w <= 13
  {
    if emotion == "anxious" then 12
    else if emotion == "frustrated" then 11
    else if emotion == "exhausted" then 10
    else if emotion == "disoriented" then 13
    else if emotion == "calm" then 8
    else if emotion == "neutral" then 5
    else 10
  }

  /** The weighted score of `e` over `h`: the sum of confidence times weight
      of its detections. */
  function Score(h: seq<EmotionRecord>, e: string): int {
    if h == [] then 0
    else Score(h[..|h| - 1], e) + (if h[|h| - 1].emotion == e then h[|h| - 1].confidence * Weight(e) else 0)
  }

  /** Some detection in `h` is of emotion `e`. */
  ghost predicate Detected(h: seq<EmotionRecord>, e: string) {
    exists i :: 0 <= i < |h| && h[i].emotion == e
  }

  /** The emotions of `h` in order of first detection: the key order of the
      score dictionary. */
  function Kinds(h: seq<EmotionRecord>): seq<string> {
    if h == [] then []
    else
      var k := Kinds(h[..|h| - 1]);
      var e := h[|h| - 1].emotion;
      if e in k then k else k + [e]
  }

  /** The order lists exactly the detected emotions, each once. */
  lemma {:induction false} KindsFacts(h: seq<EmotionRecord>)
    ensures forall e :: e in Kinds(h) <==> Detected(h, e)
    ensures forall i, j :: 0 <= i < j < |Kinds(h)| ==> Kinds(h)[i] != Kinds(h)[j]
  {
    if h != [] {
      var p := h[..|h| - 1];
      KindsFacts(p);
      DetectedSnoc(p, h[|h| - 1]);
      assert p + [h[|h| - 1]] == h;
    }
  }

  lemma DetectedSnoc(p: seq<EmotionRecord>, x: EmotionRecord)
    ensures forall e :: Detected(p + [x], e) <==> Detected(p, e) || e == x.emotion
  {
    var h := p + [x];
    forall e ensures Detected(h, e) <==> Detected(p, e) || e == x.emotion {
      if Detected(p, e) {
        var i :| 0 <= i < |p| && p[i].emotion == e;
        assert h[i] == p[i];
      }
      if e == x.emotion {
        assert h[|p|] == x;
      }
      if Detected(h, e) {
        var i :| 0 <= i < |h| && h[i].emotion == e;
        if i < |p| {
          assert p[i] == h[i];
        }
      }
    }
  }

  /** One more detection: a new emotion joins the end of the order. */
  lemma KindsStep(h: seq<EmotionRecord>, i: nat)
    requires i < |h|
    ensures Kinds(h[..i + 1]) == if h[i].emotion in Kinds(h[..i]) then Kinds(h[..i]) else Kinds(h[..i]) + [h[i].emotion]
  {
    assert h[..i + 1][..i] == h[..i];
  }

  /** One more detection: only its own emotion's score grows. */
  lemma ScoreStep(h: seq<EmotionRecord>, i: nat, e: string)
    requires i < |h|
    ensures Score(h[..i + 1], e) == Score(h[..i], e) + (if h[i].emotion == e then h[i].confidence * Weight(e) else 0)
  {
    assert h[..i + 1][..i] == h[..i];
  }

  /** An emotion missing from the order scores 0. */
  lemma {:induction false} UnlistedScoresZero(h: seq<EmotionRecord>, e: string)
    requires e !in Kinds(h)
    ensures Score(h, e) == 0
  {
    if h != [] {
      UnlistedScoresZero(h[..|h| - 1], e);
    }
  }

  /** `e` is what `max(weighted_scores.items(), key=...)` returns: it has the
      highest score, and every emotion first detected before it scores
      strictly less (Python's `max` keeps the first maximal item). */
  ghost predicate IsDominant(h: seq<EmotionRecord>, e: string) {
    var ks := Kinds(h);
    exists b :: 0 <= b < |ks| && ks[b] == e
      && (forall k :: 0 <= k < |ks| ==> Score(h, ks[k]) <= Score(h, e))
      && (forall k :: 0 <= k < b ==> Score(h, ks[k]) < Score(h, e))
  }

  /** The dominant emotion is determined by the history. */
  lemma DominantIsUnique(h: seq<EmotionRecord>, e1: string, e2: string)
    requires IsDominant(h, e1) && IsDominant(h, e2)
    ensures e1 == e2
  {
    var ks := Kinds(h);
    var b1 :| 0 <= b1 < |ks| && ks[b1] == e1
      && (forall k :: 0 <= k < |ks| ==> Score(h, ks[k]) <= Score(h, e1))
      && (forall k :: 0 <= k < b1 ==> Score(h, ks[k]) < Score(h, e1));
    var b2 :| 0 <= b2 < |ks| && ks[b2] == e2
      && (forall k :: 0 <= k < |ks| ==> Score(h, ks[k]) <= Score(h, e2))
      && (forall k :: 0 <= k < b2 ==> Score(h, ks[k]) < Score(h, e2));
  }

  /** The dominant emotion was detected in the history. */
  lemma DominantWasDetected(h: seq<EmotionRecord>, e: string)
    requires IsDominant(h, e)
    ensures Detected(h, e)
  {
    var ks := Kinds(h);
    var b :| 0 <= b < |ks| && ks[b] == e;
    KindsFacts(h);
    assert e in ks;
  }

  /** Sum of the confidences. */
  function SumConfidence(s: seq<EmotionRecord>): int {
    if s == [] then 0 else SumConfidence(s[..|s| - 1]) + s[|s| - 1].confidence
  }

  /** `get_emotion_trend`. With ten entries per half, "average up by more
      than 0.1" is "sum up by more than 1.0", that is 100 hundredths. */
  function Trend(h: seq<EmotionRecord>): (r: string)
    ensures r == "insufficient_data" <==> |h| < 10
    ensures 10 <= |h| < 20 ==> r == "stable"
    ensures |h| >= 20 ==>
      var recent, early := SumConfidence(h[|h| - 10..]), SumConfidence(h[|h| - 20..|h| - 10]);
      (r == "improving" <==> recent > early + 100) && (r == "worsening" <==> recent < early - 100)
    ensures r == "insufficient_data" || r == "stable" || r == "improving" || r == "worsening"
  {
    if |h| < 10 then "insufficient_data"
    else
      var recent := h[|h| - 10..];
      var early := if |h| >= 20 then h[|h| - 20..|h| - 10] else [];
      if early == [] then "stable"
      else if SumConfidence(recent) > SumConfidence(early) + 100 then "improving"
      else if SumConfidence(recent) < SumConfidence(early) - 100 then "worsening"
      else "stable"
  }

  /** Ten detections of the same confidence sum to ten times it. */
  lemma {:induction false} SumOfSteady(s: seq<EmotionRecord>, c: int)
    requires forall i :: 0 <= i < |s| ==> s[i].confidence == c
    ensures SumConfidence(s) == |s| * c
  {
    if s != [] {
      SumOfSteady(s[..|s| - 1], c);
    }
  }

  /** A history whose confidence never changes is "stable" once it has ten
      entries. */
  lemma SteadyIsStable(h: seq<EmotionRecord>, c: int)
    requires |h| >= 10
    requires forall i :: 0 <= i < |h| ==> h[i].confidence == c
    ensures Trend(h) == "stable"
  {
    if |h| >= 20 {
      SumOfSteady(h[|h| - 10..], c);
      SumOfSteady(h[|h| - 20..|h| - 10], c);
    }
  }

  /** The position of the first highest score in `order`. */
  method FirstMaximum(order: seq<string>, scores: map<string, int>) returns (b: nat)
    requires |order| >= 1 && forall e :: e in order ==> e in scores
    ensures b < |order|
    ensures forall k :: 0 <= k < |order| ==> scores[order[k]] <= scores[order[b]]
    ensures forall k :: 0 <= k < b ==> scores[order[k]] < scores[order[b]]
  {
    b := 0;
    var j := 1;
    while j < |order|
      invariant 1 <= j <= |order| && b < j
      invariant forall k :: 0 <= k < j ==> scores[order[k]] <= scores[order[b]]
      invariant forall k :: 0 <= k < b ==> scores[order[k]] < scores[order[b]]
    {
      if scores[order[j]] > scores[order[b]] {
        b := j;
      }
      j := j + 1;
    }
  }

  /** The state of the scoring pass after the detections `h`: the emotions
      in order of first detection, each with its score. */
  ghost predicate Tallied(h: seq<EmotionRecord>, order: seq<string>, scores: map<string, int>) {
    && order == Kinds(h)
    && (forall e :: e in scores <==> e in order)
    && (forall e :: e in order ==> scores[e] == Score(h, e))
  }

  /** One detection more: a new emotion joins the end of the order with
      score 0, then its confidence times its weight is added. */
  lemma TallyStep(h: seq<EmotionRecord>, i: nat, order: seq<string>, scores: map<string, int>,
                  order': seq<string>, scores': map<string, int>)
    requires i < |h| && Tallied(h[..i], order, scores)
    requires order' == if h[i].emotion in scores then order else order + [h[i].emotion]
    requires scores'.Keys == scores.Keys + {h[i].emotion}
    requires forall e :: e in scores && e != h[i].emotion ==> scores'[e] == scores[e]
    requires scores'[h[i].emotion]
      == (if h[i].emotion in scores then scores[h[i].emotion] else 0) + h[i].confidence * Weight(h[i].emotion)
    ensures Tallied(h[..i + 1], order', scores')
  {
    var x := h[i].emotion;
    KindsStep(h, i);
    TallyKeys(order, scores, order', scores', x);
    forall e | e in order'
      ensures scores'[e] == Score(h[..i + 1], e)
    {
      ScoreStep(h, i, e);
      if e == x && x !in scores {
        UnlistedScoresZero(h[..i], x);
      }
    }
  }

  lemma TallyKeys(order: seq<string>, scores: map<string, int>, order': seq<string>, scores': map<string, int>,
                  x: string)
    requires forall e :: e in scores <==> e in order
    requires order' == if x in scores then order else order + [x]
    requires scores'.Keys == scores.Keys + {x}
    ensures forall e :: e in scores' <==> e in order'
  {
  }

  /** The first maximum of a finished pass is the dominant emotion. */
  lemma FirstMaximumIsDominant(h: seq<EmotionRecord>, order: seq<string>, scores: map<string, int>, b: nat)
    requires Tallied(h, order, scores) && b < |order|
    requires forall k :: 0 <= k < |order| ==> scores[order[k]] <= scores[order[b]]
    requires forall k :: 0 <= k < b ==> scores[order[k]] < scores[order[b]]
    ensures IsDominant(h, order[b])
  {
    assert forall k :: 0 <= k < |order| ==> scores[order[k]] == Score(h, order[k]);
  }

  datatype EmotionSummary =
    | NoData
    | EmotionSummary(dominant: Option<string>, trend: string, totalDetections: nat,
                     recentEmotions: seq<EmotionRecord>, windowSize: nat)

  class EmotionTracker {
    const windowSize: nat
    var history: seq<EmotionRecord>
    ghost var received: seq<EmotionRecord>

    ghost predicate Valid()
      reads this
    {
      history == Window(received, windowSize)
    }

    constructor (windowSize: nat)
      ensures Valid() && this.windowSize == windowSize && history == [] && received == []
    {
      this.windowSize := windowSize;
      history, received := [], [];
    }

    /** `add_emotion`; a missing timestamp is the current time. */
    method AddEmotion(emotion: string, confidence: int, timestamp: Option<int>, now: int)
      requires Valid()
      modifies this
      ensures Valid() && |history| <= windowSize
      ensures var rec := EmotionRecord(emotion, confidence, if timestamp.Some? then timestamp.value else now);
        received == old(received) + [rec] && history == BoundedAppend(old(history), rec, windowSize)
    {
      var rec := EmotionRecord(emotion, confidence, if timestamp.Some? then timestamp.value else now);
      WindowAppend(received, rec, windowSize);
      history := BoundedAppend(history, rec, windowSize);
      received := received + [rec];
    }

    /** `get_dominant_emotion`: one pass accumulating the score of each
        emotion in order of first detection, then the first maximum. */
    method GetDominantEmotion() returns (r: Option<string>)
      ensures r.None? <==> history == []
      ensures r.Some? ==> IsDominant(history, r.value)
    {
      if history == [] {
        return None;
      }
      var order: seq<string> := [];
      var scores: map<string, int> := map[];
      var i := 0;
      while i < |history|
        invariant 0 <= i <= |history|
        invariant Tallied(history[..i], order, scores)
      {
        var entry := history[i];
        ghost var order0, scores0 := order, scores;
        if entry.emotion !in scores {
          order := order + [entry.emotion];
          scores := scores[entry.emotion := 0];
        }
        scores := scores[entry.emotion := scores[entry.emotion] + entry.confidence * Weight(entry.emotion)];
        TallyStep(history, i, order0, scores0, order, scores);
        i := i + 1;
      }
      assert history[..i] == history;
      var b := FirstMaximum(order, scores);
      FirstMaximumIsDominant(history, order, scores, b);
      r := Some(order[b]);
    }

    /** `get_emotion_trend`. */
    function GetEmotionTrend(): (r: string)
      reads this
      ensures r == "insufficient_data" <==> |history| < 10
      ensures 10 <= |history| < 20 ==> r == "stable"
    {
      Trend(history)
    }

    /** `get_emotion_summary`. */
    method GetEmotionSummary() returns (s: EmotionSummary)
      requires Valid()
      ensures history == [] <==> s == NoData
      ensures s.EmotionSummary? ==>
        && s.dominant.Some? && IsDominant(history, s.dominant.value)
        && s.trend == Trend(history)
        && s.totalDetections == |history| <= windowSize
        && s.recentEmotions == Window(history, 5)
        && s.windowSize == windowSize
    {
      if history == [] {
        return NoData;
      }
      var dominant := GetDominantEmotion();
      s := EmotionSummary(dominant, GetEmotionTrend(), |history|, Window(history, 5), windowSize);
    }
  }

  // ---------------------------------------------------------------------------
  // Faces
  // ---------------------------------------------------------------------------

  datatype FaceRecord = FaceRecord(faceId: string, faceLabel: Option<string>, confidence: int,
                                   bbox: seq<int>, timestamp: int)

  /** Python truthiness of `label`: present and not empty. */
  predicate Labelled(x: FaceRecord) {
    x.faceLabel.Some? && x.faceLabel.value != ""
  }

  /** `known_faces` after the detections `s`: each id is bound to its first
      non-empty label and never rebound. */
  function FirstLabels(s: seq<FaceRecord>): map<string, string> {
    if s == [] then map[] else Remember(FirstLabels(s[..|s| - 1]), s[|s| - 1])
  }

  /** `if face_id not in known_faces and label: known_faces[face_id] = label`. */
  function Remember(known: map<string, string>, x: FaceRecord): (r: map<string, string>)
    ensures r.Keys == if Labelled(x) then known.Keys + {x.faceId} else known.Keys
    ensures forall id :: id in known ==> r[id] == known[id]
    ensures x.faceId !in known && Labelled(x) ==> r[x.faceId] == x.faceLabel.value
  {
    if x.faceId !in known && Labelled(x) then known[x.faceId := x.faceLabel.value] else known
  }

  /** `face_labels` of a summary over `s`: each id bound to its LAST
      non-empty label. */
  function LastLabels(s: seq<FaceRecord>): map<string, string> {
    if s == [] then map[]
    else
      var m := LastLabels(s[..|s| - 1]);
      var x := s[|s| - 1];
      if Labelled(x) then m[x.faceId := x.faceLabel.value] else m
  }

  function FaceIds(s: seq<FaceRecord>): set<string> {
    set x | x in s :: x.faceId
  }

  ghost predicate LabelledAt(s: seq<FaceRecord>, id: string, faceLabel: string, i: int) {
    0 <= i < |s| && s[i].faceId == id && Labelled(s[i]) && s[i].faceLabel.value == faceLabel
  }

  /** A known face's name is the label of its first labelled detection: no
      earlier detection of it had a label. Every labelled id is known. */
  lemma {:induction false} FirstLabelWins(s: seq<FaceRecord>, id: string)
    ensures id in FirstLabels(s) ==>
      exists i :: LabelledAt(s, id, FirstLabels(s)[id], i)
        && forall j :: 0 <= j < i && s[j].faceId == id ==> !Labelled(s[j])
    ensures (exists i :: 0 <= i < |s| && s[i].faceId == id && Labelled(s[i])) ==> id in FirstLabels(s)
  {
    if s != [] {
      var p := s[..|s| - 1];
      FirstLabelWins(p, id);
      if id in FirstLabels(p) {
        var i :| LabelledAt(p, id, FirstLabels(p)[id], i)
          && forall j :: 0 <= j < i && p[j].faceId == id ==> !Labelled(p[j]);
        assert LabelledAt(s, id, FirstLabels(s)[id], i);
      } else if id in FirstLabels(s) {
        assert LabelledAt(s, id, FirstLabels(s)[id], |s| - 1);
        forall j | 0 <= j < |s| - 1 && s[j].faceId == id ensures !Labelled(s[j]) {
          assert s[j] == p[j];
        }
      }
      if exists i :: 0 <= i < |s| && s[i].faceId == id && Labelled(s[i]) {
        var i :| 0 <= i < |s| && s[i].faceId == id && Labelled(s[i]);
        if i < |p| {
          assert p[i] == s[i];
        }
      }
    }
  }

  lemma FirstLabelsSnoc(s: seq<FaceRecord>, x: FaceRecord)
    ensures FirstLabels(s + [x]) == Remember(FirstLabels(s), x)
  {
    assert (s + [x])[..|s|] == s;
  }

  /** One more detection: the loop step of the summary pass. */
  lemma FaceStep(s: seq<FaceRecord>, i: nat)
    requires i < |s|
    ensures FaceIds(s[..i + 1]) == FaceIds(s[..i]) + {s[i].faceId}
    ensures LastLabels(s[..i + 1]) == if Labelled(s[i]) then LastLabels(s[..i])[s[i].faceId := s[i].faceLabel.value] else LastLabels(s[..i])
  {
    assert s[..i + 1] == s[..i] + [s[i]];
    assert s[..i + 1][..i] == s[..i];
  }

  /** A later detection never changes a name already known. */
  lemma LabelsNeverOverwritten(s: seq<FaceRecord>, x: FaceRecord, id: string)
    requires id in FirstLabels(s)
    ensures id in FirstLabels(s + [x]) && FirstLabels(s + [x])[id] == FirstLabels(s)[id]
  {
    assert (s + [x])[..|s|] == s;
  }

  /** A summary's label for an id is that of its last labelled detection:
      no later detection of it had a label. */
  lemma {:induction false} LastLabelWins(s: seq<FaceRecord>, id: string)
    ensures id in LastLabels(s) ==>
      exists i :: LabelledAt(s, id, LastLabels(s)[id], i)
        && forall j :: i < j < |s| && s[j].faceId == id ==> !Labelled(s[j])
    ensures (exists i :: 0 <= i < |s| && s[i].faceId == id && Labelled(s[i])) ==> id in LastLabels(s)
  {
    if s != [] {
      var p := s[..|s| - 1];
      var x := s[|s| - 1];
      LastLabelWins(p, id);
      if id in LastLabels(s) {
        if x.faceId == id && Labelled(x) {
          assert LabelledAt(s, id, LastLabels(s)[id], |s| - 1);
        } else {
          var i :| LabelledAt(p, id, LastLabels(p)[id], i)
            && forall j :: i < j < |p| && p[j].faceId == id ==> !Labelled(p[j]);
          assert LabelledAt(s, id, LastLabels(s)[id], i);
          forall j | i < j < |s| && s[j].faceId == id ensures !Labelled(s[j]) {
            if j < |p| {
              assert s[j] == p[j];
            }
          }
        }
      }
      if exists i :: 0 <= i < |s| && s[i].faceId == id && Labelled(s[i]) {
        var i :| 0 <= i < |s| && s[i].faceId == id && Labelled(s[i]);
        if i < |p| {
          assert p[i] == s[i];
        }
      }
    }
  }

  /** Only detected ids get a label. */
  lemma {:induction false} LabelledIdsWereSeen(s: seq<FaceRecord>)
    ensures LastLabels(s).Keys <= FaceIds(s)
  {
    if s != [] {
      var p := s[..|s| - 1];
      LabelledIdsWereSeen(p);
      forall id | id in LastLabels(s) ensures id in FaceIds(s) {
        if id in LastLabels(p) {
          var i :| 0 <= i < |p| && p[i].faceId == id;
          assert s[i] == p[i];
        } else {
          assert s[|s| - 1].faceId == id;
        }
      }
    }
  }

  lemma {:induction false} SubsetNoLarger<T>(a: set<T>, b: set<T>)
    requires a <= b
    ensures |a| <= |b|
    decreases |b|
  {
    if a != {} {
      var x :| x in a;
      SubsetNoLarger(a - {x}, b - {x});
    }
  }

  datatype FaceSummary =
    | NoFacesDetected
    | FaceSummary(totalFacesDetected: int, knownFaces: int, unknownFaces: int,
                  recentDetections: seq<FaceRecord>, faceLabels: map<string, string>)

  /** The faces whose detection lies in the window and carries the id. */
  function OfFaceSince(faceId: string, windowStart: int): (FaceRecord -> bool) {
    (x: FaceRecord) => x.faceId == faceId && x.timestamp >= windowStart
  }

  function ByTimestamp(): (FaceRecord -> int) {
    (x: FaceRecord) => x.timestamp
  }

  /** The record `add_face_detection` appends: a missing timestamp is the
      current time. */
  function Detection(faceId: string, faceLabel: Option<string>, confidence: int, bbox: seq<int>,
                     timestamp: Option<int>, now: int): (r: FaceRecord)
    ensures r.faceId == faceId && r.faceLabel == faceLabel && r.confidence == confidence && r.bbox == bbox
    ensures r.timestamp == if timestamp.Some? then timestamp.value else now
  {
    FaceRecord(faceId, faceLabel, confidence, bbox, if timestamp.Some? then timestamp.value else now)
  }

  class FaceTracker {
    const maxFaces: nat
    /** `face_counter`: set to 0 and never changed. */
    const faceCounter: int
    var history: seq<FaceRecord>
    var knownFaces: map<string, string>
    ghost var received: seq<FaceRecord>

    /** The history holds the last `10 * max_faces` detections; the name
        table reflects every detection ever received. */
    ghost predicate Valid()
      reads this
    {
      history == Window(received, maxFaces * 10) && knownFaces == FirstLabels(received)
    }

    constructor (maxFaces: nat)
      ensures this.maxFaces == maxFaces && faceCounter == 0
      ensures history == [] && knownFaces == map[] && received == []
      ensures Valid()
    {
      this.maxFaces, faceCounter := maxFaces, 0;
      history, knownFaces, received := [], map[], [];
    }

    /** `add_face_detection`. */
    method AddFaceDetection(faceId: string, faceLabel: Option<string>, confidence: int, bbox: seq<int>,
                            timestamp: Option<int>, now: int)
      requires Valid()
      modifies this
      ensures received == old(received) + [Detection(faceId, faceLabel, confidence, bbox, timestamp, now)]
      ensures knownFaces == Remember(old(knownFaces), Detection(faceId, faceLabel, confidence, bbox, timestamp, now))
      ensures Valid() && |history| <= maxFaces * 10
    {
      Record(Detection(faceId, faceLabel, confidence, bbox, timestamp, now));
    }

    /** The two updates of `add_face_detection` once the record is built:
        the name table learns a first label, the deque takes the record. */
    method Record(rec: FaceRecord)
      requires Valid()
      modifies this
      ensures received == old(received) + [rec]
      ensures knownFaces == Remember(old(knownFaces), rec)
      ensures Valid() && |history| <= maxFaces * 10
    {
      ghost var r := received + [rec];
      var h := BoundedAppend(history, rec, maxFaces * 10);
      var k := Remember(knownFaces, rec);
      WindowAppend(received, rec, maxFaces * 10);
      FirstLabelsSnoc(received, rec);
      assert h == Window(r, maxFaces * 10) && k == FirstLabels(r);
      history, knownFaces, received := h, k, r;
    }

    /** `get_face_summary` over the last 20 detections. */
    method GetFaceSummary() returns (r: FaceSummary)
      ensures history == [] <==> r == NoFacesDetected
      ensures r.FaceSummary? ==>
        var recent := Window(history, 20);
        && r.totalFacesDetected == |FaceIds(recent)|
        && r.faceLabels == LastLabels(recent)
        && r.knownFaces == |r.faceLabels|
        && r.knownFaces + r.unknownFaces == r.totalFacesDetected
        && 0 <= r.knownFaces <= r.totalFacesDetected
        && r.recentDetections == Window(recent, 5)
    {
      if history == [] {
        return NoFacesDetected;
      }
      var recent := Window(history, 20);
      var unique: set<string> := {};
      var labels: map<string, string> := map[];
      var i := 0;
      while i < |recent|
        invariant 0 <= i <= |recent|
        invariant unique == FaceIds(recent[..i])
        invariant labels == LastLabels(recent[..i])
      {
        var entry := recent[i];
        FaceStep(recent, i);
        unique := unique + {entry.faceId};
        if Labelled(entry) {
          labels := labels[entry.faceId := entry.faceLabel.value];
        }
        i := i + 1;
      }
      assert recent[..i] == recent;
      LabelledIdsWereSeen(recent);
      SubsetNoLarger(labels.Keys, unique);
      r := FaceSummary(|unique|, |labels|, |unique| - |labels|, Window(recent, 5), labels);
    }

    /** `get_face_timeline`: the detections of `faceId` at or after
        `now - 60 * windowMinutes`, by timestamp. */
    method GetFaceTimeline(faceId: string, windowMinutes: int, now: int) returns (r: seq<FaceRecord>)
      ensures history == [] ==> r == []
      ensures r == SortBy(Filter(history, OfFaceSince(faceId, now - windowMinutes * 60)), ByTimestamp())
      ensures multiset(r) == multiset(Filter(history, OfFaceSince(faceId, now - windowMinutes * 60)))
      ensures forall k :: 0 <= k < |r| ==>
        r[k].faceId == faceId && r[k].timestamp >= now - windowMinutes * 60 && r[k] in history
      ensures forall i, j :: 0 <= i < j < |r| ==> r[i].timestamp <= r[j].timestamp
    {
      if history == [] {
        return [];
      }
      var windowStart := now - windowMinutes * 60;
      var timeline: seq<FaceRecord> := [];
      var i := 0;
      while i < |history|
        invariant 0 <= i <= |history|
        invariant timeline == Filter(history[..i], OfFaceSince(faceId, windowStart))
      {
        var entry := history[i];
        assert history[..i + 1] == history[..i] + [entry];
        FilterSnoc(history[..i], entry, OfFaceSince(faceId, windowStart));
        if entry.faceId == faceId && entry.timestamp >= windowStart {
          timeline := timeline + [entry];
        }
        i := i + 1;
      }
      assert history[..i] == history;
      r := SortBy(timeline, ByTimestamp());
      TimelineFacts(history, timeline, r, faceId, windowStart);
    }
  }

  lemma TimelineFacts(history: seq<FaceRecord>, timeline: seq<FaceRecord>, r: seq<FaceRecord>,
                      faceId: string, windowStart: int)
    requires timeline == Filter(history, OfFaceSince(faceId, windowStart))
    requires multiset(r) == multiset(timeline) && SortedBy(r, ByTimestamp())
    ensures forall k :: 0 <= k < |r| ==>
      r[k].faceId == faceId && r[k].timestamp >= windowStart && r[k] in history
    ensures forall i, j :: 0 <= i < j < |r| ==> r[i].timestamp <= r[j].timestamp
  {
    forall k | 0 <= k < |r|
      ensures r[k].faceId == faceId && r[k].timestamp >= windowStart && r[k] in history
    {
      assert r[k] in multiset(timeline);
      assert r[k] in timeline;
      assert OfFaceSince(faceId, windowStart)(r[k]);
    }
    forall i, j | 0 <= i < j < |r| ensures r[i].timestamp <= r[j].timestamp {
      assert ByTimestamp()(r[i]) <= ByTimestamp()(r[j]);
    }
  }
}
