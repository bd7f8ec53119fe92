/** The voice capture card (`VoiceRecorder`): recording on and off, the
    elapsed-seconds counter, the buffer of recorded chunks, the 32-bin
    analyser snapshot drawn as a waveform, the upload of a ready-made audio
    file, and the preview URL that is replaced and released. */
module Recorder {
  import opened Platform
  import opened Text
  import IndexPage

  /** The number of analyser bins the waveform draws. */
  const SnapshotSize: nat := 32
  /** The analyser's `fftSize`; it reads half as many frequency bins. */
  const FftSize: nat := 64
  const FrequencyBinCount: nat := FftSize / 2
  const RecordingMime := "audio/webm"
  const AudioPrefix := "audio/"

  /** `new Array(32).fill(0)`: the blank waveform. */
  const ZeroSnapshot: seq<int> := seq(SnapshotSize, _ => 0)

  /** A waveform snapshot: exactly 32 entries, each a byte value. */
  predicate IsSnapshot(data: seq<int>)
  {
    |data| == SnapshotSize && forall i :: 0 <= i < |data| ==> 0 <= data[i] <= 255
  }

  /** `Array.from(dataArray).slice(0, 32)`: the first 32 frequency bins as
      numbers, unscaled. A reading of the analyser's 32 bins gives a full
      snapshot. */
  function Snapshot(bins: seq<bv8>): (s: seq<int>)
    ensures |s| == if |bins| < SnapshotSize then |bins| else SnapshotSize
    ensures forall i :: 0 <= i < |s| ==> s[i] == bins[i] as int
    ensures |bins| >= SnapshotSize ==> IsSnapshot(s)
  {
    var n := if |bins| < SnapshotSize then |bins| else SnapshotSize;
    seq(n, i requires 0 <= i < n => bins[i] as int)
  }

  /** No chunk holds data. */
  predicate AllEmpty(chunks: seq<Blob>)
  {
    forall i :: 0 <= i < |chunks| ==> chunks[i].Size() == 0
  }

  /** The bytes of `new Blob(chunks)`: the chunks' bytes in order. The
      joined blob is empty exactly when every chunk is. */
  function Concat(chunks: seq<Blob>): (bytes: seq<bv8>)
    ensures bytes == [] <==> AllEmpty(chunks)
  {
    if chunks == [] then [] else Concat(chunks[..|chunks| - 1]) + chunks[|chunks| - 1].data
  }

  /** Joining two runs of chunks joins their bytes. */
  lemma {:induction false} ConcatAppend(a: seq<Blob>, b: seq<Blob>)
    ensures Concat(a + b) == Concat(a) + Concat(b)
    decreases |b|
  {
    if b == [] {
      assert a + b == a;
    } else {
      var c, init, last := a + b, b[..|b| - 1], b[|b| - 1];
      assert c[..|c| - 1] == a + init && c[|c| - 1] == last;
      assert Concat(c) == Concat(a + init) + last.data;
      assert Concat(b) == Concat(init) + last.data;
      ConcatAppend(a, init);
      SeqAssoc(Concat(a), Concat(init), last.data);
    }
  }

  lemma SeqAssoc<T>(x: seq<T>, y: seq<T>, z: seq<T>)
    ensures x + y + z == x + (y + z)
  {
  }

  /** An empty chunk adds no bytes, so skipping it loses nothing. */
  lemma EmptyChunkAddsNothing(chunks: seq<Blob>, chunk: Blob)
    requires chunk.Size() == 0
    ensures Concat(chunks + [chunk]) == Concat(chunks)
  {
    assert (chunks + [chunk])[..|chunks|] == chunks;
  }

  /** `formatTime`: whole minutes, a colon, and the remaining seconds padded
      to two digits. The text reads back as the counter it was made from. */
  function FormatTime(seconds: nat): (t: string)
    ensures ParseTime(t) == Some(seconds)
  {
    ClockRoundTrip(seconds);
    Clock(seconds / 60, seconds % 60)
  }

  /** Minutes, a colon, and seconds padded to two digits. */
  function Clock(minutes: nat, seconds: nat): string
  {
    Decimal(minutes) + ":" + PadStart(Decimal(seconds), 2, '0')
  }

  /** Reads m:ss text back: minutes written without leading zeros, a
      colon, then two digits worth less than 60. */
  function ParseTime(t: string): Option<nat>
  {
    if |t| >= 4 && t[|t| - 3] == ':' && IsCanonical(t[..|t| - 3]) &&
       AllDigits(t[|t| - 2..]) && DecimalValue(t[|t| - 2..]) < 60 then
      Some(DecimalValue(t[..|t| - 3]) * 60 + DecimalValue(t[|t| - 2..]))
    else None
  }

  /** The seconds field of FormatTime is two digits worth seconds % 60. */
  lemma {:induction false} SecondsField(n: nat)
    requires n < 60
    ensures var p := PadStart(Decimal(n), 2, '0');
      |p| == 2 && AllDigits(p) && DecimalValue(p) == n
  {
    var d := Decimal(n);
    DecimalRoundTrip(n);
    if n < 10 {
      assert PadStart(d, 2, '0') == "0" + d;
      LeadingZero(d);
    } else {
      assert d == Decimal(n / 10) + [DigitChar(n % 10)];
      assert PadStart(d, 2, '0') == d;
    }
  }

  /** m minutes and s seconds, written as FormatTime writes them, read back
      as m * 60 + s. */
  lemma TimeOf(m: nat, s: nat, total: nat)
    requires s < 60 && total == m * 60 + s
    ensures ParseTime(Clock(m, s)) == Some(total)
  {
    var d, p := Decimal(m), PadStart(Decimal(s), 2, '0');
    assert Clock(m, s) == d + ":" + p;
    SecondsField(s);
    DecimalRoundTrip(m);
    TimeOfParts(d, p, m, s, total);
  }

  /** Minutes without leading zeros, a colon and two digits below 60 read back as minutes and seconds. */
  lemma TimeOfParts(d: string, p: string, m: nat, s: nat, total: nat)
    requires IsCanonical(d) && DecimalValue(d) == m
    requires |p| == 2 && AllDigits(p) && DecimalValue(p) == s && s < 60
    requires total == m * 60 + s
    ensures ParseTime(d + ":" + p) == Some(total)
  {
    var t := d + ":" + p;
    assert |t| == |d| + 3;
    assert t[..|t| - 3] == d;
    assert t[|t| - 2..] == p;
    assert t[|t| - 3] == ':';
  }

  /** The minutes and the seconds left over, written as a clock, read back
      as the whole count. */
  lemma {:induction false} ClockRoundTrip(seconds: nat)
    ensures ParseTime(Clock(seconds / 60, seconds % 60)) == Some(seconds)
  {
    MinutesAndSeconds(seconds);
    TimeOf(seconds / 60, seconds % 60, seconds);
  }

  /** ParseTime accepts FormatTime's text and nothing else: whatever it
      reads back as n is exactly the text FormatTime writes for n. */
  lemma {:induction false} ParseTimeOnlyFormatted(t: string, n: nat)
    requires ParseTime(t) == Some(n)
    ensures t == FormatTime(n)
  {
    var d, p := t[..|t| - 3], t[|t| - 2..];
    var m, s := DecimalValue(d), DecimalValue(p);
    assert t == d + ":" + p;
    DivideClock(m, s, n);
    DecimalCanonical(d);
    SecondsField(s);
    TwoDigitsUnique(PadStart(Decimal(s), 2, '0'), p);
  }

  /** m minutes and s < 60 seconds are n / 60 minutes and n % 60 seconds. */
  lemma DivideClock(m: nat, s: nat, n: nat)
    requires s < 60 && n == m * 60 + s
    ensures n / 60 == m && n % 60 == s
  {
  }

  /** Two-digit texts with the same value are the same text. */
  lemma TwoDigitsUnique(p: string, q: string)
    requires |p| == 2 && AllDigits(p) && |q| == 2 && AllDigits(q)
    requires DecimalValue(p) == DecimalValue(q)
    ensures p == q
  {
    assert DecimalValue(p[..1]) == p[0] as int - '0' as int;
    assert DecimalValue(q[..1]) == q[0] as int - '0' as int;
    assert p[..2][..1] == p[..1] && q[..2][..1] == q[..1];
  }

  lemma MinutesAndSeconds(n: nat)
    ensures n / 60 * 60 + n % 60 == n
  {
  }

  /** The three ways `handleFileUpload` ends. */
  datatype Upload = NoFile | NotAudio | Uploaded

  class VoiceRecorder {
    var isRecording: bool
    var recordingTime: int
    var audioUrl: Option<ObjectUrl>
    var analyserData: seq<int>
    var hasRecorder: bool
    var hasAnalyser: bool
    var chunks: seq<Blob>
    var timerRunning: bool
    var frameScheduled: bool
    /** The `isRecording` value the running frame loop tests: the one the
        `startRecording` closure captured when it was created. */
    var loopGuard: bool
    var streamOpen: bool
    /** `stop()` was called on the recorder and its `onstop` has not run yet. */
    var stopPending: bool
    const page: IndexPage.Index
    const urls: UrlRegistry

    /** The invariant without the preview URL: the registry is sound, the
        counter is not negative, the waveform is a snapshot, and a frame is
        only ever pending while the loop's test holds. */
    ghost predicate Sound()
      reads this, urls
    {
      urls.Valid() && recordingTime >= 0 && IsSnapshot(analyserData) &&
      (frameScheduled ==> hasAnalyser && loopGuard)
    }

    /** The preview URL, when there is one, has not been released. */
    ghost predicate Valid()
      reads this, urls
    {
      Sound() && (audioUrl.Some? ==> audioUrl.value in urls.live)
    }

    constructor (page: IndexPage.Index, urls: UrlRegistry)
      requires urls.Valid()
      ensures Valid() && this.page == page && this.urls == urls
      ensures !isRecording && recordingTime == 0 && audioUrl == None
      ensures analyserData == ZeroSnapshot && chunks == []
      ensures !hasRecorder && !hasAnalyser && !timerRunning && !frameScheduled
      ensures !streamOpen && !stopPending
    {
      this.page := page;
      this.urls := urls;
      isRecording := false;
      recordingTime := 0;
      audioUrl := None;
      analyserData := ZeroSnapshot;
      hasRecorder := false;
      hasAnalyser := false;
      chunks := [];
      timerRunning := false;
      frameScheduled := false;
      loopGuard := false;
      streamOpen := false;
      stopPending := false;
    }

    /** What `startRecording` does once the microphone is granted, up to the
        first call of the frame loop: open the stream, analyser and
        recorder, empty the chunk buffer, reset the counter, start the timer. */
    method Begin()
      requires Valid()
      modifies this`streamOpen, this`hasAnalyser, this`hasRecorder, this`chunks, this`stopPending
      modifies this`isRecording, this`recordingTime, this`timerRunning, this`frameScheduled
      ensures Valid()
      ensures isRecording && recordingTime == 0 && chunks == []
      ensures hasRecorder && hasAnalyser && streamOpen && timerRunning
      ensures !stopPending && !frameScheduled
      ensures audioUrl == old(audioUrl) && analyserData == old(analyserData)
      ensures loopGuard == old(loopGuard)
    {
      streamOpen := true;
      hasAnalyser := true;
      hasRecorder := true;
      chunks := [];
      stopPending := false;
      isRecording := true;
      recordingTime := 0;
      timerRunning := true;
      frameScheduled := false;
    }

    /** The Start button is shown only while not recording, and it is
        disabled once the page holds a voice sample. */
    predicate StartEnabled()
      reads this, page
    {
      !isRecording && page.voiceFile.None?
    }

    /** The Upload button's `disabled={isRecording || !!voiceFile}`, negated. */
    predicate UploadEnabled()
      reads this, page
    {
      !(isRecording || page.voiceFile.Some?)
    }

    /** `startRecording` as written, from the Start button. `granted` is
        whether the microphone prompt was accepted and `bins` the
        analyser's first reading. The frame loop tests the `isRecording`
        value the closure captured, and the button is only offered while
        not recording, so the loop's first call publishes nothing and
        schedules no frame. */
    method StartRecording(granted: bool, bins: seq<bv8>)
      requires Valid() && StartEnabled() && |bins| == FrequencyBinCount
      modifies this
      ensures Valid()
      ensures !granted ==> unchanged(this)
      ensures granted ==> (isRecording && recordingTime == 0 && chunks == [] &&
        hasRecorder && streamOpen && timerRunning && !stopPending &&
        audioUrl == old(audioUrl) && !loopGuard)
      ensures granted ==> analyserData == old(analyserData) && !frameScheduled
    {
      if !granted {
        return;
      }
      var captured := isRecording;
      Begin();
      loopGuard := captured;
      UpdateAnalyser(bins);
    }

    /** `startRecording` with the frame loop testing the live recording
        flag, which is set before the loop's first call: the first reading
        is published and the next frame is scheduled. */
    method StartRecordingLive(granted: bool, bins: seq<bv8>)
      requires Valid() && StartEnabled() && |bins| == FrequencyBinCount
      modifies this
      ensures Valid()
      ensures !granted ==> unchanged(this)
      ensures granted ==> (isRecording && recordingTime == 0 && chunks == [] &&
        hasRecorder && streamOpen && timerRunning && !stopPending &&
        audioUrl == old(audioUrl) && loopGuard)
      ensures granted ==> analyserData == Snapshot(bins) && frameScheduled
    {
      if !granted {
        return;
      }
      Begin();
      loopGuard := isRecording;
      UpdateAnalyser(bins);
    }

    /** `updateAnalyser` reading `bins`, called directly or as a scheduled
        animation frame: while the loop's test holds it publishes the
        reading and schedules the next frame, otherwise it stops. A frame is
        only pending while the test holds (see Sound), so a pending frame
        always publishes. */
    method UpdateAnalyser(bins: seq<bv8>)
      requires Valid() && |bins| == FrequencyBinCount
      modifies this`analyserData, this`frameScheduled
      ensures Valid()
      ensures hasAnalyser && loopGuard ==> analyserData == Snapshot(bins) && frameScheduled
      ensures !(hasAnalyser && loopGuard) ==> analyserData == old(analyserData) && !frameScheduled
      ensures old(frameScheduled) ==> analyserData == Snapshot(bins) && frameScheduled
    {
      if hasAnalyser && loopGuard {
        analyserData := Snapshot(bins);
        frameScheduled := true;
      } else {
        frameScheduled := false;
      }
    }

    /** One tick of the one-second interval. */
    method TimerTick()
      requires Valid() && timerRunning
      modifies this`recordingTime
      ensures Valid()
      ensures recordingTime == old(recordingTime) + 1 && recordingTime > 0
    {
      recordingTime := recordingTime + 1;
    }

    /** `ondataavailable`: keep the chunk only when it holds data. */
    method DataAvailable(chunk: Blob)
      modifies this`chunks
      ensures chunks == if chunk.Size() > 0 then old(chunks) + [chunk] else old(chunks)
      ensures Concat(chunks) == Concat(old(chunks)) + chunk.data
      ensures forall c :: c in chunks ==> c in old(chunks) || (c == chunk && chunk.Size() > 0)
    {
      if chunk.Size() > 0 {
        chunks := chunks + [chunk];
      } else {
        EmptyChunkAddsNothing(chunks, chunk);
      }
    }

    /** `stopRecording`: acts only on a live recording; then it stops the
        recorder, the timer and the frame loop and blanks the waveform. */
    method StopRecording()
      requires Valid()
      modifies this`stopPending, this`isRecording, this`timerRunning, this`frameScheduled, this`analyserData
      ensures Valid()
      ensures !(old(hasRecorder) && old(isRecording)) ==> unchanged(this)
      ensures old(hasRecorder) && old(isRecording) ==>
        stopPending && !isRecording && !timerRunning && !frameScheduled &&
        analyserData == ZeroSnapshot
    {
      if hasRecorder && isRecording {
        stopPending := true;
        isRecording := false;
        timerRunning := false;
        frameScheduled := false;
        analyserData := ZeroSnapshot;
      }
    }

    /** `setAudioUrl(v)` together with the cleanup of the effect keyed on
        `audioUrl`: when the value changes, the previous URL is revoked and
        the timer and the frame are cleared. */
    method SetAudioUrl(v: Option<ObjectUrl>)
      requires Sound()
      modifies this`audioUrl, this`timerRunning, this`frameScheduled, urls
      ensures Sound() && audioUrl == v && urls.next == old(urls.next)
      ensures (v.Some? ==> v.value in old(urls.live) && v != old(audioUrl)) ==> Valid()
      ensures old(audioUrl) != v ==>
        (urls.revoked == old(urls.revoked) + UrlList(old(audioUrl)) &&
         urls.live == old(urls.live) - UrlSet(old(audioUrl)) &&
         !timerRunning && !frameScheduled)
      ensures old(audioUrl) == v ==>
        (unchanged(urls) && timerRunning == old(timerRunning) && frameScheduled == old(frameScheduled))
    {
      if audioUrl != v {
        timerRunning := false;
        frameScheduled := false;
        if audioUrl.Some? {
          urls.Revoke(audioUrl.value);
        }
      }
      audioUrl := v;
    }

    /** `onstop`: join the chunks into one WebM blob, preview it under a
        fresh URL (releasing the previous one), hand it to the page and stop
        the stream. */
    method RecorderStopped()
      requires Valid() && stopPending
      modifies this`audioUrl, this`timerRunning, this`frameScheduled, this`streamOpen, this`stopPending, urls, page`voiceFile
      ensures Valid()
      ensures page.voiceFile == Some(Blob(Concat(chunks), RecordingMime))
      ensures audioUrl == Some(old(urls.next))
      ensures urls.revoked == old(urls.revoked) + UrlList(old(audioUrl))
      ensures urls.live == old(urls.live) + {old(urls.next)} - UrlSet(old(audioUrl))
      ensures urls.next == old(urls.next) + 1
      ensures !streamOpen && !stopPending && !timerRunning && !frameScheduled
    {
      var blob := Blob(Concat(chunks), RecordingMime);
      var url := urls.Create(blob);
      SetAudioUrl(Some(url));
      page.voiceFile := Some(blob);
      streamOpen := false;
      stopPending := false;
    }

    /** `handleFileUpload`, from the Upload button: no file does nothing; a file whose type does not
        start with "audio/" is refused; otherwise it becomes the preview
        and the voice sample. */
    method HandleFileUpload(file: Option<File>) returns (outcome: Upload)
      requires Valid() && UploadEnabled()
      modifies this`audioUrl, this`timerRunning, this`frameScheduled, urls, page`voiceFile
      ensures Valid()
      ensures outcome == (if file.None? then NoFile
        else if !(AudioPrefix <= file.value.mimeType) then NotAudio
        else Uploaded)
      ensures outcome != Uploaded ==>
        unchanged(this) && unchanged(urls) && page.voiceFile == old(page.voiceFile)
      ensures outcome == Uploaded ==>
        page.voiceFile == Some(file.value.AsBlob()) && audioUrl == Some(old(urls.next)) &&
        urls.revoked == old(urls.revoked) + UrlList(old(audioUrl)) &&
        urls.live == old(urls.live) + {old(urls.next)} - UrlSet(old(audioUrl)) &&
        urls.next == old(urls.next) + 1 && !timerRunning && !frameScheduled
    {
      if file.None? {
        return NoFile;
      }
      if !(AudioPrefix <= file.value.mimeType) {
        return NotAudio;
      }
      var url := urls.Create(file.value.AsBlob());
      SetAudioUrl(Some(url));
      page.voiceFile := Some(file.value.AsBlob());
      outcome := Uploaded;
    }

    /** `clearRecording`: revoke the preview URL, then clear it (whose effect
        cleanup revokes the same URL again), the voice sample and the
        counter. */
    method ClearRecording()
      requires Valid()
      modifies this`audioUrl, this`timerRunning, this`frameScheduled, this`recordingTime, urls, page`voiceFile
      ensures Valid()
      ensures audioUrl == None && page.voiceFile == None && recordingTime == 0
      ensures urls.revoked == old(urls.revoked) + UrlList(old(audioUrl)) + UrlList(old(audioUrl))
      ensures urls.live == old(urls.live) - UrlSet(old(audioUrl))
      ensures old(audioUrl).Some? ==> !timerRunning && !frameScheduled
      ensures old(audioUrl).None? ==>
        timerRunning == old(timerRunning) && frameScheduled == old(frameScheduled)
    {
      if audioUrl.Some? {
        urls.Revoke(audioUrl.value);
      }
      SetAudioUrl(None);
      page.voiceFile := None;
      recordingTime := 0;
    }
  }
}
