/** The conversion pipeline hook (`useVoiceClone`): five remote stages run
    strictly in order, the state record advanced after each success, the run
    stopped at the first failure, and a reset that releases the result URL.

    Each awaited request is one sequential step. Its reply is an input: the
    run is described by a `Run` value that carries the hook's endpoint, the
    voice blob, the song reference and the reply each stage would get. */
module VoiceCloneHook {
  import opened Platform

  /** The song reference handed to the hook: `{type: "url", value}` or
      `{type: "file", value}`. */
  datatype SongData = UrlSong(url: string) | FileSong(file: File)

  /** The hook's single state record. */
  datatype VoiceCloneState = VoiceCloneState(
    isProcessing: bool,
    currentStep: nat,
    error: Option<string>,
    resultUrl: Option<ObjectUrl>)

  datatype Verb = Get | Post

  /** A request body: none, a multipart form with one file field, or the JSON
      object `{url}`. */
  datatype Body = NoBody | Form(field: string, blob: Blob, fileName: string) | Json(url: string)

  datatype Request = Request(verb: Verb, url: string, body: Body)

  /** What the hook does, in order: it replaces its state record, or it
      issues a request. */
  datatype Event = StateSet(state: VoiceCloneState) | Fetched(request: Request)

  /** One call of `processVoiceClone`: the endpoint base URL, the voice
      blob, the song, and the reply each of the five stages would get. */
  datatype Run = Run(apiUrl: string, voice: Blob, song: SongData, replies: seq<Reply>)

  /** How `processVoiceClone` settles: it returns the result URL, or it
      rethrows what it caught (Some(message) for an Error, None for any
      other thrown value). */
  datatype Completion = Returned(url: ObjectUrl) | Rethrown(error: Option<string>)

  const StageCount: nat := 5
  const UnknownError := "An unknown error occurred"

  function Initial(): VoiceCloneState { VoiceCloneState(false, 0, None, None) }

  function Running(step: nat): VoiceCloneState { VoiceCloneState(true, step, None, None) }

  function Failed(step: nat, message: string): VoiceCloneState
  {
    VoiceCloneState(false, step, Some(message), None)
  }

  function Succeeded(url: ObjectUrl): VoiceCloneState
  {
    VoiceCloneState(false, StageCount, None, Some(url))
  }

  /** The invariant every state the hook reaches satisfies: a step within
      0..5, a result only at step 5 with no error, an error only once the
      run has stopped, and a running pipeline short of step 5. */
  predicate Consistent(s: VoiceCloneState)
  {
    s.currentStep <= StageCount &&
    (s.resultUrl.Some? ==> s.currentStep == StageCount && !s.isProcessing && s.error.None?) &&
    (s.error.Some? ==> !s.isProcessing && s.resultUrl.None?) &&
    (s.isProcessing ==> s.currentStep < StageCount)
  }

  /** The request stage i issues: upload the voice, submit the song (by link
      as JSON, or as a file upload), train, convert, fetch the result. Only
      the last is a GET; only the two uploads carry a form, the voice going
      first under "voice.webm"; only a song link is sent as JSON. */
  function StageRequest(r: Run, i: nat): (rq: Request)
    requires i < StageCount
    ensures rq.verb == Get <==> i == StageCount - 1
    ensures rq.body.Form? <==> i == 0 || (i == 1 && r.song.FileSong?)
    ensures rq.body.Json? <==> i == 1 && r.song.UrlSong?
    ensures i == 0 ==> rq.body == Form("file", r.voice, "voice.webm")
  {
    if i == 0 then Request(Post, r.apiUrl + "/upload-voice", Form("file", r.voice, "voice.webm"))
    else if i == 1 then
      match r.song
      case UrlSong(u) => Request(Post, r.apiUrl + "/song-from-link", Json(u))
      case FileSong(f) => Request(Post, r.apiUrl + "/upload-song", Form("file", f.AsBlob(), f.name))
    else if i == 2 then Request(Post, r.apiUrl + "/train-voice", NoBody)
    else if i == 3 then Request(Post, r.apiUrl + "/convert-song", NoBody)
    else Request(Get, r.apiUrl + "/result", NoBody)
  }

  /** The message of the Error a stage throws when its response is not ok:
      never empty, so the pipeline card shows it, and never the fallback
      text. */
  function NotOkMessage(i: nat, song: SongData): (m: string)
    requires i < StageCount
    ensures m != "" && m != UnknownError
  {
    if i == 0 then "Failed to upload voice sample"
    else if i == 1 then (if song.UrlSong? then "Failed to process song URL" else "Failed to upload song file")
    else if i == 2 then "Voice training failed"
    else if i == 3 then "Voice conversion failed"
    else "Failed to get result"
  }

  /** The value a failed stage throws: its own Error for a response that is
      not ok, or whatever the request itself threw. */
  function ThrownBy(i: nat, song: SongData, reply: Reply): Option<string>
    requires i < StageCount && reply != Ok
  {
    match reply
    case NotOk => Some(NotOkMessage(i, song))
    case Thrown(m) => m
  }

  /** The message the catch block records for a thrown value: the Error's
      own message, or the fallback text for anything else. */
  function ErrorMessage(thrown: Option<string>): string
  {
    match thrown
    case Some(m) => m
    case None => UnknownError
  }

  /** The index of the first reply that is not ok, or |replies| if all are. */
  function FirstFailure(replies: seq<Reply>): (k: nat)
    ensures k <= |replies|
    ensures forall i :: 0 <= i < k ==> replies[i] == Ok
    ensures k < |replies| ==> replies[k] != Ok
  {
    if replies == [] || replies[0] != Ok then 0 else 1 + FirstFailure(replies[1..])
  }

  predicate AllOk(replies: seq<Reply>) { forall i :: 0 <= i < |replies| ==> replies[i] == Ok }

  /** How many stages a run issues: the failing one and those before it, or
      all five. */
  function IssuedCount(replies: seq<Reply>): nat
    requires |replies| == StageCount
  {
    var k := FirstFailure(replies);
    if k < StageCount then k + 1 else StageCount
  }

  /** The state a run ends in; u is the object URL the result would get.
      It is consistent and settled, and it holds the result exactly when
      every reply was ok. */
  function Final(r: Run, u: ObjectUrl): (s: VoiceCloneState)
    requires |r.replies| == StageCount
    ensures Consistent(s) && !s.isProcessing
    ensures s.resultUrl.Some? <==> AllOk(r.replies)
    ensures s.resultUrl.Some? ==> s.resultUrl.value == u
  {
    var k := FirstFailure(r.replies);
    if k < StageCount then Failed(k, ErrorMessage(ThrownBy(k, r.song, r.replies[k])))
    else Succeeded(u)
  }

  /** How the run settles: it returns the result URL exactly when every
      reply was ok, and otherwise rethrows what the final state's error
      message was made from. */
  function Outcome(r: Run, u: ObjectUrl): (c: Completion)
    requires |r.replies| == StageCount
    ensures c.Returned? <==> AllOk(r.replies)
    ensures c.Returned? ==> c.url == u
    ensures c.Rethrown? ==> Final(r, u).error == Some(ErrorMessage(c.error))
  {
    var k := FirstFailure(r.replies);
    if k < StageCount then Rethrown(ThrownBy(k, r.song, r.replies[k])) else Returned(u)
  }

  /** The events from stage i on: issue its request, then either stop with
      the error, finish with the result, or advance the step and go on. They
      open with stage i's request and number at most two per remaining
      stage. */
  function StageEvents(r: Run, i: nat, u: ObjectUrl): (evs: seq<Event>)
    requires i < StageCount == |r.replies|
    ensures 2 <= |evs| <= 2 * (StageCount - i)
    ensures evs[0] == Fetched(StageRequest(r, i))
    decreases StageCount - i
  {
    [Fetched(StageRequest(r, i))] +
    if r.replies[i] != Ok then [StateSet(Failed(i, ErrorMessage(ThrownBy(i, r.song, r.replies[i]))))]
    else if i == StageCount - 1 then [StateSet(Succeeded(u))]
    else [StateSet(Running(i + 1))] + StageEvents(r, i + 1, u)
  }

  /** Everything one run does: reset the state record to a fresh running
      state before any request, then the stages; at most eleven events. */
  function RunEvents(r: Run, u: ObjectUrl): (evs: seq<Event>)
    requires |r.replies| == StageCount
    ensures 3 <= |evs| <= 2 * StageCount + 1
    ensures evs[0] == StateSet(Running(0)) && evs[1] == Fetched(StageRequest(r, 0))
  {
    [StateSet(Running(0))] + StageEvents(r, 0, u)
  }

  /** The requests in an event sequence, in order. */
  function Fetches(evs: seq<Event>): seq<Request>
  {
    if evs == [] then []
    else (if evs[0].Fetched? then [evs[0].request] else []) + Fetches(evs[1..])
  }

  /** The state records in an event sequence, in order. */
  function States(evs: seq<Event>): seq<VoiceCloneState>
  {
    if evs == [] then []
    else (if evs[0].StateSet? then [evs[0].state] else []) + States(evs[1..])
  }

  /** The requests of stages i..n-1, in stage order. */
  function StageRequests(r: Run, i: nat, n: nat): (rs: seq<Request>)
    requires n <= StageCount
    ensures |rs| == if i <= n then n - i else 0
    ensures forall j :: 0 <= j < |rs| ==> rs[j] == StageRequest(r, i + j)
    decreases n - i
  {
    if i >= n then [] else [StageRequest(r, i)] + StageRequests(r, i + 1, n)
  }

  /** Running states for steps i..n-1. */
  function RunningFrom(i: nat, n: nat): (ss: seq<VoiceCloneState>)
    ensures |ss| == if i <= n then n - i else 0
    ensures forall j :: 0 <= j < |ss| ==> ss[j] == Running(i + j)
    decreases n - i
  {
    if i >= n then [] else [Running(i)] + RunningFrom(i + 1, n)
  }

  lemma {:induction false} FetchesAppend(a: seq<Event>, b: seq<Event>)
    ensures Fetches(a + b) == Fetches(a) + Fetches(b)
    decreases |a|
  {
    if a != [] {
      calc {
        Fetches(a + b);
        (if a[0].Fetched? then [a[0].request] else []) + Fetches((a + b)[1..]);
        { assert (a + b)[1..] == a[1..] + b; FetchesAppend(a[1..], b); }
        (if a[0].Fetched? then [a[0].request] else []) + (Fetches(a[1..]) + Fetches(b));
        Fetches(a) + Fetches(b);
      }
    } else {
      assert a + b == b;
    }
  }

  lemma {:induction false} StatesAppend(a: seq<Event>, b: seq<Event>)
    ensures States(a + b) == States(a) + States(b)
    decreases |a|
  {
    if a != [] {
      calc {
        States(a + b);
        (if a[0].StateSet? then [a[0].state] else []) + States((a + b)[1..]);
        { assert (a + b)[1..] == a[1..] + b; StatesAppend(a[1..], b); }
        (if a[0].StateSet? then [a[0].state] else []) + (States(a[1..]) + States(b));
        States(a) + States(b);
      }
    } else {
      assert a + b == b;
    }
  }

  /** Where the first failure lies relative to a stage reached after only
      successes. */
  lemma FirstFailureFrom(replies: seq<Reply>, i: nat)
    requires i < |replies| && forall j :: 0 <= j < i ==> replies[j] == Ok
    ensures replies[i] != Ok ==> FirstFailure(replies) == i
    ensures replies[i] == Ok ==> FirstFailure(replies) > i
  {
  }

  /** A stage that fails, or the last one, issues its request and ends the
      run with the final state. */
  lemma StageStops(r: Run, i: nat, u: ObjectUrl)
    requires i < StageCount == |r.replies|
    requires forall j :: 0 <= j < i ==> r.replies[j] == Ok
    requires r.replies[i] != Ok || i == StageCount - 1
    ensures StageEvents(r, i, u) == [Fetched(StageRequest(r, i))] + [StateSet(Final(r, u))]
    ensures IssuedCount(r.replies) == i + 1
  {
    FirstFailureFrom(r.replies, i);
  }

  /** A stage that succeeds before the last issues its request, advances
      the step and goes on. */
  lemma StageGoesOn(r: Run, i: nat, u: ObjectUrl)
    requires i < StageCount - 1 && StageCount == |r.replies| && r.replies[i] == Ok
    ensures StageEvents(r, i, u) ==
      [Fetched(StageRequest(r, i))] + ([StateSet(Running(i + 1))] + StageEvents(r, i + 1, u))
  {
  }

  lemma FetchesStop(q: Request, s: VoiceCloneState)
    ensures Fetches([Fetched(q)] + [StateSet(s)]) == [q]
  {
    FetchesAppend([Fetched(q)], [StateSet(s)]);
  }

  lemma FetchesGoOn(q: Request, s: VoiceCloneState, rest: seq<Event>)
    ensures Fetches([Fetched(q)] + ([StateSet(s)] + rest)) == [q] + Fetches(rest)
  {
    FetchesAppend([Fetched(q)], [StateSet(s)] + rest);
    FetchesAppend([StateSet(s)], rest);
  }

  lemma StatesStop(q: Request, s: VoiceCloneState)
    ensures States([Fetched(q)] + [StateSet(s)]) == [s]
  {
    StatesAppend([Fetched(q)], [StateSet(s)]);
  }

  lemma StatesGoOn(q: Request, s: VoiceCloneState, rest: seq<Event>)
    ensures States([Fetched(q)] + ([StateSet(s)] + rest)) == [s] + States(rest)
  {
    StatesAppend([Fetched(q)], [StateSet(s)] + rest);
    StatesAppend([StateSet(s)], rest);
  }

  lemma {:induction false} StageEventsFetches(r: Run, i: nat, u: ObjectUrl)
    requires i < StageCount == |r.replies|
    requires forall j :: 0 <= j < i ==> r.replies[j] == Ok
    ensures Fetches(StageEvents(r, i, u)) == StageRequests(r, i, IssuedCount(r.replies))
    decreases StageCount - i
  {
    FirstFailureFrom(r.replies, i);
    var n := IssuedCount(r.replies);
    assert StageRequests(r, i, n) == [StageRequest(r, i)] + StageRequests(r, i + 1, n);
    if r.replies[i] != Ok || i == StageCount - 1 {
      StageStops(r, i, u);
      FetchesStop(StageRequest(r, i), Final(r, u));
    } else {
      StageGoesOn(r, i, u);
      FetchesGoOn(StageRequest(r, i), Running(i + 1), StageEvents(r, i + 1, u));
      StageEventsFetches(r, i + 1, u);
    }
  }

  lemma {:induction false} StageEventsStates(r: Run, i: nat, u: ObjectUrl)
    requires i < StageCount == |r.replies|
    requires forall j :: 0 <= j < i ==> r.replies[j] == Ok
    ensures States(StageEvents(r, i, u)) == RunningFrom(i + 1, IssuedCount(r.replies)) + [Final(r, u)]
    decreases StageCount - i
  {
    FirstFailureFrom(r.replies, i);
    var n := IssuedCount(r.replies);
    if r.replies[i] != Ok || i == StageCount - 1 {
      StageStops(r, i, u);
      StatesStop(StageRequest(r, i), Final(r, u));
      assert RunningFrom(i + 1, n) == [];
    } else {
      StageGoesOn(r, i, u);
      StatesGoOn(StageRequest(r, i), Running(i + 1), StageEvents(r, i + 1, u));
      StageEventsStates(r, i + 1, u);
      assert RunningFrom(i + 1, n) == [Running(i + 1)] + RunningFrom(i + 2, n);
      SeqAssoc([Running(i + 1)], RunningFrom(i + 2, n), [Final(r, u)]);
    }
  }

  /** The requests of a run are exactly the first IssuedCount stage requests,
      in stage order: stage i is issued only after every earlier stage
      replied ok, and nothing is issued after the first failure. */
  lemma RunFetches(r: Run, u: ObjectUrl)
    requires |r.replies| == StageCount
    ensures Fetches(RunEvents(r, u)) == StageRequests(r, 0, IssuedCount(r.replies))
  {
    FetchesAppend([StateSet(Running(0))], StageEvents(r, 0, u));
    StageEventsFetches(r, 0, u);
  }

  /** The state records of a run: running at steps 0, 1, ... one per
      successful stage (never 5), then the final state. */
  lemma RunStates(r: Run, u: ObjectUrl)
    requires |r.replies| == StageCount
    ensures States(RunEvents(r, u)) == RunningFrom(0, IssuedCount(r.replies)) + [Final(r, u)]
  {
    var head, rest := [StateSet(Running(0))], StageEvents(r, 0, u);
    var n := IssuedCount(r.replies);
    StatesAppend(head, rest);
    StageEventsStates(r, 0, u);
    assert States(head) == [Running(0)];
    assert RunningFrom(0, n) == [Running(0)] + RunningFrom(1, n);
    SeqAssoc([Running(0)], RunningFrom(1, n), [Final(r, u)]);
  }

  /** Stage j is issued iff all stages before it replied ok. */
  lemma IssuedIffEarlierOk(r: Run, u: ObjectUrl, j: nat)
    requires |r.replies| == StageCount && j < StageCount
    ensures j < |Fetches(RunEvents(r, u))| <==> forall i :: 0 <= i < j ==> r.replies[i] == Ok
    ensures j < |Fetches(RunEvents(r, u))| ==> Fetches(RunEvents(r, u))[j] == StageRequest(r, j)
  {
    RunFetches(r, u);
    var k := FirstFailure(r.replies);
    if !(forall i :: 0 <= i < j ==> r.replies[i] == Ok) {
      var i :| 0 <= i < j && r.replies[i] != Ok;
      assert k <= i;
    }
  }

  /** A failure at stage k leaves exactly k + 1 requests issued, the last
      one being stage k's. */
  lemma FailFast(r: Run, u: ObjectUrl, k: nat)
    requires |r.replies| == StageCount && k < StageCount
    requires r.replies[k] != Ok && forall i :: 0 <= i < k ==> r.replies[i] == Ok
    ensures |Fetches(RunEvents(r, u))| == k + 1
    ensures Fetches(RunEvents(r, u))[k] == StageRequest(r, k)
  {
    RunFetches(r, u);
    var f := FirstFailure(r.replies);
    assert f == k;
  }

  /** Running states for steps 0..n-1 followed by a final state at step
      n-1 or later climb step by step and are all consistent. */
  lemma RunningThenFinal(n: nat, f: VoiceCloneState)
    requires 1 <= n <= StageCount && f.currentStep + 1 >= n && Consistent(f)
    ensures var ss := RunningFrom(0, n) + [f];
      (forall i, j :: 0 <= i <= j < |ss| ==> ss[i].currentStep <= ss[j].currentStep) &&
      (forall i :: 0 <= i < |ss| ==> Consistent(ss[i]))
  {
    var ss := RunningFrom(0, n) + [f];
    assert forall i :: 0 <= i < n ==> ss[i] == Running(i);
    assert ss[n] == f;
  }

  /** A run issues between one and five requests and ends no earlier than
      the step of its last request. */
  lemma FinalStep(r: Run, u: ObjectUrl)
    requires |r.replies| == StageCount
    ensures 1 <= IssuedCount(r.replies) <= StageCount
    ensures Final(r, u).currentStep + 1 >= IssuedCount(r.replies)
  {
  }

  /** currentStep never decreases over the state records of a run, and
      every one of them satisfies the invariant. */
  lemma StepNeverDecreases(r: Run, u: ObjectUrl)
    requires |r.replies| == StageCount
    ensures forall i, j :: 0 <= i <= j < |States(RunEvents(r, u))| ==>
      States(RunEvents(r, u))[i].currentStep <= States(RunEvents(r, u))[j].currentStep
    ensures forall i :: 0 <= i < |States(RunEvents(r, u))| ==> Consistent(States(RunEvents(r, u))[i])
  {
    RunStates(r, u);
    FinalStep(r, u);
    FinalOutcome(r, u);
    RunningThenFinal(IssuedCount(r.replies), Final(r, u));
  }

  /** How a run ends: step 5 with a fresh result and no error exactly when
      all five stages replied ok; otherwise stopped at the failing stage with
      that stage's error and no result. */
  lemma FinalOutcome(r: Run, u: ObjectUrl)
    requires |r.replies| == StageCount
    ensures Consistent(Final(r, u)) && !Final(r, u).isProcessing
    ensures Final(r, u).currentStep == StageCount <==> AllOk(r.replies)
    ensures Final(r, u).resultUrl.Some? <==> AllOk(r.replies)
    ensures AllOk(r.replies) ==> Final(r, u) == Succeeded(u) && Outcome(r, u) == Returned(u)
    ensures !AllOk(r.replies) ==>
      var k := FirstFailure(r.replies);
      k < StageCount && r.replies[k] != Ok &&
      Final(r, u) == Failed(k, ErrorMessage(ThrownBy(k, r.song, r.replies[k]))) &&
      Outcome(r, u) == Rethrown(ThrownBy(k, r.song, r.replies[k]))
  {
    var k := FirstFailure(r.replies);
    if !AllOk(r.replies) {
      var i :| 0 <= i < StageCount && r.replies[i] != Ok;
      assert k <= i;
    }
  }

  /** After a run, reset revokes the URL that run created if it succeeded,
      and nothing if it failed; after a reset, another reset revokes nothing. */
  lemma ResetAfterRun(r: Run, u: ObjectUrl)
    requires |r.replies| == StageCount
    ensures UrlList(Final(r, u).resultUrl) == if AllOk(r.replies) then [u] else []
    ensures UrlList(Initial().resultUrl) == []
  {
    FinalOutcome(r, u);
  }

  lemma SeqAssoc<T>(a: seq<T>, b: seq<T>, c: seq<T>)
    ensures (a + b) + c == a + (b + c)
  {
  }

  /** A run whose stage i fails after only successes ends as Failed(i). */
  lemma FailureAt(r: Run, u: ObjectUrl, i: nat)
    requires |r.replies| == StageCount && i < StageCount && r.replies[i] != Ok
    requires forall j :: 0 <= j < i ==> r.replies[j] == Ok
    ensures !AllOk(r.replies)
    ensures Final(r, u) == Failed(i, ErrorMessage(ThrownBy(i, r.song, r.replies[i])))
    ensures Outcome(r, u) == Rethrown(ThrownBy(i, r.song, r.replies[i]))
  {
    assert FirstFailure(r.replies) == i;
  }

  /** A run whose five stages all succeed ends as Succeeded. */
  lemma SuccessAll(r: Run, u: ObjectUrl)
    requires |r.replies| == StageCount && AllOk(r.replies)
    ensures Final(r, u) == Succeeded(u) && Outcome(r, u) == Returned(u)
  {
  }

  /** The hook instance: its state record, the page's object-URL table, and
      ghost logs of every state update and request. */
  class VoiceClone {
    var state: VoiceCloneState
    const urls: UrlRegistry
    ghost var events: seq<Event>

    ghost predicate Valid()
      reads this, urls
    {
      urls.Valid() && Consistent(state) &&
      (state.resultUrl.Some? ==> state.resultUrl.value in urls.live)
    }

    constructor (urls: UrlRegistry)
      requires urls.Valid()
      ensures Valid() && this.urls == urls && state == Initial() && events == []
    {
      this.urls := urls;
      state := Initial();
      events := [];
    }

    method SetState(s: VoiceCloneState)
      modifies this
      ensures state == s && events == old(events) + [StateSet(s)]
    {
      state := s;
      events := events + [StateSet(s)];
    }

    /** `processVoiceClone(voiceBlob, song)`; `result` is the body of the
        `/result` response. The state record is replaced by a fresh running
        state before any request is issued. */
    method ProcessVoiceClone(r: Run, result: Blob) returns (c: Completion)
      requires Valid() && |r.replies| == StageCount
      modifies this, urls
      ensures Valid()
      ensures events == old(events) + RunEvents(r, old(urls.next))
      ensures state == Final(r, old(urls.next)) && c == Outcome(r, old(urls.next))
      ensures urls.live == if AllOk(r.replies) then old(urls.live) + {old(urls.next)} else old(urls.live)
      ensures urls.revoked == old(urls.revoked)
    {
      ghost var u := urls.next;
      ghost var start := events;
      SetState(Running(0));
      c := RunStages(r, 0, result);
      SeqAssoc(start, [StateSet(Running(0))], StageEvents(r, 0, u));
    }

    /** The stages from i on. The five stage blocks of `processVoiceClone`
        share one shape (await the request, throw on a reply that is not ok,
        advance `currentStep`); this method runs block i and then the rest,
        and the catch block's update is the failure branch. */
    method RunStages(r: Run, i: nat, result: Blob) returns (c: Completion)
      requires Valid() && i < StageCount == |r.replies|
      requires forall j :: 0 <= j < i ==> r.replies[j] == Ok
      requires state == Running(i)
      modifies this, urls
      ensures Valid()
      ensures events == old(events) + StageEvents(r, i, old(urls.next))
      ensures state == Final(r, old(urls.next)) && c == Outcome(r, old(urls.next))
      ensures urls.live == if AllOk(r.replies) then old(urls.live) + {old(urls.next)} else old(urls.live)
      ensures urls.revoked == old(urls.revoked)
      decreases StageCount - i
    {
      ghost var u := urls.next;
      ghost var start := events;
      var request := StageRequest(r, i);
      events := events + [Fetched(request)];
      if r.replies[i] != Ok {
        FailureAt(r, u, i);
        var thrown := ThrownBy(i, r.song, r.replies[i]);
        SetState(Failed(i, ErrorMessage(thrown)));
        SeqAssoc(start, [Fetched(request)], [StateSet(state)]);
        assert StageEvents(r, i, u) == [Fetched(request)] + [StateSet(state)];
        c := Rethrown(thrown);
      } else if i < StageCount - 1 {
        SetState(Running(i + 1));
        ghost var rest := StageEvents(r, i + 1, u);
        forall j | 0 <= j < i + 1
          ensures r.replies[j] == Ok
        {
        }
        c := RunStages(r, i + 1, result);
        calc {
          events;
          (start + [Fetched(request)] + [StateSet(Running(i + 1))]) + rest;
          { SeqAssoc(start + [Fetched(request)], [StateSet(Running(i + 1))], rest);
            SeqAssoc(start, [Fetched(request)], [StateSet(Running(i + 1))] + rest); }
          start + ([Fetched(request)] + ([StateSet(Running(i + 1))] + rest));
          start + StageEvents(r, i, u);
        }
      } else {
        SuccessAll(r, u);
        var url := urls.Create(result);
        SetState(Succeeded(url));
        SeqAssoc(start, [Fetched(request)], [StateSet(state)]);
        assert StageEvents(r, i, u) == [Fetched(request)] + [StateSet(state)];
        c := Returned(url);
      }
    }

    /** `reset`: revoke the result URL if there is one, back to the initial
        state. */
    method Reset()
      requires Valid()
      modifies this, urls
      ensures Valid() && state == Initial()
      ensures events == old(events) + [StateSet(Initial())]
      ensures urls.revoked == old(urls.revoked) + UrlList(old(state).resultUrl)
      ensures urls.live == old(urls.live) - UrlSet(old(state).resultUrl)
    {
      if state.resultUrl.Some? {
        urls.Revoke(state.resultUrl.value);
      }
      SetState(Initial());
    }
  }
}
