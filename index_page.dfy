/** The page that wires the session together (`Index`): the inputs the user
    supplied, the backend connection flag, the consent flags, the gate that
    decides whether the pipeline may start, and the reset of the session. */
module IndexPage {
  import opened Platform
  import opened VoiceCloneHook

  const ConsentKey := "voiceclone_consent"
  const DefaultApiUrl := "http://localhost:8000"

  /** Where `handleStartProcessing` stops: at the first missing input, at
      the missing connection, or not at all. */
  datatype Gate = VoiceRequired | SongRequired | BackendNotConnected | Proceed

  /** The gate checks voice, then song, then connection, and lets the run
      start exactly when all three are there. */
  function StartGate(voice: Option<Blob>, song: Option<SongData>, connected: bool): (g: Gate)
    ensures g == Proceed <==> voice.Some? && song.Some? && connected
    ensures voice.None? ==> g == VoiceRequired
    ensures voice.Some? && song.None? ==> g == SongRequired
    ensures voice.Some? && song.Some? && !connected ==> g == BackendNotConnected
  {
    if voice.None? then VoiceRequired
    else if song.None? then SongRequired
    else if !connected then BackendNotConnected
    else Proceed
  }

  /** `isReadyToProcess`: both inputs present and no run in progress, that
      is, no run is in progress and the gate would pass once connected. */
  predicate ReadyToProcess(voice: Option<Blob>, song: Option<SongData>, isProcessing: bool)
    ensures ReadyToProcess(voice, song, isProcessing) <==>
      !isProcessing && StartGate(voice, song, true) == Proceed
  {
    voice.Some? && song.Some? && !isProcessing
  }

  /** The process button's `disabled={!isReadyToProcess || !isConnected}`,
      negated. The button is enabled exactly when the gate would let a run
      start and no run is in progress. */
  predicate ProcessEnabled(voice: Option<Blob>, song: Option<SongData>, isProcessing: bool, connected: bool)
    ensures ProcessEnabled(voice, song, isProcessing, connected) <==>
      StartGate(voice, song, connected) == Proceed && !isProcessing
  {
    !(!ReadyToProcess(voice, song, isProcessing) || !connected)
  }

  class Index {
    var showConsent: bool
    var hasConsented: bool
    var showSetupWizard: bool
    var apiUrl: string
    var isConnected: bool
    var voiceFile: Option<Blob>
    var songData: Option<SongData>
    const hook: VoiceClone
    const storage: LocalStorage

    ghost predicate Valid()
      reads this, hook, hook.urls
    {
      hook.Valid()
    }

    constructor (hook: VoiceClone, storage: LocalStorage)
      requires hook.Valid()
      ensures Valid() && this.hook == hook && this.storage == storage
      ensures showConsent && !hasConsented && !showSetupWizard && !isConnected
      ensures apiUrl == DefaultApiUrl && voiceFile == None && songData == None
    {
      this.hook := hook;
      this.storage := storage;
      showConsent := true;
      hasConsented := false;
      showSetupWizard := false;
      apiUrl := DefaultApiUrl;
      isConnected := false;
      voiceFile := None;
      songData := None;
    }

    /** The consent dialog's `open` prop. */
    function ConsentOpen(): bool
      reads this
    {
      showConsent && !hasConsented
    }

    /** The mount effect: a stored consent of exactly "true" marks the user as
        having consented and hides the dialog; anything else changes nothing. */
    method RestoreConsent()
      modifies this`hasConsented, this`showConsent
      ensures var stored := ConsentKey in storage.items && storage.items[ConsentKey] == "true";
        (stored ==> hasConsented && !showConsent && !ConsentOpen()) &&
        (!stored ==> hasConsented == old(hasConsented) && showConsent == old(showConsent))
    {
      var consent := storage.GetItem(ConsentKey);
      if consent == Some("true") {
        hasConsented := true;
        showConsent := false;
      }
    }

    /** Accept: store the consent and close the dialog. */
    method HandleConsent()
      modifies this`hasConsented, this`showConsent, storage
      ensures storage.items == old(storage.items)[ConsentKey := "true"]
      ensures hasConsented && !showConsent && !ConsentOpen()
    {
      storage.SetItem(ConsentKey, "true");
      hasConsented := true;
      showConsent := false;
    }

    /** Decline only shows a notification: no state changes. */
    method HandleDecline()
      ensures unchanged(this) && unchanged(storage)
    {
    }

    function IsReadyToProcess(): bool
      reads this, hook
    {
      ReadyToProcess(voiceFile, songData, hook.state.isProcessing)
    }

    function ProcessButtonEnabled(): bool
      reads this, hook
    {
      ProcessEnabled(voiceFile, songData, hook.state.isProcessing, isConnected)
    }

    /** `handleStartProcessing`: return at the first missing voice, song or
        connection; otherwise run the pipeline on them. `result` is the body
        the `/result` response would carry. */
    method HandleStartProcessing(replies: seq<Reply>, result: Blob) returns (gate: Gate, c: Option<Completion>)
      requires Valid() && |replies| == StageCount
      modifies hook, hook.urls
      ensures Valid()
      ensures gate == StartGate(voiceFile, songData, isConnected)
      ensures gate != Proceed ==> c == None && unchanged(hook) && unchanged(hook.urls)
      ensures gate == Proceed ==>
        var r := Run(apiUrl, voiceFile.value, songData.value, replies);
        var u := old(hook.urls.next);
        c == Some(Outcome(r, u)) && hook.state == Final(r, u) &&
        hook.events == old(hook.events) + RunEvents(r, u)
    {
      gate := StartGate(voiceFile, songData, isConnected);
      if voiceFile.None? {
        c := None;
        return;
      }
      if songData.None? {
        c := None;
        return;
      }
      if !isConnected {
        c := None;
        return;
      }
      var outcome := hook.ProcessVoiceClone(Run(apiUrl, voiceFile.value, songData.value, replies), result);
      c := Some(outcome);
    }

    /** `handleReset`: reset the hook, then forget both inputs. */
    method HandleReset()
      requires Valid()
      modifies this`voiceFile, this`songData, hook, hook.urls
      ensures Valid() && voiceFile == None && songData == None
      ensures hook.state == Initial()
      ensures hook.urls.revoked == old(hook.urls.revoked) + UrlList(old(hook.state).resultUrl)
      ensures !IsReadyToProcess() && !ProcessButtonEnabled()
    {
      hook.Reset();
      voiceFile := None;
      songData := None;
    }

    /** The setup wizard's `onComplete`: close it and mark the backend as
        connected. */
    method WizardComplete()
      modifies this`showSetupWizard, this`isConnected
      ensures !showSetupWizard && isConnected
    {
      showSetupWizard := false;
      isConnected := true;
    }

    /** The "Setup Guide" button and the wizard's `onClose`. */
    method SetShowSetupWizard(show: bool)
      modifies this`showSetupWizard
      ensures showSetupWizard == show
    {
      showSetupWizard := show;
    }
  }
}
