/** The backend badge and its dialog (`BackendStatus`): the health probe,
    saving a new API URL, the manual refresh and the restore of a saved URL
    when the page mounts. The probe's outcome reaches the model as a Reply. */
module Backend {
  import opened Platform
  import opened Text
  import IndexPage

  const ApiUrlKey := "voiceclone_api_url"

  /** The address probed for a base URL. */
  function HealthUrl(url: string): string
  {
    url + "/health"
  }

  class BackendStatus {
    var isChecking: bool
    var tempUrl: string
    /** Every URL probed, in order. */
    ghost var probes: seq<string>
    const page: IndexPage.Index
    const storage: LocalStorage

    constructor (page: IndexPage.Index, storage: LocalStorage)
      ensures this.page == page && this.storage == storage
      ensures !isChecking && tempUrl == page.apiUrl && probes == []
    {
      this.page := page;
      this.storage := storage;
      isChecking := false;
      tempUrl := page.apiUrl;
      probes := [];
    }

    /** The text field's `onChange`. */
    method SetTempUrl(u: string)
      modifies this`tempUrl
      ensures tempUrl == u
    {
      tempUrl := u;
    }

    /** `checkConnection(url)`: probe `url/health` and record the outcome on
        the page. Only a response with `ok` set counts as connected; a
        response without it and a thrown error both report false, so it
        never throws. It leaves `isChecking` set; its callers clear it. */
    method CheckConnection(url: string, reply: Reply) returns (connected: bool)
      modifies this`isChecking, this`probes, page`isConnected
      ensures connected <==> reply == Ok
      ensures page.isConnected == connected && isChecking
      ensures probes == old(probes) + [HealthUrl(url)]
    {
      isChecking := true;
      probes := probes + [HealthUrl(url)];
      if reply == Ok {
        page.isConnected := true;
        return true;
      }
      page.isConnected := false;
      connected := false;
    }

    /** `handleSaveUrl`: a blank URL is refused before any probe; otherwise
        the URL is probed and adopted and stored only if the probe
        succeeded. */
    method HandleSaveUrl(reply: Reply)
      modifies this`isChecking, this`probes, page`isConnected, page`apiUrl, storage
      ensures IsBlank(old(tempUrl)) ==>
        probes == old(probes) && isChecking == old(isChecking) &&
        page.isConnected == old(page.isConnected) && page.apiUrl == old(page.apiUrl) &&
        storage.items == old(storage.items)
      ensures !IsBlank(old(tempUrl)) ==>
        probes == old(probes) + [HealthUrl(tempUrl)] && !isChecking &&
        page.isConnected == (reply == Ok) &&
        page.apiUrl == (if reply == Ok then tempUrl else old(page.apiUrl)) &&
        storage.items == (if reply == Ok then old(storage.items)[ApiUrlKey := tempUrl] else old(storage.items))
    {
      TrimEmptyIffBlank(tempUrl);
      if Trim(tempUrl) == [] {
        return;
      }
      var connected := CheckConnection(tempUrl, reply);
      if connected {
        page.apiUrl := tempUrl;
        storage.SetItem(ApiUrlKey, tempUrl);
      }
      isChecking := false;
    }

    /** The refresh button: probe the URL in the field, then clear
        `isChecking` whatever happened. */
    method Refresh(reply: Reply)
      modifies this`isChecking, this`probes, page`isConnected
      ensures probes == old(probes) + [HealthUrl(tempUrl)]
      ensures page.isConnected == (reply == Ok) && !isChecking
    {
      var _ := CheckConnection(tempUrl, reply);
      isChecking := false;
    }

    /** The mount effect: a saved URL that is not empty becomes both the
        page's API URL and the field's text, and is then probed; without one
        nothing happens. */
    method RestoreOnMount(reply: Reply)
      modifies this`isChecking, this`probes, this`tempUrl, page`isConnected, page`apiUrl
      ensures var saved := if ApiUrlKey in storage.items then storage.items[ApiUrlKey] else "";
        (saved == "" ==> unchanged(this) && page.isConnected == old(page.isConnected) &&
                         page.apiUrl == old(page.apiUrl)) &&
        (saved != "" ==> page.apiUrl == saved && tempUrl == saved &&
                         probes == old(probes) + [HealthUrl(saved)] &&
                         page.isConnected == (reply == Ok) && !isChecking)
    {
      var saved := storage.GetItem(ApiUrlKey);
      if saved.Some? && saved.value != "" {
        page.apiUrl := saved.value;
        tempUrl := saved.value;
        var _ := CheckConnection(saved.value, reply);
        isChecking := false;
      }
    }
  }
}
