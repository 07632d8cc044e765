/** Client call sequences, in the way the pages drive the two services:
    what a caller can conclude from the services' contracts alone. */
module Scenarios {
  import opened Wrappers
  import opened Preferences
  import opened Storage
  import opened Api

  /** Two saves into an empty store, then a listing: newest first. */
  method SaveTwiceThenList() returns (history: History)
    ensures |history| == 2
    ensures history[0].imageDataUrl == "dataB" && history[0].teiXml == "<TEI/>B"
    ensures history[1].imageDataUrl == "dataA" && history[1].teiXml == "<TEI/>A"
  {
    var prefs := new Store<History>();
    var first := StorageService.SaveConversion(prefs, "dataA", "<TEI/>A", 1000, 1000, None, None);
    var second := StorageService.SaveConversion(prefs, "dataB", "<TEI/>B", 2000, 2000, None, None);
    history := StorageService.GetHistory(prefs, None);
  }

  /** Whatever was stored, clearing leaves nothing to list, and the next
      save starts again from a one-entry list; deleting an unknown id then
      changes nothing. */
  method ClearThenSave(seed: History, imageDataUrl: string, teiXml: string, now: nat)
    returns (afterClear: History, afterSave: History, afterDelete: History)
    ensures afterClear == []
    ensures afterSave == [NewItem(now, now, imageDataUrl, teiXml)]
    ensures afterDelete == afterSave
  {
    var prefs := new Store<History>();
    prefs.entries := map[HISTORY_KEY := Encoded(seed)];
    var cleared := StorageService.ClearHistory(prefs, None);
    afterClear := StorageService.GetHistory(prefs, None);
    var saved := StorageService.SaveConversion(prefs, imageDataUrl, teiXml, now, now, None, None);
    afterSave := StorageService.GetHistory(prefs, None);
    var unknownId := if afterSave[0].id == "unknown" then "other" else "unknown";
    WithoutAbsent(afterSave, unknownId);
    var deleted := StorageService.DeleteHistoryItem(prefs, unknownId, None, None);
    afterDelete := StorageService.GetHistory(prefs, None);
  }

  /** No credential stored: the fixed error, and the provider is never
      reached. */
  method NoCredential(network: Network, imageDataUrl: string)
    returns (r: ConversionResponse, ghost calls: seq<Invocation>)
    ensures r == Failed(NO_API_KEY_MESSAGE)
    ensures calls == []
  {
    var prefs := new Store<History>();
    var api := new ApiService(network);
    r := api.ConvertImageToTEI(prefs, imageDataUrl, None);
    calls := api.calls;
  }

  /** A stub provider swapped in, a credential stored: the stub's result
      comes back exactly, and the stub saw the image and the credential. */
  method StubProvider(network: Network, imageDataUrl: string)
    returns (r: ConversionResponse, ghost calls: seq<Invocation>)
    ensures r == Succeeded("<TEI>ok</TEI>")
    ensures calls == [Invocation(imageDataUrl, "sk-test")]
  {
    var prefs := new Store<History>();
    prefs.entries := map[API_KEY_KEY := Text("sk-test")];
    var api := new ApiService(network);
    api.SetProvider(CustomProvider((img: string, key: string) => Returned(Succeeded("<TEI>ok</TEI>"))));
    r := api.ConvertImageToTEI(prefs, imageDataUrl, None);
    calls := api.calls;
  }

  /** The home page's sequence: convert, and on success record the
      conversion. The credential survives the save, and the stored list
      then starts with the converted document. */
  method ConvertThenRecord(network: Network, imageDataUrl: string, apiKey: string, now: nat)
    returns (r: ConversionResponse, history: History, credential: Option<string>)
    requires apiKey != ""
    ensures r == OpenAIConvert(network, imageDataUrl, apiKey)
    ensures credential == Some(apiKey)
    ensures r.success ==> |history| == 1 && history[0].imageDataUrl == imageDataUrl
                          && Some(history[0].teiXml) == r.teiXml
    ensures !r.success ==> history == []
  {
    var prefs := new Store<History>();
    prefs.entries := map[API_KEY_KEY := Text(apiKey)];
    var api := new ApiService(network);
    r := api.ConvertImageToTEI(prefs, imageDataUrl, None);
    if r.success && r.teiXml.Some? && r.teiXml.value != "" {
      var saved := StorageService.SaveConversion(prefs, imageDataUrl, r.teiXml.value, now, now, None, None);
    }
    history := StorageService.GetHistory(prefs, None);
    var key := ApiService.GetApiKey(prefs, None);
    credential := if key.Ok? then Some(key.value) else None;
  }
}
