/** The connection settings page (Settings.tsx): a flag choosing the local or
    the remote database URL, both URLs, their persistence in `localStorage`,
    and the API endpoint the page displays. The service layer does not read
    these settings: it always uses its fixed base URL. */
module SettingsPage {
  import opened Storage
  import SqlServerService

  const UseLocalDbKey: string := "useLocalDb"
  const LocalDbUrlKey: string := "localDbUrl"
  const RemoteDbUrlKey: string := "remoteDbUrl"

  const DefaultLocalDbUrl: string := "http://localhost:3000"
  const DefaultRemoteDbUrl: string := "http://172.16.2.94:3000"

  /** The page's three state fields, as a value. */
  datatype Settings = Settings(useLocalDb: bool, localDbUrl: string, remoteDbUrl: string)

  /** `localStorage.getItem(key) || fallback`: a missing key and an empty
      string both give the fallback. */
  function StoredOr(store: map<string, string>, key: string, fallback: string): (v: string)
    ensures key in store && store[key] != "" ==> v == store[key]
    ensures key !in store || store[key] == "" ==> v == fallback
  {
    if key in store && store[key] != "" then store[key] else fallback
  }

  /** The settings the page loads on mount. */
  function LoadSettings(store: map<string, string>): (s: Settings)
    ensures s.useLocalDb <==> UseLocalDbKey in store && store[UseLocalDbKey] == "true"
    ensures s.localDbUrl == StoredOr(store, LocalDbUrlKey, DefaultLocalDbUrl) && s.localDbUrl != ""
    ensures s.remoteDbUrl == StoredOr(store, RemoteDbUrlKey, DefaultRemoteDbUrl) && s.remoteDbUrl != ""
  {
    Settings(
      UseLocalDbKey in store && store[UseLocalDbKey] == "true",
      StoredOr(store, LocalDbUrlKey, DefaultLocalDbUrl),
      StoredOr(store, RemoteDbUrlKey, DefaultRemoteDbUrl))
  }

  /** `b.toString()`. */
  function BoolString(b: bool): (t: string)
    ensures t == "true" <==> b
    ensures t == "true" || t == "false"
  {
    if b then "true" else "false"
  }

  /** The storage after `handleSave`: the three keys written, nothing else touched. */
  function SavedStore(store: map<string, string>, s: Settings): (r: map<string, string>)
    ensures r.Keys == store.Keys + {UseLocalDbKey, LocalDbUrlKey, RemoteDbUrlKey}
    ensures r[UseLocalDbKey] == BoolString(s.useLocalDb)
    ensures r[LocalDbUrlKey] == s.localDbUrl && r[RemoteDbUrlKey] == s.remoteDbUrl
    ensures forall k :: k in store && k !in {UseLocalDbKey, LocalDbUrlKey, RemoteDbUrlKey} ==> r[k] == store[k]
  {
    store[UseLocalDbKey := BoolString(s.useLocalDb)][LocalDbUrlKey := s.localDbUrl][RemoteDbUrlKey := s.remoteDbUrl]
  }

  /** The URL the flag selects. */
  function SelectedUrl(s: Settings): (u: string)
    ensures s.useLocalDb ==> u == s.localDbUrl
    ensures !s.useLocalDb ==> u == s.remoteDbUrl
  {
    if s.useLocalDb then s.localDbUrl else s.remoteDbUrl
  }

  /** The displayed "API Endpoint": the selected URL followed by `/api`. */
  function ApiEndpoint(s: Settings): (e: string)
    ensures |e| == |SelectedUrl(s)| + 4
    ensures e[..|SelectedUrl(s)|] == SelectedUrl(s) && e[|SelectedUrl(s)|..] == "/api"
  {
    SelectedUrl(s) + "/api"
  }

  /** Saving and loading again gives back the flag and every non-empty URL; an
      empty URL comes back as its default. */
  lemma SaveLoadRoundTrip(store: map<string, string>, s: Settings)
    ensures var t := LoadSettings(SavedStore(store, s));
            t.useLocalDb == s.useLocalDb &&
            t.localDbUrl == (if s.localDbUrl == "" then DefaultLocalDbUrl else s.localDbUrl) &&
            t.remoteDbUrl == (if s.remoteDbUrl == "" then DefaultRemoteDbUrl else s.remoteDbUrl)
  {
  }

  /** Loaded settings survive a save and a reload unchanged. */
  lemma LoadedSettingsAreStable(store: map<string, string>, s: Settings)
    requires s == LoadSettings(store)
    ensures LoadSettings(SavedStore(store, s)) == s
  {
    SaveLoadRoundTrip(store, s);
  }

  /** With nothing stored, the displayed endpoint is the service's fixed base URL. */
  lemma DefaultEndpointIsServiceUrl()
    ensures ApiEndpoint(LoadSettings(map[])) == SqlServerService.ApiUrl
  {
    assert LoadSettings(map[]) == Settings(false, DefaultLocalDbUrl, DefaultRemoteDbUrl);
  }

  /** Choosing the local database changes the displayed endpoint but not the
      URL the services call. */
  lemma LocalChoiceIsNotHonoured(store: map<string, string>)
    requires store == SavedStore(map[], Settings(true, DefaultLocalDbUrl, DefaultRemoteDbUrl))
    ensures ApiEndpoint(LoadSettings(store)) != SqlServerService.ApiUrl
  {
    var e := ApiEndpoint(LoadSettings(store));
    assert LoadSettings(store) == Settings(true, DefaultLocalDbUrl, DefaultRemoteDbUrl);
    assert e[7] == 'l' && SqlServerService.ApiUrl[7] == '1';
  }

  /** The page component and its state fields. */
  class SettingsPage {
    var useLocalDb: bool
    var localDbUrl: string
    var remoteDbUrl: string

    function State(): Settings
      reads this
    {
      Settings(useLocalDb, localDbUrl, remoteDbUrl)
    }

    /** The initial `useState` values. */
    constructor ()
      ensures State() == Settings(false, DefaultLocalDbUrl, DefaultRemoteDbUrl)
    {
      useLocalDb := false;
      localDbUrl := DefaultLocalDbUrl;
      remoteDbUrl := DefaultRemoteDbUrl;
    }

    /** The mount effect: reads the three keys. */
    method Load(storage: LocalStorage)
      modifies this
      ensures State() == LoadSettings(storage.items)
    {
      useLocalDb := UseLocalDbKey in storage.items && storage.items[UseLocalDbKey] == "true";
      localDbUrl := StoredOr(storage.items, LocalDbUrlKey, DefaultLocalDbUrl);
      remoteDbUrl := StoredOr(storage.items, RemoteDbUrlKey, DefaultRemoteDbUrl);
    }

    /** `handleToggleChange`: only the flag changes. */
    method HandleToggleChange(checked: bool)
      modifies this
      ensures useLocalDb == checked
      ensures localDbUrl == old(localDbUrl) && remoteDbUrl == old(remoteDbUrl)
    {
      useLocalDb := checked;
    }

    /** The local URL input's `onChange`. */
    method SetLocalDbUrl(value: string)
      modifies this
      ensures State() == old(State()).(localDbUrl := value)
    {
      localDbUrl := value;
    }

    /** The remote URL input's `onChange`. */
    method SetRemoteDbUrl(value: string)
      modifies this
      ensures State() == old(State()).(remoteDbUrl := value)
    {
      remoteDbUrl := value;
    }

    /** `handleSave`: writes the three keys; the page state is unchanged. */
    method HandleSave(storage: LocalStorage)
      modifies storage
      ensures storage.items == SavedStore(old(storage.items), State())
    {
      storage.items := storage.items[UseLocalDbKey := BoolString(useLocalDb)];
      storage.items := storage.items[LocalDbUrlKey := localDbUrl];
      storage.items := storage.items[RemoteDbUrlKey := remoteDbUrl];
    }

    /** The endpoint line the page renders. */
    function DisplayedEndpoint(): (e: string)
      reads this
      ensures e == ApiEndpoint(State())
    {
      if useLocalDb then localDbUrl + "/api" else remoteDbUrl + "/api"
    }
  }
}
