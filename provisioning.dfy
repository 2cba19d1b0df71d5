/**
 Credential provisioning: the persisted "wifiCreds" namespace, the
 "is provisioned" test, the captive portal's `/save` handler, and the boot
 decision between connecting and starting the access point.
 */
module Provisioning {
  import opened Feeds

  /** The "wifiCreds" Preferences namespace: key to stored string. */
  type Store = map<string, string>

  /** The parameters of a POST body: name to value; a name is present or not. */
  type Form = map<string, string>

  /** `preferences.getString(key, "")`: an absent key reads as the empty string. */
  function GetString(store: Store, key: string): (v: string)
    ensures key in store ==> v == store[key]
    ensures v != "" ==> key in store
  {
    if key in store then store[key] else ""
  }

  /** The five credential keys: the ones a save writes and that must all be non-empty. */
  const CredentialKeys: set<string> := {"wifi_ssid", "wifi_password", "aio_username", "aio_direction", "aio_key"}

  /** `credentialsExist()`: every required key holds a non-empty value. */
  function CredentialsExist(store: Store): (b: bool)
    ensures b <==>
      && GetString(store, "wifi_ssid") != ""
      && GetString(store, "wifi_password") != ""
      && GetString(store, "aio_username") != ""
      && GetString(store, "aio_direction") != ""
      && GetString(store, "aio_key") != ""
    ensures b ==> CredentialKeys <= store.Keys
  {
    forall k :: k in CredentialKeys ==> GetString(store, k) != ""
  }

  /** The program-wide credential strings. */
  datatype Globals = Globals(wifiSsid: string, wifiPassword: string, aioUsername: string,
                             aioKey: string, aioDirection: string)

  /** Every global `String` starts out empty. */
  const BootGlobals := Globals("", "", "", "", "")

  datatype Response = Response(status: nat, contentType: string, body: string)

  const Saved := Response(200, "text/plain", "Credentials saved successfully!")
  const MissingParameters := Response(400, "text/plain", "Error: Missing parameters")

  /** What the `/save` handler leaves behind; `restart` is the `ESP.restart()` that follows a save. */
  datatype SaveResult = SaveResult(response: Response, store: Store, globals: Globals, restart: bool)

  /** The form fields the handler insists on. */
  const FormFields: set<string> := {"ssid", "password", "aio_direction", "aio_username", "aio_key"}

  /** The `hasParam(…, true)` conjunction: every required field is in the POST body. */
  predicate HasAllParams(form: Form)
    ensures HasAllParams(form) <==>
      "ssid" in form && "password" in form && "aio_direction" in form
      && "aio_username" in form && "aio_key" in form
  {
    forall f :: f in FormFields ==> f in form
  }

  /** The five `putString` calls of a save, in the handler's order. */
  function PutCredentials(store: Store, g: Globals): (s: Store)
    ensures s.Keys == store.Keys + CredentialKeys
    ensures s["wifi_ssid"] == g.wifiSsid && s["wifi_password"] == g.wifiPassword
    ensures s["aio_username"] == g.aioUsername && s["aio_key"] == g.aioKey
    ensures s["aio_direction"] == g.aioDirection
    ensures forall k :: k in store && k !in CredentialKeys ==> s[k] == store[k]
  {
    store["wifi_ssid" := g.wifiSsid]["wifi_password" := g.wifiPassword]
         ["aio_username" := g.aioUsername]["aio_key" := g.aioKey]["aio_direction" := g.aioDirection]
  }

  /**
   The `/save` handler as written: ssid, password and direction come from
   the form, user name and key from the current globals.
   */
  function SaveCredentials(form: Form, store: Store, g: Globals): (r: SaveResult)
    ensures r.response == Saved || r.response == MissingParameters
    ensures r.response == MissingParameters <==> exists f :: f in FormFields && f !in form
    ensures r.response == MissingParameters ==> r.store == store && r.globals == g && !r.restart
    ensures r.response == Saved ==>
      && HasAllParams(form)
      && r.restart
      && r.globals == g.(wifiSsid := form["ssid"], wifiPassword := form["password"],
                         aioDirection := form["aio_direction"])
      && r.store.Keys == store.Keys + CredentialKeys
      && r.store["wifi_ssid"] == form["ssid"]
      && r.store["wifi_password"] == form["password"]
      && r.store["aio_direction"] == form["aio_direction"]
      && r.store["aio_username"] == g.aioUsername
      && r.store["aio_key"] == g.aioKey
      && (forall k :: k in store && k !in CredentialKeys ==> r.store[k] == store[k])
  {
    if HasAllParams(form) then
      var g' := g.(wifiSsid := form["ssid"], wifiPassword := form["password"],
                   aioDirection := form["aio_direction"]);
      SaveResult(Saved, PutCredentials(store, g'), g', true)
    else
      SaveResult(MissingParameters, store, g, false)
  }

  /**
   The `/save` handler as its form evidently intends: all five values come
   from the form.
   */
  function SaveCredentialsIntended(form: Form, store: Store, g: Globals): (r: SaveResult)
    ensures r.response == MissingParameters <==> !HasAllParams(form)
    ensures r.response == MissingParameters ==> r.store == store && r.globals == g && !r.restart
    ensures r.response == Saved ==>
      && HasAllParams(form)
      && r.restart
      && r.globals == Globals(form["ssid"], form["password"], form["aio_username"],
                              form["aio_key"], form["aio_direction"])
      && r.store.Keys == store.Keys + CredentialKeys
      && r.store["wifi_ssid"] == form["ssid"]
      && r.store["wifi_password"] == form["password"]
      && r.store["aio_username"] == form["aio_username"]
      && r.store["aio_key"] == form["aio_key"]
      && r.store["aio_direction"] == form["aio_direction"]
      && (forall k :: k in store && k !in CredentialKeys ==> r.store[k] == store[k])
  {
    if HasAllParams(form) then
      var g' := Globals(form["ssid"], form["password"], form["aio_username"],
                        form["aio_key"], form["aio_direction"]);
      SaveResult(Saved, PutCredentials(store, g'), g', true)
    else
      SaveResult(MissingParameters, store, g, false)
  }

  /** How `setup()` leaves the device: connected with loaded globals and feeds, or serving the portal. */
  datatype BootMode = Provisioned(globals: Globals, feeds: FeedSet) | AccessPoint

  /** `setup()` up to the network: load credentials and rebuild the feeds, or start the portal. */
  function Setup(store: Store): (m: BootMode)
    ensures m.Provisioned? <==> CredentialsExist(store)
    ensures m.Provisioned? ==>
      && m.globals.wifiSsid == store["wifi_ssid"] != ""
      && m.globals.wifiPassword == store["wifi_password"] != ""
      && m.globals.aioUsername == store["aio_username"] != ""
      && m.globals.aioDirection == store["aio_direction"] != ""
      && m.globals.aioKey == store["aio_key"] != ""
      && m.feeds == BuildFeeds(m.globals.aioUsername, m.globals.aioDirection)
  {
    if CredentialsExist(store) then
      var g := Globals(GetString(store, "wifi_ssid"), GetString(store, "wifi_password"),
                       GetString(store, "aio_username"), GetString(store, "aio_key"),
                       GetString(store, "aio_direction"));
      Provisioned(g, BuildFeeds(g.aioUsername, g.aioDirection))
    else
      AccessPoint
  }

  /**
   As written, a save made from the portal can never provision the device:
   the portal runs only after booting unprovisioned, when the user name and
   key globals are still empty, and those empty values are what gets stored.
   */
  lemma SaveAsWrittenNeverProvisions(form: Form, store: Store)
    requires !CredentialsExist(store)
    ensures var r := SaveCredentials(form, store, BootGlobals);
      Setup(r.store) == AccessPoint
  {
    var r := SaveCredentials(form, store, BootGlobals);
    if r.response == Saved {
      assert GetString(r.store, "aio_username") == "";
    }
  }

  /** A concrete complete form whose save, as written, leaves the device unprovisioned. */
  lemma SaveAsWrittenExample()
    ensures var form := map["ssid" := "home", "password" := "secret", "aio_username" := "alice",
                             "aio_key" := "k", "aio_direction" := "north"];
      var r := SaveCredentials(form, map[], BootGlobals);
      r.response == Saved && !CredentialsExist(r.store)
  {
    var form := map["ssid" := "home", "password" := "secret", "aio_username" := "alice",
                    "aio_key" := "k", "aio_direction" := "north"];
    var r := SaveCredentials(form, map[], BootGlobals);
    assert HasAllParams(form);
    assert GetString(r.store, "aio_username") == "";
  }

  /**
   With the intended handler, a complete form saved from the portal and
   followed by the restart boots provisioned with exactly the submitted
   values, if and only if every submitted value is non-empty.
   */
  lemma ProvisioningRoundTrip(form: Form, store: Store, g: Globals)
    requires HasAllParams(form)
    ensures var r := SaveCredentialsIntended(form, store, g);
      && r.response == Saved && r.restart
      && (Setup(r.store).Provisioned? <==>
            form["ssid"] != "" && form["password"] != "" && form["aio_username"] != ""
            && form["aio_key"] != "" && form["aio_direction"] != "")
      && (Setup(r.store).Provisioned? ==>
            Setup(r.store) == Provisioned(r.globals, BuildFeeds(form["aio_username"], form["aio_direction"])))
  {
    var r := SaveCredentialsIntended(form, store, g);
    assert GetString(r.store, "wifi_ssid") == form["ssid"];
    assert GetString(r.store, "wifi_password") == form["password"];
    assert GetString(r.store, "aio_username") == form["aio_username"];
    assert GetString(r.store, "aio_key") == form["aio_key"];
    assert GetString(r.store, "aio_direction") == form["aio_direction"];
  }
}
