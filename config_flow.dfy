/** The user step of the setup form (custom_components/kstar_solar/config_flow.py):
    host normalisation, the config entry it creates, and the error key the
    form is shown again with when the connection test raises. */
module ConfigFlow {
  import opened Basics
  import opened Text
  import KstarApi

  /** The host starts with one of the two schemes the form accepts; the test
      is case-sensitive. */
  predicate HasScheme(s: string) {
    StartsWith(s, "http://") || StartsWith(s, "https://")
  }

  /** Trailing slashes removed, and "http://" put in front unless a scheme
      is already there. */
  function NormaliseHost(input: string): (h: string)
    ensures HasScheme(h)
  {
    var host := StripTrailingSlashes(input);
    if HasScheme(host) then host
    else
      assert ("http://" + host)[..|"http://"|] == "http://";
      "http://" + host
  }

  /** The two ways normalisation goes, decided on the stripped input. */
  lemma NormaliseHostCases(input: string)
    ensures var host := StripTrailingSlashes(input);
      && (HasScheme(host) ==> NormaliseHost(input) == host)
      && (!HasScheme(host) ==> NormaliseHost(input) == "http://" + host)
  {
  }

  /** A host with something left after stripping has no trailing slash once
      normalised. */
  lemma NormalisedHasNoTrailingSlash(input: string)
    requires StripTrailingSlashes(input) != ""
    ensures !EndsWith(NormaliseHost(input), "/")
  {
    var host := StripTrailingSlashes(input);
    var h := NormaliseHost(input);
    assert h[|h| - 1] == host[|host| - 1];
  }

  /** Normalising a normalised host changes nothing, as long as the
      stripped input was not empty. */
  lemma NormaliseHostIdempotent(input: string)
    requires StripTrailingSlashes(input) != ""
    ensures NormaliseHost(NormaliseHost(input)) == NormaliseHost(input)
  {
    var h := NormaliseHost(input);
    NormalisedHasNoTrailingSlash(input);
    assert h[|h| - 1..] == [h[|h| - 1]];
    StripUnchanged(h);
  }

  /** The empty host is where idempotence fails: it normalises to "http://",
      whose own slashes are then stripped. */
  lemma NormaliseEmptyHost()
    ensures NormaliseHost("") == "http://"
    ensures NormaliseHost("http://") == "http://http:"
  {
    assert StripTrailingSlashes("http://") == "http:";
    assert !StartsWith("http:", "http://") && !StartsWith("http:", "https://");
  }

  /** An upper-case scheme is not recognised and gets a second one. */
  lemma SchemeIsCaseSensitive()
    ensures NormaliseHost("HTTP://x") == "http://HTTP://x"
  {
    assert "HTTP://x"[..7][0] != "http://"[0] && "HTTP://x"[..8][0] != "https://"[0];
  }

  /** The exceptions the connection test can raise, as the handlers tell
      them apart. */
  datatype FlowError = CannotConnect | InvalidAuth | Unexpected

  /** What the step hands back: a new config entry, or the form again with
      an errors dictionary. */
  datatype FlowResult = CreateEntry(title: string, data: map<string, string>) | ShowForm(errors: map<string, string>)

  /** The key written to `errors["base"]` by each handler. */
  function ErrorKey(e: FlowError): (k: string)
    ensures k == "cannot_connect" <==> e == CannotConnect
    ensures k == "invalid_auth" <==> e == InvalidAuth
    ensures k == "unknown" <==> e == Unexpected
  {
    match e
    case CannotConnect => "cannot_connect"
    case InvalidAuth => "invalid_auth"
    case Unexpected => "unknown"
  }

  /** The form fields the step reads. */
  predicate HasFields(input: map<string, string>) {
    "host" in input && "station_id" in input && "refresh_token" in input
  }

  /** The `config_data` of the new entry. */
  function EntryData(input: map<string, string>): (d: map<string, string>)
    requires HasFields(input)
    ensures d.Keys == {"host", "station_id", "refresh_token"}
    ensures d["host"] == NormaliseHost(input["host"]) && HasScheme(d["host"])
    ensures d["station_id"] == input["station_id"] && d["refresh_token"] == input["refresh_token"]
  {
    map["host" := NormaliseHost(input["host"]),
        "station_id" := input["station_id"],
        "refresh_token" := input["refresh_token"]]
  }

  /** The title of the new entry. */
  function EntryTitle(stationId: string): (t: string)
    ensures StartsWith(t, "Kstar Solar - ") && t[|"Kstar Solar - "|..] == stationId
  {
    "Kstar Solar - " + stationId
  }

  /** The stored host is the host the client ends up using (the client
      strips trailing slashes again) exactly when the stripped input was not
      empty; an empty host is stored as "http://" and used as "http:". */
  lemma EntryHostReachesClient(input: map<string, string>)
    requires HasFields(input)
    ensures var d := EntryData(input);
      var c := KstarApi.Init(d["host"], d["station_id"], d["refresh_token"]);
      && (c.host == d["host"] <==> StripTrailingSlashes(input["host"]) != "")
      && c.stationId == input["station_id"] && c.refreshToken == Some(input["refresh_token"])
  {
    var d := EntryData(input);
    if StripTrailingSlashes(input["host"]) != "" {
      NormaliseHostIdempotent(input["host"]);
      NormalisedHasNoTrailingSlash(input["host"]);
      var h := d["host"];
      assert h[|h| - 1..] == [h[|h| - 1]];
      StripUnchanged(h);
    } else {
      NormaliseEmptyHost();
      assert d["host"] == "http://";
      assert StripTrailingSlashes("http://") == "http:";
    }
  }

  /** `async_step_user`. `userInput` is the submitted form (None when the
      form is first shown) and `probe` what the connection test raised. A
      missing form field raises a KeyError, which the catch-all handler turns
      into "unknown". */
  method StepUser(userInput: Option<map<string, string>>, probe: Outcome<FlowError>) returns (r: FlowResult)
    ensures userInput.None? ==> r == ShowForm(map[])
    ensures r.CreateEntry? <==> userInput.Some? && HasFields(userInput.value) && probe.Pass?
    ensures r.CreateEntry? ==>
      r.title == EntryTitle(userInput.value["station_id"]) && r.data == EntryData(userInput.value)
    ensures userInput.Some? && !HasFields(userInput.value) ==> r == ShowForm(map["base" := "unknown"])
    ensures userInput.Some? && HasFields(userInput.value) && probe.Fail? ==>
      r == ShowForm(map["base" := ErrorKey(probe.error)])
  {
    var errors: map<string, string> := map[];
    if userInput.Some? {
      var input := userInput.value;
      var raised: FlowError;
      if !HasFields(input) {
        raised := Unexpected;
      } else if probe.Fail? {
        raised := probe.error;
      } else {
        return CreateEntry(EntryTitle(input["station_id"]), EntryData(input));
      }
      errors := errors["base" := ErrorKey(raised)];
    }
    return ShowForm(errors);
  }
}
