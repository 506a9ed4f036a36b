/** The `/shorten` slash-command handler: it checks the Slack signature,
    reads the command text, classifies it, validates the URL and the name,
    asks the link service to create the short link, and wraps the reply in
    the response Lambda returns to Slack.

    The form decoding (`parse_qsl`), the link service and HMAC-SHA256 are
    parameters: `decode` maps the request body to its form fields, `upstream`
    maps a request to the service's response. */
module Shorten {
  import opened Outcomes
  import opened Text
  import opened Patterns
  import opened Signature

  // ---- constants ----

  const HelpText: string :=
    "\n" + "You can type `/shorten https://example.com` to shorten a URL with a random name "
    + "(e.g. `https://go.voteamerica.com/umd8sj3f`),\nor you can type "
    + "`/shorten https://example.com as some-name` to shorten a URL to a specific name "
    + "(e.g. `https://go.voteamerica.com/some-name`).\n"

  const NotValidUrlReply: string := "Sorry, that's not a valid URL.\n\n" + HelpText
  const BadNameReply: string :=
    "Sorry, short URL names can only contain letters, numbers, `_`, and `-`.\n\n" + HelpText
  const NotUnderstoodReply: string := "Sorry, I don't understand that.\n\n" + HelpText

  const CouldNotCreatePrefix: string := "Uh oh, I couldn't create that link for you: "

  function CouldNotCreateReply(error: string): string { CouldNotCreatePrefix + error }

  function SuccessReply(shortUrl: string, url: string): string {
    "Success! " + shortUrl + " now goes to " + url
  }

  const ConceiveEndpoint: string := "https://go.voteamerica.com/v1/conceive"
  const ClaimEndpoint: string := "https://go.voteamerica.com/v1/claim"

  // ---- data ----

  /** The two secrets read from the environment at import time. */
  datatype Config = Config(signingSecret: string, apiKey: string)

  /** A POST to the link service: the endpoint, the `x-api-key` header and
      the JSON payload. */
  datatype ApiRequest = ApiRequest(endpoint: string, apiKey: string, payload: map<string, string>)

  /** The link service's answer: the status code and the top-level fields of
      its JSON body. */
  datatype ApiResponse = ApiResponse(status: int, json: map<string, string>)

  /** The JSON body of the reply to Slack. */
  datatype Body = Body(responseType: string, text: string)

  datatype HttpResponse = HttpResponse(statusCode: int, headers: map<string, string>, body: Body)

  /** How an invocation ends: a response to Slack, or an exception. */
  datatype Outcome = Returned(response: HttpResponse) | Raised(error: Exception)

  /** The shapes of command the handler tells apart. */
  datatype Command =
    | CreateRandom(url: string)
    | CreateNamed(url: string, name: string)
    | Unrecognized

  /** What the handler does with a command once it has been validated. */
  datatype Action =
    | Reply(text: string)
    | Post(endpoint: string, url: string, name: Option<string>)

  // ---- the pure steps ----

  /** Slack sometimes surrounds URLs with non-breaking spaces; they become spaces. */
  function Normalise(text: string): (command: string)
    ensures |command| == |text| && '\U{A0}' !in command
    ensures forall i :: 0 <= i < |text| && text[i] != '\U{A0}' ==> command[i] == text[i]
    ensures forall i :: 0 <= i < |text| && text[i] == '\U{A0}' ==> command[i] == ' '
  {
    ReplaceChar(text, '\U{A0}', ' ')
  }

  /** `s.strip().lower() == "help"`. */
  predicate IsHelpWord(s: string) { Lower(Strip(s)) == "help" }

  /** Lines 81 and 103: one token that is not "help", or three tokens whose
      middle one is "as" in any case. */
  function Classify(command: string): (c: Command)
    ensures c.CreateRandom? <==> ' ' !in command && !IsHelpWord(command)
    ensures c.CreateRandom? ==> c.url == command
    ensures c.CreateNamed? ==>
      && ' ' !in c.url && ' ' !in c.name
      && exists middle :: Lower(middle) == "as" && command == c.url + " " + middle + " " + c.name
  {
    var parts := Split(command, ' ');
    if |parts| == 1 && !IsHelpWord(parts[0]) then CreateRandom(parts[0])
    else if |parts| == 3 && Lower(parts[1]) == "as" then
      JoinThree(parts, ' ');
      CreateNamed(parts[0], parts[2])
    else Unrecognized
  }

  /** The URL is checked before the name; only a valid command is posted. */
  function Plan(c: Command): (a: Action)
    ensures a.Post? <==>
      || (c.CreateRandom? && UrlMatches(c.url))
      || (c.CreateNamed? && UrlMatches(c.url) && TokenMatches(c.name))
    ensures a.Post? ==> a.url == c.url
    ensures a.Reply? ==> a.text == NotValidUrlReply || a.text == BadNameReply || a.text == NotUnderstoodReply
    ensures (c.CreateRandom? || c.CreateNamed?) && !UrlMatches(c.url) ==> a == Reply(NotValidUrlReply)
    ensures c.CreateNamed? && UrlMatches(c.url) && !TokenMatches(c.name) ==> a == Reply(BadNameReply)
    ensures c.Unrecognized? ==> a == Reply(NotUnderstoodReply)
    ensures a.Post? && c.CreateRandom? ==> a == Post(ConceiveEndpoint, c.url, None)
    ensures a.Post? && c.CreateNamed? ==> a == Post(ClaimEndpoint, c.url, Some(c.name))
  {
    match c
    case CreateRandom(url) =>
      if !UrlMatches(url) then Reply(NotValidUrlReply) else Post(ConceiveEndpoint, url, None)
    case CreateNamed(url, name) =>
      if !UrlMatches(url) then Reply(NotValidUrlReply)
      else if !TokenMatches(name) then Reply(BadNameReply)
      else Post(ClaimEndpoint, url, Some(name))
    case Unrecognized => Reply(NotUnderstoodReply)
  }

  /** The request of lines 87-95 or 114-123. */
  function Request(endpoint: string, url: string, name: Option<string>, apiKey: string, userName: string): (r: ApiRequest)
    ensures r.endpoint == endpoint && r.apiKey == apiKey
    ensures "destination" in r.payload && r.payload["destination"] == url
    ensures "_app_name" in r.payload && r.payload["_app_name"] == "slack"
    ensures "_slack_user_name" in r.payload && r.payload["_slack_user_name"] == userName
    ensures "token" in r.payload <==> name.Some?
    ensures name.Some? ==> r.payload["token"] == name.value
    ensures r.payload.Keys <= {"destination", "_app_name", "_slack_user_name", "token"}
  {
    var payload := map["destination" := url, "_app_name" := "slack", "_slack_user_name" := userName];
    ApiRequest(endpoint, apiKey, if name.Some? then payload["token" := name.value] else payload)
  }

  /** `requests`' `raise_for_status`: statuses 400 to 599 raise. */
  predicate RaisesForStatus(status: int) { 400 <= status < 600 }

  /** Lines 97-101 and 125-129. A 4xx answer is reported to the user, a 5xx
      answer raises, and any other answer is taken as success. A reply starts
      with the "couldn't create" prefix exactly when the service refused with
      a 4xx; every exception is an `HTTPError` for a 5xx or a `KeyError` for
      the JSON field the status called for. */
  function ReplyToResponse(url: string, resp: ApiResponse): (r: Result<string>)
    ensures r.Ok? ==> (CouldNotCreatePrefix <= r.value <==> 400 <= resp.status < 500)
    ensures r.Ok? && 400 <= resp.status < 500 ==>
      "error" in resp.json && r.value[|CouldNotCreatePrefix|..] == resp.json["error"]
    ensures r.Ok? && !(400 <= resp.status < 500) ==>
      "short_url" in resp.json && r.value == SuccessReply(resp.json["short_url"], url)
    ensures r.Err? <==>
      || 500 <= resp.status < 600
      || (400 <= resp.status < 500 && "error" !in resp.json)
      || (!RaisesForStatus(resp.status) && "short_url" !in resp.json)
    ensures r.Err? ==>
      r.error == (if 500 <= resp.status < 600 then HTTPError(resp.status)
                  else if 400 <= resp.status < 500 then KeyError("error")
                  else KeyError("short_url"))
  {
    if 400 <= resp.status < 500 then
      if "error" in resp.json then Ok(CouldNotCreateReply(resp.json["error"])) else Err(KeyError("error"))
    else if RaisesForStatus(resp.status) then Err(HTTPError(resp.status))
    else if "short_url" in resp.json then
      assert SuccessReply(resp.json["short_url"], url)[0] != CouldNotCreatePrefix[0];
      Ok(SuccessReply(resp.json["short_url"], url))
    else Err(KeyError("short_url"))
  }

  /** Lines 87-101 or 114-129: `params["user_name"]` is read while the
      request is built, so a missing user name raises before anything is
      sent; otherwise exactly one request is sent and its response decides. */
  function Create(endpoint: string, url: string, name: Option<string>, params: map<string, string>,
                  apiKey: string, upstream: ApiRequest -> ApiResponse): (r: (Result<string>, seq<ApiRequest>))
    ensures |r.1| <= 1
    ensures r.1 == [] <==> "user_name" !in params
    ensures r.1 == [] ==> r.0 == Err(KeyError("user_name"))
    ensures r.1 != [] ==>
      && r.1[0] == Request(endpoint, url, name, apiKey, params["user_name"])
      && r.0 == ReplyToResponse(url, upstream(r.1[0]))
  {
    if "user_name" !in params then (Err(KeyError("user_name")), [])
    else
      var request := Request(endpoint, url, name, apiKey, params["user_name"]);
      (ReplyToResponse(url, upstream(request)), [request])
  }

  /** Lines 135-139. */
  function Envelope(reply: string): (r: HttpResponse)
    ensures r.statusCode == 200 && r.headers == map["Content-Type" := "application/json"]
    ensures r.body.responseType == "in_channel" && r.body.text == reply
  {
    HttpResponse(200, map["Content-Type" := "application/json"], Body("in_channel", reply))
  }

  /** Lines 75-133 once the command is normalised: the reply, or the
      exception that ends the invocation, and the requests sent. */
  function Answer(command: string, params: map<string, string>, apiKey: string,
                  upstream: ApiRequest -> ApiResponse): (Result<string>, seq<ApiRequest>)
  {
    match Plan(Classify(command))
    case Reply(text) => (Ok(text), [])
    case Post(endpoint, url, name) => Create(endpoint, url, name, params, apiKey, upstream)
  }

  /** The whole invocation: the outcome and the requests sent to the link service. */
  function Respond(event: Event, config: Config, mac: Mac, decode: string -> map<string, string>,
                   upstream: ApiRequest -> ApiResponse): (Outcome, seq<ApiRequest>)
  {
    match Verify(event, config.signingSecret, mac)
    case Fail(e) => (Raised(e), [])
    case Pass =>
      var params := decode(event.body);
      if "text" !in params then (Raised(KeyError("text")), [])
      else
        var answer := Answer(Normalise(params["text"]), params, config.apiKey, upstream);
        match answer.0
        case Ok(text) => (Returned(Envelope(text)), answer.1)
        case Err(e) => (Raised(e), answer.1)
  }

  // ---- the handler, step by step ----

  /** The POST and the reading of its response, as both branches of the
      handler write them. */
  method CreateLink(endpoint: string, url: string, name: Option<string>, params: map<string, string>,
                    config: Config, upstream: ApiRequest -> ApiResponse)
    returns (result: Result<string>, calls: seq<ApiRequest>)
    ensures (result, calls) == Create(endpoint, url, name, params, config.apiKey, upstream)
  {
    calls := [];
    if "user_name" !in params {
      return Err(KeyError("user_name")), calls;
    }
    var request := Request(endpoint, url, name, config.apiKey, params["user_name"]);
    calls := calls + [request];
    var resp := upstream(request);
    assert calls == [request];
    if 400 <= resp.status < 500 {
      if "error" !in resp.json {
        assert ReplyToResponse(url, resp) == Err(KeyError("error"));
        return Err(KeyError("error")), calls;
      }
      result := Ok(CouldNotCreateReply(resp.json["error"]));
    } else {
      if RaisesForStatus(resp.status) {
        return Err(HTTPError(resp.status)), calls;
      }
      if "short_url" !in resp.json {
        return Err(KeyError("short_url")), calls;
      }
      result := Ok(SuccessReply(resp.json["short_url"], url));
    }
  }

  /** Lines 75-133: the assignments to `reply` in the order the source
      makes them. The first, at line 79, is overwritten on every path. */
  method ChooseReply(command: string, params: map<string, string>, config: Config,
                     upstream: ApiRequest -> ApiResponse)
    returns (result: Result<string>, calls: seq<ApiRequest>)
    ensures (result, calls) == Answer(command, params, config.apiKey, upstream)
  {
    calls := [];
    var commandParts := Split(command, ' ');

    var reply: string;
    if IsHelpWord(command) {
      reply := HelpText;
    }

    if |commandParts| == 1 && !IsHelpWord(commandParts[0]) {
      var url := commandParts[0];
      assert Classify(command) == CreateRandom(url);
      if !UrlMatches(url) {
        reply := NotValidUrlReply;
      } else {
        result, calls := CreateLink(ConceiveEndpoint, url, None, params, config, upstream);
        if result.Err? {
          return;
        }
        reply := result.value;
      }
    } else if |commandParts| == 3 && Lower(commandParts[1]) == "as" {
      var url, token := commandParts[0], commandParts[2];
      assert Classify(command) == CreateNamed(url, token);
      if !UrlMatches(url) {
        reply := NotValidUrlReply;
      } else if !TokenMatches(token) {
        reply := BadNameReply;
      } else {
        result, calls := CreateLink(ClaimEndpoint, url, Some(token), params, config, upstream);
        if result.Err? {
          return;
        }
        reply := result.value;
      }
    } else {
      assert Classify(command) == Unrecognized;
      reply := NotUnderstoodReply;
    }
    result := Ok(reply);
  }

  /** `handler(event, context)`. */
  method Handle(event: Event, config: Config, mac: Mac, decode: string -> map<string, string>,
                upstream: ApiRequest -> ApiResponse)
    returns (outcome: Outcome, calls: seq<ApiRequest>)
    ensures (outcome, calls) == Respond(event, config, mac, decode, upstream)
  {
    calls := [];
    var check := Verify(event, config.signingSecret, mac);
    if check.Fail? {
      return Raised(check.error), calls;
    }
    var params := decode(event.body);
    if "text" !in params {
      return Raised(KeyError("text")), calls;
    }
    var command := Normalise(params["text"]);
    var result;
    result, calls := ChooseReply(command, params, config, upstream);
    if result.Err? {
      return Raised(result.error), calls;
    }
    outcome := Returned(Envelope(result.value));
  }
}
