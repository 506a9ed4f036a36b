/** What the handler promises, proved about the model of `handler`. */
module ShortenProperties {
  import opened Outcomes
  import opened Text
  import opened Patterns
  import opened Signature
  import opened Shorten

  // ---- tokens ----

  /** The command is cut at every single space: the tokens hold neither a
      space nor a non-breaking space, and re-joined with " " they give back
      the normalised text. */
  lemma CommandTokens(text: string)
    ensures var parts := Split(Normalise(text), ' ');
      && Join(parts, ' ') == Normalise(text)
      && forall i :: 0 <= i < |parts| ==> ' ' !in parts[i] && '\U{A0}' !in parts[i]
  {
    var command := Normalise(text);
    var parts := Split(command, ' ');
    forall i | 0 <= i < |parts| ensures '\U{A0}' !in parts[i] {
      JoinPartChars(parts, ' ', i);
    }
  }

  /** Every character of a piece is a character of the joined string. */
  lemma {:induction false} JoinPartChars(parts: seq<string>, sep: char, i: nat)
    requires i < |parts|
    ensures forall c :: c in parts[i] ==> c in Join(parts, sep)
  {
    if |parts| > 1 {
      if i > 0 {
        JoinPartChars(parts[1..], sep, i - 1);
      }
      assert Join(parts, sep) == parts[0] + [sep] + Join(parts[1..], sep);
    }
  }

  // ---- "help" ----

  /** Every non-space character of a string that strips and lower-cases to
      "help" is one of the letters of "help". */
  lemma HelpWordChars(s: string, i: nat)
    requires IsHelpWord(s) && i < |s| && !IsSpace(s[i])
    ensures LowerChar(s[i]) in "help"
  {
    var p := PrefixLen(s, IsSpace);
    var r := Strip(s);
    assert p <= i < p + |r|;
    assert r[i - p] == s[i];
    assert Lower(r)[i - p] == LowerChar(s[i]);
  }

  /** A "help" command has no token "as" between two spaces. */
  lemma HelpWordMiddle(command: string, a: string, b: string, c: string)
    requires IsHelpWord(command)
    requires command == a + " " + b + " " + c
    ensures Lower(b) != "as"
  {
    if b != [] {
      var i := |a| + 1;
      assert command[i] == b[0];
      assert Lower(b)[0] == LowerChar(b[0]);
      if !IsSpace(b[0]) {
        HelpWordChars(command, i);
      }
    }
  }

  /** Lines 78-81: a command that strips and lower-cases to "help" is not
      taken by either branch, so it gets the "don't understand" reply. */
  lemma HelpWordNotUnderstood(command: string)
    requires IsHelpWord(command)
    ensures Classify(command) == Unrecognized
  {
    var parts := Split(command, ' ');
    if |parts| == 3 {
      JoinThree(parts, ' ');
      HelpWordMiddle(command, parts[0], parts[1], parts[2]);
    }
  }

  /** The help text starts with "\n". */
  lemma HelpTextHead()
    ensures |HelpText| > 0 && HelpText[0] == '\n'
  {
  }

  /** The fixed replies are the help text with a sentence in front. */
  lemma FixedRepliesLonger()
    ensures |NotValidUrlReply| > |HelpText| && |BadNameReply| > |HelpText|
    ensures |NotUnderstoodReply| > |HelpText|
  {
  }

  /** The replies built from the service's answer start with "Uh oh" or "Success". */
  lemma ResponseReplyHead(url: string, resp: ApiResponse)
    ensures var r := ReplyToResponse(url, resp);
      r.Ok? ==> |r.value| > 0 && (r.value[0] == 'U' || r.value[0] == 'S')
  {
    assert CouldNotCreatePrefix[0] == 'U';
  }

  /** Lines 78-133: the reply chosen is never the bare help text, because
      the assignment at line 79 is overwritten on every path. */
  lemma AnswerNeverHelpText(command: string, params: map<string, string>, apiKey: string,
                            upstream: ApiRequest -> ApiResponse)
    ensures Answer(command, params, apiKey, upstream).0.Ok? ==>
      Answer(command, params, apiKey, upstream).0.value != HelpText
  {
    match Plan(Classify(command))
    case Reply(text) =>
      FixedRepliesLonger();
    case Post(endpoint, url, name) =>
      if "user_name" in params {
        var request := Request(endpoint, url, name, apiKey, params["user_name"]);
        ResponseReplyHead(url, upstream(request));
        HelpTextHead();
      }
  }

  // ---- classification ----

  /** Line 103, the other direction: three space-free tokens whose middle
      one lower-cases to "as" always name a link. */
  lemma ClassifyNamed(url: string, middle: string, name: string)
    requires ' ' !in url && ' ' !in middle && ' ' !in name
    requires Lower(middle) == "as"
    ensures Classify(url + " " + middle + " " + name) == CreateNamed(url, name)
  {
    var parts := [url, middle, name];
    JoinThree(parts, ' ');
    SplitJoin(parts, ' ');
  }

  // ---- the whole invocation ----

  /** Line 69: a request that fails the signature check raises before its
      body is decoded or anything is sent, whatever the form and the service. */
  lemma UnverifiedRaises(event: Event, config: Config, mac: Mac,
                         decode: string -> map<string, string>, upstream: ApiRequest -> ApiResponse)
    requires Verify(event, config.signingSecret, mac).Fail?
    ensures Respond(event, config, mac, decode, upstream)
      == (Raised(Verify(event, config.signingSecret, mac).error), [])
  {
  }

  /** Lines 135-139: whenever the handler returns, it returns the fixed envelope. */
  lemma ReturnedIsEnvelope(event: Event, config: Config, mac: Mac,
                           decode: string -> map<string, string>, upstream: ApiRequest -> ApiResponse)
    ensures var outcome := Respond(event, config, mac, decode, upstream).0;
      outcome.Returned? ==>
        && outcome.response.statusCode == 200
        && outcome.response.headers == map["Content-Type" := "application/json"]
        && outcome.response.body.responseType == "in_channel"
        && outcome.response.body.text != HelpText
  {
    if Verify(event, config.signingSecret, mac).Pass? {
      var params := decode(event.body);
      if "text" in params {
        AnswerNeverHelpText(Normalise(params["text"]), params, config.apiKey, upstream);
      }
    }
  }

  /** Lines 78-133 for a whole request: a verified "help" gets the "don't
      understand" reply and nothing is sent. */
  lemma HelpNotUnderstood(event: Event, config: Config, mac: Mac,
                          decode: string -> map<string, string>, upstream: ApiRequest -> ApiResponse)
    requires Verify(event, config.signingSecret, mac).Pass?
    requires "text" in decode(event.body)
    requires IsHelpWord(Normalise(decode(event.body)["text"]))
    ensures Respond(event, config, mac, decode, upstream) == (Returned(Envelope(NotUnderstoodReply)), [])
  {
    HelpWordNotUnderstood(Normalise(decode(event.body)["text"]));
  }

  /** Lines 130-133: a verified command of neither create shape gets the
      "don't understand" reply, and nothing is sent. */
  lemma UnrecognizedNotUnderstood(event: Event, config: Config, mac: Mac,
                                  decode: string -> map<string, string>, upstream: ApiRequest -> ApiResponse)
    requires Verify(event, config.signingSecret, mac).Pass?
    requires "text" in decode(event.body)
    requires Classify(Normalise(decode(event.body)["text"])) == Unrecognized
    ensures Respond(event, config, mac, decode, upstream) == (Returned(Envelope(NotUnderstoodReply)), [])
  {
  }

  /** Lines 84-85 and 106-107: a command whose URL `url_re` refuses gets the
      not-a-valid-URL reply, whatever its name, and nothing is sent. */
  lemma InvalidUrlNotSent(event: Event, config: Config, mac: Mac,
                          decode: string -> map<string, string>, upstream: ApiRequest -> ApiResponse)
    requires Verify(event, config.signingSecret, mac).Pass?
    requires "text" in decode(event.body)
    requires var c := Classify(Normalise(decode(event.body)["text"]));
      (c.CreateRandom? || c.CreateNamed?) && !UrlRe(c.url)
    ensures Respond(event, config, mac, decode, upstream) == (Returned(Envelope(NotValidUrlReply)), [])
  {
    UrlMatchesIff(Classify(Normalise(decode(event.body)["text"])).url);
  }

  /** Lines 108-112: a valid URL with a name `token_re` refuses gets the
      reply about allowed characters, and nothing is sent. */
  lemma InvalidNameNotSent(event: Event, config: Config, mac: Mac,
                           decode: string -> map<string, string>, upstream: ApiRequest -> ApiResponse)
    requires Verify(event, config.signingSecret, mac).Pass?
    requires "text" in decode(event.body)
    requires var c := Classify(Normalise(decode(event.body)["text"]));
      c.CreateNamed? && UrlRe(c.url) && !TokenRe(c.name)
    ensures Respond(event, config, mac, decode, upstream) == (Returned(Envelope(BadNameReply)), [])
  {
    var c := Classify(Normalise(decode(event.body)["text"]));
    UrlMatchesIff(c.url);
    TokenMatchesIff(c.name);
  }

  /** The request the handler sends for a command that passed validation. */
  function RequestFor(c: Command, apiKey: string, userName: string): ApiRequest
    requires c.CreateRandom? || c.CreateNamed?
  {
    if c.CreateNamed? then Request(ClaimEndpoint, c.url, Some(c.name), apiKey, userName)
    else Request(ConceiveEndpoint, c.url, None, apiKey, userName)
  }

  /** Lines 81-133 for a normalised command: at most one request is sent,
      and it is sent exactly when the form has a user name, the command is
      one of the two create shapes, and the patterns accept its URL (and name). */
  lemma AnswerCalls(command: string, params: map<string, string>, apiKey: string,
                    upstream: ApiRequest -> ApiResponse)
    ensures var c := Classify(command); var calls := Answer(command, params, apiKey, upstream).1;
      && |calls| <= 1
      && (calls != [] <==>
          && "user_name" in params && (c.CreateRandom? || c.CreateNamed?)
          && UrlRe(c.url) && (c.CreateNamed? ==> TokenRe(c.name)))
      && (calls != [] ==> calls == [RequestFor(c, apiKey, params["user_name"])])
  {
    var c := Classify(command);
    if c.CreateRandom? || c.CreateNamed? {
      UrlMatchesIff(c.url);
      if c.CreateNamed? {
        TokenMatchesIff(c.name);
      }
    }
  }

  /** At most one request is sent, and only for a verified request whose
      form has a text and a user name, whose command is one of the two
      create shapes, and whose URL (and name) the patterns accept. */
  lemma CallsOnlyWhenValid(event: Event, config: Config, mac: Mac,
                           decode: string -> map<string, string>, upstream: ApiRequest -> ApiResponse)
    ensures |Respond(event, config, mac, decode, upstream).1| <= 1
    ensures Respond(event, config, mac, decode, upstream).1 != [] ==>
      var params := decode(event.body);
      && Verify(event, config.signingSecret, mac).Pass?
      && "text" in params && "user_name" in params
      && var c := Classify(Normalise(params["text"]));
      && (c.CreateRandom? || c.CreateNamed?)
      && UrlRe(c.url) && (c.CreateNamed? ==> TokenRe(c.name))
      && Respond(event, config, mac, decode, upstream).1 == [RequestFor(c, config.apiKey, params["user_name"])]
  {
    var params := decode(event.body);
    if Verify(event, config.signingSecret, mac).Pass? && "text" in params {
      AnswerCalls(Normalise(params["text"]), params, config.apiKey, upstream);
    }
  }

  /** The converse: such a request is always sent. */
  lemma CallsWhenValid(event: Event, config: Config, mac: Mac,
                       decode: string -> map<string, string>, upstream: ApiRequest -> ApiResponse)
    requires Verify(event, config.signingSecret, mac).Pass?
    requires "text" in decode(event.body) && "user_name" in decode(event.body)
    requires var c := Classify(Normalise(decode(event.body)["text"]));
      && (c.CreateRandom? || c.CreateNamed?)
      && UrlRe(c.url) && (c.CreateNamed? ==> TokenRe(c.name))
    ensures var params := decode(event.body);
      Respond(event, config, mac, decode, upstream).1
        == [RequestFor(Classify(Normalise(params["text"])), config.apiKey, params["user_name"])]
  {
    var params := decode(event.body);
    AnswerCalls(Normalise(params["text"]), params, config.apiKey, upstream);
  }

  /** Lines 97-101 and 125-129: once a request is sent, the service's status
      decides. 4xx gives the "Uh oh" reply with the service's error, 5xx
      raises, and any other status gives the success reply. */
  lemma ResponseDecides(event: Event, config: Config, mac: Mac,
                        decode: string -> map<string, string>, upstream: ApiRequest -> ApiResponse)
    requires |Respond(event, config, mac, decode, upstream).1| == 1
    ensures
      var request := Respond(event, config, mac, decode, upstream).1[0];
      var resp := upstream(request);
      var outcome := Respond(event, config, mac, decode, upstream).0;
      && (400 <= resp.status < 500 ==>
          outcome == if "error" in resp.json then Returned(Envelope(CouldNotCreateReply(resp.json["error"])))
                     else Raised(KeyError("error")))
      && (500 <= resp.status < 600 ==> outcome == Raised(HTTPError(resp.status)))
      && (!RaisesForStatus(resp.status) ==>
          outcome == if "short_url" in resp.json
                     then Returned(Envelope(SuccessReply(resp.json["short_url"], request.payload["destination"])))
                     else Raised(KeyError("short_url")))
  {
  }
}
