/** Worked examples of how the handler cuts and classifies commands. */
module ShortenExamples {
  import opened Outcomes
  import opened Text
  import opened Patterns
  import opened Shorten
  import opened ShortenProperties
  import opened PatternExamples

  // ---- splitting on one space ----

  /** Two spaces in a row leave an empty token between them. */
  lemma SplitDoubleSpace()
    ensures Split("a  b", ' ') == ["a", "", "b"]
  {
    JoinThree(["a", "", "b"], ' ');
    assert Join(["a", "", "b"], ' ') == "a  b";
    SplitJoin(["a", "", "b"], ' ');
  }

  /** A leading space leaves an empty first token. */
  lemma SplitLeadingSpace()
    ensures Split(" a", ' ') == ["", "a"]
  {
    SplitJoin(["", "a"], ' ');
    assert Join(["", "a"], ' ') == " a";
  }

  /** A tab is not a separator: it stays inside the token. */
  lemma SplitKeepsTab()
    ensures Split("a\tb", ' ') == ["a\tb"]
  {
  }

  /** A non-breaking space becomes a separator. */
  lemma NonBreakingSpaceSeparates()
    ensures Split(Normalise("a\U{A0}b"), ' ') == ["a", "b"]
  {
    assert Normalise("a\U{A0}b") == "a b";
    SplitJoin(["a", "b"], ' ');
    assert Join(["a", "b"], ' ') == "a b";
  }

  // ---- "help" ----

  lemma HelpIsHelpWord()
    ensures IsHelpWord("help")
  {
    PrefixLenUnique("help", IsSpace, 0);
    assert Strip("help") == "help";
    LowerUnchanged("help");
  }

  /** One token "help" is not taken by the random-name branch. */
  lemma HelpClassified()
    ensures Classify("help") == Unrecognized
  {
    HelpIsHelpWord();
    HelpWordNotUnderstood("help");
  }

  lemma SpacedHelpSplit()
    ensures Split(" help ", ' ') == ["", "help", ""]
  {
    JoinThree(["", "help", ""], ' ');
    assert Join(["", "help", ""], ' ') == " help ";
    SplitJoin(["", "help", ""], ' ');
  }

  /** " help " is three tokens, and its middle one is not "as". */
  lemma SpacedHelpClassified()
    ensures Classify(" help ") == Unrecognized
  {
    SpacedHelpSplit();
    LowerUnchanged("help");
  }

  // ---- other shapes ----

  lemma FourWordsJoined()
    ensures Join(["a", "b", "c", "d"], ' ') == "a b c d"
  {
    assert Join(["c", "d"], ' ') == "c d";
    assert Join(["b", "c", "d"], ' ') == "b c d";
  }

  lemma FourWordsSplit()
    ensures Split("a b c d", ' ') == ["a", "b", "c", "d"]
  {
    FourWordsJoined();
    SplitJoin(["a", "b", "c", "d"], ' ');
  }

  /** Four tokens are neither create shape: the reply is "don't understand"
      and nothing is sent. */
  lemma FourWordsNotUnderstood(params: map<string, string>, apiKey: string, upstream: ApiRequest -> ApiResponse)
    ensures Classify("a b c d") == Unrecognized
    ensures Answer("a b c d", params, apiKey, upstream) == (Ok(NotUnderstoodReply), [])
  {
    FourWordsSplit();
  }

  // ---- a named link ----

  lemma NamedCommandText()
    ensures "https://example.com" + " " + "as" + " " + "some-name" == "https://example.com as some-name"
  {
  }

  lemma NamedCommandClassified()
    ensures Classify("https://example.com as some-name") == CreateNamed("https://example.com", "some-name")
  {
    LowerUnchanged("as");
    ClassifyNamed("https://example.com", "as", "some-name");
    NamedCommandText();
  }

  lemma ExampleUrlValid()
    ensures UrlMatches("https://example.com")
  {
    UrlAcceptsDomain();
    UrlMatchesIff("https://example.com");
  }

  lemma ExampleNameValid()
    ensures TokenMatches("some-name")
  {
    assert TokenParse("some-name", "some-name", "");
    TokenMatchesIff("some-name");
  }

  /** The named branch end to end: a valid URL and name, a user name, and a
      2xx answer carrying `short_url` give the success reply after one claim. */
  lemma NamedSuccess(command: string, url: string, name: string, params: map<string, string>,
                     apiKey: string, upstream: ApiRequest -> ApiResponse)
    requires Classify(command) == CreateNamed(url, name)
    requires UrlMatches(url) && TokenMatches(name) && "user_name" in params
    requires var resp := upstream(Request(ClaimEndpoint, url, Some(name), apiKey, params["user_name"]));
      200 <= resp.status < 300 && "short_url" in resp.json
    ensures var request := Request(ClaimEndpoint, url, Some(name), apiKey, params["user_name"]);
      Answer(command, params, apiKey, upstream)
        == (Ok(SuccessReply(upstream(request).json["short_url"], url)), [request])
  {
  }

  /** `/shorten https://example.com as some-name` posts one claim for
      "some-name", and a 200 answer gives the success reply. */
  lemma NamedLinkCreated(params: map<string, string>, apiKey: string, upstream: ApiRequest -> ApiResponse)
    requires "user_name" in params
    requires var request := Request(ClaimEndpoint, "https://example.com", Some("some-name"), apiKey, params["user_name"]);
      upstream(request) == ApiResponse(200, map["short_url" := "https://go.voteamerica.com/some-name"])
    ensures Answer("https://example.com as some-name", params, apiKey, upstream) ==
      (Ok(SuccessReply("https://go.voteamerica.com/some-name", "https://example.com")),
       [Request(ClaimEndpoint, "https://example.com", Some("some-name"), apiKey, params["user_name"])])
  {
    NamedCommandClassified();
    ExampleUrlValid();
    ExampleNameValid();
    NamedSuccess("https://example.com as some-name", "https://example.com", "some-name", params, apiKey, upstream);
  }
}
