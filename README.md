# i90 `/shorten` Slack command, modelled in Dafny

`app/shorten.py` is an AWS Lambda handler. It serves the `/shorten` slash
command, which creates short links on `go.voteamerica.com`. For each request it:

1. checks Slack's request signature (`verify_slack_request`);
2. reads the `text` form field;
3. replaces non-breaking spaces with spaces and splits the text on single spaces;
4. takes one token as "shorten this URL under a random name", or three
   tokens `URL as NAME` as "shorten this URL under NAME";
5. validates the URL with `url_re` (Django's pattern) and the name with `token_re`;
6. posts to the link service's `conceive` or `claim` endpoint;
7. turns the service's answer into a chat reply, wrapped in a fixed JSON envelope.

This project models that logic and proves what it promises.

Files (every module imports only the ones above it):

| file | module | contents |
|---|---|---|
| `outcomes.dfy` | `Outcomes` | the Python exceptions that end an invocation; `Option`, `Check`, `Result` |
| `text.dfy` | `Text` | the `str` operations the handler uses: `replace`, `split(" ")`, `strip()`, `lower()` |
| `patterns.dfy` | `Patterns` | `token_re` and `url_re`, each given two ways, with proofs that they agree (see below) |
| `pattern_examples.dfy` | `PatternExamples` | strings the two patterns accept and refuse |
| `signature.dfy` | `Signature` | the signed base string, `hexdigest`, and the accept/reject decision |
| `shorten.dfy` | `Shorten` | the handler, twice: pure functions (`Classify`, `Plan`, `Answer`, `Respond`) and the step-by-step methods `Handle`, `ChooseReply` and `CreateLink`, each proved equal to its function |
| `shorten_properties.dfy` | `ShortenProperties` | what the handler promises, as lemmas over `Respond` and `Answer` |
| `shorten_examples.dfy` | `ShortenExamples` | how concrete commands split and classify, and one complete named-link run |

The two ways each pattern is given:

- an existential predicate (`TokenRe`, `UrlRe`): the string splits into
  pieces that match the parts of the pattern;
- the decision the handler runs (`TokenMatches`, `UrlMatches`).

The URL decision cuts the host as the longest run of host characters after
"://". This is the only cut that can work, because a port, a path, a query
or the final newline always starts with ':', '/', '?' or "\n", and a host
contains none of these. `Patterns.ParseUrlComplete` proves that every match
of the pattern is the one the decision finds.

Behaviour of the code worth knowing. The model follows the code in each case:

- **"help" does not get the help text.** Line 79 sets `reply = HELP_TEXT`.
  The `if/elif/else` at lines 81-133 then always assigns `reply` again, and
  "help" falls to its `else` branch. So the reply is "Sorry, I don't
  understand that." (`ShortenProperties.HelpNotUnderstood`). No path
  returns the bare help text (`ShortenProperties.ReturnedIsEnvelope`).
- **`reply` is assigned on every path** that reaches the `return`.
- **Only 5xx statuses raise.** `raise_for_status` raises only for statuses
  400 to 599, and 4xx is handled before it is called. So 5xx raises
  `HTTPError`. Any other status, including 1xx, 3xx and 600 or above, goes
  to the "Success!" path.
- **Missing keys raise `KeyError`.** This covers the `text` and `user_name`
  form fields, the `error` and `short_url` fields of the service's JSON,
  and the two signature headers. `user_name` is read while the request is
  built, so when it is missing nothing is sent.
- **`compare_digest` raises `TypeError`** when the given signature is a
  `str` holding non-ASCII characters. The handler's own signature is always
  ASCII.

## Model

| member | source | states |
|---|---|---|
| `Text.ReplaceChar` | app/shorten.py:75 | same length; every occurrence of the character is replaced and everything else kept in place; when the two characters differ, none of the replaced character remains |
| `Text.Split` | app/shorten.py:76 | at least one piece; no piece contains the separator; the pieces joined with the separator give back the string; one piece exactly when the separator is absent |
| `Text.SplitJoin` | app/shorten.py:76 | splitting a join of separator-free pieces returns those pieces (split is the inverse of join) |
| `Text.Strip` | app/shorten.py:78 | the result is the slice between leading and trailing whitespace (Python's `isspace` set); everything cut off is whitespace; the result neither starts nor ends with whitespace |
| `Text.Lower` | app/shorten.py:78 | same length; each character lower-cased (ASCII letters; other characters unchanged) |
| `Patterns.TokenMatchesIff` | app/shorten.py:37 | the decision accepts exactly the strings `^[a-zA-Z0-9_-]+$` matches |
| `Patterns.TokenReCharacters` | app/shorten.py:37 | a name matches iff it is one or more of `[A-Za-z0-9_-]`, optionally followed by one final "\n" |
| `Patterns.TokenReRejects` | app/shorten.py:37 | the empty string and any string holding a space or `!` are refused |
| `Patterns.DomainMatchesIff` | app/shorten.py:29 | splitting the host on dots decides the backtracking domain alternative: labels of 1-63 letters, digits and inner hyphens, each followed by a dot, then a TLD, then an optional dot |
| `Patterns.Ipv4MatchesIff` | app/shorten.py:31 | four dot-separated groups of 1-3 digits, with no range check |
| `Patterns.HostMatchesIff` | app/shorten.py:29-31 | the host decision agrees with the three host alternatives of the pattern |
| `Patterns.ParseUrlComplete` | app/shorten.py:27-35 | any way the pattern matches a string is the parse the decision returns, so the parse is unique |
| `Patterns.UrlMatchesIff` | app/shorten.py:27-35 | `url_re.match` as the handler runs it succeeds exactly when the string splits into scheme, "://", host, optional port, optional path or query, and an optional final "\n" |
| `Patterns.SchemeShape` | app/shorten.py:28 | a known scheme is 3-5 letters starting with h or f in any case |
| `Patterns.ParseUrlUnknownScheme` | app/shorten.py:28 | letters that are not a known scheme, followed by a non-letter, are refused |
| `Patterns.UnknownSchemeRejected` | app/shorten.py:28 | the same, stated for the pattern |
| `PatternExamples.TokenAcceptsExample` | app/shorten.py:37 | "some-name_123" is a valid name |
| `PatternExamples.TokenAcceptsTrailingNewline` | app/shorten.py:37 | "my-link\n" is a valid name (`$` allows a final newline) |
| `PatternExamples.TokenRejectsExamples` | app/shorten.py:37 | "some name", "name!" and "" are refused |
| `PatternExamples.UrlAcceptsDomain` | app/shorten.py:27-35 | "https://example.com" matches |
| `PatternExamples.UrlAcceptsTrailingNewline` | app/shorten.py:33 | "https://example.com\n" matches |
| `PatternExamples.UrlAcceptsIpv4WithPort` | app/shorten.py:27-35 | "http://1.2.3.4:8080/path" matches |
| `PatternExamples.UrlAcceptsLocalhost` | app/shorten.py:30 | "ftp://localhost" matches |
| `PatternExamples.UrlRejectsNoScheme` | app/shorten.py:28 | "not-a-url" is refused |
| `PatternExamples.UrlRejectsJavascript` | app/shorten.py:28 | "javascript:alert(1)" is refused |
| `PatternExamples.UrlRejectsEmpty` | app/shorten.py:27-35 | "" is refused |
| `PatternExamples.UrlRejectsShortTld` | app/shorten.py:29 | "http://a.b" is refused: a TLD needs two characters |
| `Signature.BaseString` | app/shorten.py:54 | the signed string is "v0:", the timestamp, ":" and the body, at the stated positions |
| `Signature.BaseStringRoundTrip` | app/shorten.py:54 | for a timestamp without ':', the timestamp and the body can be read back out of the signed string |
| `Signature.BaseStringInjective` | app/shorten.py:54 | two requests with colon-free timestamps sign the same string only if their timestamps and bodies are equal |
| `Signature.BaseStringAmbiguousWithColon` | app/shorten.py:54 | a timestamp holding ':' makes the signed string ambiguous |
| `Signature.Hex` | app/shorten.py:57 | `hexdigest`: two lower-case hex digits per byte |
| `Signature.HexRoundTrip` | app/shorten.py:57 | reading the hex digits back gives the digest |
| `Signature.HexInjective` | app/shorten.py:57 | different digests print differently |
| `Signature.ExpectedSignature` | app/shorten.py:56-58 | "v0=" followed by the hex digest of the MAC of the base string; always ASCII |
| `Signature.Verify` | app/shorten.py:45-65 | passes iff both headers are present and the given signature equals the expected one. Otherwise it fails with `KeyError` on the signature header (read first), then on the timestamp header, then `TypeError` for a non-ASCII signature, else `RuntimeError("Invalid Slack signature")` |
| `Signature.TamperedBodyRejected` | app/shorten.py:54-65 | an accepted request with its body changed is rejected whenever the new body's base string gets a different digest |
| `Shorten.Normalise` | app/shorten.py:75 | same length; every non-breaking space becomes a space, every other character is kept, and no non-breaking space remains |
| `Shorten.Classify` | app/shorten.py:81-105 | random-name branch iff the command has no space and is not "help" (after strip and lower), and the URL is then the whole command. Named branch only for url, middle and name free of spaces with the middle lower-casing to "as" |
| `Shorten.Plan` | app/shorten.py:81-133 | posts exactly for a create command whose URL (and, for the named branch, name) is valid: to `conceive` with no name for one token, to `claim` with the name for three. The URL is checked first, so an invalid URL gives the not-a-valid-URL reply whatever the name. A valid URL with a bad name gives the allowed-characters reply. Any other shape gives the don't-understand reply |
| `Shorten.Request` | app/shorten.py:87-95 | the request carries the endpoint, the API key, `destination`, `_app_name` "slack", `_slack_user_name`, and `token` exactly for the named branch, and no other field |
| `Shorten.ReplyToResponse` | app/shorten.py:97-101 | a reply starts with "Uh oh, I couldn't create that link for you: " exactly when the status is 4xx, and then carries the service's `error` after it. Any other reply is the success text with `short_url` and the URL. It raises exactly for a 5xx (`HTTPError`) or when the JSON lacks the field the status calls for (`KeyError("error")` for 4xx, `KeyError("short_url")` otherwise) |
| `Shorten.Create` | app/shorten.py:87-101 | at most one request is sent. Nothing is sent exactly when `user_name` is missing, and then it raises `KeyError("user_name")`. Otherwise the one request is this endpoint's request for the URL and name, and the reply is what its response decides |
| `Shorten.Envelope` | app/shorten.py:135-139 | status 200, `Content-Type: application/json`, `response_type` "in_channel", and the reply as text |
| `Shorten.CreateLink` | app/shorten.py:87-101 | the POST and the reading of its answer, step by step, equal `Create` |
| `Shorten.ChooseReply` | app/shorten.py:76-133 | the assignments to `reply` in source order, including the overwritten help assignment; the result equals `Answer` |
| `Shorten.Handle` | app/shorten.py:68-139 | the handler step by step; its outcome and the requests it sends equal `Respond` |
| `ShortenProperties.CommandTokens` | app/shorten.py:75-76 | the tokens hold no space and no non-breaking space, and joined with " " they give back the normalised text |
| `ShortenProperties.JoinPartChars` | app/shorten.py:76 | every character of a token is a character of the command |
| `ShortenProperties.HelpWordChars` | app/shorten.py:78 | every non-space character of a "help" command lower-cases to a letter of "help" |
| `ShortenProperties.HelpWordMiddle` | app/shorten.py:78-103 | a "help" command never has "as" as its middle token |
| `ShortenProperties.HelpWordNotUnderstood` | app/shorten.py:78-81 | a command that strips and lower-cases to "help" is classified as neither create shape |
| `ShortenProperties.HelpNotUnderstood` | app/shorten.py:78-133 | a verified "help" request gets the "don't understand" reply and sends nothing |
| `ShortenProperties.UnrecognizedNotUnderstood` | app/shorten.py:130-133 | a verified command of neither create shape gets the "don't understand" reply and sends nothing |
| `ShortenProperties.AnswerNeverHelpText` | app/shorten.py:78-133 | the chosen reply is never the bare help text |
| `ShortenProperties.ClassifyNamed` | app/shorten.py:103-105 | three space-free tokens whose middle one lower-cases to "as" are always the named branch, with the first and last token as URL and name |
| `ShortenProperties.UnverifiedRaises` | app/shorten.py:69 | a request that fails the signature check raises that check's exception and sends nothing, whatever the form decoder and the service do |
| `ShortenProperties.ReturnedIsEnvelope` | app/shorten.py:135-139 | whenever the handler returns, it returns the fixed envelope with `in_channel`, and the text is not the bare help text |
| `ShortenProperties.InvalidUrlNotSent` | app/shorten.py:84-85 | a create command whose URL `url_re` refuses gets the not-a-valid-URL reply (even with a bad name) and sends nothing |
| `ShortenProperties.InvalidNameNotSent` | app/shorten.py:108-112 | a valid URL with a name `token_re` refuses gets the allowed-characters reply and sends nothing |
| `ShortenProperties.AnswerCalls` | app/shorten.py:81-123 | at most one request is sent. One is sent iff the form has a user name, the command is a create shape, and the patterns accept its URL (and name). That request is the conceive or claim request for the command |
| `ShortenProperties.CallsOnlyWhenValid` | app/shorten.py:69-123 | for the whole invocation, at most one request is sent, and only for a verified request with a text, a user name and a valid command; the request sent is exactly the one for that command |
| `ShortenProperties.CallsWhenValid` | app/shorten.py:69-123 | conversely, such a request is always sent |
| `ShortenProperties.ResponseDecides` | app/shorten.py:97-101 | after the request, 4xx gives "Uh oh…" with the service's `error` (or `KeyError`), 5xx raises `HTTPError`, and any other status gives "Success!…" with `short_url` and the URL (or `KeyError`) |
| `ShortenExamples.SplitDoubleSpace` | app/shorten.py:76 | "a  b" splits into "a", "" and "b" |
| `ShortenExamples.SplitLeadingSpace` | app/shorten.py:76 | " a" splits into "" and "a" |
| `ShortenExamples.SplitKeepsTab` | app/shorten.py:76 | "a\tb" stays one token |
| `ShortenExamples.NonBreakingSpaceSeparates` | app/shorten.py:75-76 | "a", U+00A0, "b" splits into "a" and "b" |
| `ShortenExamples.HelpIsHelpWord` | app/shorten.py:78 | "help" strips and lower-cases to "help" |
| `ShortenExamples.HelpClassified` | app/shorten.py:81 | "help" is not the random-name branch, nor the named one |
| `ShortenExamples.SpacedHelpClassified` | app/shorten.py:103 | " help " is three tokens whose middle is not "as", so it is not understood |
| `ShortenExamples.FourWordsSplit` | app/shorten.py:76 | "a b c d" splits into four tokens |
| `ShortenExamples.FourWordsNotUnderstood` | app/shorten.py:81-133 | "a b c d" is neither create shape: it gets the don't-understand reply and sends nothing |
| `ShortenExamples.NamedCommandClassified` | app/shorten.py:103-105 | "https://example.com as some-name" is the named branch for that URL and name |
| `ShortenExamples.NamedSuccess` | app/shorten.py:113-129 | a valid named command with a user name and a 2xx answer carrying `short_url` sends one claim and gets the success reply |
| `ShortenExamples.NamedLinkCreated` | app/shorten.py:103-129 | `/shorten https://example.com as some-name` with a 200 answer replies "Success! https://go.voteamerica.com/some-name now goes to https://example.com" |

## Left out

- The outbound POSTs, the `requests.Session`, the `HTTPAdapter` and the
  `Retry` policy (app/shorten.py:16-24) are network I/O. The service is the
  parameter `upstream`, which maps the request sent to a response.
  `method_whitelist` leaves out POST, so the status retries never apply to
  these posts.
- Transport failures are not modelled. `http.post` (lines 87 and 114) can
  raise `requests.ConnectionError`, `Timeout` or `RetryError` once the
  connect retries are used up. The handler does not catch these, so such an
  invocation ends with that exception after one request was attempted. In
  the model the service always answers with a status and a JSON body, so no
  outcome is a transport exception.
- HMAC-SHA256 is the parameter `Mac`. The secret and the base string are
  passed as the `str` values they are UTF-8 encoded from; the encoding is
  injective. `hmac.compare_digest` is plain equality plus its `TypeError` on
  non-ASCII text. Its constant-time property is not modelled.
- `urllib.parse.parse_qsl` and the dict built from it (line 71) are the
  parameter `decode`, which maps the body to its form fields.
- `json.dumps` (line 138) is not modelled: the body is the `Body` datatype.
- `resp.json()` failing on a body that is not JSON is not modelled. The
  service's JSON is a map from field names to the text the f-string prints
  for each value.
- The environment reads at import time (lines 13-14) become the `Config`
  datatype.
- The unused `boto3` import, the `print` calls (lines 61-63, 132) and the
  unused `context` argument are left out.
- The Lambda event always carries "headers" and "body". A `KeyError` on
  `event["headers"]` or `event["body"]` is not modelled.
- Text is ASCII for letters and digits:
  - `lower()` lower-cases only A-Z. This is exact for the comparisons with
    "help" and "as": no other character lower-cases to a letter of those words.
  - Under `re.IGNORECASE`, Python also case-folds a few non-ASCII
    characters: U+0130, U+0131, U+017F (long s) and U+212A (Kelvin sign).
    These are not modelled anywhere in `url_re` they would match:
    - `[A-Z]` in the domain labels and the TLD;
    - the literal letters of the scheme (`http`, `ftp`, `s?`), so
      "httpſ://example.com" matches in Python but `IsScheme` refuses "httpſ";
    - `localhost`, so "localhoſt" matches in Python but `IsLocalhost`
      refuses it.
  - `\d` also matches non-ASCII decimal digits. That is not modelled.
  - `\S` and `strip()` use Python's exact whitespace set.
