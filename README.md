# Daily player gamelogs request builder (go-mysportsfeeds), modelled in Dafny

This project models the request-building half of `DailyPlayerGamelogs`, the
client call for the MySportsFeeds "daily player gamelogs" endpoint. It covers
four parts of the call:

- the options record `DailyPlayerGamelogsOptions` and its factory
  `NewDailyPlayerGamelogsOptions`. The factory copies base URL, version, sport,
  format and season from the service configuration.
- the validator `validateDailyPlayerGamelogsURI`. It checks URL, Version, Sport,
  Season, Date, Week and Format in that order, and it stops at the first empty
  one with the message `missing required option to build the url: <Field>`.
- the URI construction. The path template is filled from the seven required
  parts and ends in `?cachebuster=<token>`. The token is the clock reading
  written with the layout `20060102150405`. Then `&key=value` is appended for
  each non-empty optional parameter, in the fixed order team, player,
  position, game, stats, sort, offset, limit, force. Values are copied
  verbatim, without escaping.
- the test applied to the response status.

Files:

- `options.dfy`, module `GamelogOptions`: configuration, options, factory,
  validator and its error.
- `cachebuster.dfy`, module `CacheBusting`: the clock reading, the token
  format and its inverse.
- `request.dfy`, module `GamelogRequest`: base URI, the query appends as an
  imperative method (`BuildUri`) proved equal to the specification function
  `RequestUri`, the layout lemmas, the early return on validation failure
  (`PrepareRequest`) and the status test.

The clock is a parameter: `PrepareRequest` receives the broken-down reading
(`Clock`) that `time.Now()` would have produced.

The status test deserves a note. The usual 2xx success range of HTTP is 200
to 299. The test at daily_player_gamelogs.go:122 rejects only statuses below
200 or above 300, so it also accepts 300 (Multiple Choices). The model
follows the code (`StatusAccepted`, `StatusAcceptedBeyondSuccessClass`,
`StatusBoundaries`).

## Model

| member | source | states |
|---|---|---|
| `GamelogOptions.NewDailyPlayerGamelogsOptions` | daily_player_gamelogs.go:38-46 | URL, Version, Sport, Format and Season are copied from the configuration; Date, Week and all nine optional parameters are empty |
| `GamelogOptions.FreshOptionsFailValidation` | daily_player_gamelogs.go:38-46 | fresh options always fail validation: at the first empty configured part among URL, Version, Sport, Season, and otherwise at Date |
| `GamelogOptions.FilledFreshOptionsValidate` | daily_player_gamelogs.go:38-46 | with a complete configuration, setting a non-empty Date and Week is enough for the fresh options to pass validation |
| `GamelogOptions.Validate` | daily_player_gamelogs.go:137-160 | validation succeeds exactly when all seven required fields are non-empty; on failure the reported field is empty and every field before it in the order URL, Version, Sport, Season, Date, Week, Format is non-empty |
| `GamelogOptions.ValidateStopsAtFirstMissing` | daily_player_gamelogs.go:138-158 | once a field is reported, fields later in the order and all optional parameters cannot change the verdict, because they are never examined |
| `GamelogOptions.MissingOption.Message` | daily_player_gamelogs.go:139-157 | the error text is the prefix `missing required option to build the url: ` followed by the name of the missing field (`FieldName`), and nothing else |
| `GamelogOptions.MessageIdentifiesField` | daily_player_gamelogs.go:137-160 | different missing fields give different error messages, so the message names exactly one field |
| `CacheBusting.Padded` | daily_player_gamelogs.go:60 | each layout field is a run of decimal digits whose value is the number itself, at least as wide as the field, and exactly that wide if and only if the number fits, and otherwise exactly as wide as the number's own digits with no extra zeros |
| `CacheBusting.FormatYear` | daily_player_gamelogs.go:60 | the year field has at least four characters; for a year from 0 up it is digits whose value is the year; for a negative year it is `-` followed by at least four digits whose value is the magnitude |
| `CacheBusting.CacheBuster` | daily_player_gamelogs.go:59-60 | the token has at least 14 characters, and it is all digits if and only if the year is not negative |
| `CacheBusting.CacheBusterLength` | daily_player_gamelogs.go:59-60 | for any valid clock reading the token has exactly 14 characters if and only if the year is between 0 and 9999 |
| `CacheBusting.CacheBusterRoundTrip` | daily_player_gamelogs.go:60 | for years 0 to 9999 the token is 14 decimal digits and parses back to the clock reading it was made from |
| `CacheBusting.CacheBusterDistinguishesSeconds` | daily_player_gamelogs.go:59-60 | two different valid clock readings (so two different seconds) give different tokens, for every year, negative and five-digit years included |
| `CacheBusting.CacheBusterFields` | daily_player_gamelogs.go:60 | for a valid reading the token is the year field followed by the two-character month, day, hour, minute and second fields, in layout order |
| `CacheBusting.FormatYearInjective` | daily_player_gamelogs.go:60 | different years give different year fields |
| `GamelogRequest.BaseUri` | daily_player_gamelogs.go:62 | the filled path template starts with the base URL, ends with the cache-buster token, and is as long as the seven parts and the token plus the 50 characters of fixed template text |
| `GamelogRequest.AppendParam` | daily_player_gamelogs.go:64-98 | one conditional append grows the URI by the key, two punctuation characters and the value when the value is non-empty, and by nothing otherwise |
| `GamelogRequest.AppendParamExtends` | daily_player_gamelogs.go:64-98 | an append keeps the URI built so far as a prefix, changes it if and only if the value is non-empty, and then ends it with `&key=` followed by the value verbatim |
| `GamelogRequest.RequestUri` | daily_player_gamelogs.go:62-98 | the full request URI starts with the base URI and is longer than it by exactly the total added length of the non-empty optional parameters |
| `GamelogRequest.BuildUri` | daily_player_gamelogs.go:62-98 | the URI reassigned step by step through the nine conditional appends equals the specification `RequestUri`, which is the base URI followed by the appends in order |
| `GamelogRequest.PresentPositions` | daily_player_gamelogs.go:64-98 | the positions of the parameters that get appended: a position is in the result if and only if its value is non-empty, and positions come in increasing order |
| `GamelogRequest.AppendedIsBaseAndPresentSegments` | daily_player_gamelogs.go:64-98 | after any number of append steps, the URI is the base followed by `&key=value` for exactly the non-empty parameters, in their original order |
| `GamelogRequest.RequestUriLayout` | daily_player_gamelogs.go:62-98 | the request URI is the base URI followed by `&key=value` for exactly the non-empty optional parameters, in the order team, player, position, game, stats, sort, offset, limit, force, whatever subset is set |
| `GamelogRequest.BaseIsPrefix` | daily_player_gamelogs.go:62-98 | the base URI is always a prefix of the built URI |
| `GamelogRequest.AppendedLength` | daily_player_gamelogs.go:64-98 | values are copied verbatim: the URI is as long as the base plus, for each non-empty parameter, the key length plus 2 plus the value length |
| `GamelogRequest.NoOptionalsGivesBaseUri` | daily_player_gamelogs.go:62-98 | with every optional parameter empty, the request URI equals the base URI |
| `GamelogRequest.OnlyTeamAppendsTeam` | daily_player_gamelogs.go:62-66 | with only the team set, the URI is the base URI followed by `&team=<team>` |
| `GamelogRequest.UnescapedValuesCollide` | daily_player_gamelogs.go:64-70 | because values are not escaped, for any options with both team and player set, moving `&player=<player>` into the team value and clearing the player gives different options but the same URI |
| `GamelogRequest.PrepareRequest` | daily_player_gamelogs.go:51-98 | for a clock reading in the ranges the time library produces: when a required field is missing, the call returns early with status 0 and the error for the first missing field, and no URI is built; otherwise it sends to `RequestUri` with the token of the clock reading |
| `GamelogRequest.StatusAccepted` | daily_player_gamelogs.go:122 | a response status passes exactly when it is between 200 and 300, both included |
| `GamelogRequest.StatusAcceptedBeyondSuccessClass` | daily_player_gamelogs.go:122 | the accepted statuses are the HTTP success class (hundreds digit 2) plus exactly one more status, 300 |
| `GamelogRequest.StatusBoundaries` | daily_player_gamelogs.go:122 | 200 and 300 pass; 199 and 301 fail |

## Left out

- `time.Now()` (daily_player_gamelogs.go:59): the clock is an input to `PrepareRequest`. The reading is a `Clock` value, and `PrepareRequest` requires (`ValidClock`) that its month, day, hour, minute and second lie in the ranges the time library produces.
- The layout `20060102150405` is formatted the way Go's time package does it. Each field is a zero-padded decimal, the year takes at least four digits, and a negative year gets a leading `-`. The time package itself is not part of this model.
- The HTTP client and its retry policy (daily_player_gamelogs.go:106-120). These are network I/O inside a library that is not part of this model.
- The two `Authorization` header values (daily_player_gamelogs.go:113-114). They are header plumbing with no logic.
- Logging and the reassignment of `s.Logger` (daily_player_gamelogs.go:100-103, 110, 118, 123, 127, 130). These are side effects with no bearing on the result.
- JSON decoding into `GameLogIO` (daily_player_gamelogs.go:129). The type is not part of this model. So the empty mapping returned on the early path appears only in the comment on `Prepared`, not as a value.
- The returns on the status and decode failure branches (daily_player_gamelogs.go:122-132). Only the status test itself is modelled. On those branches `err` is nil, so `err.Error()` in the log call would panic at run time. That is Go runtime behaviour and is outside this model.
- The options are modelled as a value, not through the `*DailyPlayerGamelogsOptions` pointer the Go functions take. A nil pointer would panic at daily_player_gamelogs.go:138, and aliasing of the options record is not modelled; neither function changes the record.
- `Config.authorization` is carried in the configuration but is used only by the headers, which are left out.
