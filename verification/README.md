# TUSCAn API: request validation and dispatch, modelled in Dafny

The service exposes four ITS-90 calculations over HTTP, `POST /its90/wr`,
`/its90/t90r`, `/its90/t90` and `/its90/res`. Each route checks that the
parameters it needs are present, converts them to numbers with Ruby's `Float()`,
keeps only a fixed whitelist of twelve coefficient names for the `t90` and `res`
routes, and then calls the calculation library as `Tuscan.<op>(:its90, primary)`
or `Tuscan.<op>(:its90, primary, bundle)`. The body of the response is a one-entry
JSON object keyed by the operation's name. Every malformed request ends in
`halt 400`.

The model is a pure, total function `Its90.Handle(parse, op, raw)` from an
operation and the raw parameter map to either the call the library would receive
or `BadRequest`. `Its90.Serve` adds the response envelope. Ruby's `Float()` is the
argument `parse: string -> Option<N>`, where the number type `N` is a type
parameter and stays opaque. The calculation library is the argument
`library: Call<N> -> R`. Neither is interpreted, so every property holds for every
parser and every library.

Files:
- `wrappers.dfy`: `Option` and `Result`. `Result` supports `:-`, which plays the part of `halt`.
- `params.dfy`: the helpers `params_include_all`, `params_matching` and `symbolize_and_float`.
- `its90.dfy`: the four routes, the helpers `t90`, `wr`, `res` and `its90_args`, the response envelope, and the properties of the whole layer.
- `scenarios.dfy`: the request examples of the test suite, stated as lemmas.

Each route body in `Handle` is written out as the source writes it, with its own
literal key list. The tables `PrimaryKey`, `Required`, `Relevant` and the
predicate `Acceptable` are an independent description of when a request is well
formed. The lemmas in `its90.dfy` connect the two.

A failing calculation call is not a client error: the code does not rescue
exceptions raised inside `Tuscan.*` (lines 6, 10, 15 and 20 of `tuscan_api.rb`),
so `library` is total and such failures are not turned into `BadRequest`.

Determinism comes with the model: `Handle` and `Serve` are functions, so
resubmitting the same request gives the same answer for a fixed library.

## Model

| member | source | states |
|---|---|---|
| Params.IncludeAll | tuscan_api.rb:48-50 | the presence check passes exactly when every listed name is a key of the parameters |
| Params.IncludeAllMonotone | tuscan_api.rb:48-50 | adding parameters never turns a passing presence check into a failing one |
| Params.Matching | tuscan_api.rb:44-46 | the selection holds exactly the parameters whose name is listed, each with its value unchanged |
| Params.MatchingWithinBounds | tuscan_api.rb:44-46 | the selection holds no name outside the request and no name outside the list |
| Params.MatchingOnlyReadsNames | tuscan_api.rb:44-46 | two requests that agree on the listed names give the same selection |
| Params.MatchingIgnoresUnlisted | tuscan_api.rb:44-46 | adding or replacing an unlisted parameter leaves the selection unchanged |
| Params.SymbolizeAndFloat | tuscan_api.rb:40-42 | conversion succeeds exactly when every value parses; on success it has the same names, each carrying its parsed value |
| Params.FloatEach | tuscan_api.rb:40-42 | converting entry by entry and abandoning the partial map at the first value that does not parse gives the all-or-nothing result, in every iteration order |
| Its90.Coerce | tuscan_api.rb:24-34 | the primary helper yields a number exactly when the parameter is present and parses, and that number is its parse |
| Its90.Its90Args | tuscan_api.rb:36-38 | the bundle exists exactly when every whitelisted parameter present parses; it holds exactly those parameters, each parsed |
| Its90.Handle | tuscan_api.rb:5-21 | a call is built only for the route's own operation, always with the `its90` standard |
| Its90.Respond | tuscan_api.rb:5-21 | the body has the operation's name as its only key, holding the result unchanged |
| Its90.Serve | tuscan_api.rb:5-21 | a response body is produced exactly when the route builds a call |
| Its90.HandleAcceptsExactly | tuscan_api.rb:5-21 | a route builds a call exactly when the primary parameter is present and parses and, for `t90` and `res`, `rtpw` and `subrange` are present and every whitelisted parameter present parses |
| Its90.HandleCallShape | tuscan_api.rb:5-21 | the call holds the parsed primary value; `wr` and `t90r` pass no bundle; `t90` and `res` pass a bundle of exactly the whitelisted parameters present, parsed, which holds `rtpw` and `subrange` and never the primary name |
| Its90.PrimaryNotWhitelisted | tuscan_api.rb:37 | `res` and `t90`, the primary names of the bundled routes, are not coefficient names |
| Its90.MissingRequiredRejected | tuscan_api.rb:13-21 | on `t90` and `res`, every request missing the primary name, `rtpw` or `subrange` is refused, whatever else it holds |
| Its90.PrimaryRejected | tuscan_api.rb:24-34 | on every route, an absent or unparseable primary parameter is refused |
| Its90.UnparseableCoefficientRejected | tuscan_api.rb:36-42 | on `t90` and `res`, any whitelisted parameter that is present but does not parse refuses the request, optional coefficients included |
| Its90.HandleOnlyReadsRelevant | tuscan_api.rb:5-21 | two requests that agree on the primary name and, for `t90` and `res`, on the whitelist, get the same answer |
| Its90.Its90ArgsOnlyReadsWhitelist | tuscan_api.rb:36-46 | two requests that agree on the whitelist get the same bundle or the same refusal |
| Its90.ExtraParameterIgnored | tuscan_api.rb:5-21 | adding or replacing a parameter the route does not read leaves the answer identical, success and call included |
| Its90.ExtraArgumentIgnored | spec/tuscan_api_spec.rb:57-60 | on every route and for every request, adding `extra` with any value leaves the answer identical, as the four "ignores extra arguments" tests (lines 57-60, 104-107, 175-178, 246-249) check for one request each |
| Its90.ServeEnvelope | tuscan_api.rb:5-21 | a response body exists exactly for well-formed requests, and it is the single entry from the operation's name to the library's result for the built call |
| Scenarios.WrGoodRequest | spec/tuscan_api_spec.rb:17-40 | `t90=0.01` on `wr` calls the library with `(its90, 0.01)` and answers `{wr: result}` |
| Scenarios.WrBadRequests | spec/tuscan_api_spec.rb:42-55 | `wr` without `t90`, or with a non-numeric `t90`, is refused |
| Scenarios.T90rIgnoresExtra | spec/tuscan_api_spec.rb:104-107 | `t90r` with `wr=1.0` and `extra=argument` succeeds with the call `(its90, 1.0)` |
| Scenarios.T90GoodRequest | spec/tuscan_api_spec.rb:112-134 | `t90` with `res`, `rtpw` and `subrange` calls the library with `res` and a bundle holding `rtpw` and `subrange` |
| Scenarios.ResOptionalCoefficients | spec/tuscan_api_spec.rb:207-213 | `res` with optional `a` and `b` passes them in the bundle beside `rtpw` and `subrange` |
| Scenarios.ResNonNumericPrimary | spec/tuscan_api_spec.rb:237-239 | `res` with a non-numeric `t90` is refused |
| Scenarios.T90MissingPrimary | spec/tuscan_api_spec.rb:162-163 | `t90` with only `rtpw` and `subrange` is refused, whatever the parser does |

## Left out

- Sinatra routing, `halt` and the HTTP status codes. A refusal is the value `BadRequest`, and a route is chosen by the `Op` argument.
- JSON serialisation and the `application/json` content type. The body is the one-entry map returned by `Respond`.
- The `Tuscan` calculation library. It is foreign numeric code, so it stays the uninterpreted argument `library`.
- Exceptions raised inside `Tuscan.*`. The source does not rescue them, so they are not modelled as `BadRequest`.
- The grammar accepted by Ruby's `Float()`. It is library behaviour and stays the abstract argument `parse`.
- `params_include_any` (tuscan_api.rb:52-54): it is defined but never called.
- Parameter values other than text, such as nested `a[b]=…` hashes. The model's parameters map names to strings.
- Ruby's hash iteration order. `FloatEach` converts the entries in an arbitrary order and is proved correct for every order.
- Ruby Symbols (`:its90` and the bundle keys made by `to_sym`) are modelled as strings.
- The distinction between the failure causes. The source answers 400 for every one of them, so the model has a single `BadRequest`.
- Scenarios.T90GoodRequest: states only that the bundle includes `rtpw` and `subrange`, as the test's `hash_including` does. The exact bundle contents are stated for every request by Its90.HandleCallShape.
- Scenarios.ResOptionalCoefficients: states only that the bundle includes the four coefficients, as the test's `hash_including` does. The exact contents are stated by Its90.HandleCallShape.
