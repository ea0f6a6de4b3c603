# gearbot http-proxy: request pipeline and route labels

This project models the core of the gearbot HTTP proxy in Dafny. The proxy
sits in front of the Discord REST API and handles each inbound request the
same way:

1. It strips the `/api/v6` version prefix from the path.
2. It asks the outbound client's router for the route.
3. It reads the body.
4. It rewrites the path-and-query.
5. It forwards the request through the shared rate-limited client.
6. It relays the upstream reply.
7. Only then does it record a timing sample and an access log line, labelled by `path_name`.

The model has four modules:

- `Http`: the values the handler sees. These are methods, header maps, byte bodies (a stream either completes or breaks off) and URIs. It also holds `ExtendHeaders`, the header map that `HeaderMap::extend` produces, stated as a pure function. The in-place update is `Proxy.ResponseBuilder.ExtendHeadersWith`.
- `Rewrite`: Rust's `str::replace`, written out as a left-to-right, non-overlapping scan. On top of it sit the two path rewrites: the classification path (prefix stripped when the path starts with it) and the forwarded path-and-query (`/api/v6/` removed everywhere).
- `Routing`: the route variants and `path_name`. `path_name` is one match, modelled as two steps: `LabelOf` maps a route to one of the match's labels, and `LabelText` gives each label its literal. Together they are `PathName`.
- `Proxy`: `handle_request`.
  - `Handle` is the pure outcome-and-effects function. It gives the result and the ordered trace of effects: logs, body reads, the outbound send, the timing sample.
  - `HandleRequest` is the step-by-step method, proved equal to `Handle`. It builds the reply in a `ResponseBuilder` object whose header map is extended in place.
  - The router (`Path::try_from`) and the outbound client (`Client::raw`) are function parameters.

Notes on the code:
- Classification is not total. The router can reject a path, and the handler then fails with `InvalidPath`.
- The forwarded path is not the stripped path. The code removes every `/api/v6/` (with its trailing slash) from the whole path-and-query, so a prefixed path is forwarded without its leading slash (`ForwardedLosesLeadingSlash`), and an `/api/v6/` in the middle of a path is removed too (`ForwardedRewritesMidPath`).
- The labels are the literals of the match, for example "User in guild" and "Channel message".

## Model

| member | source | states |
|---|---|---|
| Http.ExtendHeaders | src/main.rs:206-208 | extending a header map keeps every name of both maps; a name in the extension gets exactly the extension's values, any other name keeps its own |
| Http.MethodName | src/main.rs:185 | `method.to_string()`: the method's standard text, or an extension method's own name; this function is the model and has no separate property |
| Http.Collect | src/main.rs:172-174 | collecting a body succeeds exactly when the stream completes, and then yields all of its bytes |
| Rewrite.Replace | src/main.rs:160 | `str::replace`: a left-to-right scan that replaces each non-overlapping match; this function is the model, and its properties are the `Replace…` lemmas below |
| Rewrite.ReplaceAbsent | src/main.rs:160 | replacing a pattern that does not occur leaves the text unchanged |
| Rewrite.ReplaceShrinks | src/main.rs:177 | replacing with something shorter never lengthens the text, and shortens it exactly when the pattern occurs |
| Rewrite.RemoveChangesIffContains | src/main.rs:177 | removing a pattern changes the text exactly when the pattern occurs in it, and never lengthens it |
| Rewrite.ReplaceKeepsUnmatched | src/main.rs:177 | a prefix in which no match starts is kept as it is |
| Rewrite.ReplaceSplitsAt | src/main.rs:177 | a character absent from the pattern splits the replacement: no match spans it |
| Rewrite.ReplaceAfterHead | src/main.rs:177 | a head in which no match starts is kept, and the match right after it is replaced |
| Rewrite.ClassificationPath | src/main.rs:159-163 | a path without the version prefix is classified unchanged; a prefixed path loses at least the prefix |
| Rewrite.ForwardedPath | src/main.rs:176-177 | the forwarded path-and-query is never longer than the original, and differs from it exactly when `/api/v6/` occurs in it |
| Rewrite.PrefixedAndBareClassifyAlike | src/main.rs:159-163 | a path free of the prefix classifies the same with and without the prefix in front |
| Rewrite.ForwardedLosesLeadingSlash | src/main.rs:159-177 | for `/api/v6/` + s, the classification path keeps the leading slash but the forwarded path is s without it |
| Rewrite.ClassificationNotIdempotent | src/main.rs:159-163 | stripping is not idempotent: a path built from nested prefixes classifies to the prefix itself, which classifies to the empty path |
| Rewrite.ForwardedRewritesMidPath | src/main.rs:159-177 | a path `/` + segment + `/api/v6/` + s (such as `/channels/api/v6/x`) is classified unchanged, yet it is forwarded as `/` + segment + the forwarded s (`/channelsx`) |
| Rewrite.ForwardedRewritesQuery | src/main.rs:177 | the query string is rewritten exactly as the path is, on each side of the `?` |
| Routing.LabelOf | src/main.rs:93-142 | the match of `path_name`, arm by arm, from variant to label, with the wildcard arm giving the unknown label; this function is the model, and its properties are `UnknownExactlyWhenUnnamedVariant` and `LabelIgnoresIds` |
| Routing.LabelText | src/main.rs:94-141 | every label is written as one of the fixed literals of the match |
| Routing.PathName | src/main.rs:92-143 | the label of every route is one of the fixed literals, so the metric's route dimension is bounded |
| Routing.LabelIgnoresIds | src/main.rs:94-140 | routes of the same variant get the same label whatever ids they carry |
| Routing.UnknownExactlyWhenUnnamedVariant | src/main.rs:141 | the wildcard arm is taken exactly by the variants the match does not name |
| Routing.UnknownTextIsUnique | src/main.rs:94-141 | no named arm's literal equals the unknown label's |
| Routing.UnknownExactlyWhenUnnamed | src/main.rs:92-143 | a route is labelled "Unknown path!" exactly when the match does not name its variant |
| Routing.LabelNotInjective | src/main.rs:96-139 | messages with and without a message id share "Channel message", and channel and standalone webhooks share "Webhook", so different variants can share a label |
| Proxy.Route | src/main.rs:164 | `Path::try_from` applied to the method and the classification path; this function is the model, and `PrefixDoesNotChangeRoute` states its property |
| Proxy.Outbound | src/main.rs:186-193 | the raw request keeps the inbound method, headers, body and route, and its path is the rewritten path-and-query |
| Proxy.Handle | src/main.rs:145-220 | the outcome and the effect trace of `handle_request`, stage by stage; this function is the model, and the lemmas below state its properties |
| Proxy.HandleRequest | src/main.rs:145-220 | the handler's result and effects are those of the stage-by-stage outcome `Handle` |
| Proxy.UnroutableStopsBeforeBody | src/main.rs:164-172 | `InvalidPath` exactly when the router rejects the path; then only the path error is logged and the body is never read |
| Proxy.ErrorNamesFirstFailingStage | src/main.rs:164-212 | each error kind occurs exactly when its stage is the first to fail; success exactly when all stages pass; `MakingResponseBody` never occurs |
| Proxy.ForwardedOnceWhenStagesPass | src/main.rs:186-196 | the outbound request is sent once exactly when routing, body read and path-and-query succeed |
| Proxy.RelaysUpstreamUnchanged | src/main.rs:198-212 | on success the reply has the upstream status, headers and body unchanged |
| Proxy.SampleOnlyOnSuccess | src/main.rs:216-217 | one timing sample exactly on success, carrying the method, the route label and the status, followed by a log line with the same fields; a failed request leaves neither a sample nor a log line; sample labels are fixed literals |
| Proxy.FailureLeavesNoRecord | src/main.rs:164-219 | every failing stage returns before lines 216-217, so a failed request's trace holds neither a timing sample nor an access log line |
| Proxy.UnknownRouteStillForwarded | src/main.rs:184-216 | a route the label match does not name is still forwarded, and its sample is labelled "Unknown path!" |
| Proxy.SamplesIgnoreIds | src/main.rs:184-216 | requests routed to the same variant with the same method record samples with the same dimensions, whatever the ids |
| Proxy.PrefixDoesNotChangeRoute | src/main.rs:159-164 | a path free of the prefix is routed the same with and without the prefix in front |
| Proxy.ResponseBuilder.constructor | src/main.rs:204 | a fresh builder has status 200, no headers and no error |
| Proxy.ResponseBuilder.SetStatus | src/main.rs:204 | a status outside 100..999 puts the builder in the error state; otherwise, unless already failed, the status is set; the headers are untouched |
| Proxy.ResponseBuilder.ExtendHeadersWith | src/main.rs:206-208 | without an error the builder's header map is extended in place; in the error state nothing changes |
| Proxy.ResponseBuilder.Body | src/main.rs:210-212 | finishing the builder succeeds exactly when it holds no error, and yields its status, its headers and the body |

## Left out

- Process start-up (`main`): reading the environment, installing the logger, the metrics exporter and the server loop are not part of this model.
- `Path::try_from` (the router) and `Client::raw` (the outbound client) are function parameters. Their internals (route templates, rate limiting, retries) are not modelled.
- Routing.Path: the router's enum is modelled as the variant (`Kind`) plus the ids it carries. Only the variants the match names are listed, plus two variants it does not name (`ChannelsIdRecipients`, `GuildsIdEmbed`) that stand for the rest of the enum.
- Routing.Path: any variant may carry any sequence of ids. This over-approximates the router's enum, whose unit variants (Gateway, GatewayBot, Guilds, InvitesCode, UsersId, UsersIdConnections, UsersIdChannels, UsersIdGuilds, UsersIdGuildsId, VoiceRegions, OauthApplicationsMe) carry nothing. The label depends on the variant alone, so no stated property relies on the ids.
- Streaming: a body is a finished value that either completes or breaks off. Partial reads, back-pressure and cancellation are not modelled.
- Concurrency between requests and the shared client are not modelled; each call models one request.
- Timing: the `Instant` readings and the sample's duration are left out. A sample carries only its dimensions (method, route, status).
- The `timing!` metrics backend and its Prometheus aggregation and exposition are not modelled. The trace records the sample that is emitted.
- The two `debug!` logs (lines 149 and 214) are not in the effect trace. The one at line 149 prints every inbound request. The one at line 214 prints the built response, so it runs only on success, just before the sample. Both print `Debug` renderings of hyper values, which are not modelled.
- Http.Uri: `path` and `pathAndQuery` are independent fields. In the http crate the path is the part of the path-and-query before `?`, and is empty when there is none. The model therefore admits more inputs than real URIs carry; no stated property depends on the link between the two.
- The `form` field of the raw request is always absent in this handler and is not modelled.
- Status and method printing: the status is kept as a number, and `MethodName` gives the standard method texts.
- Rewrite.Replace: requires a non-empty pattern. Both patterns the proxy uses are non-empty, and the empty-pattern case of `str::replace` is not modelled.
- The error module (`RequestError`'s display texts and how errors become responses) is not part of this model.
- Proxy.HandleRequest: the `MakingResponseBody` branch is unreachable, because a status taken from an upstream response is always valid. The method asserts this instead of returning that error.
- Routing.PathName: only the two shared pairs of labels are proved. That every other label belongs to exactly one variant is not stated.
