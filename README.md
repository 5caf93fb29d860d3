# Form3 accounts client — Dafny model

A model of the core of a Go client library for the Form3 accounts API
(package `form3`): the pagination state of a list call, the client with its
functional options and its request pipeline, and the accounts resource
service (Fetch, List, Create, Delete and the fluent Number/Size setters).

The network and the JSON codec are inputs, not code:

- a `Transport` (`Http.Transport`) maps the request the pipeline built to what
  `http.Client.Do` produced: a network failure or a response (status code,
  status line and a body that was read to the end or broke part way);
- a `Codec` (`Http.Codec`) says what `json.Marshal` of a create payload and
  `json.Unmarshal` into the single-account and account-list envelopes yield.

Each pipeline and service method takes both as parameters and returns, as a
ghost out-parameter `sent`, the request it handed to the transport, so that
its contract can state the method, path, query, headers and body sent and
then the result as a function of what the transport returned for exactly
that request.

Modules:

- `Wrappers` — `Option` (Go's nil-or-pointer) and `Result`.
- `Strconv` — `strconv.Itoa` and the reading it inverts (`ParseDecimal`),
  with round trips in both directions.
- `UrlValues` — `url.Values` as a map from key to the values added, and `Add`.
- `AccountModel` — `Account`, `AccountAttributes`, `Links`, the response
  envelopes and the create payload; Go's `int` as the 64-bit `int64`.
- `Http` — request, URL, response, transport and codec.
- `Paging` — `Pagination`, `NewPagination` and `Params` (pagination.go).
- `Pipeline` — constants, options, `NewClient`, the `Client` class,
  `MakeRequest`, `checkResponse`, `Decode` (client.go).
- `AccountsApi` — `AccountsService` and `Client.Accounts()` (accounts.go and
  client.go:147-149; it lives here because `AccountsService` depends on
  `Client`).

Where the code's apparent intent and its behaviour differ, the model follows the behaviour:

- the URL path is `"v1" + path` (`v1/organisation/accounts`) with no leading
  slash; Go's URL rendering inserts the `/` between host and path;
- `List` returns no response on any error, while `Fetch` and `Create` return
  the response they got;
- every service method takes a `context.Context` (form3/accounts.go:88, 110, 140, 169), which suggests the caller can cancel a call or give it a deadline; the code drops that context (see "Left out"), so the model takes none;
- the model gives errors a kind (`Pipeline.Error`: transport, status, read,
  decode, option) where Go returns untyped `error` values whose messages are
  the underlying error or the status line.

## Model

| member | source | states |
|---|---|---|
| `Strconv.Itoa` | form3/pagination.go:38-39 | the rendering is never empty, starts with `-` exactly for a negative integer, and is decimal digits after that sign |
| `Strconv.ItoaRoundTrip` | form3/pagination.go:38-39 | every integer is rendered as a canonical decimal string that reads back as that integer |
| `Strconv.ParseRoundTrip` | form3/pagination.go:38-39 | every canonical decimal string is exactly the rendering of the integer it reads as, so rendered values are precisely the canonical decimals |
| `Strconv.ItoaInjective` | form3/accounts.go:170-171 | distinct integers (versions, page numbers) are rendered as distinct strings |
| `UrlValues.Add` | form3/pagination.go:38-39 | the keys are the old keys plus `key`; `value` is appended to the values already held for `key` (or is its only value); every other key keeps its values |
| `Paging.Rendered` | form3/pagination.go:25-42 | the query has exactly the keys `page[number]` and `page[size]`, one canonical decimal each; the number reads as 0 when negative and as itself otherwise; the size reads as 100 when not positive and as itself otherwise |
| `Paging.Params` | form3/pagination.go:25-42 | clamping local copies and adding both keys builds exactly `Rendered(p)`; the pagination is taken by value and not changed |
| `Paging.NewPagination` | form3/pagination.go:8-22 | a new pagination needs no clamping and is sent as `page[number]=0`, `page[size]=10` |
| `Paging.NonPositiveSizeSentAsHundred` | form3/pagination.go:33-36 | a size of zero or below is sent as `100`, which differs from the default size `10` |
| `Paging.RenderedInjectiveOnValid` | form3/pagination.go:28-39 | for pages that need no clamping, different paginations are sent as different queries |
| `Paging.NumberSetOverDefaults` | form3/pagination.go:20-39 | number 3 over the defaults is sent as `page[number]=3`, `page[size]=10`; number -5 as `page[number]=0` |
| `Pipeline.ApplyOption` | form3/client.go:64-77 | `SetScheme` replaces only the scheme and `SetHost` only the host, and neither fails; an option that returns an error fails with that error |
| `Pipeline.ApplyOptions` | form3/client.go:43-47 | a failure is always the error of one of the options that fail (see also `ApplyOptionsAppend`, `LastSettersWin`, `FirstRejectionAborts`, `FailsIffSomeRejecting`) |
| `Pipeline.Configure` | form3/client.go:33-49 | with no failing option the client gets the default scheme and host overridden by the last `SetScheme` and the last `SetHost`; a failure is the error of a failing option |
| `Pipeline.ApplyOptionsAppend` | form3/client.go:43-47 | applying options `a + b` is applying `a`, then `b` to its result; an error in `a` ends it |
| `Pipeline.LastSettersWin` | form3/client.go:43-47 | when no option fails, the final scheme is that of the last `SetScheme` and the final host that of the last `SetHost` (the start value if there is none), so later options override earlier ones |
| `Pipeline.FirstRejectionAborts` | form3/client.go:43-46 | the first failing option's error is the result, whatever options follow it |
| `Pipeline.FailsIffSomeRejecting` | form3/client.go:43-49 | construction fails if and only if some option fails |
| `Pipeline.DefaultsWithoutOptions` | form3/client.go:33-40 | with no options the client uses scheme `http` and host `localhost:8080` |
| `Pipeline.CheckResponse` | form3/client.go:113-120 | no error exactly when the status is 2xx (`IsSuccessStatus`: 200 <= status <= 299); otherwise an error carrying the status line |
| `Pipeline.Decode` | form3/client.go:123-130 | succeeds exactly when the body was read to the end and unmarshals, with the unmarshalled value; a broken body is a read error, a bad one a decode error; the status code plays no part |
| `Pipeline.Client.constructor` | form3/client.go:34-40 | a client starts with the default scheme and host |
| `Pipeline.Client.Apply` | form3/client.go:64-77 | `SetScheme` changes only the scheme, `SetHost` only the host, neither fails; a failing option returns its error |
| `Pipeline.Client.MakeRequest` | form3/client.go:81-111 | the request sent has path `"v1" + path`, the given query, the vendor JSON `Accept` and `Content-Type` headers, and the marshalled body (empty when there is no body or it does not marshal); a transport error is returned with no response and no status check; otherwise the response is always returned, with a status error exactly when it is not 2xx; a missing response means a transport error |
| `Pipeline.NewClient` | form3/client.go:33-50 | options run in order over the defaults; the client's scheme and host are those of `Configure(options)`, and the first failing option yields no client and its error |
| `AccountsApi.AccountsService.constructor` | form3/accounts.go:63-69 | a new service holds its client and `NewPagination()` |
| `AccountsApi.AccountsService.Fetch` | form3/accounts.go:88-103 | sends `GET v1/organisation/accounts/{id}` with no query and no body; returns an account exactly when there is no error; the response whenever the transport produced one; a status error for non-2xx, else the decode error or the decoded account |
| `AccountsApi.AccountsService.List` | form3/accounts.go:110-125 | sends `GET v1/organisation/accounts` with `Rendered(pagination)` as the query; accounts and response are returned exactly when there is no error (the response is dropped on every error); the decoded list on success |
| `AccountsApi.AccountsService.Create` | form3/accounts.go:140-158 | sends `POST v1/organisation/accounts` whose body is the marshalled `{data: account}` of the caller's account (empty if it does not marshal); account returned exactly when there is no error; the response whenever the transport produced one |
| `AccountsApi.AccountsService.Delete` | form3/accounts.go:169-183 | sends `DELETE v1/organisation/accounts/{id}` with the single query parameter `version`, whose value reads back as the version; `ok` exactly when there is no error, i.e. when the status is 2xx; the response whenever there is one |
| `AccountsApi.AccountsService.Number` | form3/accounts.go:186-189 | sets only the pagination number and returns the same service |
| `AccountsApi.AccountsService.Size` | form3/accounts.go:192-195 | sets only the pagination size and returns the same service |
| `AccountsApi.Accounts` | form3/client.go:147-149 | every call yields a fresh service over the client with the default pagination |
| `AccountsApi.ListPage` | form3/accounts_test.go:72-98 | `Accounts().Number(n).Size(s).List()` sends `GET v1/organisation/accounts` with the page for `n` and `s` alone, clamped as `Params` clamps; accounts and response come back exactly when there is no error, a non-2xx status is a status error, and a 2xx response yields the decoded list or the decode error |

## Left out

- The network: `http.Client.Do` is the `Transport` parameter. The model's methods take no `context`, because the code never uses the one it is given: `MakeRequest` receives `ctx` (form3/client.go:81) and builds the request with `http.NewRequest` (form3/client.go:94), which attaches a background context, and the default `http.Client{}` has no timeout; so a caller's cancellation or deadline never reaches the call.
- A transport error that comes with a response (net/http does this only when a redirect policy fails) is modelled as a failure without a response.
- `http.NewRequest` failing (its error is ignored and the nil request would make the header calls panic) is not modelled; the model always builds the request.
- JSON: `json.Marshal`/`json.Unmarshal`, `omitempty` field presence and the snake_case wire names are the `Codec` parameter; reading the body (`ioutil.ReadAll`) is a body that is complete or broken.
- URL rendering and percent-encoding (`url.URL.String`, `url.Values.Encode`): the URL is kept as scheme, host, path and the query map.
- Logging (`infof`, `errorf` and the `infoLog`/`errorLog` fields): a side channel with no behavioural contract.
- The `httpClient` field of `Client` is the `Transport` parameter; an option written by a caller can only set the scheme and host or fail (`Rejecting`), since the other fields are not modelled.
- A decoded account list that Go would leave as a nil slice (no `data` key) is not told apart from an empty one.
- `Create` takes the account by value; Go dereferences a pointer and would panic on nil.
- Server behaviour (409 on a duplicate id or a wrong version, 404, generated account numbers and IBANs) is not in this code.
- Sharing one `AccountsService` between concurrent callers: the race between `Number`/`Size` and `List` is out of scope.
