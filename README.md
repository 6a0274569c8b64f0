# RO-PE occurrence search — a Dafny model

RO-PE is a crowdsourced incident map: signed-in users file geotagged
occurrence reports, and a public map lists them, filtered by type, by time
window and by distance from the map centre. This project models the rules
behind that search and the small pieces of logic around it:

- `occurrence_model.dfy` (`OccurrenceModel`): the Occurrence document, its
  required paths, the `'Point'` enum and the defaults for `location.type`,
  `photoUrl` and `createdAt`.
- `occurrence_route.dfy` (`OccurrenceRoute`): the GET handler of the search.
  Optional query parameters become a filter with up to three keys: exact
  `type`, a `createdAt >=` cutoff for `24h` / `7d` / `30d`, and a `$near`
  constraint with the centre stored as `[lng, lat]` and the radius turned
  from kilometres into metres. The store selects the matching documents and
  orders them newest first. Any exception becomes a 500 with a fixed
  message. The answer is proved to be a permutation of the matching
  documents in non-increasing `createdAt` order, and a document is in it
  exactly when it passes every axis that the parameters switch on.
- `auth_middleware.dfy` (`AuthMiddleware`): the `protect` middleware. It
  parses the Authorization header (`split(' ')[1]`) and picks one of the two
  401 replies, or stores the looked-up user on the request and calls `next`
  once.
- `client_auth.dfy` (`ClientAuth`): the browser-side `Auth` helper. It keeps
  the `token` and `user` items in localStorage, handles login and
  registration replies, merges headers in `fetchWithAuth`, and logs out on a
  401.
- `map_page.dfy` (`MapPage`): the map page, which is the client of the
  search. `applyFilters` and `clearFilters` build the parameters, and
  `displayOccurrences` rebuilds the markers. Lemmas here link these
  parameters to the backend's filter: an empty radius field never gives a
  geographic filter, and the map centre reaches the backend longitude first.
- `base.dfy` (`Base`): `Option` and `Result`.

Abstractions:
- The store is a `seq<Occurrence>`.
- Time is an integer count of milliseconds.
- `parseFloat` is a function parameter `parse: string -> real`.
- The store's great-circle distance is a function parameter
  `dist: (seq<real>, seq<real>) -> real`, in metres, taking the centre and a
  document's coordinates.
- `jwt.verify` and `User.findById` are function parameters.
- `fetch` is a function from request to reply.
- JSON serialisation of the user object is a pair of function parameters.
- `type` is a Dafny keyword, so the occurrence's `type` path is the field
  `kind`.

Modelling choices made against the code:
- The period cutoffs subtract fixed offsets of 24 hours, 7 days and 30 days
  from one `now`. The handler's `setHours` / `setDate` calendar arithmetic is
  simplified; see "Left out".
- Malformed numbers are not rejected by the handler. They reach the store,
  and any exception raised there ends in the 500 reply.
- The order among documents with equal `createdAt` is left to the store and
  is not stated.

## Model

| member | source | states |
|---|---|---|
| `OccurrenceModel.Create` | backend/src/models/Occurrence.js:3-12 | creation succeeds iff `type` and `description` are non-empty strings, `location.type` is absent or `'Point'`, and `coordinates` is supplied; a failure names exactly the failing paths; a success is schema-valid, copies the supplied fields, and defaults `location.type` to `'Point'`, `photoUrl` to null and `createdAt` to the creation instant |
| `OccurrenceModel.CreateToDraft` | backend/src/models/Occurrence.js:3-12 | every schema-valid document is rebuilt exactly from its own fields |
| `OccurrenceModel.CreateDefaults` | backend/src/models/Occurrence.js:7-11 | a draft with only the required paths gets location type `'Point'`, a null photo and `createdAt = now` |
| `OccurrenceRoute.FilterFor` | backend/src/routes/occurrences.js:8-44 | a `type` key appears iff `type` is non-empty and holds that exact value; a `createdAt` cutoff appears iff `period` is `24h`/`7d`/`30d` and equals `now` minus 24 h / 7 days / 30 days; a `location` key appears iff all three geographic parameters are non-empty, with centre `[lng, lat]` and `$maxDistance` = radius × 1000 |
| `OccurrenceRoute.BuildFilter` | backend/src/routes/occurrences.js:9-44 | the key-by-key construction with the `dateFrom` switch yields exactly `FilterFor` |
| `OccurrenceRoute.MatchesByAxis` | backend/src/routes/occurrences.js:9-46 | a document matches the filter iff it passes the type axis, the period axis (`now - createdAt` within the window, bound included) and the geo axis (distance in km at most the radius), so the keys combine by conjunction and none overrides another |
| `OccurrenceRoute.SelectCounts` | backend/src/routes/occurrences.js:46 | `find(filter)` keeps every copy of a matching document and no copy of any other |
| `OccurrenceRoute.SelectAll` | backend/src/routes/occurrences.js:46 | the empty filter `{}` selects the whole store |
| `OccurrenceRoute.InsertNoneNewer` | backend/src/routes/occurrences.js:46 | inserting a document no newer than a bound into a sequence no newer than that bound keeps the bound |
| `OccurrenceRoute.InsertOrdered` | backend/src/routes/occurrences.js:46 | inserting into a newest-first sequence keeps it newest first |
| `OccurrenceRoute.InsertCounts` | backend/src/routes/occurrences.js:46 | inserting adds exactly one copy of the document |
| `OccurrenceRoute.SortOrdered` | backend/src/routes/occurrences.js:46 | `sort({ createdAt: -1 })` returns a permutation of its input in non-increasing `createdAt` order |
| `OccurrenceRoute.SearchContract` | backend/src/routes/occurrences.js:8-47 | the answer is newest first, is a permutation of the matching documents, and contains a document iff it is stored and passes every axis the parameters switch on |
| `OccurrenceRoute.NoParamsAnswersAll` | backend/src/routes/occurrences.js:8-47 | no parameters give the empty filter, and the answer is the whole store newest first |
| `OccurrenceRoute.UnknownPeriodIsAbsent` | backend/src/routes/occurrences.js:15-31 | an empty or unrecognised period gives the same filter as omitting it |
| `OccurrenceRoute.EmptyKindIsAbsent` | backend/src/routes/occurrences.js:12 | an empty `type` gives the same filter as omitting it |
| `OccurrenceRoute.PartialGeoIsAbsent` | backend/src/routes/occurrences.js:34-44 | missing any of `centerLat`, `centerLng`, `radius` means no `location` key, the same filter as omitting all three |
| `OccurrenceRoute.DayWindowBounds` | backend/src/routes/occurrences.js:18-19 | with `period=24h`, a document from one hour ago or exactly 24 hours ago matches, one from 25 hours ago does not |
| `OccurrenceRoute.Search` | backend/src/routes/occurrences.js:6-52 | a throwing query gives status 500 with `'Erro ao buscar ocorrências.'`; otherwise status 200 with a permutation of the matching documents, newest first, holding exactly the stored documents that pass every axis; the order of equal `createdAt` is not fixed |
| `AuthMiddleware.Split` | backend/src/middleware/auth.js:13 | `split(' ')` always yields at least one field |
| `AuthMiddleware.SplitJoin` | backend/src/middleware/auth.js:13 | the fields contain no space and joining them with spaces gives back the header |
| `AuthMiddleware.SplitAfterWord` | backend/src/middleware/auth.js:13 | a space-free prefix is part of the first field |
| `AuthMiddleware.TokenOfHeader` | backend/src/middleware/auth.js:13 | the token is exactly the second space-separated field, whatever follows it |
| `AuthMiddleware.NoSpaceNoToken` | backend/src/middleware/auth.js:13 | a header without a space yields an undefined token |
| `AuthMiddleware.Decide` | backend/src/middleware/auth.js:7-34 | missing or non-`Bearer` header ⇔ 401 `'Não autorizado, token não encontrado'`; undefined token, failed verification or a throwing lookup ⇔ 401 `'Token inválido'`; otherwise the request proceeds with the lookup result, null included |
| `AuthMiddleware.Exchange.Respond` | backend/src/middleware/auth.js:27 | sets the status and message and leaves `req.user` and `next` alone |
| `AuthMiddleware.Protect` | backend/src/middleware/auth.js:7-34 | on a rejection, status 401 with the decided message, `req.user` unchanged and `next` not called; on admission, `req.user` is the lookup result, `next` is called exactly once, and no status is set |
| `ClientAuth.GetToken` | frontend/js/auth.js:6-8 | returns the stored `token` item, or null when there is none |
| `ClientAuth.IsAuthenticated` | frontend/js/auth.js:28-30 | true iff a non-empty token is stored |
| `ClientAuth.GetUser` | frontend/js/auth.js:19-22 | None iff no non-empty `user` item is stored; otherwise the parse of that item |
| `ClientAuth.SetToken` | frontend/js/auth.js:10-12 | stores the token under `token` and nothing else; `getToken` then returns it |
| `ClientAuth.SetUser` | frontend/js/auth.js:24-26 | stores the serialised user under `user`; `getUser` returns the user back whenever parse inverts stringify on it |
| `ClientAuth.RemoveToken` | frontend/js/auth.js:14-17 | deletes `token` and `user` and keeps every other item; afterwards not authenticated |
| `ClientAuth.Logout` | frontend/js/auth.js:72-75 | removes the session items and navigates to `login.html` |
| `ClientAuth.CompleteAuth` | frontend/js/auth.js:41-49 | on an ok reply with data, stores `token` and `user` and returns `data.data`; on a non-ok reply, fails with the server message or the fallback and stores nothing; an ok reply without data fails and stores nothing |
| `ClientAuth.Login` | frontend/js/auth.js:32-50 | posts the credentials as JSON to `/auth/login`; success iff the reply is ok with data, in which case `token` and `user` are stored and `data.data` returned; a non-ok reply throws the server message or `'Erro ao fazer login'`; a rejected request throws; every failure stores nothing; the page location is unchanged |
| `ClientAuth.Register` | frontend/js/auth.js:52-70 | posts name and credentials as JSON to `/auth/register`; the same outcomes as login, with the fallback `'Erro ao registrar'` |
| `ClientAuth.MergeHeaders` | frontend/js/auth.js:84-92 | caller headers are kept, `Authorization` is `Bearer <token>` over any caller value, and `Content-Type` is forced to `application/json` unless the body is FormData; no other key is added |
| `ClientAuth.FetchWithAuth` | frontend/js/auth.js:77-106 | without a non-empty token it throws `'Não autenticado'` before any request and changes nothing; otherwise it sends one request with the merged headers; a 401 logs out and returns undefined, and any other reply is returned unchanged |
| `MapPage.MarkerPosition` | backend/frontend/js/map.js:48-50 | the marker's `[lat, lng]` is the stored `[lng, lat]` swapped |
| `MapPage.FormParams` | backend/frontend/js/map.js:67-79 | `type` and `period` are always sent, empty or not; `centerLat`, `centerLng` (the map centre) and `radius` are added together iff the radius field is non-empty |
| `MapPage.EmptyFieldsAddNothing` | backend/frontend/js/map.js:73-79 | with the backend's filter construction: an empty radius field gives no geo filter, and an empty type or period adds no constraint |
| `MapPage.RadiusSendsCentre` | backend/frontend/js/map.js:75-79 | with the backend's filter construction: a non-empty radius field gives a `$near` centred on the map centre, longitude first, radius × 1000 |
| `MapPage.ClearedQueryMatchesAll` | backend/frontend/js/map.js:84-89 | the empty parameter set of `clearFilters` reaches the backend as no parameters and gives the empty filter |
| `MapPage.MapView.ApplyFilters` | backend/frontend/js/map.js:67-82 | the parameters built step by step are exactly `FormParams` of the three fields and the map centre |
| `MapPage.MapView.ClearFilters` | backend/frontend/js/map.js:84-89 | the three fields become `''` and the refetch uses no parameters |
| `MapPage.MapView.DisplayOccurrences` | backend/frontend/js/map.js:39-65 | every previous marker leaves the map; `markers` then holds one fresh, distinct marker per occurrence, in input order, at the swapped position with the type/description popup |

## Left out

- Geodesic distance and the store's evaluation of `$near` (2dsphere index, floating point) are a function parameter, and the radius is a `real`.
- `parseFloat` is a function parameter; NaN is not modelled. A query whose numbers the store rejects is covered only by the general "query throws" path of `OccurrenceRoute.Search`.
- `OccurrenceRoute.FilterFor`: `setHours` / `setDate` are modelled as fixed offsets of 24, 7 × 24 and 30 × 24 hours in milliseconds. Calendar and daylight-saving shifts are not modelled.
- `OccurrenceRoute.SearchContract`: the order among documents with equal `createdAt` is not stated, because the source leaves it to the store.
- `OccurrenceRoute.Search`: the cause of an exception from the store (connection, index, rejected value) is one boolean parameter. The error is logged, and that logging is not modelled.
- `OccurrenceModel.Create`: the `required` check on `coordinates` is modelled as "supplied", which matches no Mongoose version exactly. Mongoose gives array paths an implicit default of `[]`. Under Mongoose 4 an omitted or empty array fails `required`; under Mongoose 5 and later both pass. The model rejects omission and accepts an explicit empty array. Mongoose's type casting and the `_id` it adds are not modelled.
- The `2dsphere` index declaration and the `mongoose.model` registration are persistence setup.
- `AuthMiddleware.Protect`: an exception thrown by `next()` itself, inside the same `try`, is not modelled. `jwt.verify`, the JWT secret and `User.findById` are function parameters, and a decoded payload is assumed to carry an `id`.
- `ClientAuth.GetUser`: a `JSON.parse` that throws on a malformed item is not modelled; `parse` is total.
- `ClientAuth.CompleteAuth`: the reply body is taken as already parsed; `response.json()` failing is not modelled.
- `ClientAuth.Login`: the request is built by `AuthRequest`, with JSON.stringify of the credentials as a function parameter; the URL, method and headers of the POST are fixed by that definition rather than by a contract.
- `ClientAuth.FetchWithAuth`: `options` carries only method, headers and body, with headers as a plain object. Other `fetch` options, a `Headers` instance and network failures are not modelled.
- `MapPage.MapView.DisplayOccurrences`: building the list items in the DOM is left out, along with the click handlers and popup opening. Every occurrence is required to carry at least two coordinates; with fewer, Leaflet would throw.
- `fetchOccurrences` (backend/frontend/js/map.js:19-37) is network glue. Its call is represented by the parameter object `ApplyFilters` / `ClearFilters` return. `Transmit` treats the URL encoding as round-tripping.
- These files are outside the model: backend/src/server.js (Express bootstrap, CORS, rate limiting, static files), backend/src/config/database.js (connection I/O), frontend/js/map.js and frontend/js/create.js (Leaflet, DOM, geolocation and upload glue), and frontend/js/main.js (a redirect and a call to a helper that frontend/js/auth.js does not define).
