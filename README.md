# Kystdatahuset AIS plugin — a verified model of its client logic

The QGIS plugin `KystdatahusetAIS` logs in to the Kystdatahuset web service,
asks the user for a vessel's MMSI, looks the vessel up in the ship register,
fetches its AIS positions for a fixed window and draws each position as a
point feature of a new memory layer. This project models the parts of
`kystdatahuset_ais.py` that decide something:

- the response envelope `{success, msg, data}` and the three places that
  check it: `_request` (used by `lookup`), `login`, and the positions query
  inside `run` — each with its own order of checks and its own error cases;
- `lookup`, which turns the ship-info reply into "not found" (`False`) or one
  ship record, taken with `pop()`;
- the `Position` record and the loop in `run` that decodes each row by
  positional unpacking, skips rows of the wrong arity and adds one feature
  per good row to the layer's data provider;
- the plugin object's session: `login` always replaces it and adds the
  bearer header only on a successful reply; `run` logs in only when there is
  no session yet.

Decoded JSON is the datatype `Json.Json` (null, boolean, number, string,
list, object with members in insertion order), so the Python operations the
code applies to it — truth testing, `dict.get`, `len`, iteration, `in` — are
modelled on every shape the service could send, including the shapes on
which Python raises. Every exception other than a transport or provider
error (KeyError, TypeError, AttributeError) is `Envelope.Failure.Malformed`.
The HTTP layer (`session.request`, `raise_for_status`, `.json()`) is an input:
`HttpOutcome` is either `TransportFailed` or the decoded body. The MMSI
dialog's answer and the stored credentials are inputs too.

Modules: `Wrappers` (Option, Result), `Json`, `Envelope` (envelope checks),
`Ship` (lookup and ship name), `Positions` (row decoding, features, the
provider and the row loop), `Plugin` (the session, the plugin class with
`Request`, `Lookup`, `Login`, `Run` and `QueryAndRender`, the part of `run` after the session is in place).

Behaviour the code has and the model keeps, where one might expect otherwise:

- `lookup` returns the LAST record of the reply (`pop()`), although the
  comment beside it says "get first record".
- An empty lookup reply returns `False`; `run` then calls `False.get` and
  aborts with an error message; it does not fall back to an "Unknown" name.
  "Unknown" is used only when a ship record lacks `shipname`.
- `data == null` in `_request` is an error (`NoData`), distinct from an empty
  list, which is returned as it is.
- The positions query in `run` does not go through `_request`: it checks
  only `success`, so a timeout message or null data is not detected there;
  `result["data"]` and `len(...)` are evaluated after the `try` block, so a
  missing `data` member or a non-iterable `data` ends `run` with an uncaught
  exception (`Crashed`).
- `login` does not raise: after a failed login the session is a fresh one
  without the bearer header, and `run` proceeds with it.
- A row is unpacked by iteration, so a ten-character string or a ten-key
  object decodes too; numbers, booleans and null rows are skipped.

## Model

| member | source | states |
|---|---|---|
| `Json.Truthy` | kystdatahuset_ais.py:170 | null is falsy, and an iterable value is truthy exactly when iterating it yields something |
| `Json.Elements` | kystdatahuset_ais.py:326-328 | iteration is defined exactly on strings, lists and dicts, and yields a list's items, a string's characters as one-character strings, a dict's keys in order |
| `Json.Member` | kystdatahuset_ais.py:172-176 | `dict.get(key)` finds a value exactly when the key is among the object's keys, and the value found is stored under that key |
| `Json.Len` | kystdatahuset_ais.py:193 | `len` is defined exactly where iteration is, equals the number of iterated values, and is 0 exactly for the falsy iterables |
| `Json.Contains` | kystdatahuset_ais.py:172-174 | the left-to-right substring test agrees with "occurs at some index" in both directions |
| `Json.In` | kystdatahuset_ais.py:172-174 | `needle in x` is defined exactly on iterables; on a string it is the substring test, on a list or dict it is membership among the iterated values |
| `Envelope.MentionsTimeout` | kystdatahuset_ais.py:172-174 | the timeout test raises exactly on a number or boolean `msg`, is never true for an absent or null `msg`, and on a string is the occurrence of the timeout text |
| `Envelope.CheckEnvelope` | kystdatahuset_ais.py:169-182 | `_request` returns a value exactly when `success` is truthy, `msg` is absent, null or searchable and does not mention the timeout text, and `data` is present and not null; the value is `data` |
| `Envelope.CheckReply` | kystdatahuset_ais.py:165-182 | a transport failure is a Transport error; otherwise the result is that of the envelope checks |
| `Envelope.ProviderFailureFirst` | kystdatahuset_ais.py:170-171 | a falsy `success` yields a provider error carrying `msg`, whatever `msg` and `data` hold |
| `Envelope.TimeoutBeforeData` | kystdatahuset_ais.py:172-175 | with `success` truthy, a `msg` mentioning the timeout text yields UpstreamTimeout even when `data` is present |
| `Envelope.MissingDataIsNoData` | kystdatahuset_ais.py:176-177 | with `success` truthy and no timeout text, missing or null `data` yields NoData |
| `Envelope.EmptyDataIsReturned` | kystdatahuset_ais.py:176-182 | an empty list as `data` is returned, not reported as NoData |
| `Envelope.LoginToken` | kystdatahuset_ais.py:206-219 | login obtains a token exactly when the reply arrived, `success` is truthy and `data.JWT` is a string, and the token is that string; a falsy `success` gives the provider error carrying `msg` |
| `Envelope.PositionsEnvelope` | kystdatahuset_ais.py:267-271 | the positions reply is accepted exactly when `success` is truthy, and the whole body is kept; a falsy `success` gives the provider error carrying `msg` |
| `Envelope.PositionsCheckIsWeaker` | kystdatahuset_ais.py:267-271 | every reply `_request` accepts passes the positions check |
| `Ship.Pop` | kystdatahuset_ais.py:197 | `pop()` splits a non-empty list into its prefix and its last item, which together rebuild the list |
| `Ship.LookupShip` | kystdatahuset_ais.py:184-199 | request errors propagate; the result is NotFound exactly when the data has length 0; a found record is the last item of the data list and a member of it; every non-empty list yields a record |
| `Ship.ShipName` | kystdatahuset_ais.py:254 | a name is read exactly when a record was found and it is a dict; it is the record's `shipname` or "Unknown" when absent |
| `Ship.ShipNameFor` | kystdatahuset_ais.py:253-254 | lookup errors propagate, and a name is obtained exactly when the lookup found a record that is a dict |
| `Ship.LookupTakesLastRecord` | kystdatahuset_ais.py:197 | a reply listing two ships yields the second |
| `Ship.NotFoundHasNoName` | kystdatahuset_ais.py:253-254 | a lookup that found nothing cannot give a ship name (`False.get` raises) |
| `Positions.Fields` | kystdatahuset_ais.py:55-59 | a position has exactly ten fields |
| `Positions.FromFields` | kystdatahuset_ais.py:328 | `Position(*xs)` on ten values keeps them as its fields, in order |
| `Positions.DecodePosition` | kystdatahuset_ais.py:327-331 | a row decodes exactly when iterating it yields ten values, and the position's fields are those values in order |
| `Positions.DecodeFields` | kystdatahuset_ais.py:55-59 | decoding the list of a position's fields gives the same position back |
| `Positions.ToFeature` | kystdatahuset_ais.py:332-348 | a feature carries nine attributes: every field except longitude and latitude, plus the ship's name |
| `Positions.FeatureLayout` | kystdatahuset_ais.py:332-348 | a feature lies at (field 3, field 4) = (longitude, latitude) and its attributes are the ship name followed by every other field in order |
| `Positions.RowFeatures` | kystdatahuset_ais.py:327-349 | a row contributes one feature if it decodes and none otherwise |
| `Positions.Project` | kystdatahuset_ais.py:326-349 | there are never more features than rows |
| `Positions.ProjectAppend` | kystdatahuset_ais.py:326-349 | the features of concatenated rows are the concatenated features: order is kept and rows do not affect each other |
| `Positions.ProjectCount` | kystdatahuset_ais.py:326-349 | the number of features equals the number of rows that decode |
| `Positions.SkipMalformedRow` | kystdatahuset_ais.py:327-331 | a row that does not decode is skipped and the rows around it are projected as if it were absent |
| `Positions.ProjectSound` | kystdatahuset_ais.py:332-349 | every feature is built from some decoding row |
| `Positions.ProjectComplete` | kystdatahuset_ais.py:326-349 | every decoding row's feature is among the features |
| `Positions.SampleRow` | kystdatahuset_ais.py:311-324 | the sample row shown in the code decodes, with MMSI 258500000 and a point at (21.7261, 70.4006) |
| `Positions.FeatureProvider.AddFeatures` | kystdatahuset_ais.py:349 | `addFeatures` appends the batch to the provider's features |
| `Positions.AddPositions` | kystdatahuset_ais.py:326-349 | the loop adds exactly the projection of the rows to the provider, after what it held before |
| `Plugin.AuthHeaders` | kystdatahuset_ais.py:215-218 | the login headers are Content-Type and Authorization, the latter "Bearer " followed by the token |
| `Plugin.HeadersAfterLogin` | kystdatahuset_ais.py:209-219 | the session carries an Authorization header exactly when login obtained a token, and then the envelope's `success` was truthy; with a token the headers are exactly the Content-Type and "Bearer " + `data.JWT` pair, without one the fresh session has no headers |
| `Plugin.PositionRows` | kystdatahuset_ais.py:276-277 | rows are available exactly when `data` is present and has a length, and they are the values obtained by iterating `result["data"]` |
| `Plugin.RunOutcomeOf` | kystdatahuset_ais.py:243-357 | `run` is cancelled exactly when the dialog is cancelled; it aborts exactly when the ship name or the positions check fails (with the lookup's failure first); it crashes exactly when the accepted positions body has no iterable `data`; a rendered layer is for the entered MMSI and the looked-up name |
| `Plugin.QueryRequests` | kystdatahuset_ais.py:253-267 | after the dialog `run` sends nothing when cancelled, else a lookup POST of `{"MmsiIds": [mmsi]}` followed, only when a ship name was obtained, by the positions POST; all carry the session's headers |
| `Plugin.HttpSession.UpdateHeaders` | kystdatahuset_ais.py:219 | `headers.update` overrides the given entries and keeps the others |
| `Plugin.KystdatahusetAIS.constructor` | kystdatahuset_ais.py:129-132 | a new plugin has no session |
| `Plugin.KystdatahusetAIS.Request` | kystdatahuset_ais.py:165-182 | `_request` sends one request carrying the session's headers and returns data exactly under the envelope conditions above |
| `Plugin.KystdatahusetAIS.Lookup` | kystdatahuset_ais.py:184-199 | `lookup` posts `{"MmsiIds": [mmsi]}` to the ship-info endpoint and returns the lookup result specified by `Ship.LookupShip` |
| `Plugin.KystdatahusetAIS.Login` | kystdatahuset_ais.py:201-225 | `login` always installs a fresh session, posts the credentials on it, and adds the bearer header only when a token was obtained |
| `Plugin.KystdatahusetAIS.Run` | kystdatahuset_ais.py:231-357 | `run` logs in (one login request) exactly when there was no session and otherwise keeps the session and its headers; after a failed login the session has no headers; then the lookup and positions requests of `QueryAndRender` follow; the outcome is cancellation, an abort with the failure, a crash, or a layer of the projected rows |
| `Plugin.KystdatahusetAIS.QueryAndRender` | kystdatahuset_ais.py:240-357 | after the session is in place, `run`'s outcome and the requests it sends are those specified by `RunOutcomeOf` and `QueryRequests` (on the session's current headers) |
| `Plugin.RenderedFeatureCount` | kystdatahuset_ais.py:276-349 | a rendered layer's features are the projection of the values iterated from the reply's `data`, one per decoding row |
| `Plugin.UnknownVesselAborts` | kystdatahuset_ais.py:253-254 | an empty lookup reply aborts `run` after the lookup request, before any positions request |
| `Plugin.PositionsTimeoutNotDetected` | kystdatahuset_ais.py:267-276 | a positions reply with the timeout text, which `_request` would reject, is rendered by `run` |

## Left out

- HTTP transport: connection handling, status codes and JSON parsing are folded into `TransportFailed`; the default headers of a new `requests.Session` and the Content-Type that `json=` adds are not modelled (a new session has no headers here).
- Message texts: what `messagebar` and `QgsMessageLog` show; failures are kept as their kind only.
- Credential and last-MMSI persistence in `QgsSettings` (lines 115-125, 232-234, 241-242, 251): a host key-value store; the stored credentials are an input.
- The QGIS GUI classes and hooks (`MyPluginOptionsFactory`, `ConfigOptionsPage`, `initGui`, `unload`, `tr`, `messagebar`, `renderTest`) and the `QInputDialog` itself; its answer is an input.
- Layer construction (URI, `addAttributes`, `updateFields`, `setCustomProperty`, `updateExtents`, `addMapLayer`): only the features handed to `addFeatures` are modelled.
- Numbers are exact reals: the float rounding of `json.loads` and the int/float distinction are not modelled; coordinates and speeds are passed through unchanged.
- `QgsPointXY` rejecting a non-numeric coordinate (which would raise out of the loop) and the attribute type conversions of `setAttributes`.
- Envelope.LoginToken: a `JWT` that is present but not a string is treated as a failed login; Python would format it into the header with `str()` and may then raise at `access_token[:10]` after the header is set.
- Json.Member: returns the first member with the key; a dict decoded by `json.loads` has distinct keys, so this matters only for values that cannot arise from decoding.
- Time-window splitting and date formatting: this file has none; the query window is the fixed pair of constants at lines 258-259.
