# Power BI dataset client, modelled in Dafny

A model of the dataset client (`Dataset`) of a PHP SDK for the Power BI REST
API. The class is a facade over an HTTP client; what it decides itself is
modelled here:

- **Request planning.** Which HTTP method, URL and optional JSON body each
  operation sends. The URL templates are the class constants, substituted by a
  model of `sprintf`'s `%s`. Group-scoped templates are chosen when the group
  id is truthy in PHP terms (not `null`, `""` or `"0"`). `cancelRefresh`,
  `getRefreshHistory` and `getParameters` build their URLs by interpolation.
- **Response reshaping.** What the client does with the decoded `value` list:
  the first-match search of `getByName`, the `duration` added to every refresh
  by `getRefreshHistory`, element 0 taken by `getLastRefresh`, and the
  name-to-value fold of `getParameters`. The two workspace operations return
  `false` without sending a request when an id is falsy.

Files:

- `wrappers.dfy`: module `Wrappers`, the `Option` type standing for PHP's
  `null` / `false` results.
- `php.dfy`: module `Php`, decoded JSON values, records (`map<string, Value>`),
  `string|null` identifiers with PHP truthiness, and the definition `Text` of
  how such an identifier reads inside an interpolated string (`null` as `""`,
  any string, `"0"` included, as itself).
- `sprintf.dfy`: module `Sprintf`, `%s` substitution and the lemmas that a
  template with plain pieces yields those pieces with the arguments spliced in
  once, in order.
- `dataset.dfy`: module `Dataset`, the templates, one request function per
  operation, lemmas relating the URLs, and the reshaping methods. Each one is
  proved against a specification function or a direct statement of its result.
  `Field` (a missing key reads as `null`) and `EndTime` (the `if` that picks
  `endTime` or the clock) are definitions used by those specifications.

Each operation that sends a request and then reshapes the response
(`GetByName`, `GetRefreshHistory`, `GetLastRefresh`, `GetParameters`) returns the request it
sends (`None` when none is sent), together with its result. The decoded
`value` list is an input. A request is a `Request(verb, url, body)` value.

Facts about the code that shape the model:

- A falsy id makes `getRefreshHistory` / `getParameters` return `false`
  (`None`) without sending a request.
- `getLastRefresh` on an empty history, or after such a `false`, yields
  `null` with a PHP warning (`None`).
- URLs carry the full `https://api.powerbi.com` host.
- The default arguments of `delete`, `refresh` and `get` (`null` ids,
  `notify = true`) are default parameters of the request functions.

## Model

| member | source | states |
|---|---|---|
| `Sprintf.FormatPlain` | src/API/Dataset.php:181 | a template without `%` is copied unchanged, whatever the arguments |
| `Sprintf.FormatSplice` | src/API/Dataset.php:181 | a plain prefix is copied, then the first argument is spliced in once as it is, then formatting resumes with the remaining arguments; no argument left is an error |
| `Sprintf.FormatOne` | src/API/Dataset.php:181 | formatting `a%sb` with one argument gives `a`, the argument, `b` |
| `Sprintf.FormatTwo` | src/API/Dataset.php:198 | formatting `a%sb%sc` with two arguments splices them in order |
| `Dataset.TemplateShapes` | src/API/Dataset.php:14-17 | each URL constant is the API root, plain text and one `%s` per identifier |
| `Dataset.GetUrl` | src/API/Dataset.php:178-185 | truthy group: `.../groups/{group}/datasets`, the group spliced in once; falsy group (`null`, `""`, `"0"`): the global `.../datasets` |
| `Dataset.GroupRefreshUrl` | src/API/Dataset.php:198 | the group refreshes template formatted with group then dataset is `.../groups/{group}/datasets/{dataset}/refreshes` |
| `Dataset.GetRefreshUrl` | src/API/Dataset.php:195-202 | truthy group: group then dataset substituted into the group refreshes URL; falsy group: only the dataset, into the global refreshes URL |
| `Dataset.ListRequest` | src/API/Dataset.php:54-56 | `getByName` sends GET with no body to the collection URL of either scope |
| `Dataset.DeleteRequest` | src/API/Dataset.php:67-71 | DELETE with no body to the collection URL followed by `/` and the dataset, in either scope |
| `Dataset.RefreshRequest` | src/API/Dataset.php:85-92 | POST to the refreshes URL; a body exactly when `notify` holds, and that body is exactly `{notifyOption: "MailOnFailure"}` |
| `Dataset.RefreshNotifiesByDefault` | src/API/Dataset.php:85-89 | `refresh` called without `notify` sends the MailOnFailure body; called with no arguments it targets the global refreshes URL with an empty dataset |
| `Dataset.DefaultsAreGlobal` | src/API/Dataset.php:67-69 | `delete` with no arguments targets the global collection followed by `/`, and the argument-less list request the global collection |
| `Dataset.CancelRefreshRequest` | src/API/Dataset.php:100-103 | DELETE with no body to the group refreshes URL of group and dataset, then `/` and the refresh, for every group value |
| `Dataset.RefreshHistoryRequest` | src/API/Dataset.php:109-113 | no request exactly when the workspace or the dataset is falsy; otherwise GET on the group refreshes URL |
| `Dataset.ParametersRequest` | src/API/Dataset.php:131-135 | no request exactly when the workspace or the dataset is falsy; otherwise GET on the dataset resource URL followed by `/parameters` |
| `Dataset.GroupUrlInjective` | src/API/Dataset.php:180-181 | two truthy groups with the same collection URL are the same group: the group can be read back from the URL |
| `Dataset.ScopesDistinct` | src/API/Dataset.php:180-184 | a truthy group and a falsy one never select the same collection URL |
| `Dataset.RefreshUrlUnderDatasetUrl` | src/API/Dataset.php:69 | in both scopes the refreshes URL is the URL `delete` targets followed by `/refreshes` |
| `Dataset.CancelUnderRefreshUrl` | src/API/Dataset.php:102 | with a truthy group, the interpolated cancel URL is the refreshes URL, then `/` and the refresh |
| `Dataset.CancelHasNoGlobalFallback` | src/API/Dataset.php:100-103 | with a falsy group, the cancel URL is not the global refreshes URL followed by the refresh |
| `Dataset.GetByName` | src/API/Dataset.php:52-65 | the list request of the group is sent; the result is the first entry in list order whose `name` is the argument; nothing exactly when no entry matches |
| `Dataset.WithDuration` | src/API/Dataset.php:124-125 | the entry gains `duration`, computed from its end and start times, and keeps every other field |
| `Dataset.AddDurations` | src/API/Dataset.php:117-128 | the output has the length of the input; entry `k` is input entry `k` with the key `duration` added and nothing else changed; its duration is measured to the parsed `endTime` when the entry has one, otherwise to the clock read for entry `k` |
| `Dataset.GetRefreshHistory` | src/API/Dataset.php:109-129 | no request and `false` exactly when an id is falsy; otherwise the history request and every refresh, in order, with its duration |
| `Dataset.GetLastRefresh` | src/API/Dataset.php:148-152 | a result exactly when the history request is sent and the list is non-empty; it is refresh 0 with its duration |
| `Dataset.CollectKeys` | src/API/Dataset.php:140-145 | the keys of the folded map are exactly the names in the list, so the empty list gives the empty map |
| `Dataset.CollectLastWins` | src/API/Dataset.php:141-143 | an entry that no later entry renames determines the value of its key |
| `Dataset.CollectFromLast` | src/API/Dataset.php:141-143 | every value of the map is the `currentValue` of the last entry that has its key |
| `Dataset.FoldParameters` | src/API/Dataset.php:140-145 | the loop's map is the fold: keys exactly the names, each the value of the last entry with that name |
| `Dataset.GetParameters` | src/API/Dataset.php:131-146 | no request and `false` exactly when an id is falsy; otherwise the parameters request and the folded map |
| `Dataset.CollectExample` | src/API/Dataset.php:140-145 | `[{a, 1}, {b, 2}]` folds to `{a: 1, b: 2}` |

## Left out

- The HTTP transport (`Client::request`) and the response decoding (`generateResponse`, `toArray`) are not shown: requests are values, and the decoded `value` list is an input. Their errors are not modelled.
- `get` and `createDataset` are pass-throughs to the transport. The request of `get` is the one `ListRequest` gives. The `DatasetModel` payload of `createDataset` is not part of this model.
- What `delete`, `refresh` and `cancelRefresh` return is the decoded transport response, which is not modelled.
- `time()`, `strtotime()` and `round(..., 2)` are injected through `Clock`: a clock read per loop position, a parser of the decoded time field and a rounding function. The division by 60 is exact, on reals. PHP floating point is not modelled.
- `GetByName`: compares names with exact string equality. PHP's loose `==`, which equates numeric strings such as `"10"` and `"1e1"`, is not modelled. An entry without `name` never matches here; in PHP `null == ""` would match the empty name.
- `FoldParameters`: entries are `{name, currentValue}` pairs with a string name. Entries missing either field raise PHP notices and are not modelled. PHP's casting of decimal-integer names to integer array keys is injective, so it is not modelled.
- A missing `value` key in a response and a `value` that is not a list raise PHP warnings; they are not modelled.
- Identifiers are `string|null`. Integer or other non-string ids, and their string conversion, are not modelled. `notify` is a `bool`; a `null` passed for it behaves as `false`.
- Key order is not modelled. PHP arrays are ordered, while records and the folded parameter map are Dafny maps. In `getParameters` the keys come in order of each name's first occurrence, and a later duplicate overwrites the value in place. In `getRefreshHistory`, `duration` becomes the last field of an entry unless the entry already had one.
- `Sprintf.Format` handles only the `%s` directive. The templates use no other directive.
