# fbw-warehouses sync, modelled in Dafny

The script `fetch_wb_fbw_warehouses.py` copies Wildberries' list of FBW
warehouses into a Supabase table. It reads its configuration from the
environment and fetches the list over HTTP in up to three attempts,
retrying only on HTTP 429 and waiting 3 and then 7 seconds before the
second and third attempt. It maps each upstream row onto a record with seven
fixed keys, issues a delete on the table filtered by `id >= 0` and inserts
the records in batches of 500.

This project models the decision logic under that glue:

- `json.dfy` (module `Json`): decoded JSON values, Python truthiness, `dict.get` and `or`.
- `outcomes.dfy` (module `Outcomes`): the record type, the ways a run can fail, and the outcome of a fetch.
- `normalize.dfy` (module `Normalize`): the per-row mapping and the `norm` loop.
- `retry.dfy` (module `Retry`): the retry loop of `fetch_warehouses`, as a method proved against a recursive specification function over the server's replies.
- `chunking.dfy` (module `Chunking`): `chunked`, as a loop proved against a recursive slicing function.
- `sync.dfy` (module `Sync`): the configuration read at import time, and `main` as a method that builds the ordered trace of client calls.

`fail` calls `sys.exit`, so the model treats it as ending the run. So does
every exception nothing catches:

- `row.get` on a list element that is not a dict;
- `resp.json()` on a body that does not decode;
- `requests.get` raising.

Each of these becomes `Fail(reason)` with a structured `Failure`.

The loop ends with `return []`, which suggests that three 429 replies give
an empty list. They do not: on the third attempt `i < len(backoffs) - 1` is
false, so that 429 reaches `fail`. `Retry.RateLimitedThrice` proves that
three 429s fail. `Retry.NeverFallsThrough` proves that the `return []`
after the loop can never be reached. `Sync.RateLimitedKeepsTable` proves
that the delete is never issued in that case.

## Model

| member | source | states |
|---|---|---|
| `Normalize.NormalizeRow` | fetch_wb_fbw_warehouses.py:33-41 | the record has exactly the keys id, name, address, work_time, accepts_qr, is_active, is_transit_active; a missing source field gives null; `id` is `ID` when that is truthy, and otherwise `id`, or null when `id` is absent; `accepts_qr` is `acceptsQR` whenever that key is present, even if it is null or false, and `acceptsQr` only when it is absent |
| `Normalize.NormalizeRows` | fetch_wb_fbw_warehouses.py:31-42 | succeeds exactly when every list element is a dict; the records then keep the list's length and order, one normalised record per row; otherwise it fails with `RowNotObject` |
| `Normalize.NormalizeAll` | fetch_wb_fbw_warehouses.py:31-42 | the appending loop produces exactly `NormalizeRows` of the list |
| `Retry.FetchWarehouses` | fetch_wb_fbw_warehouses.py:20-47 | the loop's outcome, recorded waits and request count equal the specification `Fetch` of the replies |
| `Retry.AttemptShape` | fetch_wb_fbw_warehouses.py:22-46 | from attempt i there are between 1 and the remaining number of requests; the waits are the nonzero backoffs of those attempts; every earlier reply was 429; the last one is a 429 only if no attempt remains; the last reply alone decides the outcome |
| `Retry.FetchShape` | fetch_wb_fbw_warehouses.py:21-46 | between 1 and 3 requests; the waits are the nonzero entries of [0, 3, 7] for the attempts made, so there is one fewer wait than requests and none before the first; only 429 leads to a retry, and a 429 on the last attempt is fatal |
| `Retry.NeverFallsThrough` | fetch_wb_fbw_warehouses.py:26-47 | a successful fetch always comes from a 200 reply whose body is a JSON list, and its records are that list normalised; the empty list at line 47 is never returned |
| `Retry.RetryThenSucceed` | fetch_wb_fbw_warehouses.py:21-26 | replies 429, 429, 200 give waits of exactly [3, 7], three requests, and the outcome of the third body |
| `Retry.RateLimitedThrice` | fetch_wb_fbw_warehouses.py:43-46 | three 429 replies give a failure with status 429 and the third reply's text, after waits [3, 7] |
| `Retry.OtherStatusStops` | fetch_wb_fbw_warehouses.py:43-46 | a status other than 200 and 429 fails at that attempt, with that status and text, and no further request is made |
| `Retry.NonListStops` | fetch_wb_fbw_warehouses.py:22-29 | at any attempt reached after 429s, a 200 reply whose body is not a list fails with that value: nothing is normalised, no later wait is slept and no further request is made |
| `Retry.BodyNotJsonStops` | fetch_wb_fbw_warehouses.py:22-27 | at any attempt reached after 429s, a 200 reply whose body does not decode fails with `BodyNotJson`, with no later wait and no further request |
| `Chunking.Chunked` | fetch_wb_fbw_warehouses.py:49-51 | the loop stepping by `size` yields exactly the slices of `Chunks` |
| `Chunking.FlattenChunks` | fetch_wb_fbw_warehouses.py:49-51 | the chunks concatenate to the input |
| `Chunking.ChunkSizes` | fetch_wb_fbw_warehouses.py:49-51 | every chunk is non-empty and at most `size` long, and all but the last are exactly `size` long |
| `Chunking.ChunkCount` | fetch_wb_fbw_warehouses.py:49-51 | there are ceil(n / size) chunks, so an empty input gives none |
| `Sync.EmptyTokenLikeUnset` | fetch_wb_fbw_warehouses.py:7-55 | a `WB_SUPPLIES_TOKEN` that is set to "" fails with `TokenEmpty` exactly as an unset one does, with no client and no request |
| `Sync.EmptySupabaseLikeUnset` | fetch_wb_fbw_warehouses.py:7-57 | with a token, a `SUPABASE_URL` or `SUPABASE_SERVICE_KEY` that is unset or set to "" fails with `SupabaseConfigEmpty`, with no client and no request |
| `Sync.EnvChoosesTarget` | fetch_wb_fbw_warehouses.py:7-68 | the client gets the environment's URL and key; the delete and every insert address `SUPABASE_SCHEMA` and `SUPABASE_TABLE` when set, even to "", and `public` and `fbw_warehouses` only when unset |
| `Sync.Sync` | fetch_wb_fbw_warehouses.py:53-70 | the trace and exit of `main` equal the specification `SyncSpec`, which checks the token, then the URL and key, then creates the client, fetches, issues the delete filtered by `id >= 0` and inserts the batches |
| `Sync.ConfigFailsFirst` | fetch_wb_fbw_warehouses.py:54-57 | an empty or unset token fails with `TokenEmpty`, and otherwise an empty URL or key fails with `SupabaseConfigEmpty`; either way nothing happens before the failure, so there is no client and no request |
| `Sync.FetchFailureKeepsTable` | fetch_wb_fbw_warehouses.py:59-64 | a failed fetch ends the run with that failure, with no delete and no insert |
| `Sync.RateLimitedKeepsTable` | fetch_wb_fbw_warehouses.py:43-64 | three 429 replies end the run with status 429 and the delete is never issued |
| `Sync.SyncSuccess` | fetch_wb_fbw_warehouses.py:59-68 | a successful fetch gives the client, the fetch, one delete filtered by `id >= 0`, then ceil(n / 500) inserts into the configured schema and table; each batch is non-empty with at most 500 rows, all but the last have exactly 500, and together they write the fetched records in order |
| `Sync.BatchedInserts` | fetch_wb_fbw_warehouses.py:67-68 | one insert per 500-row chunk after three non-insert steps (in `Sync.SyncSuccess`: the client, the fetch and the delete), with the sizes, count and concatenation above |
| `Sync.EmptyFetchClearsTable` | fetch_wb_fbw_warehouses.py:63-68 | an empty warehouse list still issues the delete filtered by `id >= 0`, and then inserts nothing |

## Left out

- The HTTP request itself is not modelled: the URL, the `Authorization` header built from the token, and the 30-second timeout. Each reply is a supplied `Response` value: a status, a text and the decoded body, or `None` when the body is not JSON. A request that raises is `Raised`. A request beyond the supplied replies counts as one that raised.
- JSON decoding is not modelled: duplicate keys, and the `NaN` and `Infinity` that Python's `json` accepts. A JSON float is a Dafny `real`.
- The Supabase client calls (`create_client`, `delete().gte("id", 0)`, `insert(batch).execute()`) appear only as `CreateClient`, `Delete` and `Insert` effects, without their server-side meaning. The `Delete` effect records its filter (`id >= 0`), but the model does not say which rows the filter matches. A stored row whose `id` is null or negative survives it, and `Normalize.NormalizeRow` gives `id` null to a row with no truthy `ID` and no `id`. `Sync.Sync` assumes they return: an exception from the delete or an insert is not modelled, and neither is what a partial failure leaves in the table, or atomicity.
- `time.sleep` is not modelled as real waiting: the waits are recorded in a list.
- The environment is read only through `Sync.LoadConfig`, a function of a map of variables. When that reading happens, at import time, is not modelled.
- Printing to stdout and stderr is left out: the two progress lines, and the `ERROR:` message text with its formatting. The exit code becomes `Exit`. `Failure` carries the data that the message would show.
- A normalised record is a `map`, so the key order of the Python dict is not modelled.
- `Chunking.Chunked`: requires `size > 0`. For `size == 0` Python's `range` raises `ValueError`, and a negative size yields nothing. Neither case is modelled, because the only caller passes 500.
