# Shopify order webhook, modelled in Dafny

`shopify_webhook.js` is a Cloudflare Worker that receives Shopify's order
webhook and copies each order into a Supabase database. Its `fetch` handler
does the following, in order:

1. It accepts only POST; anything else gets 405.
2. It checks the base64 HMAC-SHA256 signature in `X-Shopify-Hmac-Sha256`
   against the raw body; a mismatch gets 401. An empty or unset
   `SHOPIFY_SECRET` makes the key import throw, so the request fails
   before any comparison.
3. It parses the body and reads `order.id`.
4. It inserts one `orders` row and waits for that insert.
5. It then starts one `order_items` insert per line item, all of them
   before it waits for any, and waits for all of them with `Promise.all`.
6. When every insert succeeds it answers 200 "OK".

The helper `insertIntoSupabase` POSTs a row to
`SUPABASE_URL/rest/v1/<table>`. A response that is not ok makes it throw
an error that carries the status code.

The Dafny model has four modules:

- `Wrappers` (`wrappers.dfy`): `Option`.
- `JsText` (`js_text.dfy`): the JavaScript string operations the rows need.
  These are `String.prototype.trim` and the decimal `toString` of an
  integral id. For `trim` the model proves its characterisation and the
  converse; for `toString` it proves the inverse.
- `OrderRows` (`order_rows.dfy`): the parsed order and the two row
  builders. These are pure functions, as the object literals in the source
  are.
  - A JSON property is `Missing`, `Null` or `Present(v)`.
  - `??` and `?.` treat `Missing` and `Null` alike.
  - A field copied without `??` keeps the difference.
- `Webhook` (`webhook.dfy`): the insert helper, `Promise.all`, and the
  handler as imperative methods with early returns and a loop that issues
  the child inserts.
  - The handler returns an `Outcome` and the log of inserts it issued. The
    outcome is either the `Response` or the exception that escapes.
  - The data store's answers come from a parameter `reply`, where
    `reply(n)` answers the insert issued as number `n`, counting from 0.
  - The signature digest for a non-empty secret comes from a parameter
    `hmac`, and `JSON.parse` from a parameter `parse`.

## Model

| member | source | states |
|---|---|---|
| JsText.Trim | shopify_webhook.js:62 | the result of `trim` has no whitespace at either end and is no longer than its input |
| JsText.LeadingWhitespace | shopify_webhook.js:62 | the count of leading characters `trim` drops: they are all ECMAScript whitespace and the next character is not |
| JsText.TrailingWhitespace | shopify_webhook.js:62 | the count of trailing characters `trim` drops: they are all whitespace and the character before them is not |
| JsText.TrimIsSlice | shopify_webhook.js:62 | `trim` keeps one contiguous slice of its input and removes only whitespace around it |
| JsText.TrimUnique | shopify_webhook.js:62 | any slice with only whitespace around it and none at its own ends is the result of `trim`, the converse of TrimIsSlice |
| JsText.TrimOfTrimmed | shopify_webhook.js:62 | a string without whitespace at its ends is unchanged by `trim` |
| JsText.TrimIdempotent | shopify_webhook.js:62 | trimming twice is the same as trimming once |
| JsText.DigitChar | shopify_webhook.js:55 | a digit value below 10 renders as a decimal digit character |
| JsText.DigitValue | shopify_webhook.js:55 | reading a digit character gives the value that renders as it, the inverse of DigitChar |
| JsText.NatToString | shopify_webhook.js:55 | the decimal rendering is a non-empty run of digits with no leading zero |
| JsText.IntToString | shopify_webhook.js:55 | `toString` of an integral number starts with '-' exactly when the number is negative |
| JsText.ParseInt | shopify_webhook.js:55 | reading back a decimal integer; a negative result comes from text starting with '-' |
| JsText.NatRoundTrip | shopify_webhook.js:55 | reading back the digits of a natural number gives the number |
| JsText.IntRoundTrip | shopify_webhook.js:55 | reading back `n.toString()` gives `n` |
| JsText.IntToStringInjective | shopify_webhook.js:55 | distinct order ids give distinct `order_id` keys |
| OrderRows.OrderId | shopify_webhook.js:55 | `order.id.toString()` exists exactly when the id is present (it throws for an absent or null id), and it renders the id losslessly |
| OrderRows.FirstNamed | shopify_webhook.js:77-80 | the entry `find` picks carries exactly the searched name |
| OrderRows.FirstNamedIsFirst | shopify_webhook.js:77-80 | no entry before the picked one has the name; when none is picked, no entry has it |
| OrderRows.FirstNamedAppend | shopify_webhook.js:77-80 | searching `a + b` finds the first match in `a`, and searches `b` only when `a` has none |
| OrderRows.NamedValueAfterOthers | shopify_webhook.js:77-80 | the first entry with the name decides the value, whatever entries follow it |
| OrderRows.NamedValueFirstMatch | shopify_webhook.js:77-80 | the looked-up value is the value of the first entry with the exact name, `?? ""`, and "" when no entry has the name |
| OrderRows.NamedValue | shopify_webhook.js:77-80 | `find(...)?.value ?? ""` is "" when no entry carries the name, and a non-empty result is the value of an entry that carries it |
| OrderRows.CustomerName | shopify_webhook.js:62 | the `customer` column never has whitespace at either end and is at most first + space + last long |
| OrderRows.CustomerNameCases | shopify_webhook.js:62 | for names without surrounding whitespace: the last name alone, the first alone, "" or "first last", with no stray space |
| OrderRows.CustomerLastNameOnly | shopify_webhook.js:62 | a missing first name and last name "Lee" give "Lee" |
| OrderRows.CustomerNameAbsent | shopify_webhook.js:62 | no customer, or no names at all, gives "" |
| OrderRows.MakeOrderRow | shopify_webhook.js:58-69 | the `orders` row copies the key, name, creation time and status fields unchanged, defaults each shipping field to "" when the address or the field is absent or null, and holds `CustomerName`, the trimmed "first last" |
| OrderRows.MakeItemRow | shopify_webhook.js:74-81 | the `order_items` row carries the parent's key, the item's title and quantity unchanged, the SIM type looked up in the order's note attributes, the activation plan looked up in the item's properties, and an empty SIM number |
| OrderRows.MakeItemRows | shopify_webhook.js:73-81 | one row per line item (none when `line_items` is absent or null), each with the parent's key, the order-level SIM type, an empty SIM number and its own item's title, quantity and activation plan |
| OrderRows.SimTypeFromNoteAttributes | shopify_webhook.js:77 | a first note attribute "Physical SIM / eSIM" = "eSIM" makes every item's `sim_type` "eSIM"; without that name it is "" |
| Webhook.Endpoint | shopify_webhook.js:3 | the insert URL is the base URL, then "/rest/v1/", then the table name |
| Webhook.InsertHeaders | shopify_webhook.js:6-11 | every insert sends the service key as `apikey` and as `Bearer <key>` in `Authorization`, declares a JSON body and asks for the inserted rows back; no header name repeats |
| Webhook.VerifyShopifyHmac | shopify_webhook.js:23-35 | the check throws exactly when the secret is empty (Web Crypto refuses a zero-length HMAC key); otherwise it passes exactly when the header equals the base64 digest, so an absent header never passes |
| Webhook.InsertResult | shopify_webhook.js:15-18 | an insert succeeds exactly on a 2xx status; otherwise it fails with that status code, or with the rejection of `fetch` |
| Webhook.UrlNamesTable | shopify_webhook.js:3 | the insert URL is the base URL, "/rest/v1/" and the table name, so the two tables go to different endpoints |
| Webhook.ClientStatus | shopify_webhook.js:38-87 | the client sees 200 exactly for a 200 response, and 500 for an exception |
| Webhook.JoinAll | shopify_webhook.js:84 | `Promise.all` resolves exactly when every child resolves, and otherwise rejects with the error of the earliest failing child |
| Webhook.StartChildInserts | shopify_webhook.js:73-83 | one `order_items` insert per row, in row order; child `k` settles as the insert numbered `1 + k` |
| Webhook.AwaitChildren | shopify_webhook.js:84-86 | after a successful parent: 200 "OK" exactly when every insert succeeded, otherwise the error of the earliest failing insert |
| Webhook.CheckRequest | shopify_webhook.js:41-55 | a non-POST gets 405; an empty secret throws; a header that does not match gets 401; a body that does not parse or an order without an id throws; only a request that passes all of these reaches the inserts |
| Webhook.StoreOrder | shopify_webhook.js:55-86 | the parent is issued first; a failed parent stops everything with its error; after a successful parent every child is issued whatever its siblings do; 200 exactly when every insert succeeded |
| Webhook.HandleWebhook | shopify_webhook.js:39-87 | 405 for a non-POST and 401 for a bad or absent signature, both with no writes; an empty secret, malformed JSON or a missing id throws before any write; anything is written exactly when every gate passes; the parent comes first; a failed parent means no children; otherwise one child per line item; 200 exactly when every insert succeeded, else the earliest failure's error |

## Left out

- The HMAC-SHA256 digest and its base64 encoding (lines 24-33) for a non-empty secret are the parameter `hmac(body, secret)`. The model therefore does not prove that a mutated body or a wrong secret fails. That depends on the strength of the hash. The one way the key import fails is modelled: a secret with no bytes is `KeyRejected`. A non-empty string always encodes to at least one byte.
- `JSON.parse` is the parameter `parse`. A body it rejects is `None`.
- `JSON.stringify` of the payloads is not modelled; the log records the rows themselves.
- Only the JSON value shapes the handler reads are modelled.
  - A field of an unexpected type is not modelled, for example a string `id` or a non-array `line_items`. The same goes for a `name` that is not a string, which `find` compares with `===`.
  - Non-integral and very large numeric ids are not modelled. Shopify ids are integers well inside the range where `toString` prints plain decimal digits.
- `fetch`, HTTP and the headers' transmission are not modelled. The log records each insert's table and row. `Url` and `InsertHeaders` give the URL and headers it is sent with. The headers are the same for every insert, and the URL depends only on the table.
- For a failed insert, reading and logging the response text (`res.text()` and `console.error`, lines 16-17) is not modelled, nor is a `res.text()` that itself rejects. The model reports the error thrown on line 18.
- The host's answers come in as `reply(n)`, one per issued insert in issue order.
- True concurrency is left out. When several children fail, `Promise.all` rejects with the failure that settles first in time. The model reports the earliest issued one instead: `JoinAll`, `AwaitChildren`, `StoreOrder` and `HandleWebhook` promise that. Children still run after a rejection, and the model issues and logs them all.
- The Worker environment bindings (`SUPABASE_URL`, `SUPABASE_SERVICE_ROLE_KEY`, `SHOPIFY_SECRET`) are plain string fields of `Env`. An unset `SHOPIFY_SECRET` is the empty string, which is what `TextEncoder.encode(undefined)` produces.
- The header lookup is an `Option` in `Request`; `request.text()` is the body string.
- The 500 status for an escaping exception follows the Workers runtime's convention for an uncaught error; it is not in the source.
- Redelivery of the same webhook re-inserts the parent row, since there is no idempotency key. The model covers one delivery; the log of each delivery is what the store sees.
