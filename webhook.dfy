/** The Worker's `fetch` handler (shopify_webhook.js, lines 38-87) and its
    insert helper `insertIntoSupabase` (lines 2-20).

    What the handler cannot compute itself comes in as parameters: the
    HMAC-SHA256 of the body, base64-encoded (`hmac`), `JSON.parse`
    (`parse`), and the data store's answer to each insert (`reply(n)`
    answers the insert issued as number `n`, counting from 0; since the
    log of inserts is fixed by the other inputs, this covers every way the
    store may answer). The handler returns what the caller sees and the log
    of inserts it issued. */
module Webhook {
  import opened Wrappers
  import opened OrderRows

  /** The Worker's environment bindings. */
  datatype Env = Env(supabaseUrl: string, serviceRoleKey: string, shopifySecret: string)

  /** The parts of the incoming request the handler reads: the HTTP method, the
      `X-Shopify-Hmac-Sha256` header (`None` when absent: `headers.get`
      returns `null`) and the raw body text. */
  datatype Request = Request(verb: string, hmacHeader: Option<string>, body: string)

  /** The JSON body of an insert. */
  datatype Payload = OrderPayload(order: OrderRow) | ItemPayload(item: ItemRow)

  /** The two tables the handler writes. */
  datatype Table = Orders | OrderItems

  /** One `insertIntoSupabase(table, payload, env)` call, as recorded in the
      log; the POST it sends goes to `Url(env, r)` with the headers
      `InsertHeaders(env)`, which are the same for every insert. */
  datatype InsertRequest = InsertRequest(table: Table, payload: Payload)

  /** What the data store answers: an HTTP status, or a `fetch` that
      rejects before any response arrives. */
  datatype Reply = Status(code: int) | NetworkFailure

  /** The exceptions the handler lets escape. */
  datatype Error =
    | KeyRejected            // `importKey` rejects an empty HMAC key
    | MalformedJson          // `JSON.parse` throws
    | MissingOrderId         // `order.id.toString()` on an absent or null id
    | InsertFailed(status: int)  // "Supabase insert failed: <status>"
    | FetchFailed            // `fetch` itself rejects

  /** The handler either returns a `Response` or throws. */
  datatype Outcome = Responded(status: int, text: string) | Threw(error: Error)

  function TableName(t: Table): string {
    match t
    case Orders => "orders"
    case OrderItems => "order_items"
  }

  /** What the client sees: the response's status, or 500 for an exception
      the Workers runtime turns into an error response. */
  function ClientStatus(r: Outcome): (status: int)
    ensures status == 200 <==> r.Responded? && r.status == 200
    ensures r.Threw? ==> status == 500
  {
    match r
    case Responded(s, _) => s
    case Threw(_) => 500
  }

  // ---------------------------------------------------------------------
  // insertIntoSupabase
  // ---------------------------------------------------------------------

  /** `${SUPABASE_URL}/rest/v1/${table}`: the base URL, then the REST path,
      then the table name. */
  function Endpoint(env: Env, table: string): (url: string)
    ensures |url| == |env.supabaseUrl| + 9 + |table|
    ensures url[..|env.supabaseUrl|] == env.supabaseUrl
    ensures url[|env.supabaseUrl|..|env.supabaseUrl| + 9] == "/rest/v1/"
    ensures url[|env.supabaseUrl| + 9..] == table
  {
    env.supabaseUrl + "/rest/v1/" + table
  }

  /** The value of the first header called `name`, if any. */
  function HeaderValue(headers: seq<(string, string)>, name: string): Option<string> {
    if headers == [] then None
    else if headers[0].0 == name then Some(headers[0].1)
    else HeaderValue(headers[1..], name)
  }

  /** The headers of every insert: the service key goes out twice, as
      `apikey` and as a bearer token; the body is declared JSON, and the
      store is asked to return the inserted rows. */
  function InsertHeaders(env: Env): (headers: seq<(string, string)>)
    ensures HeaderValue(headers, "apikey") == Some(env.serviceRoleKey)
    ensures HeaderValue(headers, "Authorization") == Some("Bearer " + env.serviceRoleKey)
    ensures HeaderValue(headers, "Content-Type") == Some("application/json")
    ensures HeaderValue(headers, "Prefer") == Some("return=representation")
    ensures forall i, j :: 0 <= i < j < |headers| ==> headers[i].0 != headers[j].0
  {
    var h := [("apikey", env.serviceRoleKey),
              ("Authorization", "Bearer " + env.serviceRoleKey),
              ("Content-Type", "application/json"),
              ("Prefer", "return=representation")];
    assert "Prefer"[0] != "apikey"[0];
    assert h[1..][1..] == h[2..] && h[2..][1..] == h[3..];
    assert HeaderValue(h[3..], "Prefer") == Some("return=representation");
    assert HeaderValue(h[2..], "Prefer") == Some("return=representation");
    assert HeaderValue(h[1..], "Prefer") == Some("return=representation");
    assert HeaderValue(h[2..], "Content-Type") == Some("application/json");
    h
  }

  /** The URL a logged insert is POSTed to. */
  function Url(env: Env, r: InsertRequest): string {
    Endpoint(env, TableName(r.table))
  }

  /** How the awaited `insertIntoSupabase` call ends: `None` when it
      resolves (a 2xx status, `res.ok`), otherwise the error it throws,
      which carries the status code. */
  function InsertResult(reply: Reply): (r: Option<Error>)
    ensures r.None? <==> reply.Status? && 200 <= reply.code <= 299
    ensures r.Some? && reply.Status? ==> r.value == InsertFailed(reply.code)
    ensures r.Some? && reply.NetworkFailure? ==> r.value == FetchFailed
  {
    match reply
    case NetworkFailure => Some(FetchFailed)
    case Status(code) => if 200 <= code <= 299 then None else Some(InsertFailed(code))
  }

  /** The URL of an insert names its table, so inserts into different
      tables go to different endpoints. */
  lemma UrlNamesTable(env: Env, a: InsertRequest, b: InsertRequest)
    ensures Url(env, a)[|env.supabaseUrl| + 9..] == TableName(a.table)
    ensures a.table != b.table ==> Url(env, a) != Url(env, b)
  {
  }

  // ---------------------------------------------------------------------
  // verifyShopifyHmac
  // ---------------------------------------------------------------------

  /** `verifyShopifyHmac(rawBody, hmacHeader, secret)`: `None` where the
      call throws, because Web Crypto refuses to import an HMAC key of zero
      length (an empty or unset secret encodes to no bytes); otherwise
      whether the header equals the base64 digest `hmac(body, secret)`.
      The digest is a string, so an absent header (`null`) never matches. */
  function VerifyShopifyHmac(hmac: (string, string) -> string, body: string,
                             header: Option<string>, secret: string): (r: Option<bool>)
    ensures r.None? <==> secret == ""
    ensures r == Some(true) <==> secret != "" && header == Some(hmac(body, secret))
    ensures header.None? ==> r != Some(true)
  {
    if secret == "" then None else Some(header == Some(hmac(body, secret)))
  }

  // ---------------------------------------------------------------------
  // Promise.all
  // ---------------------------------------------------------------------

  /** Joining the child inserts: `None` when every one resolves, otherwise
      the error of a failing one (the earliest issued). */
  function JoinAll(results: seq<Option<Error>>): (r: Option<Error>)
    ensures r.None? <==> forall k :: 0 <= k < |results| ==> results[k].None?
    ensures r.Some? ==> exists k :: 0 <= k < |results| && results[k] == r
                                    && forall m :: 0 <= m < k ==> results[m].None?
  {
    if results == [] then None
    else if results[0].Some? then results[0]
    else
      var rest := JoinAll(results[1..]);
      if rest.Some? then
        ghost var k :| 0 <= k < |results[1..]| && results[1..][k] == rest
                       && forall m :: 0 <= m < k ==> results[1..][m].None?;
        assert results[k + 1] == rest;
        rest
      else
        assert forall k :: 1 <= k < |results| ==> results[k] == results[1..][k - 1];
        None
  }

  // ---------------------------------------------------------------------
  // The handler
  // ---------------------------------------------------------------------

  /** The request has passed every gate before the first insert: it is a
      POST, its signature matches, its body parses and the order has an id. */
  predicate Admitted(req: Request, env: Env, hmac: (string, string) -> string,
                     parse: string -> Option<Order>) {
    req.verb == "POST"
    && VerifyShopifyHmac(hmac, req.body, req.hmacHeader, env.shopifySecret) == Some(true)
    && parse(req.body).Some? && parse(req.body).value.id.Present?
  }

  /** The insert of the `orders` row for an admitted request. */
  function ParentInsert(req: Request, parse: string -> Option<Order>): InsertRequest
    requires parse(req.body).Some? && parse(req.body).value.id.Present?
  {
    var o := parse(req.body).value;
    InsertRequest(Orders, OrderPayload(MakeOrderRow(o, OrderId(o).value)))
  }

  /** The `order_items` rows of an admitted request, one per line item. */
  function ChildRows(req: Request, parse: string -> Option<Order>): seq<ItemRow>
    requires parse(req.body).Some? && parse(req.body).value.id.Present?
  {
    var o := parse(req.body).value;
    MakeItemRows(o, OrderId(o).value)
  }

  /** The insert issued as number `i` (counting from 0) succeeded. */
  predicate Succeeded(reply: nat -> Reply, i: nat) {
    InsertResult(reply(i)).None?
  }

  /** `children` are the `order_items` inserts of `rows`: one per row, in
      row order. */
  predicate ChildInserts(rows: seq<ItemRow>, children: seq<InsertRequest>) {
    |children| == |rows|
    && forall k :: 0 <= k < |children| ==> children[k] == InsertRequest(OrderItems, ItemPayload(rows[k]))
  }

  /** `(order.line_items || []).map(item => insertIntoSupabase(...))` over
      the already built `rows`: one insert per row, in row order, issued
      right after the parent (so child `k` is the insert numbered `1 + k`);
      `pending[k]` is how the promise of child `k` settles. */
  method StartChildInserts(rows: seq<ItemRow>, reply: nat -> Reply)
    returns (children: seq<InsertRequest>, pending: seq<Option<Error>>)
    ensures ChildInserts(rows, children)
    ensures |pending| == |children|
    ensures forall k :: 0 <= k < |pending| ==> pending[k] == InsertResult(reply(1 + k))
  {
    children, pending := [], [];
    var i := 0;
    while i < |rows|
      invariant 0 <= i <= |rows|
      invariant |children| == |pending| == i
      invariant forall k :: 0 <= k < i ==> children[k] == InsertRequest(OrderItems, ItemPayload(rows[k]))
      invariant forall k :: 0 <= k < i ==> pending[k] == InsertResult(reply(1 + k))
    {
      children := children + [InsertRequest(OrderItems, ItemPayload(rows[i]))];
      pending := pending + [InsertResult(reply(1 + i))];
      i := i + 1;
    }
  }

  /** `await Promise.all(promises)` over the child inserts, numbered 1 to
      `|pending|`, when the parent (number 0) has succeeded: 200 "OK" when
      every child succeeds, otherwise the error of the earliest failing
      insert. */
  method AwaitChildren(reply: nat -> Reply, pending: seq<Option<Error>>) returns (outcome: Outcome)
    requires Succeeded(reply, 0)
    requires forall k :: 0 <= k < |pending| ==> pending[k] == InsertResult(reply(1 + k))
    ensures outcome == Responded(200, "OK") <==> forall i :: 0 <= i <= |pending| ==> Succeeded(reply, i)
    ensures outcome != Responded(200, "OK") ==>
              exists i :: 0 <= i <= |pending| && !Succeeded(reply, i)
                          && (forall m :: 0 <= m < i ==> Succeeded(reply, m))
                          && outcome == Threw(InsertResult(reply(i)).value)
  {
    var joined := JoinAll(pending);
    if joined.Some? {
      ghost var k :| 0 <= k < |pending| && pending[k] == joined
                     && forall m :: 0 <= m < k ==> pending[m].None?;
      outcome := Threw(joined.value);
      ghost var w := 1 + k;
      assert pending[w - 1] == joined;
      assert forall m :: 0 <= m < w ==> Succeeded(reply, m) by {
        forall m | 0 <= m < w ensures Succeeded(reply, m) {
          if m > 0 { assert pending[m - 1].None?; }
        }
      }
      assert !Succeeded(reply, w) && outcome == Threw(InsertResult(reply(w)).value);
      return;
    }
    assert forall i :: 1 <= i <= |pending| ==> Succeeded(reply, i) by {
      forall i | 1 <= i <= |pending| ensures Succeeded(reply, i) {
        assert pending[i - 1].None?;
      }
    }
    outcome := Responded(200, "OK");
  }

  /** Lines 55-86 once the order is parsed: the `orders` insert, awaited,
      then one `order_items` insert per line item, all issued before any is
      awaited, then `Promise.all`. The outcome is 200 "OK" when every insert
      succeeds, and otherwise the error of the earliest failing insert. */
  method StoreOrder(order: Order, reply: nat -> Reply)
    returns (outcome: Outcome, log: seq<InsertRequest>)
    requires order.id.Present?
    ensures |log| >= 1
    ensures log[0] == InsertRequest(Orders, OrderPayload(MakeOrderRow(order, OrderId(order).value)))
    ensures !Succeeded(reply, 0) ==> |log| == 1
    ensures Succeeded(reply, 0) ==> ChildInserts(MakeItemRows(order, OrderId(order).value), log[1..])
    ensures outcome == Responded(200, "OK") <==> forall i :: 0 <= i < |log| ==> Succeeded(reply, i)
    ensures outcome != Responded(200, "OK") ==>
              exists i :: 0 <= i < |log| && !Succeeded(reply, i)
                          && (forall m :: 0 <= m < i ==> Succeeded(reply, m))
                          && outcome == Threw(InsertResult(reply(i)).value)
  {
    var orderId := OrderId(order).value;

    // the parent insert, awaited
    var parent := InsertRequest(Orders, OrderPayload(MakeOrderRow(order, orderId)));
    log := [parent];
    var parentResult := InsertResult(reply(0));
    if parentResult.Some? {
      outcome := Threw(parentResult.value);
      assert !Succeeded(reply, 0) && outcome == Threw(InsertResult(reply(0)).value);
      return;
    }

    // `map` starts every child insert before anything is awaited
    var children, pending := StartChildInserts(MakeItemRows(order, orderId), reply);
    log := [parent] + children;
    assert log[1..] == children;

    // `Promise.all`
    outcome := AwaitChildren(reply, pending);
  }

  /** Lines 41-55 up to the first insert: the method gate, the signature
      check, parsing and reading the order id. `rejected` is how the
      handler ends when one of them stops it, `None` when the request gets
      through to the inserts. */
  method CheckRequest(req: Request, env: Env, hmac: (string, string) -> string,
                      parse: string -> Option<Order>)
    returns (rejected: Option<Outcome>)
    // method gate
    ensures req.verb != "POST" ==> rejected == Some(Responded(405, "Method Not Allowed"))
    // an empty secret makes the key import throw
    ensures (req.verb == "POST" && env.shopifySecret == "") ==> rejected == Some(Threw(KeyRejected))
    // signature gate, including an absent header
    ensures (req.verb == "POST" && VerifyShopifyHmac(hmac, req.body, req.hmacHeader, env.shopifySecret) == Some(false))
            ==> rejected == Some(Responded(401, "Invalid HMAC"))
    // parsing and reading the id
    ensures (req.verb == "POST" && VerifyShopifyHmac(hmac, req.body, req.hmacHeader, env.shopifySecret) == Some(true)
             && parse(req.body).None?)
            ==> rejected == Some(Threw(MalformedJson))
    ensures (req.verb == "POST" && VerifyShopifyHmac(hmac, req.body, req.hmacHeader, env.shopifySecret) == Some(true)
             && parse(req.body).Some? && !parse(req.body).value.id.Present?)
            ==> rejected == Some(Threw(MissingOrderId))
    ensures rejected.None? <==> Admitted(req, env, hmac, parse)
  {
    if req.verb != "POST" {
      return Some(Responded(405, "Method Not Allowed"));
    }

    var valid := VerifyShopifyHmac(hmac, req.body, req.hmacHeader, env.shopifySecret);
    if valid.None? {
      return Some(Threw(KeyRejected));
    }
    if !valid.value {
      return Some(Responded(401, "Invalid HMAC"));
    }

    var parsed := parse(req.body);
    if parsed.None? {
      return Some(Threw(MalformedJson));
    }
    if !parsed.value.id.Present? {
      return Some(Threw(MissingOrderId));
    }
    return None;
  }

  /** The `fetch` handler: the method gate, the signature check, parsing and
      the order id, each of which ends the request before anything is
      written, and then `StoreOrder`. */
  method HandleWebhook(req: Request, env: Env, hmac: (string, string) -> string,
                       parse: string -> Option<Order>, reply: nat -> Reply)
    returns (outcome: Outcome, log: seq<InsertRequest>)
    // method gate
    ensures req.verb != "POST" ==> outcome == Responded(405, "Method Not Allowed") && log == []
    // an empty secret makes the key import throw
    ensures (req.verb == "POST" && env.shopifySecret == "")
            ==> outcome == Threw(KeyRejected) && log == []
    // signature gate, including an absent header
    ensures (req.verb == "POST" && VerifyShopifyHmac(hmac, req.body, req.hmacHeader, env.shopifySecret) == Some(false))
            ==> outcome == Responded(401, "Invalid HMAC") && log == []
    // parsing and reading the id, both before any insert
    ensures (req.verb == "POST" && VerifyShopifyHmac(hmac, req.body, req.hmacHeader, env.shopifySecret) == Some(true)
             && parse(req.body).None?)
            ==> outcome == Threw(MalformedJson) && log == []
    ensures (req.verb == "POST" && VerifyShopifyHmac(hmac, req.body, req.hmacHeader, env.shopifySecret) == Some(true)
             && parse(req.body).Some? && !parse(req.body).value.id.Present?)
            ==> outcome == Threw(MissingOrderId) && log == []
    // nothing is written unless every gate passed, and then the parent comes first
    ensures log != [] <==> Admitted(req, env, hmac, parse)
    ensures Admitted(req, env, hmac, parse) ==> log[0] == ParentInsert(req, parse)
    // a failed parent insert stops the handler before any child
    ensures (Admitted(req, env, hmac, parse) && !Succeeded(reply, 0))
            ==> |log| == 1 && outcome == Threw(InsertResult(reply(0)).value)
    // after a successful parent, one child insert per line item, all issued
    ensures (Admitted(req, env, hmac, parse) && Succeeded(reply, 0))
            ==> ChildInserts(ChildRows(req, parse), log[1..])
    // 200 exactly when every insert succeeded
    ensures outcome == Responded(200, "OK") <==>
            Admitted(req, env, hmac, parse) && forall i :: 0 <= i < |log| ==> Succeeded(reply, i)
    // otherwise, past the gates, the error of the earliest failing insert
    ensures (Admitted(req, env, hmac, parse) && outcome != Responded(200, "OK"))
            ==> exists i :: 0 <= i < |log| && !Succeeded(reply, i)
                            && (forall m :: 0 <= m < i ==> Succeeded(reply, m))
                            && outcome == Threw(InsertResult(reply(i)).value)
  {
    var rejected := CheckRequest(req, env, hmac, parse);
    if rejected.Some? {
      return rejected.value, [];
    }
    outcome, log := StoreOrder(parse(req.body).value, reply);
  }
}
