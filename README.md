# Mirakl API client: resource-pool address-and-dispatch model

A Dafny model of the resource-pool layer of `mirakl_api_client`, a Python
binding for the Mirakl marketplace REST API. The layer has four parts:

- **The pool tree** (`pools.dfy`, module `Pools`). There is one `PoolKind`
  per pool class. `Caps` gives the capability mixins each class lists among
  its bases. Each accessor is a pure function from a parent `Pool` to a new
  child `Pool`. The child's endpoint is the parent's endpoint followed by
  literal segments and the caller's id, in the order the source writes them,
  and it keeps the parent's session. A URL is a sequence of path segments,
  and `urljoin` is sequence concatenation. `Access` models Python attribute
  lookup on a pool: `pool.name` for a property, `pool.name(id)` for a
  method. `Walk` chains such lookups. The lemmas prove three things:
  - every accessor's exact path and class, and what the child can do;
  - chains only ever extend the URL, keep the session, and are at most two
    steps deep, except in one place: `ShipmentsPool.tracking` returns a
    `ShipmentsPool` again, so `tracking` chains without end;
  - because of that, the `ShipmentsTrackingPool` class (the only one with
    create under `shipments`) is never reached.
- **The capabilities** (`capabilities.dfy`, module `Capabilities`). There
  are six mixin operations. Each issues exactly one request on the shared
  session, except `create_item` with files when a header `pop` raises: then
  nothing is sent. The session (`transport.dfy`) is a class with a mutable
  `headers` map and a `log` of requests sent. Each request records its verb,
  URL, params, body and the session's persistent headers at the time of the
  call.
  - `update_create_item` picks its target by a fixed rule. An explicit code
    that is not None wins. Otherwise the item's `id` is used. When the chosen
    code is None or empty, the PUT goes to the bare endpoint.
  - `create_item` with a non-empty `files` pops `Content-Type` and then
    `Accept` from the shared headers and does not put them back. A missing
    key raises `KeyError`. If `Content-Type` is present but `Accept` is
    missing, `Content-Type` is already gone when the error is raised.
  - Two consequences are proved. The next `fetch_item` on any pool of the
    same session goes out without those two headers and with every other one
    (`FetchAfterUpload`). A second upload with files raises
    `KeyError('Content-Type')` and sends nothing (`UploadTwice`). Only a new
    `_authenticate` (`Client.MirakleClient.Authenticate`) would install them
    again.
- **Search**: `Capabilities.Search` has no capability precondition. No pool
  class composes `SearchableResource`, which the ensures of `Pools.Caps`
  states. So the method stands for the mixin's own operation on a pool, and
  in the source it is never reachable.
- **The client** (`client.dfy`, module `Client`). `MirakleClient` builds the
  base URL `urljoin('https://' + hostname, 'api')` and one root pool per
  area, all on one session. It then replaces the session's headers with
  exactly three entries. Its `const` fields are the attributes `__init__`
  assigns. The `resources` property is the `resources` field itself. Each
  area property reads one entry of that table.

The code never puts back the two JSON headers a multipart `create_item`
pops, and the model keeps that behaviour (see `FetchAfterUpload` and
`UploadTwice`).

## Model

| member | source | states |
|---|---|---|
| Pools.Caps | mirakl_api_client/resources.py:61-620 | the capability mixins of every pool class; no class composes SearchableResource |
| Pools.GetUrl | mirakl_api_client/resources.py:5-12 | a pool's `get_url()` is exactly the endpoint it was constructed with; the path lemmas below state each child's URL as the parent's `get_url()` joined with the accessor's segments |
| Pools.NotableCapabilitySets | mirakl_api_client/resources.py:61-596 | OrdersPool has list and update but not get; SettingsPool, ShippingPool and ShopsPool have no capability; the other root classes' sets |
| Pools.ThreadsAccessors | mirakl_api_client/resources.py:75-88 | the accessors of ThreadsPool keep the session, extend the endpoint, and reach a leaf class |
| Pools.ShipmentsAccessors | mirakl_api_client/resources.py:102-117 | the accessors of ShipmentsPool keep the session and extend the endpoint; `tracking` may stay a ShipmentsPool, the tracking class is never produced |
| Pools.OffersAccessors | mirakl_api_client/resources.py:131-154 | the three offers properties keep the session, extend the endpoint, and reach kinds of smaller height |
| Pools.OffersImportsAccessors | mirakl_api_client/resources.py:156-165 | `error_report` keeps the session and extends the endpoint |
| Pools.OrdersAccessors | mirakl_api_client/resources.py:184-269 | the six properties and nine id accessors of OrdersPool keep the session and extend the endpoint |
| Pools.OrdersLinesAccessors | mirakl_api_client/resources.py:318-325 | `resolve_incident` keeps the session and extends the endpoint |
| Pools.OrdersDocumentsAccessors | mirakl_api_client/resources.py:332-341 | `download` keeps the session and extends the endpoint |
| Pools.SettingsAccessors | mirakl_api_client/resources.py:365-412 | the eight settings properties keep the session and extend the endpoint |
| Pools.ShippingAccessors | mirakl_api_client/resources.py:456-479 | the four shipping properties keep the session and extend the endpoint |
| Pools.ProductsAccessors | mirakl_api_client/resources.py:502-522 | the three products properties keep the session and extend the endpoint |
| Pools.ProductsImportsAccessors | mirakl_api_client/resources.py:524-548 | the four import-report accessors keep the session and extend the endpoint |
| Pools.ShopsAccessors | mirakl_api_client/resources.py:596-602 | `documents` keeps the session and extends the endpoint |
| Pools.ShopsDocumentsAccessors | mirakl_api_client/resources.py:605-615 | `download` keeps the session and extends the endpoint |
| Pools.Access | mirakl_api_client/resources.py:80-615 | any accessor found on any pool keeps the session, strictly extends the endpoint, never yields ShipmentsTrackingPool, and outside ShipmentsPool lowers the height |
| Pools.WalkExtends | mirakl_api_client/resources.py:80-615 | a chain of accessors keeps the session and appends at least one segment per step to the starting endpoint |
| Pools.WalkNeverRevisits | mirakl_api_client/resources.py:80-615 | no non-empty chain returns to its starting endpoint: the URL tree has no cycles |
| Pools.WalkDepth | mirakl_api_client/resources.py:80-615 | from any pool other than ShipmentsPool, every chain of accessors has at most two steps |
| Pools.TrackingChains | mirakl_api_client/resources.py:107-111 | n times `tracking` on a ShipmentsPool is a ShipmentsPool at the endpoint followed by n 'tracking' segments |
| Pools.TrackingPoolUnreachable | mirakl_api_client/resources.py:107-122 | no chain of accessors from any other class produces a ShipmentsTrackingPool |
| Pools.ThreadsPaths | mirakl_api_client/resources.py:80-88 | `message(id)` is id then 'message'; `attachment(id)` is id then 'download' |
| Pools.ShipmentsPaths | mirakl_api_client/resources.py:107-117 | `tracking` is a ShipmentsPool at 'tracking', with no create; `ship` is a ShipmentsShipPool at 'ship' |
| Pools.OffersPaths | mirakl_api_client/resources.py:138-165 | 'imports', 'export', 'states'; `error_report(id)` is id then 'error_report' |
| Pools.OrdersPropertyPaths | mirakl_api_client/resources.py:190-224 | each property appends its own name, except `cancel_lines`, an OrdersCancelPool at 'cancel' |
| Pools.OrdersIdPaths | mirakl_api_client/resources.py:226-269 | each id accessor appends the id then its own name, except `document_upload`, which appends 'documents' |
| Pools.OrdersSubPaths | mirakl_api_client/resources.py:322-341 | `resolve_incident(id)` is id then 'resolve_incident'; documents `download` appends 'download' |
| Pools.SettingsPaths | mirakl_api_client/resources.py:366-412 | each settings property appends its own name and gives its own class |
| Pools.ShippingPaths | mirakl_api_client/resources.py:457-479 | each shipping property appends its own name and gives its own class |
| Pools.ProductsPaths | mirakl_api_client/resources.py:506-548 | the three properties append their names; the four import accessors append the id then their own name |
| Pools.ShopsPaths | mirakl_api_client/resources.py:598-615 | shops 'documents', then 'download', with no id |
| Pools.ThreadsChildCapabilities | mirakl_api_client/resources.py:90-98 | message pool: create only; attachment pool: get only |
| Pools.ShipmentsChildCapabilities | mirakl_api_client/resources.py:102-127 | ShipmentsPool: get and list; ship pool: update only |
| Pools.OffersChildCapabilities | mirakl_api_client/resources.py:156-180 | offers imports: create, get, list; export, states, error report: list only |
| Pools.OrdersPropertyChildCapabilities | mirakl_api_client/resources.py:272-356 | shipping_from, refund, cancel, adjust: update; documents: list and delete; taxes: list |
| Pools.OrdersIdChildCapabilities | mirakl_api_client/resources.py:278-361 | accept, tracking, ship, additional_fields: update; evaluation: list; lines: get; document upload and threads: create |
| Pools.OrdersSubChildCapabilities | mirakl_api_client/resources.py:327-346 | resolve_incident: update; documents download: list |
| Pools.SettingsChildCapabilities | mirakl_api_client/resources.py:414-452 | reasons: get only; the other seven settings pools: list only |
| Pools.ShippingChildCapabilities | mirakl_api_client/resources.py:481-499 | the four shipping pools: list only |
| Pools.ProductsChildCapabilities | mirakl_api_client/resources.py:524-578 | products imports: create, get, list; the reports, attributes and offers: list only |
| Pools.ShopsChildCapabilities | mirakl_api_client/resources.py:605-620 | shops documents: list, create, delete; its download: list only |
| Capabilities.PopJsonHeaders | mirakl_api_client/resources.py:16-18 | the pops succeed exactly when both keys are present; they remove only 'Content-Type' and 'Accept' and keep every other header; a missing 'Content-Type' raises first with nothing removed; a missing 'Accept' raises after 'Content-Type' is gone |
| Capabilities.UpdateUrl | mirakl_api_client/resources.py:44-50 | an explicit code that is not None wins over the item's id; an empty explicit code, or no code and no truthy id, gives the bare endpoint; otherwise the endpoint joined with the code |
| Capabilities.CreateItem | mirakl_api_client/resources.py:14-23 | without files or with empty files: one JSON POST to the endpoint, headers unchanged; with files: the header pops, and one multipart POST to the endpoint only when both pops succeed; headers are not restored |
| Capabilities.FetchItem | mirakl_api_client/resources.py:25-29 | one GET to endpoint joined with the code, no params, no body, headers unchanged |
| Capabilities.FetchList | mirakl_api_client/resources.py:31-34 | one GET to the endpoint itself with params equal to the arguments |
| Capabilities.Search | mirakl_api_client/resources.py:36-42 | one GET to the endpoint with exactly the one param 'query' |
| Capabilities.UpdateCreateItem | mirakl_api_client/resources.py:44-50 | one PUT with a JSON body to the URL UpdateUrl chooses, headers unchanged |
| Capabilities.DeleteItem | mirakl_api_client/resources.py:52-56 | one DELETE to endpoint joined with the code |
| Capabilities.FetchAfterUpload | mirakl_api_client/resources.py:15-20 | after an upload with files, a later GET on another pool of the same session carries neither JSON header but every other header |
| Capabilities.UploadTwice | mirakl_api_client/resources.py:15-20 | a second upload with files on the same session raises KeyError('Content-Type') and sends nothing |
| Client.BaseUrl | mirakl_api_client/client.py:14 | two segments: 'https://' followed by the hostname verbatim, then 'api' |
| Client.RootTable | mirakl_api_client/client.py:15-40 | one root pool per area key, every one bound to the single session the table is built with |
| Client.RootTableAreas | mirakl_api_client/client.py:15-40 | the resources table has exactly the twelve area keys |
| Client.AreaCount | mirakl_api_client/client.py:15-40 | there are twelve distinct area names |
| Client.RootTableEndpoints | mirakl_api_client/client.py:16-39 | every root pool other than settings and transactions_logs is the base URL joined with its area name |
| Client.RootTableExceptions | mirakl_api_client/client.py:18-29 | transactions_logs is bound to base joined with 'sellerpayment/transactions_logs'; settings is bound to the bare base URL |
| Client.AuthHeaders | mirakl_api_client/client.py:44-50 | exactly three headers: JSON content type, JSON accept, and the API key verbatim as Authorization |
| Client.MirakleClient.constructor | mirakl_api_client/client.py:9-42 | the base URL and root table are built on one fresh session, whose headers afterwards are exactly AuthHeaders, whatever the session started with |
| Client.MirakleClient.Authenticate | mirakl_api_client/client.py:44-50 | the session's headers are replaced wholesale by AuthHeaders; nothing is sent |
| Client.MirakleClient.Invoices | mirakl_api_client/client.py:56-58 | the InvoicesPool at base/invoices on the client's session |
| Client.MirakleClient.TransactionsLogs | mirakl_api_client/client.py:60-62 | the TransactionsLogsPool at base/'sellerpayment/transactions_logs' |
| Client.MirakleClient.Threads | mirakl_api_client/client.py:64-66 | the ThreadsPool at base/threads |
| Client.MirakleClient.Shipments | mirakl_api_client/client.py:68-70 | the ShipmentsPool at base/shipments |
| Client.MirakleClient.Offers | mirakl_api_client/client.py:72-74 | the OffersPool at base/offers |
| Client.MirakleClient.Orders | mirakl_api_client/client.py:76-78 | the OrdersPool at base/orders |
| Client.MirakleClient.Settings | mirakl_api_client/client.py:80-82 | the SettingsPool at the bare base URL |
| Client.MirakleClient.Shipping | mirakl_api_client/client.py:84-86 | the ShippingPool at base/shipping |
| Client.MirakleClient.Products | mirakl_api_client/client.py:88-90 | the ProductsPool at base/products |
| Client.MirakleClient.Promotions | mirakl_api_client/client.py:92-94 | the PromotionsPool at base/promotions |
| Client.MirakleClient.Accounts | mirakl_api_client/client.py:96-98 | the `accounts` property returns the 'account' entry: the AccountPool at base/account |
| Client.MirakleClient.Shops | mirakl_api_client/client.py:100-102 | the ShopsPool at base/shops |
| Client.ExampleTrackingUrl | mirakl_api_client/client.py:14-27 | for host example.mirakl.net, orders `tracking('ORD1')` is at https://example.mirakl.net/api/orders/ORD1/tracking |
| Client.TrackingUpdateExample | mirakl_api_client/client.py:9-50 | that pool's update with no code and no id in the item PUTs the JSON item there with exactly the three headers and Authorization token123 |

## Left out

- HTTP transport and responses: each request is recorded in the session's log, and responses are opaque and not returned. Transport failures are not modelled.
- JSON serialisation and multipart/form encoding: a body is the item value, tagged JSON or multipart. `data=item` with `files=` is recorded as the item and the files.
- Headers the transport adds per request (such as the multipart Content-Type with its boundary) are not recorded: a logged request carries only the session's persistent headers.
- Query-string encoding: `params` is recorded as the map given.
- `urljoin` (in `utils`, which is not part of this model): modelled as appending segments, with no separator handling. 'sellerpayment/transactions_logs' is one segment.
- The `print` of the headers in `create_item` (console output).
- Concurrency: the code is single-threaded. The unscoped header mutation is modelled as it is and not made safe.
- Pool identity: pools are values. Two accesses give equal pools, where Python allocates a new object each time and returns the same table object from the area properties.
- Item field values: a field is a JSON null or a string. Numbers, booleans and nested objects in items are not modelled. Ids and codes are strings.
- The default headers of a new `requests.Session` are a constructor parameter (`defaults`), since they belong to the transport library.
- Callers mutating the dict returned by the `resources` property are not modelled: the table is an immutable field.
