/**
 * The client facade: one shared session, the base URL, one root pool per
 * API area, and the three persistent headers set at construction.
 */
module Client {
  import opened Wrappers
  import opened Transport
  import opened Pools
  import Capabilities

  /** `urljoin('https://' + hostname, 'api')`: the scheme with the host verbatim, then 'api'. */
  function BaseUrl(hostname: string): (u: Url)
    ensures |u| == 2 && u[1] == "api"
    ensures |u[0]| == 8 + |hostname| && u[0][..8] == "https://" && u[0][8..] == hostname
  {
    ["https://" + hostname, "api"]
  }

  /** The keys of the root-pool table. */
  const AreaNames: set<string> :=
    {"invoices", "transactions_logs", "threads", "shipments", "offers", "orders",
     "settings", "shipping", "products", "promotions", "account", "shops"}

  /** The root pool of every area, bound to the base URL; every one is on the one session given. */
  function RootTable(base: Url, s: Session): (r: map<string, Pool>)
    ensures forall a :: a in r ==> r[a].session == s
  {
    map[
      "invoices" := Pool(InvoicesPool, base + ["invoices"], s),
      "transactions_logs" := Pool(TransactionsLogsPool, base + ["sellerpayment/transactions_logs"], s),
      "threads" := Pool(ThreadsPool, base + ["threads"], s),
      "shipments" := Pool(ShipmentsPool, base + ["shipments"], s),
      "offers" := Pool(OffersPool, base + ["offers"], s),
      "orders" := Pool(OrdersPool, base + ["orders"], s),
      "settings" := Pool(SettingsPool, base, s),
      "shipping" := Pool(ShippingPool, base + ["shipping"], s),
      "products" := Pool(ProductsPool, base + ["products"], s),
      "promotions" := Pool(PromotionsPool, base + ["promotions"], s),
      "account" := Pool(AccountPool, base + ["account"], s),
      "shops" := Pool(ShopsPool, base + ["shops"], s)
    ]
  }

  /** The table has exactly the twelve area keys. */
  lemma RootTableAreas(base: Url, s: Session)
    ensures RootTable(base, s).Keys == AreaNames
  {
  }

  /** Twelve distinct area names. */
  lemma AreaCount()
    ensures |AreaNames| == 12
  {
  }

  /** Every root pool but two sits at the base URL joined with its own area name. */
  lemma RootTableEndpoints(base: Url, s: Session)
    ensures forall a :: a in RootTable(base, s) && a != "settings" && a != "transactions_logs" ==>
              RootTable(base, s)[a].endpoint == base + [a]
  {
  }

  /**
   * The two exceptions: 'transactions_logs' is one 'sellerpayment/transactions_logs'
   * segment, and 'settings' is the bare base URL.
   */
  lemma RootTableExceptions(base: Url, s: Session)
    ensures "transactions_logs" in RootTable(base, s)
    ensures RootTable(base, s)["transactions_logs"].endpoint == base + ["sellerpayment/transactions_logs"]
    ensures "settings" in RootTable(base, s) && RootTable(base, s)["settings"].endpoint == base
  {
  }

  /** The persistent headers `_authenticate` installs. */
  function AuthHeaders(apiKey: string): (h: Headers)
    ensures h.Keys == {"Content-Type", "Accept", "Authorization"}
    ensures h["Content-Type"] == "application/json" && h["Accept"] == "application/json"
    ensures h["Authorization"] == apiKey
  {
    map["Content-Type" := "application/json", "Accept" := "application/json", "Authorization" := apiKey]
  }

  class MirakleClient {
    const session: Session
    const hostname: string
    const apiKey: string
    const baseUrl: Url
    /** The `resources` property returns this table. */
    const resources: map<string, Pool>

    ghost predicate Valid()
    {
      baseUrl == BaseUrl(hostname) && resources == RootTable(baseUrl, session)
    }

    /**
     * `MirakleClient(hostname, api_key)`. The new session starts with the
     * transport library's `defaults`, which `_authenticate` then replaces.
     */
    constructor (hostname: string, apiKey: string, defaults: Headers)
      ensures Valid()
      ensures this.hostname == hostname && this.apiKey == apiKey
      ensures fresh(session)
      ensures session.headers == AuthHeaders(apiKey) && session.log == []
    {
      var s := new Session(defaults);
      this.session := s;
      this.hostname := hostname;
      this.apiKey := apiKey;
      var base := BaseUrl(hostname);
      this.baseUrl := base;
      this.resources := RootTable(base, s);
      new;
      Authenticate();
    }

    /** `_authenticate`: the session's headers become exactly the three JSON/auth headers. */
    method Authenticate()
      modifies session
      ensures session.headers == AuthHeaders(apiKey)
      ensures session.log == old(session.log)
    {
      session.headers := AuthHeaders(apiKey);
    }

    function Invoices(): (r: Option<Pool>)
      ensures Valid() ==> r == Some(Pool(InvoicesPool, baseUrl + ["invoices"], session))
    {
      MapGet(resources, "invoices")
    }

    function TransactionsLogs(): (r: Option<Pool>)
      ensures Valid() ==> r == Some(Pool(TransactionsLogsPool, baseUrl + ["sellerpayment/transactions_logs"], session))
    {
      MapGet(resources, "transactions_logs")
    }

    function Threads(): (r: Option<Pool>)
      ensures Valid() ==> r == Some(Pool(ThreadsPool, baseUrl + ["threads"], session))
    {
      MapGet(resources, "threads")
    }

    function Shipments(): (r: Option<Pool>)
      ensures Valid() ==> r == Some(Pool(ShipmentsPool, baseUrl + ["shipments"], session))
    {
      MapGet(resources, "shipments")
    }

    function Offers(): (r: Option<Pool>)
      ensures Valid() ==> r == Some(Pool(OffersPool, baseUrl + ["offers"], session))
    {
      MapGet(resources, "offers")
    }

    function Orders(): (r: Option<Pool>)
      ensures Valid() ==> r == Some(Pool(OrdersPool, baseUrl + ["orders"], session))
    {
      MapGet(resources, "orders")
    }

    /** Bound to the bare base URL: there is no 'settings' segment. */
    function Settings(): (r: Option<Pool>)
      ensures Valid() ==> r == Some(Pool(SettingsPool, baseUrl, session))
    {
      MapGet(resources, "settings")
    }

    function Shipping(): (r: Option<Pool>)
      ensures Valid() ==> r == Some(Pool(ShippingPool, baseUrl + ["shipping"], session))
    {
      MapGet(resources, "shipping")
    }

    function Products(): (r: Option<Pool>)
      ensures Valid() ==> r == Some(Pool(ProductsPool, baseUrl + ["products"], session))
    {
      MapGet(resources, "products")
    }

    function Promotions(): (r: Option<Pool>)
      ensures Valid() ==> r == Some(Pool(PromotionsPool, baseUrl + ["promotions"], session))
    {
      MapGet(resources, "promotions")
    }

    /** The property is `accounts`; the table key is 'account'. */
    function Accounts(): (r: Option<Pool>)
      ensures Valid() ==> r == Some(Pool(AccountPool, baseUrl + ["account"], session))
    {
      MapGet(resources, "account")
    }

    function Shops(): (r: Option<Pool>)
      ensures Valid() ==> r == Some(Pool(ShopsPool, baseUrl + ["shops"], session))
    {
      MapGet(resources, "shops")
    }
  }

  /** The orders pool of a client for example.mirakl.net, and its `tracking('ORD1')` child. */
  lemma ExampleTrackingUrl(client: MirakleClient)
    requires client.Valid() && client.hostname == "example.mirakl.net"
    ensures client.Orders().Some? && client.Orders().value.kind == OrdersPool
    ensures OrdersTracking(client.Orders().value, "ORD1").endpoint ==
              ["https://example.mirakl.net", "api", "orders", "ORD1", "tracking"]
  {
    var host := "https://" + "example.mirakl.net";
    assert host == "https://example.mirakl.net";
    var orders := client.Orders().value;
    assert orders.endpoint == [host, "api"] + ["orders"];
    assert OrdersTracking(orders, "ORD1").endpoint == [host, "api"] + ["orders"] + ["ORD1", "tracking"];
  }

  /**
   * A client for example.mirakl.net with credential token123: the orders
   * pool's `tracking('ORD1')` accessor, then `update_create_item` with no
   * code and an item without an id, PUTs to .../orders/ORD1/tracking.
   */
  method TrackingUpdateExample() returns (sent: Request)
    ensures sent.verb == PUT
    ensures sent.url == ["https://example.mirakl.net", "api", "orders", "ORD1", "tracking"]
    ensures sent.body == JsonBody(map["carrier" := Str("UPS")])
    ensures sent.headers == AuthHeaders("token123") && sent.headers["Authorization"] == "token123"
  {
    var client := new MirakleClient("example.mirakl.net", "token123", map["Accept" := "*/*"]);
    ExampleTrackingUrl(client);
    var tracking := OrdersTracking(client.Orders().value, "ORD1");
    var item := map["carrier" := Str("UPS")];
    assert Capabilities.UpdateUrl(tracking.endpoint, item, None) == tracking.endpoint;
    Capabilities.UpdateCreateItem(tracking, item, None);
    sent := client.session.log[|client.session.log| - 1];
  }
}
