/**
 * The resource-pool tree: the pool kinds (one per pool class), the
 * capabilities each kind composes, and the accessors that derive a child
 * pool from a parent by appending path segments to its endpoint.
 */
module Pools {
  import opened Wrappers
  import opened Transport

  /** The six capability mixins. */
  datatype Capability = Creatable | Gettable | Listable | Searchable | Updatable | Deletable

  /** One constructor per pool class. */
  datatype PoolKind =
    | InvoicesPool
    | TransactionsLogsPool
    | ThreadsPool | ThreadsMessagePool | ThreadsAttachmentPool
    | ShipmentsPool | ShipmentsTrackingPool | ShipmentsShipPool
    | OffersPool | OffersImportsPool | OffersImportsErrorReportPool | OffersExportPool | OffersStatesPool
    | OrdersPool | OrdersShippingFromPool | OrdersAcceptPool | OrdersTrackingPool | OrdersShipPool
    | OrdersRefundPool | OrdersCancelPool | OrdersAdditionalFieldsPool | OrdersAdjustPool
    | OrdersEvaluationPool | OrdersLinesPool | OrdersLinesResolveIncidentPool | OrdersDocumentsPool
    | OrdersDocumentsDownloadPool | OrdersDocumentsUploadPool | OrdersTaxesPool | OrdersThreadsPool
    | SettingsPool | SettingsAdditionalFieldsPool | SettingsChannelsPool | SettingsDocumentsPool
    | SettingsLocalesPool | SettingsReasonsPool | SettingsVersionPool | SettingsHierarchiesPool
    | SettingsValuesListsPool
    | ShippingPool | ShippingZonesPool | ShippingTypesPool | ShippingCarriersPool | ShippingLogisticClassesPool
    | ProductsPool | ProductsImportsPool | ProductsImportsErrorReportPool | ProductsImportsNewProductReportPool
    | ProductsImportsTransformedFilePool | ProductsImportsTransformationErrorReportPool
    | ProductsAttributesPool | ProductsOffersPool
    | PromotionsPool
    | AccountPool
    | ShopsPool | ShopsDocumentsPool | ShopsDocumentsDownloadPool

  /** The mixins each pool class lists among its bases. */
  function Caps(kind: PoolKind): (r: set<Capability>)
    ensures Searchable !in r
  {
    match kind
    case InvoicesPool => {Gettable, Listable}
    case TransactionsLogsPool => {Listable}
    case ThreadsPool => {Gettable, Listable}
    case ThreadsMessagePool => {Creatable}
    case ThreadsAttachmentPool => {Gettable}
    case ShipmentsPool => {Gettable, Listable}
    case ShipmentsTrackingPool => {Creatable}
    case ShipmentsShipPool => {Updatable}
    case OffersPool => {Creatable, Gettable, Listable}
    case OffersImportsPool => {Creatable, Gettable, Listable}
    case OffersImportsErrorReportPool => {Listable}
    case OffersExportPool => {Listable}
    case OffersStatesPool => {Listable}
    case OrdersPool => {Listable, Updatable}
    case OrdersShippingFromPool => {Updatable}
    case OrdersAcceptPool => {Updatable}
    case OrdersTrackingPool => {Updatable}
    case OrdersShipPool => {Updatable}
    case OrdersRefundPool => {Updatable}
    case OrdersCancelPool => {Updatable}
    case OrdersAdditionalFieldsPool => {Updatable}
    case OrdersAdjustPool => {Updatable}
    case OrdersEvaluationPool => {Listable}
    case OrdersLinesPool => {Gettable}
    case OrdersLinesResolveIncidentPool => {Updatable}
    case OrdersDocumentsPool => {Listable, Deletable}
    case OrdersDocumentsDownloadPool => {Listable}
    case OrdersDocumentsUploadPool => {Creatable}
    case OrdersTaxesPool => {Listable}
    case OrdersThreadsPool => {Creatable}
    case SettingsPool => {}
    case SettingsAdditionalFieldsPool => {Listable}
    case SettingsChannelsPool => {Listable}
    case SettingsDocumentsPool => {Listable}
    case SettingsLocalesPool => {Listable}
    case SettingsReasonsPool => {Gettable}
    case SettingsVersionPool => {Listable}
    case SettingsHierarchiesPool => {Listable}
    case SettingsValuesListsPool => {Listable}
    case ShippingPool => {}
    case ShippingZonesPool => {Listable}
    case ShippingTypesPool => {Listable}
    case ShippingCarriersPool => {Listable}
    case ShippingLogisticClassesPool => {Listable}
    case ProductsPool => {Listable}
    case ProductsImportsPool => {Creatable, Gettable, Listable}
    case ProductsImportsErrorReportPool => {Listable}
    case ProductsImportsNewProductReportPool => {Listable}
    case ProductsImportsTransformedFilePool => {Listable}
    case ProductsImportsTransformationErrorReportPool => {Listable}
    case ProductsAttributesPool => {Listable}
    case ProductsOffersPool => {Listable}
    case PromotionsPool => {Listable}
    case AccountPool => {Listable}
    case ShopsPool => {}
    case ShopsDocumentsPool => {Listable, Creatable, Deletable}
    case ShopsDocumentsDownloadPool => {Listable}
  }

  /** A pool: its class, the endpoint it is bound to, and the shared session. */
  datatype Pool = Pool(kind: PoolKind, endpoint: Url, session: Session)

  /** `get_url`: the endpoint the pool was constructed with. */
  function GetUrl(p: Pool): (u: Url)
    ensures u == p.endpoint
  {
    p.endpoint
  }

  /** `Kind(urljoin(self._endpoint, *segments), self._session)`. */
  function Derive(p: Pool, kind: PoolKind, segments: seq<string>): Pool
  {
    Pool(kind, p.endpoint + segments, p.session)
  }

  // ---- ThreadsPool

  function ThreadsMessage(p: Pool, threadId: string): Pool
    requires p.kind == ThreadsPool
  {
    Derive(p, ThreadsMessagePool, [threadId, "message"])
  }

  function ThreadsAttachment(p: Pool, attachmentId: string): Pool
    requires p.kind == ThreadsPool
  {
    Derive(p, ThreadsAttachmentPool, [attachmentId, "download"])
  }

  // ---- ShipmentsPool

  /** Bound to a ShipmentsPool, not to the ShipmentsTrackingPool class. */
  function ShipmentsTracking(p: Pool): Pool
    requires p.kind == ShipmentsPool
  {
    Derive(p, ShipmentsPool, ["tracking"])
  }

  function ShipmentsShip(p: Pool): Pool
    requires p.kind == ShipmentsPool
  {
    Derive(p, ShipmentsShipPool, ["ship"])
  }

  // ---- OffersPool and OffersImportsPool

  function OffersImports(p: Pool): Pool
    requires p.kind == OffersPool
  {
    Derive(p, OffersImportsPool, ["imports"])
  }

  function OffersExport(p: Pool): Pool
    requires p.kind == OffersPool
  {
    Derive(p, OffersExportPool, ["export"])
  }

  function OffersStates(p: Pool): Pool
    requires p.kind == OffersPool
  {
    Derive(p, OffersStatesPool, ["states"])
  }

  function OffersImportsErrorReport(p: Pool, importId: string): Pool
    requires p.kind == OffersImportsPool
  {
    Derive(p, OffersImportsErrorReportPool, [importId, "error_report"])
  }

  // ---- OrdersPool: properties

  function OrdersShippingFrom(p: Pool): Pool
    requires p.kind == OrdersPool
  {
    Derive(p, OrdersShippingFromPool, ["shipping_from"])
  }

  function OrdersRefund(p: Pool): Pool
    requires p.kind == OrdersPool
  {
    Derive(p, OrdersRefundPool, ["refund"])
  }

  /** The segment is 'cancel', not 'cancel_lines'. */
  function OrdersCancelLines(p: Pool): Pool
    requires p.kind == OrdersPool
  {
    Derive(p, OrdersCancelPool, ["cancel"])
  }

  function OrdersAdjust(p: Pool): Pool
    requires p.kind == OrdersPool
  {
    Derive(p, OrdersAdjustPool, ["adjust"])
  }

  function OrdersDocuments(p: Pool): Pool
    requires p.kind == OrdersPool
  {
    Derive(p, OrdersDocumentsPool, ["documents"])
  }

  function OrdersTaxes(p: Pool): Pool
    requires p.kind == OrdersPool
  {
    Derive(p, OrdersTaxesPool, ["taxes"])
  }

  // ---- OrdersPool: accessors taking an order id

  function OrdersAccept(p: Pool, orderId: string): Pool
    requires p.kind == OrdersPool
  {
    Derive(p, OrdersAcceptPool, [orderId, "accept"])
  }

  function OrdersTracking(p: Pool, orderId: string): Pool
    requires p.kind == OrdersPool
  {
    Derive(p, OrdersTrackingPool, [orderId, "tracking"])
  }

  function OrdersShip(p: Pool, orderId: string): Pool
    requires p.kind == OrdersPool
  {
    Derive(p, OrdersShipPool, [orderId, "ship"])
  }

  function OrdersCancel(p: Pool, orderId: string): Pool
    requires p.kind == OrdersPool
  {
    Derive(p, OrdersCancelPool, [orderId, "cancel"])
  }

  function OrdersAdditionalFields(p: Pool, orderId: string): Pool
    requires p.kind == OrdersPool
  {
    Derive(p, OrdersAdditionalFieldsPool, [orderId, "additional_fields"])
  }

  function OrdersEvaluation(p: Pool, orderId: string): Pool
    requires p.kind == OrdersPool
  {
    Derive(p, OrdersEvaluationPool, [orderId, "evaluation"])
  }

  function OrdersLines(p: Pool, orderId: string): Pool
    requires p.kind == OrdersPool
  {
    Derive(p, OrdersLinesPool, [orderId, "lines"])
  }

  /** The segment is 'documents', not 'document_upload'. */
  function OrdersDocumentUpload(p: Pool, orderId: string): Pool
    requires p.kind == OrdersPool
  {
    Derive(p, OrdersDocumentsUploadPool, [orderId, "documents"])
  }

  function OrdersThreads(p: Pool, orderId: string): Pool
    requires p.kind == OrdersPool
  {
    Derive(p, OrdersThreadsPool, [orderId, "threads"])
  }

  // ---- OrdersLinesPool and OrdersDocumentsPool

  function OrdersLinesResolveIncident(p: Pool, lineId: string): Pool
    requires p.kind == OrdersLinesPool
  {
    Derive(p, OrdersLinesResolveIncidentPool, [lineId, "resolve_incident"])
  }

  function OrdersDocumentsDownload(p: Pool): Pool
    requires p.kind == OrdersDocumentsPool
  {
    Derive(p, OrdersDocumentsDownloadPool, ["download"])
  }

  // ---- SettingsPool

  function SettingsAdditionalFields(p: Pool): Pool
    requires p.kind == SettingsPool
  {
    Derive(p, SettingsAdditionalFieldsPool, ["additional_fields"])
  }

  function SettingsChannels(p: Pool): Pool
    requires p.kind == SettingsPool
  {
    Derive(p, SettingsChannelsPool, ["channels"])
  }

  function SettingsDocuments(p: Pool): Pool
    requires p.kind == SettingsPool
  {
    Derive(p, SettingsDocumentsPool, ["documents"])
  }

  function SettingsLocales(p: Pool): Pool
    requires p.kind == SettingsPool
  {
    Derive(p, SettingsLocalesPool, ["locales"])
  }

  function SettingsReasons(p: Pool): Pool
    requires p.kind == SettingsPool
  {
    Derive(p, SettingsReasonsPool, ["reasons"])
  }

  function SettingsVersion(p: Pool): Pool
    requires p.kind == SettingsPool
  {
    Derive(p, SettingsVersionPool, ["version"])
  }

  function SettingsHierarchies(p: Pool): Pool
    requires p.kind == SettingsPool
  {
    Derive(p, SettingsHierarchiesPool, ["hierarchies"])
  }

  function SettingsValuesLists(p: Pool): Pool
    requires p.kind == SettingsPool
  {
    Derive(p, SettingsValuesListsPool, ["values_lists"])
  }

  // ---- ShippingPool

  function ShippingZones(p: Pool): Pool
    requires p.kind == ShippingPool
  {
    Derive(p, ShippingZonesPool, ["zones"])
  }

  function ShippingTypes(p: Pool): Pool
    requires p.kind == ShippingPool
  {
    Derive(p, ShippingTypesPool, ["types"])
  }

  function ShippingCarriers(p: Pool): Pool
    requires p.kind == ShippingPool
  {
    Derive(p, ShippingCarriersPool, ["carriers"])
  }

  function ShippingLogisticClasses(p: Pool): Pool
    requires p.kind == ShippingPool
  {
    Derive(p, ShippingLogisticClassesPool, ["logistic_classes"])
  }

  // ---- ProductsPool and ProductsImportsPool

  function ProductsImports(p: Pool): Pool
    requires p.kind == ProductsPool
  {
    Derive(p, ProductsImportsPool, ["imports"])
  }

  function ProductsAttributes(p: Pool): Pool
    requires p.kind == ProductsPool
  {
    Derive(p, ProductsAttributesPool, ["attributes"])
  }

  function ProductsOffers(p: Pool): Pool
    requires p.kind == ProductsPool
  {
    Derive(p, ProductsOffersPool, ["offers"])
  }

  function ProductsImportsErrorReport(p: Pool, importId: string): Pool
    requires p.kind == ProductsImportsPool
  {
    Derive(p, ProductsImportsErrorReportPool, [importId, "error_report"])
  }

  function ProductsImportsNewProductReport(p: Pool, importId: string): Pool
    requires p.kind == ProductsImportsPool
  {
    Derive(p, ProductsImportsNewProductReportPool, [importId, "new_product_report"])
  }

  function ProductsImportsTransformedFile(p: Pool, importId: string): Pool
    requires p.kind == ProductsImportsPool
  {
    Derive(p, ProductsImportsTransformedFilePool, [importId, "transformed_file"])
  }

  function ProductsImportsTransformationErrorReport(p: Pool, importId: string): Pool
    requires p.kind == ProductsImportsPool
  {
    Derive(p, ProductsImportsTransformationErrorReportPool, [importId, "transformation_error_report"])
  }

  // ---- ShopsPool and ShopsDocumentsPool

  function ShopsDocuments(p: Pool): Pool
    requires p.kind == ShopsPool
  {
    Derive(p, ShopsDocumentsPool, ["documents"])
  }

  function ShopsDocumentsDownload(p: Pool): Pool
    requires p.kind == ShopsDocumentsPool
  {
    Derive(p, ShopsDocumentsDownloadPool, ["download"])
  }

  // ---- Attribute lookup: `pool.name` for a property, `pool.name(arg)` for a method

  datatype Step = Attr(name: string) | Call(name: string, arg: string)

  /**
   * How many accessor steps can still follow from a pool of this kind;
   * ShipmentsPool, whose `tracking` returns a ShipmentsPool again, is the
   * one kind this does not bound.
   */
  function Height(kind: PoolKind): nat
  {
    match kind
    case ThreadsPool => 1
    case ShipmentsPool => 1
    case OffersPool => 2
    case OffersImportsPool => 1
    case OrdersPool => 2
    case OrdersLinesPool => 1
    case OrdersDocumentsPool => 1
    case SettingsPool => 1
    case ShippingPool => 1
    case ProductsPool => 2
    case ProductsImportsPool => 1
    case ShopsPool => 2
    case ShopsDocumentsPool => 1
    case _ => 0
  }

  /**
   * What a well-formed accessor result is: bound to the parent's session, an
   * extension of the parent's endpoint, never the ShipmentsTrackingPool class,
   * and (outside ShipmentsPool) of a kind with a smaller Height.
   */
  ghost predicate ChildOf(r: Option<Pool>, p: Pool)
  {
    r.Some? ==>
      && r.value.session == p.session
      && |r.value.endpoint| > |p.endpoint|
      && r.value.endpoint[..|p.endpoint|] == p.endpoint
      && r.value.kind != ShipmentsTrackingPool
      && (p.kind != ShipmentsPool ==> r.value.kind != ShipmentsPool && Height(r.value.kind) < Height(p.kind))
  }

  /** The accessors the ThreadsPool class defines. */
  function ThreadsAccessors(p: Pool, s: Step): (r: Option<Pool>)
    requires p.kind == ThreadsPool
    ensures ChildOf(r, p)
  {
    match s
    case Call("message", id) => Some(ThreadsMessage(p, id))
    case Call("attachment", id) => Some(ThreadsAttachment(p, id))
    case _ => None
  }

  /** The accessors the ShipmentsPool class defines. */
  function ShipmentsAccessors(p: Pool, s: Step): (r: Option<Pool>)
    requires p.kind == ShipmentsPool
    ensures ChildOf(r, p)
  {
    match s
    case Attr("tracking") => Some(ShipmentsTracking(p))
    case Attr("ship") => Some(ShipmentsShip(p))
    case _ => None
  }

  /** The accessors the OffersPool class defines. */
  function OffersAccessors(p: Pool, s: Step): (r: Option<Pool>)
    requires p.kind == OffersPool
    ensures ChildOf(r, p)
  {
    match s
    case Attr("imports") => Some(OffersImports(p))
    case Attr("export") => Some(OffersExport(p))
    case Attr("states") => Some(OffersStates(p))
    case _ => None
  }

  /** The accessors the OffersImportsPool class defines. */
  function OffersImportsAccessors(p: Pool, s: Step): (r: Option<Pool>)
    requires p.kind == OffersImportsPool
    ensures ChildOf(r, p)
  {
    match s
    case Call("error_report", id) => Some(OffersImportsErrorReport(p, id))
    case _ => None
  }

  /** The accessors the OrdersPool class defines. */
  function OrdersAccessors(p: Pool, s: Step): (r: Option<Pool>)
    requires p.kind == OrdersPool
    ensures ChildOf(r, p)
  {
    match s
    case Attr("shipping_from") => Some(OrdersShippingFrom(p))
    case Attr("refund") => Some(OrdersRefund(p))
    case Attr("cancel_lines") => Some(OrdersCancelLines(p))
    case Attr("adjust") => Some(OrdersAdjust(p))
    case Attr("documents") => Some(OrdersDocuments(p))
    case Attr("taxes") => Some(OrdersTaxes(p))
    case Call("accept", id) => Some(OrdersAccept(p, id))
    case Call("tracking", id) => Some(OrdersTracking(p, id))
    case Call("ship", id) => Some(OrdersShip(p, id))
    case Call("cancel", id) => Some(OrdersCancel(p, id))
    case Call("additional_fields", id) => Some(OrdersAdditionalFields(p, id))
    case Call("evaluation", id) => Some(OrdersEvaluation(p, id))
    case Call("lines", id) => Some(OrdersLines(p, id))
    case Call("document_upload", id) => Some(OrdersDocumentUpload(p, id))
    case Call("threads", id) => Some(OrdersThreads(p, id))
    case _ => None
  }

  /** The accessors the OrdersLinesPool class defines. */
  function OrdersLinesAccessors(p: Pool, s: Step): (r: Option<Pool>)
    requires p.kind == OrdersLinesPool
    ensures ChildOf(r, p)
  {
    match s
    case Call("resolve_incident", id) => Some(OrdersLinesResolveIncident(p, id))
    case _ => None
  }

  /** The accessors the OrdersDocumentsPool class defines. */
  function OrdersDocumentsAccessors(p: Pool, s: Step): (r: Option<Pool>)
    requires p.kind == OrdersDocumentsPool
    ensures ChildOf(r, p)
  {
    match s
    case Attr("download") => Some(OrdersDocumentsDownload(p))
    case _ => None
  }

  /** The accessors the SettingsPool class defines. */
  function SettingsAccessors(p: Pool, s: Step): (r: Option<Pool>)
    requires p.kind == SettingsPool
    ensures ChildOf(r, p)
  {
    match s
    case Attr("additional_fields") => Some(SettingsAdditionalFields(p))
    case Attr("channels") => Some(SettingsChannels(p))
    case Attr("documents") => Some(SettingsDocuments(p))
    case Attr("locales") => Some(SettingsLocales(p))
    case Attr("reasons") => Some(SettingsReasons(p))
    case Attr("version") => Some(SettingsVersion(p))
    case Attr("hierarchies") => Some(SettingsHierarchies(p))
    case Attr("values_lists") => Some(SettingsValuesLists(p))
    case _ => None
  }

  /** The accessors the ShippingPool class defines. */
  function ShippingAccessors(p: Pool, s: Step): (r: Option<Pool>)
    requires p.kind == ShippingPool
    ensures ChildOf(r, p)
  {
    match s
    case Attr("zones") => Some(ShippingZones(p))
    case Attr("types") => Some(ShippingTypes(p))
    case Attr("carriers") => Some(ShippingCarriers(p))
    case Attr("logistic_classes") => Some(ShippingLogisticClasses(p))
    case _ => None
  }

  /** The accessors the ProductsPool class defines. */
  function ProductsAccessors(p: Pool, s: Step): (r: Option<Pool>)
    requires p.kind == ProductsPool
    ensures ChildOf(r, p)
  {
    match s
    case Attr("imports") => Some(ProductsImports(p))
    case Attr("attributes") => Some(ProductsAttributes(p))
    case Attr("offers") => Some(ProductsOffers(p))
    case _ => None
  }

  /** The accessors the ProductsImportsPool class defines. */
  function ProductsImportsAccessors(p: Pool, s: Step): (r: Option<Pool>)
    requires p.kind == ProductsImportsPool
    ensures ChildOf(r, p)
  {
    match s
    case Call("error_report", id) => Some(ProductsImportsErrorReport(p, id))
    case Call("new_product_report", id) => Some(ProductsImportsNewProductReport(p, id))
    case Call("transformed_file", id) => Some(ProductsImportsTransformedFile(p, id))
    case Call("transformation_error_report", id) => Some(ProductsImportsTransformationErrorReport(p, id))
    case _ => None
  }

  /** The accessors the ShopsPool class defines. */
  function ShopsAccessors(p: Pool, s: Step): (r: Option<Pool>)
    requires p.kind == ShopsPool
    ensures ChildOf(r, p)
  {
    match s
    case Attr("documents") => Some(ShopsDocuments(p))
    case _ => None
  }

  /** The accessors the ShopsDocumentsPool class defines. */
  function ShopsDocumentsAccessors(p: Pool, s: Step): (r: Option<Pool>)
    requires p.kind == ShopsDocumentsPool
    ensures ChildOf(r, p)
  {
    match s
    case Attr("download") => Some(ShopsDocumentsDownload(p))
    case _ => None
  }

  /**
   * The child pool that `getattr` finds on a pool, or None when the pool's
   * class has no such accessor (or it is a property called with an id, or a
   * method read without one).
   */
  function Access(p: Pool, s: Step): (r: Option<Pool>)
    ensures r.Some? ==> r.value.session == p.session
    ensures r.Some? ==> |r.value.endpoint| > |p.endpoint| && r.value.endpoint[..|p.endpoint|] == p.endpoint
    ensures r.Some? ==> r.value.kind != ShipmentsTrackingPool
    ensures r.Some? && p.kind != ShipmentsPool ==> r.value.kind != ShipmentsPool && Height(r.value.kind) < Height(p.kind)
  {
    match p.kind
    case ThreadsPool => ThreadsAccessors(p, s)
    case ShipmentsPool => ShipmentsAccessors(p, s)
    case OffersPool => OffersAccessors(p, s)
    case OffersImportsPool => OffersImportsAccessors(p, s)
    case OrdersPool => OrdersAccessors(p, s)
    case OrdersLinesPool => OrdersLinesAccessors(p, s)
    case OrdersDocumentsPool => OrdersDocumentsAccessors(p, s)
    case SettingsPool => SettingsAccessors(p, s)
    case ShippingPool => ShippingAccessors(p, s)
    case ProductsPool => ProductsAccessors(p, s)
    case ProductsImportsPool => ProductsImportsAccessors(p, s)
    case ShopsPool => ShopsAccessors(p, s)
    case ShopsDocumentsPool => ShopsDocumentsAccessors(p, s)
    case _ => None
  }

  /** A chain of accessors, as in `client.orders.documents.download`. */
  function Walk(p: Pool, steps: seq<Step>): Option<Pool>
    decreases |steps|
  {
    if steps == [] then Some(p)
    else match Access(p, steps[0])
      case None => None
      case Some(q) => Walk(q, steps[1..])
  }

  // ---- Lemmas: the accessor tree

  /** Every chain keeps the session and only appends, at least one segment per step. */
  lemma {:induction false} WalkExtends(p: Pool, steps: seq<Step>, q: Pool)
    requires Walk(p, steps) == Some(q)
    ensures q.session == p.session
    ensures |q.endpoint| >= |p.endpoint| + |steps|
    ensures q.endpoint[..|p.endpoint|] == p.endpoint
    decreases |steps|
  {
    if steps != [] {
      var mid := Access(p, steps[0]).value;
      WalkExtends(mid, steps[1..], q);
      assert q.endpoint[..|mid.endpoint|][..|p.endpoint|] == q.endpoint[..|p.endpoint|];
    }
  }

  /** No non-empty chain leads back to its own endpoint: the tree has no cycles. */
  lemma WalkNeverRevisits(p: Pool, steps: seq<Step>, q: Pool)
    requires steps != [] && Walk(p, steps) == Some(q)
    ensures q.endpoint != p.endpoint
  {
    WalkExtends(p, steps, q);
  }

  /** Outside ShipmentsPool every chain is at most Height steps long, and Height is at most 2. */
  lemma {:induction false} WalkDepth(p: Pool, steps: seq<Step>, q: Pool)
    requires p.kind != ShipmentsPool && Walk(p, steps) == Some(q)
    ensures |steps| <= Height(p.kind) <= 2
    decreases |steps|
  {
    if steps != [] {
      WalkDepth(Access(p, steps[0]).value, steps[1..], q);
    }
  }

  function Repeat<T>(x: T, n: nat): (r: seq<T>)
    ensures |r| == n && forall i :: 0 <= i < n ==> r[i] == x
  {
    if n == 0 then [] else [x] + Repeat(x, n - 1)
  }

  /** Since `ShipmentsPool.tracking` is a ShipmentsPool, `tracking` chains without end. */
  lemma {:induction false} TrackingChains(p: Pool, n: nat)
    requires p.kind == ShipmentsPool
    ensures Walk(p, Repeat(Attr("tracking"), n)) == Some(Pool(ShipmentsPool, p.endpoint + Repeat("tracking", n), p.session))
    decreases n
  {
    if n > 0 {
      var steps := Repeat(Attr("tracking"), n);
      var q := ShipmentsTracking(p);
      assert steps[0] == Attr("tracking");
      assert Access(p, steps[0]) == Some(q);
      assert steps[1..] == Repeat(Attr("tracking"), n - 1);
      assert Walk(p, steps) == Walk(q, steps[1..]);
      TrackingChains(q, n - 1);
      assert q.endpoint + Repeat("tracking", n - 1) == p.endpoint + Repeat("tracking", n);
    } else {
      assert p.endpoint + Repeat("tracking", 0) == p.endpoint;
    }
  }

  /** The ShipmentsTrackingPool class is never reached: no chain yields a create-able tracking pool. */
  lemma {:induction false} TrackingPoolUnreachable(p: Pool, steps: seq<Step>, q: Pool)
    requires p.kind != ShipmentsTrackingPool && Walk(p, steps) == Some(q)
    ensures q.kind != ShipmentsTrackingPool
    decreases |steps|
  {
    if steps != [] {
      TrackingPoolUnreachable(Access(p, steps[0]).value, steps[1..], q);
    }
  }

  // ---- Lemmas: the path shape and class of every accessor

  /**
   * Looking up `s` on `p` gives a pool of class `kind` on `p`'s session whose
   * endpoint, and so whose `get_url()`, is `p.get_url()` joined with `segments`.
   */
  ghost predicate Yields(p: Pool, s: Step, kind: PoolKind, segments: seq<string>)
  {
    Access(p, s) == Some(Pool(kind, GetUrl(p) + segments, p.session))
  }

  /** `message` and `attachment` put the id first; `attachment`'s segment is 'download'. */
  lemma ThreadsPaths(p: Pool, threadId: string)
    requires p.kind == ThreadsPool
    ensures Yields(p, Call("message", threadId), ThreadsMessagePool, [threadId, "message"])
    ensures Yields(p, Call("attachment", threadId), ThreadsAttachmentPool, [threadId, "download"])
  {
  }

  /** `tracking` is a ShipmentsPool again: get and list, no create. */
  lemma ShipmentsPaths(p: Pool)
    requires p.kind == ShipmentsPool
    ensures Yields(p, Attr("tracking"), ShipmentsPool, ["tracking"])
    ensures Yields(p, Attr("ship"), ShipmentsShipPool, ["ship"])
    ensures Creatable !in Caps(ShipmentsPool)
  {
  }

  /** The three offer properties, and `error_report` with the import id before its segment. */
  lemma OffersPaths(p: Pool, i: Pool, importId: string)
    requires p.kind == OffersPool && i.kind == OffersImportsPool
    ensures Yields(p, Attr("imports"), OffersImportsPool, ["imports"])
    ensures Yields(p, Attr("export"), OffersExportPool, ["export"])
    ensures Yields(p, Attr("states"), OffersStatesPool, ["states"])
    ensures Yields(i, Call("error_report", importId), OffersImportsErrorReportPool, [importId, "error_report"])
  {
  }

  /** The property accessors of OrdersPool; `cancel_lines` uses the segment 'cancel'. */
  lemma OrdersPropertyPaths(p: Pool)
    requires p.kind == OrdersPool
    ensures Yields(p, Attr("shipping_from"), OrdersShippingFromPool, ["shipping_from"])
    ensures Yields(p, Attr("refund"), OrdersRefundPool, ["refund"])
    ensures Yields(p, Attr("cancel_lines"), OrdersCancelPool, ["cancel"])
    ensures Yields(p, Attr("adjust"), OrdersAdjustPool, ["adjust"])
    ensures Yields(p, Attr("documents"), OrdersDocumentsPool, ["documents"])
    ensures Yields(p, Attr("taxes"), OrdersTaxesPool, ["taxes"])
  {
  }

  /** The order-id accessors: id first, then the literal; `document_upload` uses 'documents'. */
  lemma OrdersIdPaths(p: Pool, orderId: string)
    requires p.kind == OrdersPool
    ensures Yields(p, Call("accept", orderId), OrdersAcceptPool, [orderId, "accept"])
    ensures Yields(p, Call("tracking", orderId), OrdersTrackingPool, [orderId, "tracking"])
    ensures Yields(p, Call("ship", orderId), OrdersShipPool, [orderId, "ship"])
    ensures Yields(p, Call("cancel", orderId), OrdersCancelPool, [orderId, "cancel"])
    ensures Yields(p, Call("additional_fields", orderId), OrdersAdditionalFieldsPool, [orderId, "additional_fields"])
    ensures Yields(p, Call("evaluation", orderId), OrdersEvaluationPool, [orderId, "evaluation"])
    ensures Yields(p, Call("lines", orderId), OrdersLinesPool, [orderId, "lines"])
    ensures Yields(p, Call("document_upload", orderId), OrdersDocumentsUploadPool, [orderId, "documents"])
    ensures Yields(p, Call("threads", orderId), OrdersThreadsPool, [orderId, "threads"])
  {
  }

  /** The accessors of the order-lines and order-documents pools. */
  lemma OrdersSubPaths(lines: Pool, docs: Pool, lineId: string)
    requires lines.kind == OrdersLinesPool && docs.kind == OrdersDocumentsPool
    ensures Yields(lines, Call("resolve_incident", lineId), OrdersLinesResolveIncidentPool, [lineId, "resolve_incident"])
    ensures Yields(docs, Attr("download"), OrdersDocumentsDownloadPool, ["download"])
  {
  }

  /** The eight settings properties, each its own name as the segment. */
  lemma SettingsPaths(p: Pool)
    requires p.kind == SettingsPool
    ensures Yields(p, Attr("additional_fields"), SettingsAdditionalFieldsPool, ["additional_fields"])
    ensures Yields(p, Attr("channels"), SettingsChannelsPool, ["channels"])
    ensures Yields(p, Attr("documents"), SettingsDocumentsPool, ["documents"])
    ensures Yields(p, Attr("locales"), SettingsLocalesPool, ["locales"])
    ensures Yields(p, Attr("reasons"), SettingsReasonsPool, ["reasons"])
    ensures Yields(p, Attr("version"), SettingsVersionPool, ["version"])
    ensures Yields(p, Attr("hierarchies"), SettingsHierarchiesPool, ["hierarchies"])
    ensures Yields(p, Attr("values_lists"), SettingsValuesListsPool, ["values_lists"])
  {
  }

  /** The four shipping properties. */
  lemma ShippingPaths(p: Pool)
    requires p.kind == ShippingPool
    ensures Yields(p, Attr("zones"), ShippingZonesPool, ["zones"])
    ensures Yields(p, Attr("types"), ShippingTypesPool, ["types"])
    ensures Yields(p, Attr("carriers"), ShippingCarriersPool, ["carriers"])
    ensures Yields(p, Attr("logistic_classes"), ShippingLogisticClassesPool, ["logistic_classes"])
  {
  }

  /** The products properties and the four import-report accessors, id first. */
  lemma ProductsPaths(p: Pool, i: Pool, importId: string)
    requires p.kind == ProductsPool && i.kind == ProductsImportsPool
    ensures Yields(p, Attr("imports"), ProductsImportsPool, ["imports"])
    ensures Yields(p, Attr("attributes"), ProductsAttributesPool, ["attributes"])
    ensures Yields(p, Attr("offers"), ProductsOffersPool, ["offers"])
    ensures Yields(i, Call("error_report", importId), ProductsImportsErrorReportPool, [importId, "error_report"])
    ensures Yields(i, Call("new_product_report", importId), ProductsImportsNewProductReportPool, [importId, "new_product_report"])
    ensures Yields(i, Call("transformed_file", importId), ProductsImportsTransformedFilePool, [importId, "transformed_file"])
    ensures Yields(i, Call("transformation_error_report", importId), ProductsImportsTransformationErrorReportPool, [importId, "transformation_error_report"])
  {
  }

  /** shops/documents and shops/documents/download, with no id. */
  lemma ShopsPaths(p: Pool, docs: Pool)
    requires p.kind == ShopsPool && docs.kind == ShopsDocumentsPool
    ensures Yields(p, Attr("documents"), ShopsDocumentsPool, ["documents"])
    ensures Yields(docs, Attr("download"), ShopsDocumentsDownloadPool, ["download"])
  {
  }

  // ---- Lemmas: the capabilities of the pools each class hands out

  lemma ThreadsChildCapabilities()
    ensures Caps(ThreadsMessagePool) == {Creatable}
    ensures Caps(ThreadsAttachmentPool) == {Gettable}
  {
  }

  lemma ShipmentsChildCapabilities()
    ensures Caps(ShipmentsPool) == {Gettable, Listable}
    ensures Caps(ShipmentsShipPool) == {Updatable}
  {
  }

  lemma OffersChildCapabilities()
    ensures Caps(OffersImportsPool) == {Creatable, Gettable, Listable}
    ensures Caps(OffersExportPool) == {Listable}
    ensures Caps(OffersStatesPool) == {Listable}
    ensures Caps(OffersImportsErrorReportPool) == {Listable}
  {
  }

  lemma OrdersPropertyChildCapabilities()
    ensures Caps(OrdersShippingFromPool) == {Updatable}
    ensures Caps(OrdersRefundPool) == {Updatable}
    ensures Caps(OrdersCancelPool) == {Updatable}
    ensures Caps(OrdersAdjustPool) == {Updatable}
    ensures Caps(OrdersDocumentsPool) == {Listable, Deletable}
    ensures Caps(OrdersTaxesPool) == {Listable}
  {
  }

  lemma OrdersIdChildCapabilities()
    ensures Caps(OrdersAcceptPool) == {Updatable}
    ensures Caps(OrdersTrackingPool) == {Updatable}
    ensures Caps(OrdersShipPool) == {Updatable}
    ensures Caps(OrdersAdditionalFieldsPool) == {Updatable}
    ensures Caps(OrdersEvaluationPool) == {Listable}
    ensures Caps(OrdersLinesPool) == {Gettable}
    ensures Caps(OrdersDocumentsUploadPool) == {Creatable}
    ensures Caps(OrdersThreadsPool) == {Creatable}
  {
  }

  lemma OrdersSubChildCapabilities()
    ensures Caps(OrdersLinesResolveIncidentPool) == {Updatable}
    ensures Caps(OrdersDocumentsDownloadPool) == {Listable}
  {
  }

  lemma SettingsChildCapabilities()
    ensures Caps(SettingsReasonsPool) == {Gettable}
    ensures Caps(SettingsAdditionalFieldsPool) == {Listable}
    ensures Caps(SettingsChannelsPool) == {Listable}
    ensures Caps(SettingsDocumentsPool) == {Listable}
    ensures Caps(SettingsLocalesPool) == {Listable}
    ensures Caps(SettingsVersionPool) == {Listable}
    ensures Caps(SettingsHierarchiesPool) == {Listable}
    ensures Caps(SettingsValuesListsPool) == {Listable}
  {
  }

  lemma ShippingChildCapabilities()
    ensures Caps(ShippingZonesPool) == {Listable}
    ensures Caps(ShippingTypesPool) == {Listable}
    ensures Caps(ShippingCarriersPool) == {Listable}
    ensures Caps(ShippingLogisticClassesPool) == {Listable}
  {
  }

  lemma ProductsChildCapabilities()
    ensures Caps(ProductsImportsPool) == {Creatable, Gettable, Listable}
    ensures Caps(ProductsAttributesPool) == {Listable}
    ensures Caps(ProductsOffersPool) == {Listable}
    ensures Caps(ProductsImportsErrorReportPool) == {Listable}
    ensures Caps(ProductsImportsNewProductReportPool) == {Listable}
    ensures Caps(ProductsImportsTransformedFilePool) == {Listable}
    ensures Caps(ProductsImportsTransformationErrorReportPool) == {Listable}
  {
  }

  lemma ShopsChildCapabilities()
    ensures Caps(ShopsDocumentsPool) == {Listable, Creatable, Deletable}
    ensures Caps(ShopsDocumentsDownloadPool) == {Listable}
  {
  }

  /** The capability sets the source singles out. */
  lemma NotableCapabilitySets()
    ensures Caps(OrdersPool) == {Listable, Updatable}
    ensures Gettable !in Caps(OrdersPool)
    ensures Caps(SettingsPool) == {}
    ensures Caps(ShippingPool) == {}
    ensures Caps(ShopsPool) == {}
    ensures Caps(InvoicesPool) == {Gettable, Listable}
    ensures Caps(ThreadsPool) == {Gettable, Listable}
    ensures Caps(TransactionsLogsPool) == {Listable}
    ensures Caps(PromotionsPool) == {Listable}
    ensures Caps(AccountPool) == {Listable}
    ensures Caps(ProductsPool) == {Listable}
    ensures Caps(OffersPool) == {Creatable, Gettable, Listable}
  {
  }
}
