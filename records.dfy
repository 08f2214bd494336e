/** The rows the pages fetch from the backing store, field for field as the
    service layer declares them.  A nullable column is an `Option`.  The
    declared interface makes `container_name`, `status` and `client`
    non-null, so they are plain strings.  The exports mostly write them as
    they are; the charts, and the list export for `client`, replace an empty
    value with a fallback. */
module Records {
  import opened Common

  /** A row of `container_items`. `need` and `freight_cost` are read by the
      exports and the charts although the declared interface omits them. */
  datatype LineItem = LineItem(
    containerName: string,
    referenceCode: string,
    supplier: Option<string>,
    cbm: Option<real>,
    cartons: Option<int>,
    grossWeight: Option<real>,
    productCost: Option<real>,
    freightCost: Option<real>,
    priceTerms: Option<string>,
    payment: Option<real>,
    remaining: Option<real>,
    status: string,
    need: Option<seq<string>>,
    productionDays: Option<int>,
    productionReady: Option<string>,
    client: string,
    remarks: Option<string>)

  /** A row of `suppliers`. */
  datatype Supplier = Supplier(
    referenceCode: string,
    supplier: string,
    product: Option<string>,
    countryRegion: Option<string>,
    provinceState: Option<string>,
    port: Option<string>,
    contactPerson: Option<string>,
    email: Option<string>,
    contactNumber: Option<string>,
    website: Option<string>,
    active: Option<bool>,
    comments: Option<string>,
    address: Option<string>)

  /** A row of `arrivals`; the three dates are stored as text. */
  datatype Arrival = Arrival(
    containerCode: string,
    departurePort: Option<string>,
    bl: Option<string>,
    reference: Option<string>,
    etd: Option<string>,
    eta: Option<string>,
    piraeus: Option<string>,
    paleros: Option<string>)

  /** A row of `entypo_paralavis`, the pricing sheet. */
  datatype PricingRow = PricingRow(
    rowNumber: Option<int>,
    descriptionOfGoods: Option<string>,
    material: Option<string>,
    color: Option<string>,
    supplierCode: Option<string>,
    qtyMeters: Option<real>,
    rField: Option<string>,
    remarksParalavi: Option<string>,
    remarks: Option<string>,
    pictureItems: Option<string>,
    aromaCode: Option<string>,
    aromaDescription: Option<string>,
    client: Option<string>,
    priceExisting: Option<real>,
    newPrice: Option<real>,
    photography: Option<string>,
    length: Option<real>,
    width: Option<real>,
    height: Option<real>,
    priceUsd: Option<real>,
    shipToForwarder: Option<real>,
    multiplierBase: Option<real>,
    multiplier1: Option<real>,
    multiplier2: Option<real>,
    multiplier3: Option<real>,
    multiplier4: Option<real>,
    priceWithVat: Option<real>,
    existingPriceCalc: Option<real>,
    proposalPrice: Option<real>,
    profitMargin1: Option<real>,
    profitMargin2: Option<real>)
}
