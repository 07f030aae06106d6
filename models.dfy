/** The marketplace entities of models.go and the records the marketplace
    appends for them. Go's named string types become enumerations; times and
    money are integers. */
module Models {
  import opened Records

  datatype ParticipantType = Shipper | Consignee | Carrier | FreightForwarder | CustomsBroker
  datatype ServiceCategory = Import | Export | Transit | Transshipment
  datatype CargoType = GeneralCargo | Perishable | Hazardous | Fragile
  datatype PackagingMode = Container | Loose | Pallet
  datatype TransportationMode = Sea | Air | Land

  function ServiceCategoryName(c: ServiceCategory): string
  {
    match c
    case Import => "Import"
    case Export => "Export"
    case Transit => "Transit"
    case Transshipment => "Transshipment"
  }

  function CargoTypeName(c: CargoType): string
  {
    match c
    case GeneralCargo => "GeneralCargo"
    case Perishable => "Perishable"
    case Hazardous => "Hazardous"
    case Fragile => "Fragile"
  }

  function PackagingModeName(m: PackagingMode): string
  {
    match m
    case Container => "Container"
    case Loose => "Loose"
    case Pallet => "Pallet"
  }

  function TransportationModeName(m: TransportationMode): string
  {
    match m
    case Sea => "Sea"
    case Air => "Air"
    case Land => "Land"
  }

  datatype Participant = Participant(id: string, name: string, kind: ParticipantType)

  datatype FreightQuote = FreightQuote(
    id: string,
    serviceCategory: ServiceCategory,
    cargoType: CargoType,
    packagingMode: PackagingMode,
    origin: string,
    destination: string,
    transportationMode: TransportationMode,
    rate: int,
    validUntil: int)

  datatype FreightBid = FreightBid(
    id: string,
    quoteID: string,
    carrierID: string,
    bidAmount: int,
    bidTime: int,
    isAccepted: bool)

  datatype Booking = Booking(
    id: string,
    quoteID: string,
    bidID: string,
    shipperID: string,
    carrierID: string,
    bookingTime: int,
    status: string)

  const BookingConfirmed := "Confirmed"

  function QuoteRecord(q: FreightQuote): string
  {
    Json([("ID", Str(q.id)), ("ServiceCategory", Str(ServiceCategoryName(q.serviceCategory))),
          ("CargoType", Str(CargoTypeName(q.cargoType))), ("PackagingMode", Str(PackagingModeName(q.packagingMode))),
          ("Origin", Str(q.origin)), ("Destination", Str(q.destination)),
          ("TransportationMode", Str(TransportationModeName(q.transportationMode))),
          ("Rate", IntToDecimal(q.rate)), ("ValidUntil", IntToDecimal(q.validUntil))])
  }

  function BidRecord(b: FreightBid): string
  {
    Json([("ID", Str(b.id)), ("QuoteID", Str(b.quoteID)), ("CarrierID", Str(b.carrierID)),
          ("BidAmount", IntToDecimal(b.bidAmount)), ("BidTime", IntToDecimal(b.bidTime)),
          ("IsAccepted", Bool(b.isAccepted))])
  }

  function BookingRecord(b: Booking): string
  {
    Json([("ID", Str(b.id)), ("QuoteID", Str(b.quoteID)), ("BidID", Str(b.bidID)),
          ("ShipperID", Str(b.shipperID)), ("CarrierID", Str(b.carrierID)),
          ("BookingTime", IntToDecimal(b.bookingTime)), ("Status", Str(b.status))])
  }
}
