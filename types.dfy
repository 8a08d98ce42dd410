/** The records the modelled code works on. Fields no modelled operation reads are not represented. */
module Types {
  import opened Wrappers

  /** One flight of a package; it has no identity and is compared by its structure. */
  datatype FlightSegment = FlightSegment(
    airline: string,
    departureDate: string,
    returnDate: string,
    duration: Option<string>,
    details: Option<string>)

  datatype OpsStatus = PendingValidation | Validated

  datatype OpsPaymentStep = OpsPaymentStep(
    labelText: string,  // `label` in the source (a keyword here)
    amount: int,
    dueDate: Option<string>,
    paid: Option<bool>)

  datatype Supplier = Supplier(
    name: string,
    contact: Option<string>,
    cost: Option<int>,
    deadline: Option<string>)

  datatype TimelineKind = Info | Deadline | Risk | Done

  datatype OpsTimelineItem = OpsTimelineItem(
    title: string,
    date: Option<string>,
    note: Option<string>,
    kind: Option<TimelineKind>)

  /** An ops group (a departure): the operational record derived from one flight. */
  datatype OpsGroup = OpsGroup(
    id: string,
    flightLabel: string,
    airline: Option<string>,
    departureDate: Option<string>,
    returnDate: Option<string>,
    status: OpsStatus,
    validationDate: Option<string>,
    suppliers: seq<Supplier>,
    costs: seq<OpsPaymentStep>,
    timeline: seq<OpsTimelineItem>)

  datatype OpsProject = OpsProject(id: string, packageId: string, groups: seq<OpsGroup>)

  datatype PackageStatus = Draft | Published

  datatype PackageGeneralInfo = PackageGeneralInfo(
    productName: string,
    productCode: string,
    responsible: string,
    creationDate: string,
    imageUrl: Option<string>,
    stock: int)

  datatype PackageFlights = PackageFlights(
    destination: string,
    cities: seq<string>,
    flights: seq<FlightSegment>,
    visaStatus: Option<string>,
    transferStatus: Option<string>)

  datatype PricingItem = PricingItem(
    labelText: string,  // `label` in the source (a keyword here)
    subLabel: Option<string>,
    unitPrice: int,
    commission: Option<int>)

  /** Adult commission per group-size tier, and flat child and infant commissions. */
  datatype AgencyCommissions = AgencyCommissions(adultT1: int, adultT2: int, adultT3: int, enfant: int, bebe: int)

  datatype ItineraryDay = ItineraryDay(dayNumber: int, description: string)

  datatype Itinerary = Itinerary(active: bool, days: seq<ItineraryDay>)

  datatype TravelPackage = TravelPackage(
    id: string,
    status: PackageStatus,
    general: PackageGeneralInfo,
    flights: PackageFlights,
    pricing: seq<PricingItem>,
    agencyCommissions: AgencyCommissions,
    itinerary: Itinerary,
    opsProject: Option<OpsProject>)

  datatype UserRole = Administrator | TravelDesigner | SalesAgent | Viewer

  datatype User = User(id: string, username: string, password: string, role: UserRole, fullName: Option<string>)

  datatype BookingType = EnOption | Confirmee

  datatype PaxType = ADL | CHD | INF

  datatype RoomOccupant = RoomOccupant(paxType: PaxType, name: Option<string>)

  datatype BookingRoom = BookingRoom(roomType: string, occupants: seq<RoomOccupant>)

  datatype BookingPayment = BookingPayment(paymentMethod: string, totalPrice: int, paidAmount: int, isFullyPaid: bool)

  datatype Booking = Booking(
    id: string,
    packageId: string,
    bookingType: BookingType,
    reservedUntil: Option<string>,
    rooms: seq<BookingRoom>,
    paxTotal: int,
    payment: BookingPayment,
    createdAt: string,
    departureGroupId: Option<string>)
}
