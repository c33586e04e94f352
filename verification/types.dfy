/**
 * The records the barbershop keeps: catalog items (services and products),
 * subscription packages and their subscribers, barbers with their commission
 * table, client accounts with loyalty points, waitlist entries, notifications,
 * schedule blocks and appointments.
 *
 * Optional fields (`field?: T`) are `Option`s. Money is `real`. Timestamps
 * (`createdAt`) are the instant they denote, in milliseconds; the application
 * only ever writes them with `toISOString()`, so they always denote one.
 * String unions are datatypes, so a status is always exactly one of its
 * declared values.
 */
module Types {
  import opened Wrappers
  import Clock
  import Seqs
  import Records

  /** `'service' | 'product'`. */
  datatype ItemType = ServiceItem | ProductItem

  /** A catalog item: a service, or a product sold at the counter. */
  datatype Service = Service(
    id: string,
    name: string,
    price: real,
    durationMinutes: int,
    description: Option<string>,
    itemType: ItemType,
    commissionRate: Option<real>,
    imageUrl: Option<string>,
    costPrice: Option<real>,
    stock: Option<int>)
  {
    /** Products take no chair time. */
    predicate WellFormed() {
      itemType == ProductItem ==> durationMinutes == 0
    }
  }

  datatype Package = Package(
    id: string,
    name: string,
    description: string,
    price: real,
    monthlyLimit: int,
    serviceIds: seq<string>)

  datatype SubscriberStatus = Active | Expiring | Overdue | Inactive | Pending

  datatype Subscriber = Subscriber(
    id: string,
    name: string,
    phone: string,
    packageId: string,
    barberId: string,
    startDate: string,
    dueDay: int,
    status: SubscriberStatus,
    lastPaymentAmount: Option<real>,
    lastPaymentDate: Option<string>,
    notes: Option<string>)

  /** A barber's commission percentages: exactly these three categories. */
  datatype CommissionRates = CommissionRates(service: real, product: real, subscription: real)
  {
    /** `commissionRates[type]` for the type of a catalog item. */
    function ForItem(t: ItemType): (rate: real)
      ensures t == ServiceItem ==> rate == service
      ensures t == ProductItem ==> rate == product
    {
      match t
      case ServiceItem => service
      case ProductItem => product
    }
  }

  datatype Barber = Barber(
    id: string,
    name: string,
    description: Option<string>,
    photoUrl: string,
    phone: string,
    commissionRates: Option<CommissionRates>,
    active: bool,
    username: Option<string>,
    password: Option<string>)

  datatype ClientAccount = ClientAccount(
    id: string,
    name: string,
    phone: string,
    password: Option<string>,
    birthDate: Option<string>,
    photoUrl: Option<string>,
    xp: int,
    level: int,
    totalAppointments: int,
    joinedAt: string,
    referralCount: Option<int>)

  /** XP earned per completed service and the XP thresholds of levels 2, 3, ... */
  datatype LevelConfig = LevelConfig(xpPerService: int, levels: seq<int>)

  datatype WaitlistEntry = WaitlistEntry(
    id: string,
    clientName: string,
    clientPhone: string,
    serviceId: string,
    barberId: string,
    date: string,
    createdAt: int)

  datatype NotificationKind = Info | Success | Warning

  datatype Notification = Notification(
    id: string,
    clientId: Option<string>,
    title: string,
    message: string,
    read: bool,
    createdAt: int,
    kind: NotificationKind)

  /** A block applies on one date, or every week on one weekday. */
  datatype BlockKind = Single | Recurring

  /** A block closes the whole day, or a time range. */
  datatype BlockScope = Day | Slot

  /** The barber id of a block that applies to every barber. */
  const AllBarbers: string := "all"

  datatype BlockedTime = BlockedTime(
    id: string,
    barberId: string,
    kind: BlockKind,
    scope: BlockScope,
    date: Option<string>,
    weekDay: Option<int>,
    startTime: Option<string>,
    endTime: Option<string>,
    reason: Option<string>)
  {
    /**
     * The shape the field comments of the record promise: a single block has
     * a date, a recurring one a weekday in 0..6 (Sunday = 0), a slot block an
     * "HH:MM" start and end, and the barber is a specific id or "all".
     */
    predicate WellFormed() {
      && barberId != ""
      && (kind == Single ==> date.Some?)
      && (kind == Recurring ==> weekDay.Some? && 0 <= weekDay.value < 7)
      && (scope == Slot ==>
            && startTime.Some? && Clock.IsHhmm(startTime.value)
            && endTime.Some? && Clock.IsHhmm(endTime.value))
    }
  }

  datatype PaymentMethod = Money | Pix | Card | Other

  datatype AppointmentStatus = Pending | Confirmed | Completed | Cancelled | Blocked

  datatype ClientContact = ClientContact(name: string, phone: string)

  datatype Appointment = Appointment(
    id: string,
    serviceId: string,
    barberId: string,
    date: string,
    time: string,
    client: ClientContact,
    clientId: Option<string>,
    status: AppointmentStatus,
    totalPrice: real,
    finalPrice: Option<real>,
    discount: Option<real>,
    tip: Option<real>,
    paymentMethod: Option<PaymentMethod>,
    notes: Option<string>,
    createdAt: int)
  {
    /** What the appointment is worth: `finalPrice ?? totalPrice`. */
    function Value(): real {
      finalPrice.GetOr(totalPrice)
    }
  }

  /** JavaScript truthiness of an optional string: present and not empty. */
  predicate Truthy(s: Option<string>) {
    s.Some? && s.value != ""
  }

  function ServiceId(s: Service): string { s.id }

  function PackageId(p: Package): string { p.id }

  function SubscriberId(s: Subscriber): string { s.id }

  function BarberId(b: Barber): string { b.id }

  /** `items.find(s => s.id === id)`. */
  function FindService(services: seq<Service>, id: string): (r: Option<Service>)
    ensures r.Some? ==> r.value in services && r.value.id == id
    ensures r.None? <==> forall s :: s in services ==> s.id != id
  {
    Records.Lookup(services, ServiceId, id)
  }
}
