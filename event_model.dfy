/**
 * The records of the event-management screens: an event with its embedded
 * venue, tickets (with coupons and purchases) and leads, and the request
 * shapes for creating and updating an event.
 *
 * Timestamps are the number of milliseconds since the epoch that
 * `Date.getTime()` gives for the stored ISO-8601 strings. Plain numbers that
 * the core only copies (prices, discounts, coordinates) are `real`; the
 * counts it adds up (capacity, quantity) are `int`.
 */
module EventModel {
  import opened Wrappers

  type Timestamp = int

  datatype Organizer = Organizer(id: string, businessName: string)

  datatype Venue = Venue(
    id: string,
    email: string,
    venueName: string,
    address1: string,
    city: string,
    state: string,
    country: string,
    postalZip: string,
    latitude: real,
    longitude: real,
    imageGalleryUrls: seq<string>)

  datatype Coupon = Coupon(id: string, code: string, discount: real)

  datatype Purchaser = Purchaser(id: string, firstName: string)

  datatype TicketPurchase = TicketPurchase(
    id: string,
    person: Purchaser,
    quantity: int,
    purchaseDate: Timestamp,
    totalPrice: real)

  datatype Ticket = Ticket(
    id: string,
    prefix: string,
    postfix: string,
    ticketName: string,
    price: real,
    currency: string,
    capacity: int,
    coupons: seq<Coupon>,
    ticketPurchases: seq<TicketPurchase>,
    dateAdded: Timestamp)

  datatype LeadPerson = LeadPerson(id: string, email: string, status: string)

  datatype HandlerLink = HandlerLink(id: string, userId: string)

  datatype Lead = Lead(
    id: string,
    status: string,
    organizationId: string,
    person: LeadPerson,
    handlerLinks: seq<HandlerLink>)

  /**
   * `dateUpdated` and `dateDeleted` are nullable; a present `dateDeleted`
   * marks a soft-deleted event. `isPublic` is an optional property.
   */
  datatype Event = Event(
    id: string,
    title: string,
    status: string,
    organizer: Organizer,
    startDateTime: Timestamp,
    endDateTime: Timestamp,
    timezone: string,
    description: string,
    primaryImageUrl: string,
    coverImageUrl: string,
    imageGalleryUrls: seq<string>,
    venue: Venue,
    tickets: seq<Ticket>,
    leads: seq<Lead>,
    dateAdded: Timestamp,
    dateUpdated: Option<Timestamp>,
    dateDeleted: Option<Timestamp>,
    isPublic: Option<bool>)

  /** The venue part of a create request: the address fields a user types. */
  datatype VenueRequest = VenueRequest(
    venueName: string,
    address1: string,
    city: string,
    state: string,
    country: string,
    postalZip: string)

  datatype CreateEventRequest = CreateEventRequest(
    title: string,
    description: string,
    startDateTime: Timestamp,
    endDateTime: Timestamp,
    timezone: string,
    venue: VenueRequest,
    primaryImageUrl: string,
    coverImageUrl: string,
    isPublic: bool)

  /**
   * `Partial<CreateEventRequest>` plus a required `id`: `None` is a property
   * the request does not carry.
   */
  datatype UpdateEventRequest = UpdateEventRequest(
    id: string,
    title: Option<string>,
    description: Option<string>,
    startDateTime: Option<Timestamp>,
    endDateTime: Option<Timestamp>,
    timezone: Option<string>,
    venue: Option<VenueRequest>,
    primaryImageUrl: Option<string>,
    coverImageUrl: Option<string>,
    isPublic: Option<bool>)
}
