/**
 * The entities the content lifecycle works on: a Content record and the Bill it may own,
 * the request models handed to the service, and the calendar arithmetic on timestamps.
 */
module Entities {
  import opened Wrappers

  /** A Guid; only equality and the distinguished empty Guid are used. */
  type Guid = nat

  /** `Guid.Empty`. */
  const EmptyGuid: Guid := 0

  /** A `DateTime`, as its number of 100-nanosecond ticks. */
  type DateTime = nat

  /** Ticks in one day (`TimeSpan.TicksPerDay`). */
  const TicksPerDay: nat := 864_000_000_000

  /** `DateTime.Date`: the same instant with its time of day cut to midnight. */
  function DatePart(t: DateTime): (d: DateTime)
    ensures d % TicksPerDay == 0
    ensures d <= t < d + TicksPerDay
  {
    t - t % TicksPerDay
  }

  /** A timestamp that has no time-of-day part. */
  predicate IsDate(t: DateTime) {
    t % TicksPerDay == 0
  }

  /** `DatePart` is the only midnight within a day before `t`, so truncating twice changes nothing. */
  lemma DatePartUnique(t: DateTime, d: DateTime)
    requires IsDate(d) && d <= t < d + TicksPerDay
    ensures d == DatePart(t)
  {
    var q := d / TicksPerDay;
    assert d == q * TicksPerDay;
    assert t == q * TicksPerDay + (t - d) && 0 <= t - d < TicksPerDay;
    assert t % TicksPerDay == t - d;
  }

  lemma DatePartIdempotent(t: DateTime)
    ensures DatePart(DatePart(t)) == DatePart(t)
  {
    DatePartUnique(DatePart(t), DatePart(t));
  }

  /** `Content.Status`. */
  datatype ContentStatus = Active | Archived

  /** `Bill.PaymentStatus`. */
  datatype PaymentStatus = Paid | NotPaid

  /** `Bill.Type`: bills created for a content, and every other origin. */
  datatype BillType = ContentOrigin | OtherOrigin

  /** Enumerations whose values the lifecycle only copies, carried as their numeric codes. */
  type ContentType = nat
  type SocialMediaType = nat
  type ContactType = nat

  /** The fields of a `Bill` the content lifecycle reads or writes; `value` is in cents. */
  datatype Bill = Bill(
    id: Guid,
    value: int,
    paymentStatus: PaymentStatus,
    billType: BillType,
    contact: string,
    contactName: string,
    contactType: Option<ContactType>,
    brandId: Guid,
    contentId: Option<Guid>,
    clientId: Option<Guid>,
    createdAt: DateTime,
    updatedAt: Option<DateTime>)

  /** A `Content` together with the bill it owns one-to-one (`Content.Bill`, keyed by `Bill.ContentId`). */
  datatype Content = Content(
    id: Guid,
    title: string,
    contentType: ContentType,
    socialMediaType: SocialMediaType,
    comment: string,
    releaseDate: DateTime,
    endDate: Option<DateTime>,
    status: ContentStatus,
    brandId: Guid,
    personId: Option<Guid>,
    billId: Option<Guid>,
    bill: Option<Bill>,
    createdAt: DateTime,
    updatedAt: Option<DateTime>)

  /** The bill part of a create or edit request. */
  datatype BillModel = BillModel(
    value: int,
    contact: string,
    contactName: string,
    contactType: Option<ContactType>,
    clientId: Option<Guid>)

  /** `CreateContentModel`. */
  datatype CreateContentModel = CreateContentModel(
    title: string,
    contentType: ContentType,
    brandId: Guid,
    socialMediaType: SocialMediaType,
    comment: string,
    releaseDate: DateTime,
    endDate: Option<DateTime>,
    personId: Option<Guid>,
    isFree: bool,
    bill: Option<BillModel>)

  /** `EditContentModel`. */
  datatype EditContentModel = EditContentModel(
    id: Guid,
    title: string,
    contentType: ContentType,
    socialMediaType: SocialMediaType,
    comment: string,
    releaseDate: DateTime,
    endDate: Option<DateTime>,
    personId: Option<Guid>,
    bill: Option<BillModel>)

  /** `EndDate?.Date`: a missing end date stays missing. */
  function OptionalDatePart(t: Option<DateTime>): (d: Option<DateTime>)
    ensures d.None? <==> t.None?
    ensures d.Some? ==> IsDate(d.value) && d.value <= t.value < d.value + TicksPerDay
  {
    if t.Some? then Some(DatePart(t.value)) else None
  }

  /** The exceptions the service throws. */
  datatype Error =
    | ArgumentNull        // ArgumentNullException
    | NullReference       // a member access through a null reference
    | ContentEdit         // ContentEditException
    | ContentDelete       // ContentDeleteException
}
