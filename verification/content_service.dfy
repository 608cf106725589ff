/**
 * The content lifecycle: creating, editing, deleting, archiving and unarchiving a content
 * together with the bill it owns. The persistence gateway is a map from content id to content;
 * fresh Guids and the current time are parameters.
 */
module Services {
  import opened Wrappers
  import opened Entities
  import opened BillRules

  /**
   * What every stored content keeps: it is stored under its own id, its dates carry no time of
   * day, and a bill it owns is its content bill, of its brand, with a sanitised contact.
   */
  predicate WellFormed(id: Guid, c: Content) {
    && c.id == id
    && IsDate(c.releaseDate)
    && (c.endDate.Some? ==> IsDate(c.endDate.value))
    && (c.bill.Some? ==> BelongsTo(c.bill.value, c.id, c.brandId))
  }

  /** The guard of `ArchiveAsync`: an active content whose bill, if any, is paid. */
  predicate CanArchive(c: Content) {
    c.status == Active && (c.bill.None? || c.bill.value.paymentStatus == Paid)
  }

  /** The person of an edit request: an empty Guid clears the person, anything else is taken as given. */
  function NormalizedPersonId(p: Option<Guid>): (r: Option<Guid>)
    ensures r.None? <==> p.None? || p == Some(EmptyGuid)
    ensures r.Some? ==> r == p
  {
    if p.Some? && p.value == EmptyGuid then None else p
  }

  /** The content `CreateAsync` stores for request `m`. */
  ghost predicate Created(c: Content, m: CreateContentModel, contentId: Guid, billId: Guid, now: DateTime) {
    && c.id == contentId && c.status == Active
    && c.title == m.title && c.contentType == m.contentType && c.socialMediaType == m.socialMediaType
    && c.comment == m.comment && c.brandId == m.brandId && c.personId == m.personId
    && c.releaseDate == DatePart(m.releaseDate) && c.endDate == OptionalDatePart(m.endDate)
    && c.createdAt == now && c.updatedAt == None
    && (m.isFree ==> c.bill == None && c.billId == None)
    && (!m.isFree ==> m.bill.Some? && c.bill == Some(ContentBill(m.bill.value, billId, contentId, m.brandId, now))
                      && c.billId == Some(billId))
  }

  /** How `EditAsync` reconciles the bill, given the request's bill and the bill the content had. */
  ghost predicate Reconciled(old_: Content, new_: Content, incoming: Option<BillModel>, newBillId: Guid, now: DateTime) {
    match (incoming, old_.bill)
    case (Some(m), Some(b)) => new_.bill == Some(UpdatedBill(b, m, now))
    case (Some(m), None) =>
      new_.bill.Some? && new_.bill.value == AttachedBill(m, newBillId, old_.id, old_.brandId, now, new_.bill.value.paymentStatus)
    case (None, Some(_)) => new_.bill == None
    case (None, None) => new_.bill == old_.bill
  }

  /** The content after `EditAsync` has applied request `m` to content `c`. */
  ghost predicate Edited(c: Content, c': Content, m: EditContentModel, newBillId: Guid, now: DateTime) {
    && c'.id == c.id && c'.status == c.status && c'.brandId == c.brandId
    && c'.billId == c.billId && c'.createdAt == c.createdAt && c'.updatedAt == Some(now)
    && c'.title == m.title && c'.contentType == m.contentType && c'.socialMediaType == m.socialMediaType
    && c'.comment == m.comment
    && c'.releaseDate == DatePart(m.releaseDate) && c'.endDate == OptionalDatePart(m.endDate)
    && c'.personId == NormalizedPersonId(m.personId)
    && Reconciled(c, c', m.bill, newBillId, now)
  }

  /** A created content can be archived at once exactly when it is free or its bill is zero. */
  lemma CreatedArchivable(c: Content, m: CreateContentModel, contentId: Guid, billId: Guid, now: DateTime)
    requires Created(c, m, contentId, billId, now)
    ensures CanArchive(c) <==> m.isFree || m.bill.value.value == 0
  {
  }

  /** The service, over an in-memory store of contents keyed by id. */
  class ContentService {
    var contents: map<Guid, Content>

    /**
     * Every stored content is well formed, and no two contents own bills with the same id, so
     * each bill belongs to exactly one content.
     */
    ghost predicate Valid()
      reads this
    {
      && (forall id :: id in contents ==> WellFormed(id, contents[id]))
      && (forall a, b :: a in contents && b in contents && a != b && contents[a].bill.Some? && contents[b].bill.Some?
            ==> contents[a].bill.value.id != contents[b].bill.value.id)
    }

    /** No stored content owns a bill with id `billId`: a fresh Guid. */
    ghost predicate BillIdUnused(billId: Guid)
      reads this
    {
      forall id :: id in contents && contents[id].bill.Some? ==> contents[id].bill.value.id != billId
    }

    constructor (initial: map<Guid, Content>)
      requires forall id :: id in initial ==> WellFormed(id, initial[id])
      requires forall a, b :: a in initial && b in initial && a != b && initial[a].bill.Some? && initial[b].bill.Some?
                 ==> initial[a].bill.value.id != initial[b].bill.value.id
      ensures Valid() && contents == initial
    {
      contents := initial;
    }

    /** `CreateAsync`; `contentId` and `billId` are the fresh Guids, `now` the current time. */
    method Create(model: Option<CreateContentModel>, contentId: Guid, billId: Guid, now: DateTime)
      returns (r: Result<Guid, Error>)
      requires Valid()
      requires contentId !in contents && BillIdUnused(billId)
      modifies this
      ensures Valid()
      ensures model.None? ==> r == Failure(ArgumentNull)
      ensures model.Some? && !model.value.isFree && model.value.bill.None? ==> r == Failure(NullReference)
      ensures r.Success? <==> model.Some? && (model.value.isFree || model.value.bill.Some?)
      ensures r.Failure? ==> contents == old(contents)
      ensures r.Success? ==> && r.value == contentId
                             && contents.Keys == old(contents).Keys + {contentId}
                             && (forall id :: id in old(contents) ==> contents[id] == old(contents)[id])
                             && Created(contents[contentId], model.value, contentId, billId, now)
    {
      if model.None? {
        return Failure(ArgumentNull);
      }
      var m := model.value;
      var content := Content(
        id := contentId,
        title := m.title,
        contentType := m.contentType,
        socialMediaType := m.socialMediaType,
        comment := m.comment,
        releaseDate := DatePart(m.releaseDate),
        endDate := OptionalDatePart(m.endDate),
        status := Active,
        brandId := m.brandId,
        personId := m.personId,
        billId := None,
        bill := None,
        createdAt := now,
        updatedAt := None);
      if !m.isFree {
        if m.bill.None? {
          return Failure(NullReference);
        }
        var bill := ContentBill(m.bill.value, billId, content.id, m.brandId, now);
        content := content.(bill := Some(bill));
        content := content.(billId := Some(bill.id));
      }
      contents := contents[contentId := content];
      r := Success(content.id);
    }

    /** `EditAsync`; `newBillId` is the Guid a newly attached bill receives, `now` the current time. */
    method Edit(model: Option<EditContentModel>, newBillId: Guid, now: DateTime) returns (r: Result<Guid, Error>)
      requires Valid() && BillIdUnused(newBillId)
      modifies this
      ensures Valid()
      ensures r.Success? <==> && model.Some? && model.value.id in old(contents)
                              && old(contents)[model.value.id].status == Active
      ensures r.Failure? ==> r.error == ContentEdit && contents == old(contents)
      ensures r.Success? ==> && r.value == model.value.id
                             && contents.Keys == old(contents).Keys
                             && (forall id :: id in contents && id != r.value ==> contents[id] == old(contents)[id])
                             && Edited(old(contents)[r.value], contents[r.value], model.value, newBillId, now)
    {
      if model.None? {
        return Failure(ContentEdit);
      }
      var m := model.value;
      if m.id !in contents {
        return Failure(ContentEdit);
      }
      var content := contents[m.id];
      if content.status == Archived {
        return Failure(ContentEdit);
      }
      content := content.(updatedAt := Some(now));
      content := content.(title := m.title);
      content := content.(contentType := m.contentType);
      content := content.(socialMediaType := m.socialMediaType);
      content := content.(comment := m.comment);
      content := content.(releaseDate := DatePart(m.releaseDate));
      content := content.(endDate := OptionalDatePart(m.endDate));
      content := content.(personId := NormalizedPersonId(m.personId));

      if m.bill.Some? && content.bill.Some? {
        // update the bill the content already has
        var bill := content.bill.value;
        bill := bill.(clientId := m.bill.value.clientId);
        bill := bill.(contact := StripAt(m.bill.value.contact));
        bill := bill.(contactName := m.bill.value.contactName);
        bill := bill.(contactType := m.bill.value.contactType);
        bill := bill.(value := m.bill.value.value);
        bill := bill.(updatedAt := Some(now));
        content := content.(bill := Some(bill));
      } else if m.bill.Some? && content.bill.None? {
        // attach a new bill; nothing sets its payment status
        var paymentStatus: PaymentStatus :| true;
        var bill := AttachedBill(m.bill.value, newBillId, content.id, content.brandId, now, paymentStatus);
        content := content.(bill := Some(bill));
      } else if m.bill.None? && content.bill.Some? {
        // detach the bill
        content := content.(bill := None);
      }

      contents := contents[m.id := content];
      r := Success(content.id);
    }

    /** `DeleteAsync`: removes the content together with the bill it owns. */
    method Delete(id: Guid) returns (r: Result<(), Error>)
      requires Valid()
      modifies this
      ensures Valid()
      ensures r.Success? <==> id in old(contents) && old(contents)[id].status == Active
      ensures r.Success? ==> contents == old(contents) - {id}
      ensures r.Failure? ==> r.error == ContentDelete && contents == old(contents)
    {
      if id !in contents {
        return Failure(ContentDelete);
      }
      var content := contents[id];
      if content.status == Archived {
        return Failure(ContentDelete);
      }
      contents := contents - {content.id};
      r := Success(());
    }

    /** `ArchiveAsync`: a silent no-op unless the content exists and `CanArchive` holds. */
    method Archive(id: Guid)
      requires Valid()
      modifies this
      ensures Valid()
      ensures id in old(contents) && CanArchive(old(contents)[id]) ==>
                contents == old(contents)[id := old(contents)[id].(status := Archived)]
      ensures !(id in old(contents) && CanArchive(old(contents)[id])) ==> contents == old(contents)
    {
      if id in contents {
        var content := contents[id];
        if content.status == Active && (content.bill.None? || content.bill.value.paymentStatus == Paid) {
          contents := contents[id := content.(status := Archived)];
        }
      }
    }

    /** `UnarchiveAsync`: a silent no-op unless the content exists and is archived. */
    method Unarchive(id: Guid, now: DateTime)
      requires Valid()
      modifies this
      ensures Valid()
      ensures id in old(contents) && old(contents)[id].status == Archived ==>
                contents == old(contents)[id := old(contents)[id].(status := Active, updatedAt := Some(now))]
      ensures !(id in old(contents) && old(contents)[id].status == Archived) ==> contents == old(contents)
    {
      if id in contents {
        var content := contents[id];
        if content.status == Archived {
          content := content.(status := Active);
          content := content.(updatedAt := Some(now));
          contents := contents[id := content];
        }
      }
    }
  }
}
