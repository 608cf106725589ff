/**
 * The rules for the bill a content owns: the payment status a new bill starts with, the
 * sanitising of its contact handle, and the three ways a bill is built or changed by the
 * content lifecycle.
 */
module BillRules {
  import opened Wrappers
  import opened Entities

  /** The payment status a bill created with a content starts with: a zero bill is already paid. */
  function PaymentStatusFor(value: int): (s: PaymentStatus)
    ensures s == Paid <==> value == 0
    ensures s == NotPaid <==> value != 0
  {
    if value == 0 then Paid else NotPaid
  }

  /** `contact.Replace("@", string.Empty)`: the contact with every '@' removed. */
  function StripAt(s: string): (r: string)
    ensures '@' !in r
    ensures |r| <= |s|
    ensures forall c :: c != '@' ==> multiset(r)[c] == multiset(s)[c]
  {
    if s == [] then []
    else
      assert s == [s[0]] + s[1..];
      if s[0] == '@' then StripAt(s[1..]) else [s[0]] + StripAt(s[1..])
  }

  /** Stripping works character by character, so it distributes over concatenation. */
  lemma {:induction false} StripAtConcat(a: string, b: string)
    ensures StripAt(a + b) == StripAt(a) + StripAt(b)
  {
    if a == [] {
      assert a + b == b;
    } else {
      assert (a + b)[0] == a[0];
      assert (a + b)[1..] == a[1..] + b;
      StripAtConcat(a[1..], b);
    }
  }

  /** A string is left as it is exactly when it holds no '@'. */
  lemma {:induction false} StripAtFixpoint(s: string)
    ensures StripAt(s) == s <==> '@' !in s
  {
    if s != [] && '@' !in s {
      assert s[0] != '@';
      assert '@' !in s[1..] by {
        forall i | 0 <= i < |s[1..]| ensures s[1..][i] != '@' {
          assert s[1..][i] == s[i + 1];
        }
      }
      StripAtFixpoint(s[1..]);
    }
  }

  /** Sanitising an already sanitised contact changes nothing. */
  lemma {:induction false} StripAtIdempotent(s: string)
    ensures StripAt(StripAt(s)) == StripAt(s)
  {
    StripAtFixpoint(StripAt(s));
  }

  /** The bill is the content bill of the content `contentId` of brand `brandId`, with a sanitised contact. */
  predicate BelongsTo(b: Bill, contentId: Guid, brandId: Guid) {
    && b.billType == ContentOrigin
    && b.brandId == brandId
    && b.contentId == Some(contentId)
    && '@' !in b.contact
  }

  /** The bill `CreateAsync` builds for a content that is not free. */
  function ContentBill(m: BillModel, billId: Guid, contentId: Guid, brandId: Guid, now: DateTime): (b: Bill)
    ensures BelongsTo(b, contentId, brandId)
    ensures b.id == billId && b.createdAt == now && b.updatedAt == None
    ensures b.paymentStatus == Paid <==> m.value == 0
    ensures b.value == m.value && b.contact == StripAt(m.contact)
    ensures b.contactName == m.contactName && b.contactType == m.contactType && b.clientId == m.clientId
  {
    Bill(
      id := billId,
      value := m.value,
      paymentStatus := PaymentStatusFor(m.value),
      billType := ContentOrigin,
      contact := StripAt(m.contact),
      contactName := m.contactName,
      contactType := m.contactType,
      brandId := brandId,
      contentId := Some(contentId),
      clientId := m.clientId,
      createdAt := now,
      updatedAt := None)
  }

  /**
   * The existing bill after `EditAsync` has copied the request's bill fields into it: its identity,
   * type, owner and payment status stay as they were, so a bill that keeps the invariant still does.
   */
  function UpdatedBill(b: Bill, m: BillModel, now: DateTime): (r: Bill)
    ensures r.id == b.id && r.billType == b.billType && r.brandId == b.brandId && r.contentId == b.contentId
    ensures r.paymentStatus == b.paymentStatus && r.createdAt == b.createdAt
    ensures r.value == m.value && r.contact == StripAt(m.contact) && r.contactName == m.contactName
    ensures r.contactType == m.contactType && r.clientId == m.clientId && r.updatedAt == Some(now)
    ensures forall contentId, brandId :: BelongsTo(b, contentId, brandId) ==> BelongsTo(r, contentId, brandId)
  {
    b.(clientId := m.clientId, contact := StripAt(m.contact), contactName := m.contactName,
       contactType := m.contactType, value := m.value, updatedAt := Some(now))
  }

  /**
   * The bill `EditAsync` attaches to a content that had none, as the code builds it: the object
   * mapper copies the request's bill fields as they are, then id, type, brand and creation time are
   * set. Nothing sets the payment status, so it is whatever the mapping produced (`paymentStatus`).
   */
  function AttachedBillAsWritten(m: BillModel, billId: Guid, contentId: Guid, brandId: Guid, now: DateTime,
                                 paymentStatus: PaymentStatus): (b: Bill)
    ensures b.id == billId && b.billType == ContentOrigin && b.brandId == brandId && b.contentId == Some(contentId)
    ensures b.value == m.value && b.contact == m.contact && b.contactName == m.contactName
    ensures b.contactType == m.contactType && b.clientId == m.clientId
    ensures b.createdAt == now && b.updatedAt == None && b.paymentStatus == paymentStatus
  {
    Bill(
      id := billId,
      value := m.value,
      paymentStatus := paymentStatus,
      billType := ContentOrigin,
      contact := m.contact,
      contactName := m.contactName,
      contactType := m.contactType,
      brandId := brandId,
      contentId := Some(contentId),
      clientId := m.clientId,
      createdAt := now,
      updatedAt := None)
  }

  /** As written, a contact given with an '@' reaches the attached bill unchanged. */
  lemma AttachedBillAsWrittenKeepsAt()
    ensures var b := AttachedBillAsWritten(BillModel(0, "@studio", "", None, None), 1, 2, 3, 0, Paid);
            '@' in b.contact && !BelongsTo(b, 2, 3)
  {
    var b := AttachedBillAsWritten(BillModel(0, "@studio", "", None, None), 1, 2, 3, 0, Paid);
    assert b.contact[0] == '@';
  }

  /**
   * The bill `EditAsync` attaches to a content that had none, with the contact sanitised as the
   * create and update paths do; it differs from the as-written bill only in its contact.
   */
  function AttachedBill(m: BillModel, billId: Guid, contentId: Guid, brandId: Guid, now: DateTime,
                        paymentStatus: PaymentStatus): (b: Bill)
    ensures BelongsTo(b, contentId, brandId)
    ensures b.contact == StripAt(m.contact)
    ensures b.(contact := m.contact) == AttachedBillAsWritten(m, billId, contentId, brandId, now, paymentStatus)
  {
    AttachedBillAsWritten(m, billId, contentId, brandId, now, paymentStatus).(contact := StripAt(m.contact))
  }
}
