# Content lifecycle of the PDS content service, in Dafny

This project models the content service of the PDS back office (`ContentService`). A content is
a piece of produced material of a brand. It may own one bill, the money owed for it. The service
creates, edits, deletes, archives and unarchives a content and keeps its bill in step. It also
builds the list of a brand's contents behind a "no selection" sentinel entry.

- `entities.dfy` (module `Entities`) holds the Content and Bill records, the create and edit request
  models, and `DateTime.Date` as arithmetic on ticks.
- `bill_rules.dfy` (module `BillRules`) holds the rules for a content's bill:
  - the initial payment status, which depends only on whether the value is zero;
  - the stripping of `@` from the contact;
  - the three ways a bill is built or changed: created with the content, updated by an edit, attached by an edit.
- `content_service.dfy` (module `Services`) holds the class `ContentService`. Its store is a map from
  content id to content. A content's bill lives inside it, and no two contents own bills with the
  same id, which together give the one-to-one link. `Valid()` is the store invariant kept by
  every operation:
  - each content is stored under its own id;
  - no two contents own bills with the same id;
  - its dates have no time of day;
  - a bill it owns has type Content, the content's brand, the content's id and a contact without `@`.
  Create, Edit and Delete return a `Result`; its `Failure` stands for the exception the source throws.
  Archive and Unarchive are silent guards, as in the source.
- `content_list.dfy` (module `ContentList`) holds the list projection. `List.Add`/`AddRange`,
  `List.IndexOf`/`Remove` and `Prepend` become methods over `seq`. Each one is proved against a
  ghost specification (`Listed`, `RemoveFirst`), and lemmas about that specification state the
  ordering guarantees.
- `wrappers.dfy` (module `Wrappers`) holds `Option`, which stands for a null reference, and `Result`.

Fresh Guids (`Guid.NewGuid()`) and the current time (`DateTime.UtcNow`) are parameters. A Guid is
a `nat`, with `Guid.Empty` as 0. A `DateTime` is its tick count. Money is an `int` of cents, since
it is only compared with zero.

Two behaviours of the code are kept as they are:
- Edit never touches `Content.BillId`. After an edit that detaches the bill, `BillId` still names
  the detached bill. After an edit that attaches one, `BillId` keeps its old value.
  `Services.Edited` states this (`c'.billId == c.billId`).
- Edit does not re-derive the payment status when it changes an existing bill's value
  (`BillRules.UpdatedBill` keeps `paymentStatus`). So a bill edited to zero can stay NotPaid and
  still block archiving.

The bill that Edit attaches gets `ContentId` set to the content's id. The relationship is
configured with the foreign key on the bill (`Pds/Pds.Data/ApplicationDbContext.cs`, lines 42-45),
and saving the content's new bill navigation fills that key in.

## Model

| member | source | states |
|---|---|---|
| `Entities.DatePart` | Pds/Pds.Services/Services/ContentService.cs:49 | `.Date` gives a midnight `d` with `d <= t < d + one day` |
| `Entities.DatePartUnique` | Pds/Pds.Services/Services/ContentService.cs:105 | the date part is the only midnight within a day before `t`, so it is determined by that property |
| `Entities.DatePartIdempotent` | Pds/Pds.Services/Services/ContentService.cs:49 | truncating an already truncated date changes nothing |
| `Entities.OptionalDatePart` | Pds/Pds.Services/Services/ContentService.cs:50 | `EndDate?.Date`: a missing end date stays missing, a present one is truncated to its day |
| `BillRules.PaymentStatusFor` | Pds/Pds.Services/Services/ContentService.cs:65 | the initial payment status is Paid iff the value is 0, NotPaid iff it is not |
| `BillRules.StripAt` | Pds/Pds.Services/Services/ContentService.cs:62 | the stripped contact holds no `@`, is no longer than the input and keeps every other character with its multiplicity |
| `BillRules.StripAtConcat` | Pds/Pds.Services/Services/ContentService.cs:112 | stripping distributes over concatenation, so it acts character by character and keeps the order |
| `BillRules.StripAtFixpoint` | Pds/Pds.Services/Services/ContentService.cs:62 | a contact is left unchanged iff it holds no `@` (both directions) |
| `BillRules.StripAtIdempotent` | Pds/Pds.Services/Services/ContentService.cs:62 | stripping an already stripped contact changes nothing |
| `BillRules.ContentBill` | Pds/Pds.Services/Services/ContentService.cs:56-70 | the bill built at creation belongs to its content (type Content, the model's brand, ContentId = content id, no `@`), is Paid iff its value is 0, and copies value, name, contact type and client |
| `BillRules.UpdatedBill` | Pds/Pds.Services/Services/ContentService.cs:109-117 | updating an existing bill changes client, sanitised contact, name, contact type, value and update time and keeps its id, type, brand, content, creation time and payment status, so a bill that belonged to its content still does |
| `BillRules.AttachedBillAsWritten` | Pds/Pds.Services/Services/ContentService.cs:118-125 | as written, the attached bill gets a fresh id, type Content, the content's brand and the current time, and the mapper copies the request's fields, contact included as it is |
| `BillRules.AttachedBillAsWrittenKeepsAt` | Pds/Pds.Services/Services/ContentService.cs:120 | a request contact `@studio` reaches the attached bill with its `@`, so the bill breaks the contact invariant |
| `BillRules.AttachedBill` | Pds/Pds.Services/Services/ContentService.cs:118-125 | the corrected attached bill belongs to its content with a sanitised contact, and differs from the as-written bill only in the contact |
| `Services.NormalizedPersonId` | Pds/Pds.Services/Services/ContentService.cs:107 | the edited person is cleared iff the request gives none or the empty Guid, and is otherwise the given one |
| `Services.CreatedArchivable` | Pds/Pds.Services/Services/ContentService.cs:159 | a freshly created content may be archived iff it is free or its bill's value is 0 |
| `Services.ContentService.Create` | Pds/Pds.Services/Services/ContentService.cs:32-79 | a null model fails with ArgumentNull, and a non-free model without a bill fails with NullReference, both storing nothing. Otherwise it returns the new id and stores one new Active content with truncated dates. A free content has no bill. A non-free one owns exactly one bill built by `ContentBill`, with `BillId` = the bill's id. Nothing else changes and the invariant is kept |
| `Services.ContentService.Edit` | Pds/Pds.Services/Services/ContentService.cs:81-134 | it fails with ContentEdit and changes nothing iff the model is null, the id is unknown or the content is Archived. Otherwise it overwrites title, types, comment, truncated dates and normalised person, and keeps id, status, brand, BillId and creation time. The bill is reconciled four ways: updated in place, newly attached, detached, or unchanged. Other contents are untouched and the invariant is kept |
| `Services.ContentService.Delete` | Pds/Pds.Services/Services/ContentService.cs:136-154 | it succeeds iff the content exists and is Active, removing exactly that content and its bill. Otherwise it fails with ContentDelete and changes nothing |
| `Services.ContentService.Archive` | Pds/Pds.Services/Services/ContentService.cs:156-163 | an existing Active content with no bill or a Paid bill becomes Archived with nothing else changed. Otherwise the store is unchanged |
| `Services.ContentService.Unarchive` | Pds/Pds.Services/Services/ContentService.cs:165-174 | an existing Archived content becomes Active with its update time set. Otherwise the store is unchanged |
| `ContentList.ContentsForListByBrandId` | Pds/Pds.Services/Services/ContentService.cs:176-182 | the list has length 1 + n, its first entry is the sentinel with the empty id (also when n = 0), and entry i + 1 is the repository's i-th content |
| `ContentList.RemoveFirst` | Pds/Pds.Services/Services/ContentService.cs:191 | removing the first match shortens the list by one when some entry matches, leaves it equal when none does, and never adds entries |
| `ContentList.RemoveFirstAt` | Pds/Pds.Services/Services/ContentService.cs:191 | when the first match is at k, the result is the entries before k followed by those after k |
| `ContentList.RemoveFirstSource` | Pds/Pds.Services/Services/ContentService.cs:191 | every entry left after removing the first match stands at some position of the original list, so `List.Remove` adds no entry |
| `ContentList.IndexOf` | Pds/Pds.Services/Services/ContentService.cs:191 | the index found is that of the first matching entry, or the list's length when none matches |
| `ContentList.Remove` | Pds/Pds.Services/Services/ContentService.cs:191 | `List.Remove` reports whether some entry matched and leaves the list without its first match |
| `ContentList.ContentsForListWithSelectedValue` | Pds/Pds.Services/Services/ContentService.cs:184-195 | with no selected id it returns the base list unchanged. Otherwise it returns the looked-up content (or null) followed by the base list without its first entry for that content |
| `ContentList.SelectedMoved` | Pds/Pds.Services/Services/ContentService.cs:189-192 | a selected content among the brand's contents is moved to the front, and the list keeps its length 1 + n |
| `ContentList.UnmatchedPrepended` | Pds/Pds.Services/Services/ContentService.cs:190-192 | a null answer, or a content of another brand, is put in front of the untouched base list |
| `ContentList.SentinelKept` | Pds/Pds.Services/Services/ContentService.cs:178-192 | if no content has the empty id, the sentinel is neither removed nor duplicated: it is at position 1 and no other entry has the empty id |

## Findings

| source | as written | input that shows it | evidently intended | confidence | as-written member | corrected member |
|---|---|---|---|---|---|---|
| Pds/Pds.Services/Services/ContentService.cs:118-125 | when an edit attaches a bill to a content that had none, the mapper copies the request's contact as it is, and no `@` is stripped | edit an Active free content with a bill whose contact is `@studio`: the new bill's contact is `@studio` | strip `@` as the create path (line 62) and the update path (line 112) do | medium, not executed; rests on the object mapping copying `Contact` unchanged, and that mapping profile is not part of this model | `BillRules.AttachedBillAsWrittenKeepsAt` | `BillRules.AttachedBill` |

`Services.ContentService.Edit` uses the corrected `AttachedBill`. This is what lets it keep the
store invariant "no stored contact holds `@`".

## Left out

- Services.ContentService.Edit: leaves the payment status of a newly attached bill unspecified (any value may result). The code never sets it, and what the object mapper gives it is not visible.
- Persistence (`unitOfWork.Content.*`, `unitOfWork.Bills.*`) and async/await. The store is a map held by the service, and the repository's answers to the list queries are parameters.
- `FullArchiveAsync` (`Pds/Pds.Data/Repositories/Interfaces/IContentRepository.cs`, line 15) is modelled as setting the status to Archived, because its body is not part of this model. Archive does not set an update time, since the code does not.
- Delete's cascade to the bill's costs: the Cost entity is not part of this model. The bill goes with its content because the content owns it.
- The bill lookup in Delete (lines 139-141) is not modelled, because its result is never used.
- `GetAllAsync` and `GetAsync` are not modelled, because they only pass repository calls through.
- Bill fields the lifecycle never sets or reads are not modelled: Status, PaymentType, ContactEmail, IsContactAgent, ContractNumber, ContractDate, IsNeedPayNds, PaidAt. The generated bill comment (line 69) is also left out, since it is formatted text.
- Exception messages are not modelled. Each exception is a constructor of `Error`.
- Null strings are not modelled. A null contact would make `Replace` throw, but strings here are never null.
- The separate `DateTime.UtcNow` reads in Create (lines 42 and 59) and in Edit (line 100, then line 116 or line 124) are one `now` parameter per call. The model therefore gives the content's update time and its bill's update or creation time the same value, which the code does not guarantee. `DateTime.Kind` is not modelled.
- Decimal values are whole cents. The code only compares them with 0.
- Enumerations other than the content status, payment status and bill type are carried as numeric codes.
- The sentinel entry's status is assumed to be Active, because `default(ContentStatus)` is not visible and Active is assumed to be that enumeration's zero value. Its other fields take their C# defaults, with null strings as empty strings.
- `List.Remove` relies on `Content.Equals`, which is not part of this model. Entries are compared by id, with null matching only null. Under id equality, the freshly built sentinel would also match a looked-up content with the empty id and be removed, which reference equality would not do. `ContentList.SentinelKept` excludes that case.
- `Guid.NewGuid()` is assumed to give ids not already in use. `Create` requires its content id and bill id to be unused, and `Edit` requires the id of a bill it may attach to be unused.
- Concurrency between requests is not modelled. Each operation is one atomic step on the store.
