/**
 * The lost-item repository: decoding store documents into records, shaping each
 * snapshot of a live query (drop what does not decode, stable sort by `datePosted`
 * descending), the payload `submitLostItem` writes, the point read `getItemById`,
 * and the single-field status update and delete against the collection.
 */
module LostItemRepository {
  import opened Wrappers
  import opened Text
  import opened DocumentStore
  import opened LostItemModel
  import opened Auth

  // ---------------------------------------------------------------------------
  // Decoding one document

  /** `formatDate`: a timestamp is formatted, a string passes through, anything else is "". */
  function FormatDate(value: Option<Value>, format: Timestamp -> string): (r: string)
    ensures value.Some? && value.value.StringValue? ==> r == value.value.text
    ensures value.Some? && value.value.TimestampValue? ==> r == format(value.value.time)
    ensures value.None? || !(value.value.StringValue? || value.value.TimestampValue?) ==> r == ""
  {
    match value
    case Some(TimestampValue(t)) => format(t)
    case Some(StringValue(s)) => s
    case _ => ""
  }

  /** `doc.get(key)`: the raw value, null when absent. */
  function RawField(fields: Fields, key: string): Option<Value> {
    if key in fields then Some(fields[key]) else None
  }

  /** `doc.getString(key) ?: default`; `None` stands for the exception `getString` throws. */
  function TextField(fields: Fields, key: string, default: string): Option<string> {
    match GetString(fields, key)
    case Success(v) => Some(v.GetOr(default))
    case Failure(_) => None
  }

  /** `doc.getDouble(key) ?: 0.0`; `None` stands for the exception `getDouble` throws. */
  function NumberField(fields: Fields, key: string): Option<real> {
    match GetDouble(fields, key)
    case Success(v) => Some(v.GetOr(DefaultCoordinate))
    case Failure(_) => None
  }

  /**
   * The per-document decode inside `try { LostItem(...) } catch { null }`: every typed read is made,
   * and if any of them throws the whole record is dropped (`None`), whichever read it was.
   */
  function Decode(doc: Document, format: Timestamp -> string): Option<LostItem> {
    var f := doc.fields;
    var ownerId := TextField(f, "ownerId", DefaultText);
    var itemName := TextField(f, "itemName", DefaultText);
    var location := TextField(f, "location", DefaultText);
    var description := TextField(f, "description", DefaultText);
    var additionalInfo := TextField(f, "additionalInfo", DefaultText);
    var city := TextField(f, "city", DefaultText);
    var state := TextField(f, "state", DefaultText);
    var status := TextField(f, "status", DefaultStatus);
    var userName := TextField(f, "userName", DefaultText);
    var imageUrl := TextField(f, "imageUrl", DefaultText);
    var storagePath := TextField(f, "storagePath", DefaultText);
    var latitude := NumberField(f, "latitude");
    var longitude := NumberField(f, "longitude");
    if && ownerId.Some? && itemName.Some? && location.Some? && description.Some? && additionalInfo.Some?
       && city.Some? && state.Some? && status.Some? && userName.Some? && imageUrl.Some? && storagePath.Some?
       && latitude.Some? && longitude.Some?
    then
      Some(LostItem(doc.id, ownerId.value, itemName.value, location.value, description.value,
                    additionalInfo.value, city.value, state.value, status.value,
                    FormatDate(RawField(f, "datePosted"), format), userName.value, imageUrl.value,
                    storagePath.value, latitude.value, longitude.value, DefaultContactInfo))
    else
      None
  }

  /** The fields the decode reads with `getString`. */
  const TextKeys: set<string> :=
    {"ownerId", "itemName", "location", "description", "additionalInfo", "city", "state",
     "status", "userName", "imageUrl", "storagePath"}

  /** The fields the decode reads with `getDouble`. */
  const NumberKeys: set<string> := {"latitude", "longitude"}

  /** A document every typed read of the decode accepts. */
  predicate WellTyped(fields: Fields) {
    && (forall k :: k in TextKeys && k in fields ==> fields[k].StringValue? || fields[k].NullValue?)
    && (forall k :: k in NumberKeys && k in fields ==> fields[k].NumberValue? || fields[k].NullValue?)
  }

  /** The field holds no value: absent or null. */
  predicate Unset(fields: Fields, key: string) {
    key !in fields || fields[key] == NullValue
  }

  /** The field holds a string. */
  predicate HoldsText(fields: Fields, key: string) {
    key in fields && fields[key].StringValue?
  }

  /** The record a document with no fields decodes to (what a point read of a missing document gives). */
  function DefaultItem(id: string): LostItem {
    LostItem(id, DefaultText, DefaultText, DefaultText, DefaultText, DefaultText, DefaultText, DefaultText,
             DefaultStatus, DefaultText, DefaultText, DefaultText, DefaultText,
             DefaultCoordinate, DefaultCoordinate, DefaultContactInfo)
  }

  /** Decoding fails exactly when some typed read meets a value of the wrong type. */
  lemma DecodeSucceedsIffWellTyped(doc: Document, format: Timestamp -> string)
    ensures Decode(doc, format).Some? <==> WellTyped(doc.fields)
  {
    var f := doc.fields;
    if WellTyped(f) {
      forall k | k in TextKeys ensures TextField(f, k, DefaultText).Some? && TextField(f, k, DefaultStatus).Some? {
        assert k in f ==> f[k].StringValue? || f[k].NullValue?;
      }
      forall k | k in NumberKeys ensures NumberField(f, k).Some? {
        assert k in f ==> f[k].NumberValue? || f[k].NullValue?;
      }
    } else if exists k :: k in TextKeys && k in f && !(f[k].StringValue? || f[k].NullValue?) {
      var k :| k in TextKeys && k in f && !(f[k].StringValue? || f[k].NullValue?);
      assert TextField(f, k, DefaultText).None? && TextField(f, k, DefaultStatus).None?;
    } else {
      var k :| k in NumberKeys && k in f && !(f[k].NumberValue? || f[k].NullValue?);
      assert NumberField(f, k).None?;
    }
  }

  /**
   * The defaults: the id is the document id; an unset string field reads "", an unset status
   * "Lost", unset coordinates 0.0 and an unset or non-string, non-timestamp date "".
   */
  lemma DecodeDefaults(doc: Document, format: Timestamp -> string)
    requires WellTyped(doc.fields)
    ensures Decode(doc, format).Some?
    ensures var x, f := Decode(doc, format).value, doc.fields;
      && x.id == doc.id
      && (Unset(f, "ownerId") ==> x.ownerId == "")
      && (Unset(f, "itemName") ==> x.itemName == "")
      && (Unset(f, "location") ==> x.location == "")
      && (Unset(f, "description") ==> x.description == "")
      && (Unset(f, "additionalInfo") ==> x.additionalInfo == "")
      && (Unset(f, "city") ==> x.city == "")
      && (Unset(f, "state") ==> x.state == "")
      && (Unset(f, "status") ==> x.status == "Lost")
      && (Unset(f, "userName") ==> x.userName == "")
      && (Unset(f, "imageUrl") ==> x.imageUrl == "")
      && (Unset(f, "storagePath") ==> x.storagePath == "")
      && (Unset(f, "latitude") ==> x.latitude == 0.0)
      && (Unset(f, "longitude") ==> x.longitude == 0.0)
      && ("datePosted" !in f ==> x.datePosted == "")
      && x.contactInfo == DefaultContactInfo
  {
    DecodeSucceedsIffWellTyped(doc, format);
  }

  /** A string present in the document is copied into the record unchanged; so are numbers. */
  lemma DecodeCopiesValues(doc: Document, format: Timestamp -> string)
    requires Decode(doc, format).Some?
    ensures var x, f := Decode(doc, format).value, doc.fields;
      && (HoldsText(f, "ownerId") ==> x.ownerId == f["ownerId"].text)
      && (HoldsText(f, "itemName") ==> x.itemName == f["itemName"].text)
      && (HoldsText(f, "location") ==> x.location == f["location"].text)
      && (HoldsText(f, "description") ==> x.description == f["description"].text)
      && (HoldsText(f, "additionalInfo") ==> x.additionalInfo == f["additionalInfo"].text)
      && (HoldsText(f, "city") ==> x.city == f["city"].text)
      && (HoldsText(f, "state") ==> x.state == f["state"].text)
      && (HoldsText(f, "status") ==> x.status == f["status"].text)
      && (HoldsText(f, "datePosted") ==> x.datePosted == f["datePosted"].text)
      && (HoldsText(f, "userName") ==> x.userName == f["userName"].text)
      && (HoldsText(f, "imageUrl") ==> x.imageUrl == f["imageUrl"].text)
      && (HoldsText(f, "storagePath") ==> x.storagePath == f["storagePath"].text)
      && ("latitude" in f && f["latitude"].NumberValue? ==> x.latitude == f["latitude"].number)
      && ("longitude" in f && f["longitude"].NumberValue? ==> x.longitude == f["longitude"].number)
  {
  }

  /** Every field the decode reads. */
  const ReadKeys: set<string> := TextKeys + NumberKeys + {"datePosted"}

  /** Typed reads of a field see only that field's raw value. */
  lemma ReadsAgree(f: Fields, g: Fields, key: string)
    requires RawField(f, key) == RawField(g, key)
    ensures forall d :: TextField(f, key, d) == TextField(g, key, d)
    ensures NumberField(f, key) == NumberField(g, key)
  {
  }

  /** The decode depends on the document id and the fields it reads, and on nothing else. */
  lemma DecodeFrame(d1: Document, d2: Document, format: Timestamp -> string)
    requires d1.id == d2.id
    requires forall k :: k in ReadKeys ==> RawField(d1.fields, k) == RawField(d2.fields, k)
    ensures Decode(d1, format) == Decode(d2, format)
  {
    var f, g := d1.fields, d2.fields;
    ReadsAgree(f, g, "ownerId");
    ReadsAgree(f, g, "itemName");
    ReadsAgree(f, g, "location");
    ReadsAgree(f, g, "description");
    ReadsAgree(f, g, "additionalInfo");
    ReadsAgree(f, g, "city");
    ReadsAgree(f, g, "state");
    ReadsAgree(f, g, "status");
    ReadsAgree(f, g, "userName");
    ReadsAgree(f, g, "imageUrl");
    ReadsAgree(f, g, "storagePath");
    ReadsAgree(f, g, "latitude");
    ReadsAgree(f, g, "longitude");
    assert RawField(f, "datePosted") == RawField(g, "datePosted");
  }

  /** The decode never reads `contactInfo`: whatever the document holds there, the record has the default. */
  lemma DecodeIgnoresContactInfo(doc: Document, v: Value, format: Timestamp -> string)
    ensures Decode(Document(doc.id, doc.fields["contactInfo" := v]), format) == Decode(doc, format)
  {
    assert "contactInfo" !in ReadKeys;
    DecodeFrame(Document(doc.id, doc.fields["contactInfo" := v]), doc, format);
  }

  /** A document with no fields, such as a missing one, decodes to the all-defaults record. */
  lemma DecodeEmptyDocument(id: string, format: Timestamp -> string)
    ensures Decode(Document(id, map[]), format) == Some(DefaultItem(id))
  {
  }

  // ---------------------------------------------------------------------------
  // Shaping a snapshot

  /** `documents.mapNotNull { decode }`: the decodable documents' records, in snapshot order. */
  function DecodeAll(docs: seq<Document>, format: Timestamp -> string): seq<LostItem> {
    if docs == [] then [] else DecodeOne(docs[0], format) + DecodeAll(docs[1..], format)
  }

  /** One document's contribution to `mapNotNull`: its record, or nothing. */
  function DecodeOne(doc: Document, format: Timestamp -> string): seq<LostItem> {
    match Decode(doc, format)
    case Some(x) => [x]
    case None => []
  }

  lemma {:induction false} DecodeAllAppend(a: seq<Document>, b: seq<Document>, format: Timestamp -> string)
    ensures DecodeAll(a + b, format) == DecodeAll(a, format) + DecodeAll(b, format)
  {
    if a == [] {
      assert a + b == b;
    } else {
      assert (a + b)[0] == a[0] && (a + b)[1..] == a[1..] + b;
      DecodeAllAppend(a[1..], b, format);
      calc {
        DecodeAll(a + b, format);
        DecodeOne(a[0], format) + DecodeAll(a[1..] + b, format);
        DecodeOne(a[0], format) + (DecodeAll(a[1..], format) + DecodeAll(b, format));
        (DecodeOne(a[0], format) + DecodeAll(a[1..], format)) + DecodeAll(b, format);
      }
    }
  }

  lemma DecodeAllSingleton(doc: Document, format: Timestamp -> string)
    ensures DecodeAll([doc], format) == DecodeOne(doc, format)
  {
    assert [doc][1..] == [];
  }

  /** A document whose decode throws is dropped; the documents around it stay, in order. */
  lemma DecodeAllDropsUndecodable(a: seq<Document>, bad: Document, b: seq<Document>, format: Timestamp -> string)
    requires Decode(bad, format).None?
    ensures DecodeAll(a + [bad] + b, format) == DecodeAll(a, format) + DecodeAll(b, format)
  {
    DecodeAllAppend(a + [bad], b, format);
    DecodeAllAppend(a, [bad], format);
    DecodeAllSingleton(bad, format);
  }

  /** A record is in the decoded list exactly when some document of the snapshot decodes to it. */
  lemma {:induction false} DecodeAllMembers(docs: seq<Document>, x: LostItem, format: Timestamp -> string)
    ensures x in DecodeAll(docs, format) <==> exists d :: d in docs && Decode(d, format) == Some(x)
  {
    if docs != [] {
      DecodeAllMembers(docs[1..], x, format);
      assert forall d :: d in docs <==> d == docs[0] || d in docs[1..];
    }
  }

  /** No order is ever `datePosted`-violating: every later item's date is not greater than an earlier one's. */
  predicate SortedByDateDesc(s: seq<LostItem>) {
    forall i, j :: 0 <= i < j < |s| ==> LexLe(s[j].datePosted, s[i].datePosted)
  }

  /** The items of `s` whose `datePosted` is `key`, in order. */
  function WithDate(s: seq<LostItem>, key: string): seq<LostItem> {
    if s == [] then []
    else (if s[0].datePosted == key then [s[0]] else []) + WithDate(s[1..], key)
  }

  /** Inserts `x` before the first element whose date does not exceed its own. */
  function InsertByDate(x: LostItem, s: seq<LostItem>): seq<LostItem> {
    if s == [] || LexLe(s[0].datePosted, x.datePosted) then [x] + s
    else [s[0]] + InsertByDate(x, s[1..])
  }

  /** `sortedByDescending { it.datePosted }`, a stable sort. */
  function SortByDatePosted(s: seq<LostItem>): seq<LostItem> {
    if s == [] then [] else InsertByDate(s[0], SortByDatePosted(s[1..]))
  }

  lemma {:induction false} InsertByDateCount(x: LostItem, s: seq<LostItem>)
    ensures multiset(InsertByDate(x, s)) == multiset(s) + multiset{x}
  {
    if s != [] && !LexLe(s[0].datePosted, x.datePosted) {
      InsertByDateCount(x, s[1..]);
      assert s == [s[0]] + s[1..];
    }
  }

  lemma {:induction false} InsertByDateSorted(x: LostItem, s: seq<LostItem>)
    requires SortedByDateDesc(s)
    ensures SortedByDateDesc(InsertByDate(x, s))
  {
    var r := InsertByDate(x, s);
    if s == [] || LexLe(s[0].datePosted, x.datePosted) {
      forall i, j | 0 <= i < j < |r| ensures LexLe(r[j].datePosted, r[i].datePosted) {
        if i == 0 {
          if j - 1 > 0 {
            LexLeTransitive(s[j - 1].datePosted, s[0].datePosted, x.datePosted);
          }
        }
      }
    } else {
      var t := InsertByDate(x, s[1..]);
      InsertByDateSorted(x, s[1..]);
      InsertByDateCount(x, s[1..]);
      LexLeTotal(s[0].datePosted, x.datePosted);
      forall j | 0 <= j < |t| ensures LexLe(t[j].datePosted, s[0].datePosted) {
        assert t[j] in multiset(t);
        if t[j] != x {
          assert t[j] in multiset(s[1..]);
          var k :| 1 <= k < |s| && s[k] == t[j];
        }
      }
      assert r == [s[0]] + t;
    }
  }

  lemma {:induction false} InsertByDateWithDate(x: LostItem, s: seq<LostItem>, key: string)
    ensures WithDate(InsertByDate(x, s), key) == (if x.datePosted == key then [x] else []) + WithDate(s, key)
  {
    if s == [] || LexLe(s[0].datePosted, x.datePosted) {
      assert ([x] + s)[1..] == s;
    } else {
      var t := InsertByDate(x, s[1..]);
      LexLeReflexive(x.datePosted);
      assert s[0].datePosted != x.datePosted;
      InsertByDateWithDate(x, s[1..], key);
      assert ([s[0]] + t)[1..] == t;
    }
  }

  /** The snapshot order: non-increasing by `datePosted`. */
  lemma {:induction false} SortByDatePostedSorted(s: seq<LostItem>)
    ensures SortedByDateDesc(SortByDatePosted(s))
  {
    if s != [] {
      SortByDatePostedSorted(s[1..]);
      InsertByDateSorted(s[0], SortByDatePosted(s[1..]));
    }
  }

  /** Sorting neither adds nor loses an item. */
  lemma {:induction false} SortByDatePostedPermutes(s: seq<LostItem>)
    ensures multiset(SortByDatePosted(s)) == multiset(s)
  {
    if s != [] {
      SortByDatePostedPermutes(s[1..]);
      InsertByDateCount(s[0], SortByDatePosted(s[1..]));
      assert s == [s[0]] + s[1..];
    }
  }

  /** Stability: items with equal dates keep their snapshot order. */
  lemma {:induction false} SortByDatePostedStable(s: seq<LostItem>, key: string)
    ensures WithDate(SortByDatePosted(s), key) == WithDate(s, key)
  {
    if s != [] {
      SortByDatePostedStable(s[1..], key);
      InsertByDateWithDate(s[0], SortByDatePosted(s[1..]), key);
    }
  }

  /** One snapshot's emitted list: decode what decodes, then sort; a null snapshot gives the empty list. */
  function SnapshotItems(snapshot: Option<seq<Document>>, format: Timestamp -> string): seq<LostItem> {
    match snapshot
    case None => []
    case Some(docs) => SortByDatePosted(DecodeAll(docs, format))
  }

  /**
   * The emitted list is the decoded items, sorted by date descending, stable, nothing added or lost;
   * a null snapshot emits the empty list.
   */
  lemma SnapshotItemsSpec(docs: seq<Document>, format: Timestamp -> string)
    ensures SnapshotItems(None, format) == []
    ensures var r, d := SnapshotItems(Some(docs), format), DecodeAll(docs, format);
      && SortedByDateDesc(r)
      && multiset(r) == multiset(d)
      && (forall key :: WithDate(r, key) == WithDate(d, key))
  {
    var d := DecodeAll(docs, format);
    SortByDatePostedSorted(d);
    SortByDatePostedPermutes(d);
    forall key ensures WithDate(SortByDatePosted(d), key) == WithDate(d, key) {
      SortByDatePostedStable(d, key);
    }
  }

  /** What one snapshot-listener callback sends: the next list, or the error that closes the stream. */
  datatype StreamEvent = Emitted(items: seq<LostItem>) | Closed(error: Exception)

  /** The snapshot listener body: an error closes the flow, otherwise the shaped list is sent. */
  function OnSnapshot(snapshot: Option<seq<Document>>, error: Option<Exception>, format: Timestamp -> string): StreamEvent {
    if error.Some? then Closed(error.value) else Emitted(SnapshotItems(snapshot, format))
  }

  /** The store's evaluation of `whereEqualTo(field, value)` over the collection's snapshot. */
  function Query(collection: Option<seq<Document>>, field: string, value: string): Option<seq<Document>> {
    match collection
    case None => None
    case Some(docs) => Some(WhereEqualTo(docs, field, value))
  }

  /** `getAllItems`: one event of the unfiltered stream. */
  function AllItemsEvent(collection: Option<seq<Document>>, error: Option<Exception>, format: Timestamp -> string): StreamEvent {
    OnSnapshot(collection, error, format)
  }

  /** `getItemsByState(state)`: one event of the stream filtered on `state`. */
  function ItemsByStateEvent(collection: Option<seq<Document>>, error: Option<Exception>, state: string,
                             format: Timestamp -> string): StreamEvent {
    OnSnapshot(Query(collection, "state", state), error, format)
  }

  /** `getItemsByOwnerId(ownerId)`: one event of the stream filtered on `ownerId`. */
  function ItemsByOwnerEvent(collection: Option<seq<Document>>, error: Option<Exception>, ownerId: string,
                             format: Timestamp -> string): StreamEvent {
    OnSnapshot(Query(collection, "ownerId", ownerId), error, format)
  }

  /** Every record a filtered query emits comes from a document the filter admitted. */
  lemma QueryItemsFrom(docs: seq<Document>, field: string, value: string, x: LostItem, format: Timestamp -> string)
    requires x in SnapshotItems(Query(Some(docs), field, value), format)
    ensures exists d :: d in docs && HoldsText(d.fields, field) && d.fields[field].text == value
                        && Decode(d, format) == Some(x)
  {
    var w := WhereEqualTo(docs, field, value);
    SortByDatePostedPermutes(DecodeAll(w, format));
    assert x in multiset(DecodeAll(w, format));
    DecodeAllMembers(w, x, format);
  }

  /** Every record of the state stream has that state; a listener error closes the stream with it. */
  lemma ItemsByStateMatch(collection: Option<seq<Document>>, error: Option<Exception>, state: string,
                          format: Timestamp -> string)
    ensures var e := ItemsByStateEvent(collection, error, state, format);
      e.Emitted? ==> forall x :: x in e.items ==> x.state == state
    ensures error.Some? ==> ItemsByStateEvent(collection, error, state, format) == Closed(error.value)
    ensures error.None? ==> ItemsByStateEvent(collection, error, state, format).Emitted?
  {
    var e := ItemsByStateEvent(collection, error, state, format);
    if e.Emitted? && collection.Some? {
      forall x | x in e.items ensures x.state == state {
        QueryItemsFrom(collection.value, "state", state, x, format);
        var d :| d in collection.value && HoldsText(d.fields, "state") && d.fields["state"].text == state
                 && Decode(d, format) == Some(x);
        DecodeCopiesValues(d, format);
      }
    }
  }

  /** Every record of the owner stream has that owner; a listener error closes the stream with it. */
  lemma ItemsByOwnerMatch(collection: Option<seq<Document>>, error: Option<Exception>, ownerId: string,
                          format: Timestamp -> string)
    ensures var e := ItemsByOwnerEvent(collection, error, ownerId, format);
      e.Emitted? ==> forall x :: x in e.items ==> x.ownerId == ownerId
    ensures error.Some? ==> ItemsByOwnerEvent(collection, error, ownerId, format) == Closed(error.value)
    ensures error.None? ==> ItemsByOwnerEvent(collection, error, ownerId, format).Emitted?
  {
    var e := ItemsByOwnerEvent(collection, error, ownerId, format);
    if e.Emitted? && collection.Some? {
      forall x | x in e.items ensures x.ownerId == ownerId {
        QueryItemsFrom(collection.value, "ownerId", ownerId, x, format);
        var d :| d in collection.value && HoldsText(d.fields, "ownerId") && d.fields["ownerId"].text == ownerId
                 && Decode(d, format) == Some(x);
        DecodeCopiesValues(d, format);
      }
    }
  }

  // ---------------------------------------------------------------------------
  // Submitting

  /** `auth.currentUser?.displayName ?: fallback`. */
  function DisplayNameOr(user: Option<User>, fallback: string): string {
    match user
    case Some(User(_, Some(name))) => name
    case _ => fallback
  }

  /** The map `submitLostItem` adds to the collection; `currentDate` is today's formatted date. */
  function SubmitPayload(item: LostItem, user: Option<User>, currentDate: string): Fields {
    map[
      "ownerId" := (if user.Some? then StringValue(user.value.uid) else NullValue),
      "itemName" := StringValue(item.itemName),
      "location" := StringValue(item.location),
      "description" := StringValue(item.description),
      "additionalInfo" := StringValue(item.additionalInfo),
      "city" := StringValue(item.city),
      "state" := StringValue(item.state),
      "status" := StringValue(if IsBlank(item.status) then DefaultStatus else item.status),
      "datePosted" := StringValue(currentDate),
      "userName" := StringValue(DisplayNameOr(user, "Anonymous")),
      "imageUrl" := StringValue(item.imageUrl),
      "latitude" := NumberValue(item.latitude),
      "longitude" := NumberValue(item.longitude)
    ]
  }

  /**
   * The payload's shape: exactly the thirteen keys (no `storagePath`, no `contactInfo`, no `id`);
   * a blank status becomes "Lost"; the date is today's, never the input's; the name falls back to "Anonymous".
   */
  lemma SubmitPayloadShape(item: LostItem, user: Option<User>, currentDate: string)
    ensures var p := SubmitPayload(item, user, currentDate);
      && p.Keys == {"ownerId", "itemName", "location", "description", "additionalInfo", "city", "state",
                    "status", "datePosted", "userName", "imageUrl", "latitude", "longitude"}
      && "storagePath" !in p && "contactInfo" !in p
      && p["status"] == StringValue(if IsBlank(item.status) then "Lost" else item.status)
      && p["datePosted"] == StringValue(currentDate)
      && (user.None? || user.value.displayName.None? ==> p["userName"] == StringValue("Anonymous"))
      && (user.None? ==> p["ownerId"] == NullValue)
  {
    SubmitPayloadReads(item, user, currentDate);
  }

  /**
   * Reading a submitted document back: every submitted field returns, with the owner ("" when no one
   * was signed in), the defaulted status, today's date, no storage path and the default contact info.
   */
  lemma SubmitRoundTrip(id: string, item: LostItem, user: Option<User>, currentDate: string, format: Timestamp -> string)
    ensures Decode(Document(id, SubmitPayload(item, user, currentDate)), format) ==
      Some(item.(id := id,
                 ownerId := (if user.Some? then user.value.uid else ""),
                 status := (if IsBlank(item.status) then "Lost" else item.status),
                 datePosted := currentDate,
                 userName := DisplayNameOr(user, "Anonymous"),
                 storagePath := "",
                 contactInfo := DefaultContactInfo))
  {
    var p := SubmitPayload(item, user, currentDate);
    var status := if IsBlank(item.status) then DefaultStatus else item.status;
    SubmitPayloadReads(item, user, currentDate);
    assert TextField(p, "ownerId", DefaultText) == Some(if user.Some? then user.value.uid else "");
    assert TextField(p, "status", DefaultStatus) == Some(status);
  }

  /** The raw value each read of the decode finds in a submitted payload. */
  lemma SubmitPayloadReads(item: LostItem, user: Option<User>, currentDate: string)
    ensures var p := SubmitPayload(item, user, currentDate);
      && RawField(p, "ownerId") == Some(if user.Some? then StringValue(user.value.uid) else NullValue)
      && RawField(p, "itemName") == Some(StringValue(item.itemName))
      && RawField(p, "location") == Some(StringValue(item.location))
      && RawField(p, "description") == Some(StringValue(item.description))
      && RawField(p, "additionalInfo") == Some(StringValue(item.additionalInfo))
      && RawField(p, "city") == Some(StringValue(item.city))
      && RawField(p, "state") == Some(StringValue(item.state))
      && RawField(p, "status") == Some(StringValue(if IsBlank(item.status) then DefaultStatus else item.status))
      && RawField(p, "datePosted") == Some(StringValue(currentDate))
      && RawField(p, "userName") == Some(StringValue(DisplayNameOr(user, "Anonymous")))
      && RawField(p, "imageUrl") == Some(StringValue(item.imageUrl))
      && RawField(p, "storagePath") == None
      && RawField(p, "latitude") == Some(NumberValue(item.latitude))
      && RawField(p, "longitude") == Some(NumberValue(item.longitude))
  {
  }

  // ---------------------------------------------------------------------------
  // Point read

  /**
   * `getItemById`: a failed read throws; otherwise the same decode as the streams, where a
   * document that does not exist reads as one with no fields.
   */
  function GetItemById(documents: map<string, Fields>, itemId: string, readFailure: Option<Exception>,
                       format: Timestamp -> string): Result<Option<LostItem>, Exception> {
    if readFailure.Some? then Failure(readFailure.value)
    else Success(Decode(Document(itemId, FieldsOf(documents, itemId)), format))
  }

  /** A missing document is not reported as missing: it reads as the all-defaults record. */
  lemma GetItemByIdMissing(documents: map<string, Fields>, itemId: string, format: Timestamp -> string)
    requires itemId !in documents
    ensures GetItemById(documents, itemId, None, format) == Success(Some(DefaultItem(itemId)))
  {
  }

  /**
   * `getItemById` returns null exactly when the document exists and its decode throws; a failed
   * read ends in that failure.
   */
  lemma GetItemByIdNullIff(documents: map<string, Fields>, itemId: string, readFailure: Option<Exception>,
                           format: Timestamp -> string)
    ensures GetItemById(documents, itemId, readFailure, format) == Success(None) <==>
      readFailure.None? && itemId in documents && !WellTyped(documents[itemId])
    ensures readFailure.Some? ==> GetItemById(documents, itemId, readFailure, format) == Failure(readFailure.value)
  {
    DecodeSucceedsIffWellTyped(Document(itemId, FieldsOf(documents, itemId)), format);
  }

  // ---------------------------------------------------------------------------
  // Writes against the collection

  /** The document after `update("status", status)`. */
  function WithStatus(fields: Fields, status: string): Fields {
    fields["status" := StringValue(status)]
  }

  /** A status update changes the decoded record's status and nothing else. */
  lemma WithStatusDecodes(doc: Document, status: string, format: Timestamp -> string)
    requires Decode(doc, format).Some?
    ensures Decode(Document(doc.id, WithStatus(doc.fields, status)), format) ==
      Some(Decode(doc, format).value.(status := status))
  {
    var f, g := doc.fields, WithStatus(doc.fields, status);
    ReadsAgree(f, g, "ownerId");
    ReadsAgree(f, g, "itemName");
    ReadsAgree(f, g, "location");
    ReadsAgree(f, g, "description");
    ReadsAgree(f, g, "additionalInfo");
    ReadsAgree(f, g, "city");
    ReadsAgree(f, g, "state");
    ReadsAgree(f, g, "userName");
    ReadsAgree(f, g, "imageUrl");
    ReadsAgree(f, g, "storagePath");
    ReadsAgree(f, g, "latitude");
    ReadsAgree(f, g, "longitude");
    assert RawField(f, "datePosted") == RawField(g, "datePosted");
    assert TextField(g, "status", DefaultStatus) == Some(status);
  }

  /** The `lost-items` collection, keyed by document id. */
  class LostItemCollection {
    var documents: map<string, Fields>

    constructor (documents: map<string, Fields>)
      ensures this.documents == documents
    {
      this.documents := documents;
    }

    /**
     * `updateStatus` (and `updateItemStatus`, which throws where this returns a failure):
     * a store failure, or a document that does not exist, fails and changes nothing;
     * otherwise only the named document's `status` changes.
     */
    method UpdateStatus(itemId: string, status: string, storeFailure: Option<Exception>) returns (r: Outcome<Exception>)
      modifies this
      ensures storeFailure.Some? ==> r == Fail(storeFailure.value) && documents == old(documents)
      ensures storeFailure.None? && itemId !in old(documents) ==>
        r == Fail(DocumentNotFound(itemId)) && documents == old(documents)
      ensures storeFailure.None? && itemId in old(documents) ==>
        r == Pass && documents == old(documents)[itemId := WithStatus(old(documents)[itemId], status)]
    {
      if storeFailure.Some? {
        return Fail(storeFailure.value);
      }
      if itemId !in documents {
        return Fail(DocumentNotFound(itemId));
      }
      documents := documents[itemId := WithStatus(documents[itemId], status)];
      return Pass;
    }

    /**
     * `deleteItem`: on success the document is gone (deleting a missing one also succeeds) and the
     * success callback runs; on a store failure nothing changes and the failure callback gets the exception.
     */
    method DeleteItem(itemId: string, storeFailure: Option<Exception>) returns (r: Outcome<Exception>)
      modifies this
      ensures storeFailure.Some? ==> r == Fail(storeFailure.value) && documents == old(documents)
      ensures storeFailure.None? ==> r == Pass && documents == old(documents) - {itemId}
    {
      if storeFailure.Some? {
        return Fail(storeFailure.value);
      }
      documents := documents - {itemId};
      return Pass;
    }
  }
}
