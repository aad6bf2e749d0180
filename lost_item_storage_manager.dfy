/**
 * The storage manager's media workflows against three stores: the signed-in user, the
 * `lost-items` documents and the set of blob paths holding uploaded images. Each workflow is
 * a fixed sequence of steps (auth gate, ownership gate, blob step, document step); a step
 * that throws ends the call with that exception, and nothing done before it is undone.
 * Every step's failure is an input. The specification functions describe the outcome and
 * the new stores; the class's methods perform the steps one at a time and are proved to
 * reach exactly that outcome.
 */
module LostItemStorageManager {
  import opened Wrappers
  import opened Text
  import opened DocumentStore
  import opened LostItemModel
  import opened Auth
  import LostItemRepository

  /** The document store and the blob store together. */
  datatype Stores = Stores(documents: map<string, Fields>, blobs: set<string>)

  /** The item fields `createLostItem` takes (the image itself is the blob written at the new path). */
  datatype CreateRequest = CreateRequest(
    itemName: string,
    description: string,
    city: string,
    state: string,
    location: string,
    latitude: real,
    longitude: real,
    contactInfo: string)

  /** The failure, if any, of each step of `createLostItem`; `downloadUrl` is the URL step's outcome. */
  datatype CreateFaults = CreateFaults(upload: Option<Exception>, downloadUrl: Result<string, Exception>,
                                       write: Option<Exception>)

  /** The failure, if any, of each step of `updateItemImage`. */
  datatype UpdateImageFaults = UpdateImageFaults(read: Option<Exception>, deleteOld: Option<Exception>,
                                                 upload: Option<Exception>, downloadUrl: Result<string, Exception>,
                                                 update: Option<Exception>)

  /** The failure, if any, of each step of `deleteItem`. */
  datatype DeleteFaults = DeleteFaults(read: Option<Exception>, deleteBlob: Option<Exception>,
                                       deleteDocument: Option<Exception>)

  /** The exception every workflow returns when no one is signed in. */
  const NotAuthenticated: Exception := Raised("User not authenticated")

  /** The exception of the ownership gate. */
  const Unauthorized: Exception := Raised("Unauthorized")

  /** `users/$userId/lost-items/$itemId/image_$timestamp.jpg`, with the timestamp in milliseconds. */
  function ImagePath(uid: string, itemId: string, millis: nat): string {
    "users/" + uid + "/lost-items/" + itemId + "/image_" + DecimalString(millis) + ".jpg"
  }

  /** An uploaded image lives under its owner's folder, in the folder of its item. */
  lemma ImagePathUnderOwner(uid: string, itemId: string, millis: nat)
    ensures var p, folder := ImagePath(uid, itemId, millis), "users/" + uid + "/lost-items/" + itemId + "/";
      folder <= p && |p| > |folder| + |"image_.jpg"|
  {
    var folder := "users/" + uid + "/lost-items/" + itemId + "/";
    var p := ImagePath(uid, itemId, millis);
    assert p == folder + ("image_" + DecimalString(millis) + ".jpg");
  }

  /** Distinct upload times give distinct image paths for the same owner and item. */
  lemma ImagePathInjective(uid: string, itemId: string, m: nat, n: nat)
    ensures ImagePath(uid, itemId, m) == ImagePath(uid, itemId, n) <==> m == n
  {
    if ImagePath(uid, itemId, m) == ImagePath(uid, itemId, n) {
      var prefix := "users/" + uid + "/lost-items/" + itemId + "/image_";
      var p, q := ImagePath(uid, itemId, m), ImagePath(uid, itemId, n);
      assert p == prefix + DecimalString(m) + ".jpg";
      assert q == prefix + DecimalString(n) + ".jpg";
      assert DecimalString(m) == p[|prefix|..|p| - 4];
      assert DecimalString(n) == q[|prefix|..|q| - 4];
      DecimalStringInjective(m, n);
    }
  }

  /** The document `createLostItem` writes. */
  function CreatePayload(req: CreateRequest, user: User, downloadUrl: string, path: string, now: Timestamp): Fields {
    map[
      "itemName" := StringValue(req.itemName),
      "description" := StringValue(req.description),
      "city" := StringValue(req.city),
      "state" := StringValue(req.state),
      "location" := StringValue(req.location),
      "latitude" := NumberValue(req.latitude),
      "longitude" := NumberValue(req.longitude),
      "imageUrl" := StringValue(downloadUrl),
      "storagePath" := StringValue(path),
      "ownerId" := StringValue(user.uid),
      "userName" := StringValue(user.displayName.GetOr("Unknown")),
      "datePosted" := TimestampValue(now),
      "additionalInfo" := StringValue(""),
      "status" := StringValue("Lost"),
      "contactInfo" := StringValue(req.contactInfo)
    ]
  }

  /**
   * `createLostItem`: the auth gate, the upload to the new path, the URL step, then the write of
   * the whole document under `itemId`; the result is `itemId`.
   */
  function CreateLostItemSpec(s: Stores, user: Option<User>, req: CreateRequest, itemId: string, millis: nat,
                              now: Timestamp, faults: CreateFaults): (Result<string, Exception>, Stores) {
    if user.None? then (Failure(NotAuthenticated), s)
    else
      var path := ImagePath(user.value.uid, itemId, millis);
      if faults.upload.Some? then (Failure(faults.upload.value), s)
      else
        var uploaded := s.(blobs := s.blobs + {path});
        if faults.downloadUrl.Failure? then (Failure(faults.downloadUrl.error), uploaded)
        else if faults.write.Some? then (Failure(faults.write.value), uploaded)
        else
          var doc := CreatePayload(req, user.value, faults.downloadUrl.value, path, now);
          (Success(itemId), uploaded.(documents := s.documents[itemId := doc]))
  }

  /** The blob `delete` step: fails on an injected failure or when no object is at the path. */
  function DeleteBlob(blobs: set<string>, path: string, failure: Option<Exception>): (r: Result<set<string>, Exception>)
    ensures r.Success? <==> failure.None? && path in blobs
    ensures r.Success? ==> r.value == blobs - {path} && path !in r.value
  {
    if failure.Some? then Failure(failure.value)
    else if path !in blobs then Failure(ObjectNotFound(path))
    else Success(blobs - {path})
  }

  /**
   * The two gates `updateItemImage` and `deleteItem` share: signed in, the read succeeds, and
   * `getString("ownerId")` equals the caller's uid. On success, the document's fields.
   */
  function OwnedDocument(s: Stores, user: Option<User>, itemId: string, readFailure: Option<Exception>): Result<Fields, Exception> {
    if user.None? then Failure(NotAuthenticated)
    else if readFailure.Some? then Failure(readFailure.value)
    else
      var fields := FieldsOf(s.documents, itemId);
      match GetString(fields, "ownerId")
      case Failure(e) => Failure(e)
      case Success(owner) => if owner != Some(user.value.uid) then Failure(Unauthorized) else Success(fields)
  }

  /** The document after `update(imageUrl, storagePath)`: only those two fields change. */
  function WithImage(fields: Fields, downloadUrl: string, path: string): Fields {
    fields["imageUrl" := StringValue(downloadUrl)]["storagePath" := StringValue(path)]
  }

  /**
   * `updateItemImage`: the gates, the delete of the old blob when the document names one, the
   * upload to a new path, the URL step, then the two-field update; the result is the new URL.
   */
  function UpdateItemImageSpec(s: Stores, user: Option<User>, itemId: string, millis: nat,
                               faults: UpdateImageFaults): (Result<string, Exception>, Stores) {
    match OwnedDocument(s, user, itemId, faults.read)
    case Failure(e) => (Failure(e), s)
    case Success(fields) =>
      match GetString(fields, "storagePath")
      case Failure(e) => (Failure(e), s)
      case Success(oldPath) =>
        var cleared := if oldPath.Some? then DeleteBlob(s.blobs, oldPath.value, faults.deleteOld) else Success(s.blobs);
        if cleared.Failure? then (Failure(cleared.error), s)
        else
          var path := ImagePath(user.value.uid, itemId, millis);
          if faults.upload.Some? then (Failure(faults.upload.value), s.(blobs := cleared.value))
          else
            var uploaded := s.(blobs := cleared.value + {path});
            if faults.downloadUrl.Failure? then (Failure(faults.downloadUrl.error), uploaded)
            else if faults.update.Some? then (Failure(faults.update.value), uploaded)
            else if itemId !in s.documents then (Failure(DocumentNotFound(itemId)), uploaded)
            else
              var url := faults.downloadUrl.value;
              (Success(url), uploaded.(documents := s.documents[itemId := WithImage(s.documents[itemId], url, path)]))
  }

  /** `deleteItem`: the gates, the delete of the blob the document names, then the delete of the document. */
  function DeleteItemSpec(s: Stores, user: Option<User>, itemId: string, faults: DeleteFaults): (Outcome<Exception>, Stores) {
    match OwnedDocument(s, user, itemId, faults.read)
    case Failure(e) => (Fail(e), s)
    case Success(fields) =>
      match GetString(fields, "storagePath")
      case Failure(e) => (Fail(e), s)
      case Success(path) =>
        var cleared := if path.Some? then DeleteBlob(s.blobs, path.value, faults.deleteBlob) else Success(s.blobs);
        if cleared.Failure? then (Fail(cleared.error), s)
        else if faults.deleteDocument.Some? then (Fail(faults.deleteDocument.value), s.(blobs := cleared.value))
        else (Pass, Stores(s.documents - {itemId}, cleared.value))
  }

  /** The ids of the documents whose `ownerId` is the string `uid`. */
  function OwnedIds(documents: map<string, Fields>, uid: string): (ids: set<string>)
    ensures forall id :: id in ids <==> id in documents && "ownerId" in documents[id] &&
                                         documents[id]["ownerId"] == StringValue(uid)
  {
    set id | id in documents && "ownerId" in documents[id] && documents[id]["ownerId"] == StringValue(uid)
  }

  /** `doc.data + ("id" to doc.id)`: the document's fields with its id added, replacing any `id` field. */
  function WithId(fields: Fields, id: string): Fields {
    fields["id" := StringValue(id)]
  }

  // ---------------------------------------------------------------------------
  // Properties of the workflows

  /** With no one signed in, every workflow fails "User not authenticated" and changes no store. */
  lemma NoUserChangesNothing(s: Stores, req: CreateRequest, itemId: string, millis: nat, now: Timestamp,
                             cf: CreateFaults, uf: UpdateImageFaults, df: DeleteFaults)
    ensures CreateLostItemSpec(s, None, req, itemId, millis, now, cf) == (Failure(NotAuthenticated), s)
    ensures UpdateItemImageSpec(s, None, itemId, millis, uf) == (Failure(NotAuthenticated), s)
    ensures DeleteItemSpec(s, None, itemId, df) == (Fail(NotAuthenticated), s)
    ensures NotAuthenticated.Message() == Some("User not authenticated")
  {
  }

  /**
   * `createLostItem` succeeds exactly when every step does; it then returns `itemId`, adds the
   * uploaded path to the blobs, and writes under `itemId` a document owned by the caller whose
   * `storagePath` is that path, with status "Lost" and empty `additionalInfo`; no other document changes.
   */
  lemma CreateSucceeds(s: Stores, user: Option<User>, req: CreateRequest, itemId: string, millis: nat,
                       now: Timestamp, faults: CreateFaults)
    ensures var (r, t) := CreateLostItemSpec(s, user, req, itemId, millis, now, faults);
      && (r.Success? <==> user.Some? && faults.upload.None? && faults.downloadUrl.Success? && faults.write.None?)
      && (r.Success? ==>
            var path := ImagePath(user.value.uid, itemId, millis);
            && r.value == itemId
            && t.blobs == s.blobs + {path}
            && t.documents.Keys == s.documents.Keys + {itemId}
            && (forall id :: id in s.documents && id != itemId ==> t.documents[id] == s.documents[id])
            && t.documents[itemId]["storagePath"] == StringValue(path)
            && t.documents[itemId]["ownerId"] == StringValue(user.value.uid)
            && t.documents[itemId]["status"] == StringValue("Lost")
            && t.documents[itemId]["additionalInfo"] == StringValue(""))
  {
  }

  /**
   * When the upload or the URL step fails no document is written; when the write fails after a
   * successful upload the uploaded blob stays behind.
   */
  lemma CreateFailureWritesNoDocument(s: Stores, user: User, req: CreateRequest, itemId: string, millis: nat,
                                      now: Timestamp, faults: CreateFaults)
    requires faults.upload.Some? || faults.downloadUrl.Failure? || faults.write.Some?
    ensures var (r, t) := CreateLostItemSpec(s, Some(user), req, itemId, millis, now, faults);
      && r.Failure? && t.documents == s.documents
      && (faults.upload.None? ==> t.blobs == s.blobs + {ImagePath(user.uid, itemId, millis)})
      && (faults.upload.Some? ==> t.blobs == s.blobs)
  {
  }

  /** A created document, read back by the repository, decodes to the request's record. */
  lemma CreatedItemDecodes(req: CreateRequest, user: User, downloadUrl: string, path: string, now: Timestamp,
                           itemId: string, format: Timestamp -> string)
    ensures LostItemRepository.Decode(Document(itemId, CreatePayload(req, user, downloadUrl, path, now)), format) ==
      Some(LostItem(itemId, user.uid, req.itemName, req.location, req.description, "", req.city, req.state, "Lost",
                    format(now), user.displayName.GetOr("Unknown"), downloadUrl, path, req.latitude, req.longitude,
                    DefaultContactInfo))
  {
    var p := CreatePayload(req, user, downloadUrl, path, now);
    CreatePayloadReads(req, user, downloadUrl, path, now);
    assert LostItemRepository.TextField(p, "status", DefaultStatus) == Some("Lost");
  }

  /** The raw value each read of the decode finds in a created document. */
  lemma CreatePayloadReads(req: CreateRequest, user: User, downloadUrl: string, path: string, now: Timestamp)
    ensures var p := CreatePayload(req, user, downloadUrl, path, now);
      && LostItemRepository.RawField(p, "ownerId") == Some(StringValue(user.uid))
      && LostItemRepository.RawField(p, "itemName") == Some(StringValue(req.itemName))
      && LostItemRepository.RawField(p, "location") == Some(StringValue(req.location))
      && LostItemRepository.RawField(p, "description") == Some(StringValue(req.description))
      && LostItemRepository.RawField(p, "additionalInfo") == Some(StringValue(""))
      && LostItemRepository.RawField(p, "city") == Some(StringValue(req.city))
      && LostItemRepository.RawField(p, "state") == Some(StringValue(req.state))
      && LostItemRepository.RawField(p, "status") == Some(StringValue("Lost"))
      && LostItemRepository.RawField(p, "datePosted") == Some(TimestampValue(now))
      && LostItemRepository.RawField(p, "userName") == Some(StringValue(user.displayName.GetOr("Unknown")))
      && LostItemRepository.RawField(p, "imageUrl") == Some(StringValue(downloadUrl))
      && LostItemRepository.RawField(p, "storagePath") == Some(StringValue(path))
      && LostItemRepository.RawField(p, "latitude") == Some(NumberValue(req.latitude))
      && LostItemRepository.RawField(p, "longitude") == Some(NumberValue(req.longitude))
  {
  }

  /**
   * The ownership gate: a signed-in caller whose uid is not the document's `ownerId` string, which
   * includes a document with no owner and a document that does not exist, fails "Unauthorized"
   * and no store changes.
   */
  lemma NonOwnerChangesNothing(s: Stores, user: User, itemId: string, millis: nat, uf: UpdateImageFaults, df: DeleteFaults)
    requires uf.read.None? && df.read.None?
    requires var f := FieldsOf(s.documents, itemId);
      !("ownerId" in f && f["ownerId"].StringValue? && f["ownerId"].text == user.uid)
    requires var f := FieldsOf(s.documents, itemId);
      "ownerId" in f ==> f["ownerId"].StringValue? || f["ownerId"].NullValue?
    ensures UpdateItemImageSpec(s, Some(user), itemId, millis, uf) == (Failure(Unauthorized), s)
    ensures DeleteItemSpec(s, Some(user), itemId, df) == (Fail(Unauthorized), s)
  {
  }

  /** A missing document is reported as "Unauthorized", not as missing. */
  lemma MissingDocumentUnauthorized(s: Stores, user: User, itemId: string, millis: nat, uf: UpdateImageFaults, df: DeleteFaults)
    requires itemId !in s.documents && uf.read.None? && df.read.None?
    ensures UpdateItemImageSpec(s, Some(user), itemId, millis, uf) == (Failure(Unauthorized), s)
    ensures DeleteItemSpec(s, Some(user), itemId, df) == (Fail(Unauthorized), s)
  {
    NonOwnerChangesNothing(s, user, itemId, millis, uf, df);
  }

  /** Any change to either store made by `updateItemImage` or `deleteItem` is made for the document's owner. */
  lemma OnlyOwnerChangesStores(s: Stores, user: Option<User>, itemId: string, millis: nat,
                               uf: UpdateImageFaults, df: DeleteFaults)
    requires UpdateItemImageSpec(s, user, itemId, millis, uf).1 != s || DeleteItemSpec(s, user, itemId, df).1 != s
    ensures user.Some? && itemId in s.documents && "ownerId" in s.documents[itemId]
    ensures s.documents[itemId]["ownerId"] == StringValue(user.value.uid)
  {
  }

  /**
   * `updateItemImage` on success returns the new URL, changes only the named document and in it only
   * `imageUrl` and `storagePath`, removes the old blob, holds the new one and leaves every other blob;
   * on failure no document changes.
   */
  lemma UpdateItemImageOutcome(s: Stores, user: Option<User>, itemId: string, millis: nat, faults: UpdateImageFaults)
    ensures var (r, t) := UpdateItemImageSpec(s, user, itemId, millis, faults);
      && (r.Failure? ==> t.documents == s.documents)
      && (r.Success? ==>
            && user.Some? && itemId in s.documents
            && faults.downloadUrl == Success(r.value)
            && var path := ImagePath(user.value.uid, itemId, millis);
            && t.documents == s.documents[itemId := WithImage(s.documents[itemId], r.value, path)]
            && t.documents[itemId]["imageUrl"] == StringValue(r.value)
            && t.documents[itemId]["storagePath"] == StringValue(path)
            && (forall k :: k in s.documents[itemId] && k != "imageUrl" && k != "storagePath" ==>
                  t.documents[itemId][k] == s.documents[itemId][k])
            && path in t.blobs
            && var before := s.documents[itemId];
            && var oldPath := if "storagePath" in before && before["storagePath"].StringValue?
                              then Some(before["storagePath"].text) else None;
            && t.blobs == (if oldPath.Some? then s.blobs - {oldPath.value} else s.blobs) + {path}
            && (oldPath.Some? && oldPath.value != path ==> oldPath.value !in t.blobs))
  {
  }

  /**
   * No rollback: once the old blob is deleted, a failed upload leaves the document naming a path
   * that holds no object any more.
   */
  lemma UpdateItemImageDangling(s: Stores, user: User, itemId: string, millis: nat, faults: UpdateImageFaults)
    requires OwnedDocument(s, Some(user), itemId, faults.read).Success?
    requires var f := s.documents[itemId];
      "storagePath" in f && f["storagePath"].StringValue? && f["storagePath"].text in s.blobs
    requires faults.deleteOld.None? && faults.upload.Some?
    ensures var (r, t) := UpdateItemImageSpec(s, Some(user), itemId, millis, faults);
      && r.Failure? && t.documents == s.documents
      && t.documents[itemId]["storagePath"].text !in t.blobs
  {
  }

  /**
   * `deleteItem` removes the blob before the document: on success both are gone and nothing else
   * changed; on any failure, including a failed blob delete, the documents are unchanged.
   */
  lemma DeleteItemOutcome(s: Stores, user: Option<User>, itemId: string, faults: DeleteFaults)
    ensures var (r, t) := DeleteItemSpec(s, user, itemId, faults);
      && (r.Fail? ==> t.documents == s.documents)
      && (r.Fail? && faults.deleteDocument.None? ==> t == s)
      && (r.Pass? ==>
            && user.Some? && itemId in s.documents
            && t.documents == s.documents - {itemId}
            && var f := s.documents[itemId];
               t.blobs == (if "storagePath" in f && f["storagePath"].StringValue? then s.blobs - {f["storagePath"].text}
                           else s.blobs))
  {
  }

  /** A second `deleteItem` of an id the first one deleted fails "Unauthorized" and changes nothing. */
  lemma DeleteTwice(s: Stores, user: User, itemId: string, first: DeleteFaults, second: DeleteFaults)
    requires DeleteItemSpec(s, Some(user), itemId, first).0 == Pass
    requires second.read.None?
    ensures var t := DeleteItemSpec(s, Some(user), itemId, first).1;
      DeleteItemSpec(t, Some(user), itemId, second) == (Fail(Unauthorized), t)
  {
    var t := DeleteItemSpec(s, Some(user), itemId, first).1;
    DeleteItemOutcome(s, Some(user), itemId, first);
    assert itemId !in t.documents;
  }

  // ---------------------------------------------------------------------------
  // The manager

  /** `LostItemStorageManager` with its three stores. */
  class StorageManager {
    var documents: map<string, Fields>
    var blobs: set<string>
    var currentUser: Option<User>

    constructor (documents: map<string, Fields>, blobs: set<string>, currentUser: Option<User>)
      ensures this.documents == documents && this.blobs == blobs && this.currentUser == currentUser
    {
      this.documents := documents;
      this.blobs := blobs;
      this.currentUser := currentUser;
    }

    /** `createLostItem`, step by step; `itemId`, `millis` and `now` are the UUID, clock and timestamp read. */
    method CreateLostItem(req: CreateRequest, itemId: string, millis: nat, now: Timestamp, faults: CreateFaults)
      returns (r: Result<string, Exception>)
      modifies this
      ensures (r, Stores(documents, blobs)) ==
        CreateLostItemSpec(old(Stores(documents, blobs)), old(currentUser), req, itemId, millis, now, faults)
      ensures currentUser == old(currentUser)
    {
      if currentUser.None? {
        return Failure(NotAuthenticated);
      }
      var user := currentUser.value;
      var path := ImagePath(user.uid, itemId, millis);
      if faults.upload.Some? {
        return Failure(faults.upload.value);
      }
      blobs := blobs + {path};
      if faults.downloadUrl.Failure? {
        return Failure(faults.downloadUrl.error);
      }
      var downloadUrl := faults.downloadUrl.value;
      if faults.write.Some? {
        return Failure(faults.write.value);
      }
      documents := documents[itemId := CreatePayload(req, user, downloadUrl, path, now)];
      return Success(itemId);
    }

    /** The read and the ownership gate both workflows start with. */
    method ReadOwned(itemId: string, readFailure: Option<Exception>) returns (r: Result<Fields, Exception>)
      ensures r == OwnedDocument(Stores(documents, blobs), currentUser, itemId, readFailure)
    {
      if currentUser.None? {
        return Failure(NotAuthenticated);
      }
      if readFailure.Some? {
        return Failure(readFailure.value);
      }
      var fields := FieldsOf(documents, itemId);
      var owner := GetString(fields, "ownerId");
      if owner.Failure? {
        return Failure(owner.error);
      }
      if owner.value != Some(currentUser.value.uid) {
        return Failure(Unauthorized);
      }
      return Success(fields);
    }

    /** The blob `delete` step. */
    method DeleteBlobAt(path: string, failure: Option<Exception>) returns (r: Outcome<Exception>)
      modifies this
      ensures var d := DeleteBlob(old(blobs), path, failure);
        && (d.Success? ==> r == Pass && blobs == d.value)
        && (d.Failure? ==> r == Fail(d.error) && blobs == old(blobs))
      ensures documents == old(documents) && currentUser == old(currentUser)
    {
      if failure.Some? {
        return Fail(failure.value);
      }
      if path !in blobs {
        return Fail(ObjectNotFound(path));
      }
      blobs := blobs - {path};
      return Pass;
    }

    /** `updateItemImage`, step by step. */
    method UpdateItemImage(itemId: string, millis: nat, faults: UpdateImageFaults) returns (r: Result<string, Exception>)
      modifies this
      ensures (r, Stores(documents, blobs)) ==
        UpdateItemImageSpec(old(Stores(documents, blobs)), old(currentUser), itemId, millis, faults)
      ensures currentUser == old(currentUser)
    {
      var owned := ReadOwned(itemId, faults.read);
      if owned.Failure? {
        return Failure(owned.error);
      }
      var oldPath := GetString(owned.value, "storagePath");
      if oldPath.Failure? {
        return Failure(oldPath.error);
      }
      if oldPath.value.Some? {
        var deleted := DeleteBlobAt(oldPath.value.value, faults.deleteOld);
        if deleted.Fail? {
          return Failure(deleted.error);
        }
      }
      var path := ImagePath(currentUser.value.uid, itemId, millis);
      if faults.upload.Some? {
        return Failure(faults.upload.value);
      }
      blobs := blobs + {path};
      if faults.downloadUrl.Failure? {
        return Failure(faults.downloadUrl.error);
      }
      var downloadUrl := faults.downloadUrl.value;
      if faults.update.Some? {
        return Failure(faults.update.value);
      }
      if itemId !in documents {
        return Failure(DocumentNotFound(itemId));
      }
      documents := documents[itemId := WithImage(documents[itemId], downloadUrl, path)];
      return Success(downloadUrl);
    }

    /** `deleteItem`, step by step. */
    method DeleteItem(itemId: string, faults: DeleteFaults) returns (r: Outcome<Exception>)
      modifies this
      ensures (r, Stores(documents, blobs)) == DeleteItemSpec(old(Stores(documents, blobs)), old(currentUser), itemId, faults)
      ensures currentUser == old(currentUser)
    {
      var owned := ReadOwned(itemId, faults.read);
      if owned.Failure? {
        return Fail(owned.error);
      }
      var path := GetString(owned.value, "storagePath");
      if path.Failure? {
        return Fail(path.error);
      }
      if path.value.Some? {
        var deleted := DeleteBlobAt(path.value.value, faults.deleteBlob);
        if deleted.Fail? {
          return deleted;
        }
      }
      if faults.deleteDocument.Some? {
        return Fail(faults.deleteDocument.value);
      }
      documents := documents - {itemId};
      return Pass;
    }

    /**
     * `getUserItems`: the caller's documents, each with its id added, in an order the store
     * chooses; `ids` names the document behind each entry.
     */
    method GetUserItems(queryFailure: Option<Exception>) returns (r: Result<seq<Fields>, Exception>, ghost ids: seq<string>)
      ensures currentUser.None? ==> r == Failure(NotAuthenticated)
      ensures currentUser.Some? && queryFailure.Some? ==> r == Failure(queryFailure.value)
      ensures currentUser.Some? && queryFailure.None? ==> r.Success?
      ensures r.Success? ==>
        && currentUser.Some?
        && |r.value| == |ids|
        && (forall i, j :: 0 <= i < j < |ids| ==> ids[i] != ids[j])
        && (forall id :: id in ids <==> id in OwnedIds(documents, currentUser.value.uid))
        && (forall i :: 0 <= i < |ids| ==> ids[i] in documents && r.value[i] == WithId(documents[ids[i]], ids[i]))
    {
      ids := [];
      if currentUser.None? {
        return Failure(NotAuthenticated), ids;
      }
      if queryFailure.Some? {
        return Failure(queryFailure.value), ids;
      }
      var owned := OwnedIds(documents, currentUser.value.uid);
      var remaining := owned;
      var items: seq<Fields> := [];
      while remaining != {}
        invariant remaining <= owned
        invariant |items| == |ids|
        invariant forall i, j :: 0 <= i < j < |ids| ==> ids[i] != ids[j]
        invariant forall id :: id in ids <==> id in owned && id !in remaining
        invariant forall i :: 0 <= i < |ids| ==> ids[i] in documents && items[i] == WithId(documents[ids[i]], ids[i])
        decreases remaining
      {
        var id :| id in remaining;
        items := items + [WithId(documents[id], id)];
        ids := ids + [id];
        remaining := remaining - {id};
      }
      return Success(items), ids;
    }
  }
}
