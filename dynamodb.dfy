/** The user-metadata table (utils/dynamodb.ts): the record type, the
    default record returned for a missing key, the item a write composes,
    the translation of the table client's errors into user-facing messages,
    and the configuration checks made when the module is loaded.

    The remote table is a `MetadataStore` object holding a map from the
    composite key to the stored item; the table service's own failures are a
    `fault` parameter of each call. */
module Dynamodb {
  import opened Js

  /** The table's composite primary key: partition key `id`, sort key `user_name_str`. */
  datatype Key = Key(id: string, userNameStr: string)

  /** A `UserMetadata` item as it travels between the table and the pages.
      The type declares every attribute, but nothing enforces that: an item
      written with fewer attributes comes back with fewer, so every
      attribute other than the key may be missing. */
  datatype Item = Item(
    id: string,
    userNameStr: string,
    userFullName: Option<string>,
    videosWatched: Option<seq<int>>,
    vwCount: Option<Num>,
    videoRatings: Option<map<int, int>>)

  function KeyOf(m: Item): Key {
    Key(m.id, m.userNameStr)
  }

  /** A `Partial<UserMetadata>`: any attribute may be supplied or not. */
  datatype Patch = Patch(
    id: Option<string>,
    userNameStr: Option<string>,
    userFullName: Option<string>,
    videosWatched: Option<seq<int>>,
    vwCount: Option<Num>,
    videoRatings: Option<map<int, int>>)

  /** `{ ...m }` passed where a `Partial<UserMetadata>` is expected: the
      attributes `m` has, and only those. */
  function AsPatch(m: Item): Patch {
    Patch(Some(m.id), Some(m.userNameStr), m.userFullName, m.videosWatched, m.vwCount, m.videoRatings)
  }

  /** Every attribute of the declared type is present. */
  predicate Complete(m: Item) {
    m.userFullName.Some? && m.videosWatched.Some? && m.vwCount.Some? && m.videoRatings.Some?
  }

  /** `vwCount` is the length of `videosWatched`, the relation the pages maintain. */
  predicate CountConsistent(m: Item) {
    m.videosWatched.Some? && m.vwCount == Some(Finite(|m.videosWatched.value|))
  }

  /** The record `getUserMetadata` returns when the table has no item for the key. */
  function DefaultItem(id: string, userNameStr: string): (m: Item)
    ensures KeyOf(m) == Key(id, userNameStr)
    ensures Complete(m) && CountConsistent(m)
    ensures m.userFullName == Some("") && m.videosWatched == Some([])
    ensures m.vwCount == Some(Finite(0)) && m.videoRatings == Some(map[])
  {
    Item(id, userNameStr, Some(""), Some([]), Some(Finite(0)), Some(map[]))
  }

  /** The item `updateUserMetadata(id, user_name_str, metadata)` sends:
      `{ id, user_name_str, ...metadata }`. Supplied attributes win over the
      two key arguments, and an attribute that `metadata` lacks is absent. */
  function Composed(id: string, userNameStr: string, p: Patch): (m: Item)
    ensures m.id == (if p.id.Some? then p.id.value else id)
    ensures m.userNameStr == (if p.userNameStr.Some? then p.userNameStr.value else userNameStr)
    ensures m.userFullName == p.userFullName && m.videosWatched == p.videosWatched
    ensures m.vwCount == p.vwCount && m.videoRatings == p.videoRatings
  {
    Item(p.id.GetOr(id), p.userNameStr.GetOr(userNameStr),
         p.userFullName, p.videosWatched, p.vwCount, p.videoRatings)
  }

  /** Writing a whole record back stores that record, whatever key arguments
      accompany it. */
  lemma ComposedSpreadRoundTrip(id: string, userNameStr: string, m: Item)
    ensures Composed(id, userNameStr, AsPatch(m)) == m
  {
  }

  /** What a successful `getUserMetadata` returns for `k` against the table
      contents `items`: the stored item unchanged, or the default record. */
  function Lookup(items: map<Key, Item>, k: Key): (m: Item)
    ensures k in items ==> m == items[k]
    ensures k !in items ==> m == DefaultItem(k.id, k.userNameStr)
  {
    if k in items then items[k] else DefaultItem(k.id, k.userNameStr)
  }

  /** Every stored item sits under its own key attributes. */
  ghost predicate KeysConsistent(items: map<Key, Item>) {
    forall k :: k in items ==> KeyOf(items[k]) == k
  }

  /** The table after a put of `w`, or unchanged when nothing was written. */
  function Written(items: map<Key, Item>, w: Option<Item>): (r: map<Key, Item>)
    ensures w.None? ==> r == items
    ensures w.Some? ==> KeyOf(w.value) in r && r[KeyOf(w.value)] == w.value
    ensures w.Some? ==> r.Keys == items.Keys + {KeyOf(w.value)}
    ensures w.Some? ==> forall k :: k in items && k != KeyOf(w.value) ==> r[k] == items[k]
    ensures KeysConsistent(items) ==> KeysConsistent(r)
  {
    if w.Some? then items[KeyOf(w.value) := w.value] else items
  }

  /** Reading back a key returns what was just written under it. */
  lemma ReadAfterWrite(items: map<Key, Item>, w: Item)
    ensures Lookup(Written(items, Some(w)), KeyOf(w)) == w
  {
  }

  // ---------------------------------------------------------------------
  // Error translation (the two `switch (error.name)` blocks)
  // ---------------------------------------------------------------------

  datatype Operation = Read | Write

  // Long literals are written as two pieces so that the verifier sees their first characters.
  const TableNotFoundMessage := "DynamoDB table not found. " + "Please check your table name and AWS configuration."
  const AccessDeniedMessage := "Access denied to DynamoDB. " + "Please check your AWS credentials and permissions."
  const SchemaMismatchPrefix := "DynamoDB schema mismatch: "
  const SchemaMismatchSuffix := ". Please check your table structure and key usage."

  function CapacityMessage(op: Operation): string {
    match op
    case Read => "DynamoDB read capacity exceeded. " + "Please try again later or contact support."
    case Write => "DynamoDB write capacity exceeded. " + "Please try again later or contact support."
  }

  function OtherPrefix(op: Operation): string {
    match op
    case Read => "Error retrieving user data: "
    case Write => "Error updating user data: "
  }

  function UnknownMessage(op: Operation): string {
    match op
    case Read => "An unknown error occurred " + "while retrieving user data."
    case Write => "An unknown error occurred " + "while updating user data."
  }

  /** The message of the `Error` that `getUserMetadata` (op = Read) or
      `updateUserMetadata` (op = Write) throws when the table client fails
      with `t`. */
  function StoreErrorMessage(op: Operation, t: Thrown): (msg: string)
    ensures t.Error? && t.name == "ValidationException" ==>
      msg == SchemaMismatchPrefix + t.message + SchemaMismatchSuffix
    ensures t.Error? && t.name == "ResourceNotFoundException" ==> msg == TableNotFoundMessage
    ensures t.Error? && t.name == "ProvisionedThroughputExceededException" ==> msg == CapacityMessage(op)
    ensures t.Error? && t.name == "AccessDeniedException" ==> msg == AccessDeniedMessage
    ensures t.Error? && KindOf(t) == Other ==> msg == OtherPrefix(op) + t.message
    ensures t.NonError? ==> msg == UnknownMessage(op)
  {
    match t
    case NonError => UnknownMessage(op)
    case Error(name, message) =>
      if name == "ValidationException" then SchemaMismatchPrefix + message + SchemaMismatchSuffix
      else if name == "ResourceNotFoundException" then TableNotFoundMessage
      else if name == "ProvisionedThroughputExceededException" then CapacityMessage(op)
      else if name == "AccessDeniedException" then AccessDeniedMessage
      else OtherPrefix(op) + message
  }

  /** The case of the switch that handles `t`. */
  datatype StoreErrorKind = SchemaMismatch | TableNotFound | CapacityExceeded | AccessDenied | Other | Unknown

  function KindOf(t: Thrown): StoreErrorKind {
    match t
    case NonError => Unknown
    case Error(name, _) =>
      if name == "ValidationException" then SchemaMismatch
      else if name == "ResourceNotFoundException" then TableNotFound
      else if name == "ProvisionedThroughputExceededException" then CapacityExceeded
      else if name == "AccessDeniedException" then AccessDenied
      else Other
  }

  /** Reads back from a message which case produced it. */
  function KindOfMessage(op: Operation, msg: string): StoreErrorKind {
    if SchemaMismatchPrefix <= msg then SchemaMismatch
    else if OtherPrefix(op) <= msg then Other
    else if msg == TableNotFoundMessage then TableNotFound
    else if msg == CapacityMessage(op) then CapacityExceeded
    else if msg == AccessDeniedMessage then AccessDenied
    else Unknown
  }

  /** Two strings that differ at an index inside `p`: `s` does not start with `p`. */
  lemma NotPrefix(p: string, s: string, i: nat)
    requires i < |p| && i < |s| && p[i] != s[i]
    ensures !(p <= s)
  {
  }

  // One lemma per case of the switch: the decoder takes each message back to its case.

  lemma TableNotFoundKind(op: Operation)
    ensures KindOfMessage(op, TableNotFoundMessage) == TableNotFound
  {
    NotPrefix(SchemaMismatchPrefix, TableNotFoundMessage, 9);
    NotPrefix(OtherPrefix(op), TableNotFoundMessage, 0);
  }

  lemma CapacityKind(op: Operation)
    ensures KindOfMessage(op, CapacityMessage(op)) == CapacityExceeded
  {
    NotPrefix(SchemaMismatchPrefix, CapacityMessage(op), 9);
    NotPrefix(OtherPrefix(op), CapacityMessage(op), 0);
    assert TableNotFoundMessage[9] != CapacityMessage(op)[9];
  }

  lemma AccessDeniedKind(op: Operation)
    ensures KindOfMessage(op, AccessDeniedMessage) == AccessDenied
  {
    NotPrefix(SchemaMismatchPrefix, AccessDeniedMessage, 0);
    NotPrefix(OtherPrefix(op), AccessDeniedMessage, 0);
    assert TableNotFoundMessage[0] != AccessDeniedMessage[0];
    assert CapacityMessage(op)[0] != AccessDeniedMessage[0];
  }

  lemma UnknownKind(op: Operation)
    ensures KindOfMessage(op, UnknownMessage(op)) == Unknown
  {
    var msg := UnknownMessage(op);
    assert msg[0] == 'A' && msg[1] == 'n';
    NotPrefix(SchemaMismatchPrefix, msg, 0);
    NotPrefix(OtherPrefix(op), msg, 0);
    assert TableNotFoundMessage[0] != msg[0];
    assert CapacityMessage(op)[0] != msg[0];
    assert AccessDeniedMessage[1] != msg[1];
  }

  lemma SchemaMismatchKind(op: Operation, message: string)
    ensures KindOfMessage(op, SchemaMismatchPrefix + message + SchemaMismatchSuffix) == SchemaMismatch
  {
    assert SchemaMismatchPrefix + message + SchemaMismatchSuffix
        == SchemaMismatchPrefix + (message + SchemaMismatchSuffix);
  }

  lemma OtherKind(op: Operation, message: string)
    ensures KindOfMessage(op, OtherPrefix(op) + message) == Other
  {
    NotPrefix(SchemaMismatchPrefix, OtherPrefix(op) + message, 0);
  }

  /** The pages see only the message; it still tells the six cases apart,
      so no failure of the table client is reported as another. */
  lemma MessageRevealsKind(op: Operation, t: Thrown)
    ensures KindOfMessage(op, StoreErrorMessage(op, t)) == KindOf(t)
  {
    match KindOf(t)
    case Unknown => UnknownKind(op);
    case SchemaMismatch => SchemaMismatchKind(op, t.message);
    case TableNotFound => TableNotFoundKind(op);
    case CapacityExceeded => CapacityKind(op);
    case AccessDenied => AccessDeniedKind(op);
    case Other => OtherKind(op, t.message);
  }

  /** The read and write translations differ only in the capacity message,
      the prefix of an unrecognised error and the unknown-error message. */
  lemma ReadWriteDiffer(t: Thrown)
    ensures StoreErrorMessage(Read, t) == StoreErrorMessage(Write, t) <==>
      KindOf(t) in {SchemaMismatch, TableNotFound, AccessDenied}
  {
    match t
    case NonError =>
    case Error(name, message) =>
      if KindOf(t) == Other {
        assert StoreErrorMessage(Read, t)[6] != StoreErrorMessage(Write, t)[6];
      }
  }

  // ---------------------------------------------------------------------
  // Configuration checks made when the module is loaded
  // ---------------------------------------------------------------------

  datatype Config = Config(region: string, accessKeyId: string, secretAccessKey: string)

  const MissingRegion := "Missing required AWS configuration environment variable: APP_REGION."
  const MissingAccessKeyId := "Missing required AWS configuration environment variable: APP_ACCESS_KEY_ID."
  const MissingSecretAccessKey := "Missing required AWS configuration environment variable: APP_SECRET_ACCESS_KEY."

  /** The three `if (!...) throw` checks on `APP_REGION`, `APP_ACCESS_KEY_ID`
      and `APP_SECRET_ACCESS_KEY`, in that order; a missing or empty
      variable aborts loading with the message naming the first one. */
  function CheckConfig(region: Option<string>, accessKeyId: Option<string>, secretAccessKey: Option<string>)
    : (r: Result<Config, string>)
    ensures r.Success? <==> Truthy(region) && Truthy(accessKeyId) && Truthy(secretAccessKey)
    ensures r.Success? ==> r.value == Config(region.value, accessKeyId.value, secretAccessKey.value)
    ensures !Truthy(region) ==> r == Failure(MissingRegion)
    ensures Truthy(region) && !Truthy(accessKeyId) ==> r == Failure(MissingAccessKeyId)
    ensures Truthy(region) && Truthy(accessKeyId) && !Truthy(secretAccessKey) ==>
      r == Failure(MissingSecretAccessKey)
  {
    if !Truthy(region) then Failure(MissingRegion)
    else if !Truthy(accessKeyId) then Failure(MissingAccessKeyId)
    else if !Truthy(secretAccessKey) then Failure(MissingSecretAccessKey)
    else Success(Config(region.value, accessKeyId.value, secretAccessKey.value))
  }

  // ---------------------------------------------------------------------
  // The table
  // ---------------------------------------------------------------------

  /** The remote table: one item per composite key. A put replaces the whole
      item under its key; nothing is ever deleted. */
  class MetadataStore {
    var items: map<Key, Item>

    ghost predicate Valid()
      reads this
    {
      KeysConsistent(items)
    }

    constructor ()
      ensures Valid() && items == map[]
    {
      items := map[];
    }

    /** `getUserMetadata(id, user_name_str)`; `fault` is the error the
        table client raises for this request, if any. */
    method GetUserMetadata(id: string, userNameStr: string, fault: Option<Thrown>) returns (r: Result<Item, string>)
      requires Valid()
      ensures fault.Some? ==> r == Failure(StoreErrorMessage(Read, fault.value))
      ensures fault.None? && Key(id, userNameStr) !in items ==> r == Success(DefaultItem(id, userNameStr))
      ensures fault.None? && Key(id, userNameStr) in items ==> r == Success(items[Key(id, userNameStr)])
      ensures fault.None? ==> r == Success(Lookup(items, Key(id, userNameStr)))
      ensures r.Success? ==> KeyOf(r.value) == Key(id, userNameStr)
    {
      if fault.Some? {
        return Failure(StoreErrorMessage(Read, fault.value));
      }
      var k := Key(id, userNameStr);
      if k !in items {
        return Success(DefaultItem(id, userNameStr));
      }
      return Success(items[k]);
    }

    /** `updateUserMetadata(id, user_name_str, metadata)`: puts
        `{ id, user_name_str, ...metadata }`, replacing whatever was stored
        under that item's key. */
    method UpdateUserMetadata(id: string, userNameStr: string, metadata: Patch, fault: Option<Thrown>)
      returns (r: Outcome)
      requires Valid()
      modifies this
      ensures Valid()
      ensures fault.Some? ==> r == Fail(StoreErrorMessage(Write, fault.value)) && items == old(items)
      ensures fault.None? ==> r == Pass && items == Written(old(items), Some(Composed(id, userNameStr, metadata)))
    {
      if fault.Some? {
        return Fail(StoreErrorMessage(Write, fault.value));
      }
      var m := Composed(id, userNameStr, metadata);
      items := items[KeyOf(m) := m];
      return Pass;
    }
  }
}
