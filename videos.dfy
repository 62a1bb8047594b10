/** The videos page (app/videos.tsx): loading the signed-in user's record
    with the name backfill, and the two handlers that record a watch and a
    rating. Every change is written to the table first and only then stored
    in the page's `metadata` state. */
module Videos {
  import opened Js
  import opened Dynamodb
  import opened Auth

  /** The page's `user` state. */
  datatype User = User(email: string, fullName: string)

  /** The `TypeError` that `[...metadata.videosWatched, videoId]` raises when
      the record has no `videosWatched` attribute. */
  const NotIterableMessage := "metadata.videosWatched is not iterable"

  /** The record `handleWatchVideo` builds:
      `{ ...metadata, videosWatched: [...metadata.videosWatched, videoId], vwCount: metadata.vwCount + 1 }`.
      The spread of a missing list throws before anything is written; a
      missing count becomes `NaN`. */
  function Watched(m: Item, videoId: int): (r: Result<Item, string>)
    ensures r.Success? <==> m.videosWatched.Some?
    ensures r.Failure? ==> r.error == NotIterableMessage
    ensures r.Success? ==> r.value.videosWatched == Some(m.videosWatched.value + [videoId])
    ensures r.Success? ==> r.value.vwCount == Some(PlusOne(m.vwCount))
    ensures r.Success? ==> KeyOf(r.value) == KeyOf(m)
    ensures r.Success? ==> r.value.userFullName == m.userFullName && r.value.videoRatings == m.videoRatings
  {
    if m.videosWatched.None? then Failure(NotIterableMessage)
    else Success(m.(videosWatched := Some(m.videosWatched.value + [videoId]), vwCount := Some(PlusOne(m.vwCount))))
  }

  /** One watch keeps `vwCount` equal to the length of `videosWatched`. */
  lemma WatchKeepsCount(m: Item, videoId: int)
    requires CountConsistent(m)
    ensures Watched(m, videoId).Success? && CountConsistent(Watched(m, videoId).value)
  {
  }

  /** A record whose list is present but whose count is missing gets `NaN`
      as its count, and the count no longer matches the list. */
  lemma WatchWithoutCountIsNaN(m: Item, videoId: int)
    requires m.videosWatched.Some? && m.vwCount.None?
    ensures Watched(m, videoId).Success?
    ensures Watched(m, videoId).value.vwCount == Some(NaN)
    ensures !CountConsistent(Watched(m, videoId).value)
  {
  }

  /** Successive watches of `videoIds`, in order, each applied to the record
      the previous one produced. */
  function WatchedAll(m: Item, videoIds: seq<int>): Result<Item, string>
    decreases |videoIds|
  {
    if videoIds == [] then Success(m)
    else
      match Watched(m, videoIds[0])
      case Failure(e) => Failure(e)
      case Success(next) => WatchedAll(next, videoIds[1..])
  }

  /** N watches lengthen the list by exactly those N ids, duplicates
      included, raise a numeric count by N, keep a consistent count
      consistent and leave the key, the name and the ratings alone. */
  lemma {:induction false} WatchesAccumulate(m: Item, videoIds: seq<int>)
    requires m.videosWatched.Some?
    ensures WatchedAll(m, videoIds).Success?
    ensures var r := WatchedAll(m, videoIds).value;
      && r.videosWatched == Some(m.videosWatched.value + videoIds)
      && (m.vwCount.Some? && m.vwCount.value.Finite? ==> r.vwCount == Some(Finite(m.vwCount.value.n + |videoIds|)))
      && (CountConsistent(m) ==> CountConsistent(r))
      && KeyOf(r) == KeyOf(m) && r.userFullName == m.userFullName && r.videoRatings == m.videoRatings
    decreases |videoIds|
  {
    if videoIds == [] {
      assert m.videosWatched.value + videoIds == m.videosWatched.value;
    } else {
      var next := Watched(m, videoIds[0]).value;
      WatchesAccumulate(next, videoIds[1..]);
      assert m.videosWatched.value + [videoIds[0]] + videoIds[1..] == m.videosWatched.value + videoIds;
    }
  }

  /** A record without `videosWatched` cannot record any watch. */
  lemma {:induction false} WatchesNeedList(m: Item, videoIds: seq<int>)
    requires m.videosWatched.None? && videoIds != []
    ensures WatchedAll(m, videoIds) == Failure(NotIterableMessage)
  {
  }

  /** The record `handleRateVideo` builds:
      `{ ...metadata, videoRatings: { ...metadata.videoRatings, [videoId]: rating } }`.
      Spreading a missing map gives an empty one. */
  function Rated(m: Item, videoId: int, rating: int): (r: Item)
    ensures KeyOf(r) == KeyOf(m)
    ensures r.userFullName == m.userFullName && r.videosWatched == m.videosWatched && r.vwCount == m.vwCount
    ensures r.videoRatings.Some? && videoId in r.videoRatings.value && r.videoRatings.value[videoId] == rating
    ensures forall v :: v != videoId ==>
      (v in r.videoRatings.value <==> v in m.videoRatings.GetOr(map[])) &&
      (v in r.videoRatings.value ==> r.videoRatings.value[v] == m.videoRatings.GetOr(map[])[v])
  {
    m.(videoRatings := Some(m.videoRatings.GetOr(map[])[videoId := rating]))
  }

  /** Rating a video again replaces the earlier rating: last write wins. */
  lemma RatingOverwrites(m: Item, videoId: int, first: int, second: int)
    ensures Rated(Rated(m, videoId, first), videoId, second) == Rated(m, videoId, second)
  {
    var a := Rated(Rated(m, videoId, first), videoId, second).videoRatings.value;
    var b := Rated(m, videoId, second).videoRatings.value;
    assert a == b;
  }

  /** Ratings of different videos do not interfere: their order does not matter. */
  lemma RatingsCommute(m: Item, v1: int, r1: int, v2: int, r2: int)
    requires v1 != v2
    ensures Rated(Rated(m, v1, r1), v2, r2) == Rated(Rated(m, v2, r2), v1, r1)
  {
    var a := Rated(Rated(m, v1, r1), v2, r2).videoRatings.value;
    var b := Rated(Rated(m, v2, r2), v1, r1).videoRatings.value;
    assert a == b;
  }

  /** A watch and a rating touch different attributes, so their order does
      not matter either. */
  lemma WatchAndRateCommute(m: Item, watched: int, rated: int, rating: int)
    requires m.videosWatched.Some?
    ensures Watched(Rated(m, rated, rating), watched) == Success(Rated(Watched(m, watched).value, rated, rating))
  {
  }

  /** The record after the name check in `checkAuth`: a missing or empty
      `userFullName` is replaced by the session's `fullName`. */
  function Backfilled(m: Item, fullName: string): (r: Item)
    ensures Truthy(m.userFullName) ==> r == m
    ensures !Truthy(m.userFullName) ==> r.userFullName == Some(fullName)
    ensures r == m.(userFullName := r.userFullName)
  {
    if Truthy(m.userFullName) then m else m.(userFullName := Some(fullName))
  }

  /** Backfilling twice with the same name gives what backfilling once gives. */
  lemma BackfillIdempotent(m: Item, fullName: string)
    ensures Backfilled(Backfilled(m, fullName), fullName) == Backfilled(m, fullName)
  {
  }

  /** `userMetadata.userFullName || currentUser.fullName || currentUser.email`. */
  function DisplayName(stored: Option<string>, fullName: string, email: string): (r: string)
    ensures Truthy(stored) ==> r == stored.value
    ensures !Truthy(stored) && fullName != "" ==> r == fullName
    ensures !Truthy(stored) && fullName == "" ==> r == email
    ensures r == "" <==> !Truthy(stored) && fullName == "" && email == ""
  {
    Or(Some(Or(stored, fullName)), email)
  }

  /** What `checkAuth` ends with: a redirect to the sign-in page, or the
      page's `user` and `metadata` together with the record written to the
      table, if any. */
  datatype Load = Redirected | Shown(user: User, metadata: Item, written: Option<Item>)

  /** `checkAuth` against the table contents `items`, given the provider's
      answer for the current user and the table client's faults for the
      read and for the backfill write. */
  function Loaded(items: map<Key, Item>, current: Result<ProviderUser, Thrown>,
                  getFault: Option<Thrown>, putFault: Option<Thrown>): (r: Load)
    ensures current.Failure? || getFault.Some? ==> r.Redirected?
    ensures r.Shown? ==> r.user.email == Projected(current.value).email
    ensures r.Shown? ==> var s := Projected(current.value);
      r.user.fullName == DisplayName(Lookup(items, Key(s.userId, s.email)).userFullName, s.fullName, s.email)
    ensures r.Shown? ==> r.written.None? || r.written == Some(r.metadata)
    ensures r.Shown? && r.written.None? ==> Truthy(r.metadata.userFullName)
  {
    match CurrentAuthenticatedUser(current)
    case Failure(_) => Redirected
    case Success(s) =>
      if getFault.Some? then Redirected
      else
        var m := Lookup(items, Key(s.userId, s.email));
        var user := User(s.email, DisplayName(m.userFullName, s.fullName, s.email));
        if Truthy(m.userFullName) then Shown(user, m, None)
        else if putFault.Some? then Redirected
        else Shown(user, Backfilled(m, s.fullName), Some(Backfilled(m, s.fullName)))
  }

  /** Loading fails exactly when one of the awaited calls fails, and a
      backfill write is made exactly when the stored name is empty. */
  lemma LoadFailsOnAnyFailure(items: map<Key, Item>, current: Result<ProviderUser, Thrown>,
                              getFault: Option<Thrown>, putFault: Option<Thrown>)
    ensures current.Failure? ==> Loaded(items, current, getFault, putFault).Redirected?
    ensures current.Success? ==> var s := Projected(current.value);
      var stored := Lookup(items, Key(s.userId, s.email));
      var r := Loaded(items, current, getFault, putFault);
      && (r.Redirected? <==> getFault.Some? || (!Truthy(stored.userFullName) && putFault.Some?))
      && (r.Shown? ==> r.metadata == Backfilled(stored, s.fullName))
      && (r.Shown? ==> (r.written.Some? <==> !Truthy(stored.userFullName)))
  {
  }

  /** After a successful load the table holds exactly the page's record,
      under the session's key. */
  lemma LoadedInSync(items: map<Key, Item>, current: Result<ProviderUser, Thrown>,
                     getFault: Option<Thrown>, putFault: Option<Thrown>)
    requires KeysConsistent(items)
    requires Loaded(items, current, getFault, putFault).Shown?
    ensures var r := Loaded(items, current, getFault, putFault);
      var s := Projected(current.value);
      && KeyOf(r.metadata) == Key(s.userId, s.email)
      && KeyOf(r.metadata) in Written(items, r.written)
      && Written(items, r.written)[KeyOf(r.metadata)] == r.metadata
  {
  }

  /** Loading twice in a row shows the same user and the same record; the
      second load writes nothing unless the name it would fill in is itself
      empty, and then it writes the same record again. */
  lemma LoadIdempotent(items: map<Key, Item>, current: Result<ProviderUser, Thrown>)
    requires KeysConsistent(items)
    requires Loaded(items, current, None, None).Shown?
    ensures var first := Loaded(items, current, None, None);
      Loaded(Written(items, first.written), current, None, None)
        == Shown(first.user, first.metadata,
                 if Truthy(first.metadata.userFullName) then None else Some(first.metadata))
  {
    LoadedInSync(items, current, None, None);
  }

  /** A user with no item yet sees the default record with the session's
      name filled in, and that record is written. */
  lemma NewUserLoadsDefaultRecord(items: map<Key, Item>, current: Result<ProviderUser, Thrown>)
    requires current.Success?
    requires Key(Projected(current.value).userId, Projected(current.value).email) !in items
    ensures var s := Projected(current.value);
      var seeded := DefaultItem(s.userId, s.email).(userFullName := Some(s.fullName));
      Loaded(items, current, None, None)
        == Shown(User(s.email, if s.fullName != "" then s.fullName else s.email), seeded, Some(seeded))
  {
  }

  /** The `TypeError` that `metadata.videoRatings[video.id]` raises when the
      record has no `videoRatings` attribute. */
  const UndefinedRatingsMessage := "Cannot read properties of undefined"

  /** The render's test `metadata.videoRatings[video.id] === rating`, which
      picks the highlighted rating button. Reading an index of a missing map
      throws, and the page fails to render. */
  function RatingHighlighted(m: Item, videoId: int, rating: int): (r: Result<bool, string>)
    ensures r.Success? <==> m.videoRatings.Some?
    ensures r.Failure? ==> r.error == UndefinedRatingsMessage
    ensures r.Success? ==> (r.value <==> videoId in m.videoRatings.value && m.videoRatings.value[videoId] == rating)
  {
    match m.videoRatings
    case None => Failure(UndefinedRatingsMessage)
    case Some(ratings) => Success(videoId in ratings && ratings[videoId] == rating)
  }

  /** After a rating the page highlights exactly that rating for the video. */
  lemma RatedIsHighlighted(m: Item, videoId: int, rating: int, other: int)
    ensures RatingHighlighted(Rated(m, videoId, rating), videoId, other) == Success(other == rating)
  {
  }

  /** How a click on a handler ended. */
  datatype HandlerOutcome =
    | Skipped             // `user` or `metadata` was still null
    | Rejected(reason: string)  // the returned promise rejected; nothing changed
    | Saved               // written to the table, then to `metadata`

  /** The page's state (`user`, `metadata`, the router's target) and the
      table it reads and writes. */
  class VideosPage {
    const store: MetadataStore
    var user: Option<User>
    var metadata: Option<Item>
    var redirectedTo: Option<string>

    /** The page's record is what the table holds under its key. No other
        writer exists in the model, so the handlers keep this. */
    ghost predicate InSync()
      reads this, store
    {
      metadata.Some? ==> KeyOf(metadata.value) in store.items && store.items[KeyOf(metadata.value)] == metadata.value
    }

    constructor (store: MetadataStore)
      ensures this.store == store
      ensures user == None && metadata == None && redirectedTo == None
    {
      this.store := store;
      user, metadata, redirectedTo := None, None, None;
    }

    /** The `checkAuth` effect run when the page mounts. */
    method CheckAuth(current: Result<ProviderUser, Thrown>, getFault: Option<Thrown>, putFault: Option<Thrown>)
      requires store.Valid()
      modifies this, store
      ensures store.Valid()
      ensures match Loaded(old(store.items), current, getFault, putFault)
        case Redirected =>
          && redirectedTo == Some("/sign") && user == old(user) && metadata == old(metadata)
          && store.items == old(store.items)
        case Shown(u, m, w) =>
          && user == Some(u) && metadata == Some(m) && redirectedTo == old(redirectedTo)
          && store.items == Written(old(store.items), w)
          && InSync()
    {
      ghost var items := store.items;
      var session := CurrentAuthenticatedUser(current);
      if session.Failure? {
        redirectedTo := Some("/sign");
        return;
      }
      var s := session.value;
      var read := store.GetUserMetadata(s.userId, s.email, getFault);
      if read.Failure? {
        redirectedTo := Some("/sign");
        return;
      }
      var userMetadata := read.value;
      if !Truthy(userMetadata.userFullName) {
        var updated := userMetadata.(userFullName := Some(s.fullName));
        var written := store.UpdateUserMetadata(s.userId, s.email, AsPatch(updated), putFault);
        if written.Fail? {
          redirectedTo := Some("/sign");
          return;
        }
        ComposedSpreadRoundTrip(s.userId, s.email, updated);
        metadata := Some(updated);
      } else {
        metadata := Some(userMetadata);
      }
      user := Some(User(s.email, DisplayName(userMetadata.userFullName, s.fullName, s.email)));
      LoadedInSync(items, current, getFault, putFault);
    }

    /** `handleWatchVideo(videoId)`. */
    method HandleWatchVideo(videoId: int, putFault: Option<Thrown>) returns (o: HandlerOutcome)
      requires store.Valid()
      modifies this`metadata, store
      ensures store.Valid()
      ensures (old(user).None? || old(metadata).None?) <==> o == Skipped
      ensures o.Saved? <==>
        old(user).Some? && old(metadata).Some? && old(metadata).value.videosWatched.Some? && putFault.None?
      ensures o.Saved? ==> metadata == Some(Watched(old(metadata).value, videoId).value)
      ensures o.Saved? ==> store.items == Written(old(store.items), metadata)
      ensures !o.Saved? ==> metadata == old(metadata) && store.items == old(store.items)
      ensures o.Rejected? && old(metadata).value.videosWatched.None? ==> o.reason == NotIterableMessage
      ensures o.Rejected? && old(metadata).value.videosWatched.Some? ==>
        o.reason == StoreErrorMessage(Write, putFault.value)
      ensures old(InSync()) ==> InSync()
    {
      if user.None? || metadata.None? {
        return Skipped;
      }
      var m := metadata.value;
      var updated := Watched(m, videoId);
      if updated.Failure? {
        return Rejected(updated.error);
      }
      var written := store.UpdateUserMetadata(m.id, m.userNameStr, AsPatch(updated.value), putFault);
      if written.Fail? {
        return Rejected(written.message);
      }
      ComposedSpreadRoundTrip(m.id, m.userNameStr, updated.value);
      metadata := Some(updated.value);
      return Saved;
    }

    /** `handleRateVideo(videoId, rating)`. */
    method HandleRateVideo(videoId: int, rating: int, putFault: Option<Thrown>) returns (o: HandlerOutcome)
      requires store.Valid()
      modifies this`metadata, store
      ensures store.Valid()
      ensures (old(user).None? || old(metadata).None?) <==> o == Skipped
      ensures o.Saved? <==> old(user).Some? && old(metadata).Some? && putFault.None?
      ensures o.Saved? ==> metadata == Some(Rated(old(metadata).value, videoId, rating))
      ensures o.Saved? ==> store.items == Written(old(store.items), metadata)
      ensures !o.Saved? ==> metadata == old(metadata) && store.items == old(store.items)
      ensures o.Rejected? ==> o.reason == StoreErrorMessage(Write, putFault.value)
      ensures old(InSync()) ==> InSync()
    {
      if user.None? || metadata.None? {
        return Skipped;
      }
      var m := metadata.value;
      var updated := Rated(m, videoId, rating);
      var written := store.UpdateUserMetadata(m.id, m.userNameStr, AsPatch(updated), putFault);
      if written.Fail? {
        return Rejected(written.message);
      }
      ComposedSpreadRoundTrip(m.id, m.userNameStr, updated);
      metadata := Some(updated);
      return Saved;
    }
  }
}
