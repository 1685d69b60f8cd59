/** The podcast catalog store (src/contexts/PodcastContext.tsx): the podcast
    list, the playback target, the play flag and the signed-in user's
    favourites, mirrored into a key/value storage. */
module Catalog {
  import opened Types
  import opened Lists
  import opened Text

  /** A storage value, already decoded from its JSON text. */
  datatype Stored = PodcastList(podcasts: seq<Podcast>) | IdList(ids: seq<string>)

  const PodcastsKey := "podcasts"

  /** The key under which a user's favourite ids are kept. */
  function FavoritesKey(userId: string): (k: string)
    ensures k != PodcastsKey
    ensures |k| == 10 + |userId| && k[..10] == "favorites_" && k[10..] == userId
  {
    assert |"favorites_"| == 10;
    "favorites_" + userId
  }

  /** Different users never share a favourites key. */
  lemma FavoritesKeyInjective(a: string, b: string)
    requires FavoritesKey(a) == FavoritesKey(b)
    ensures a == b
  {
    assert a == FavoritesKey(a)[10..];
  }

  /** The keys the store reads hold values of the shape it decodes them to. */
  predicate StorageTyped(user: Option<User>, storage: map<string, Stored>) {
    && (PodcastsKey in storage ==> storage[PodcastsKey].PodcastList?)
    && (user.Some? && FavoritesKey(user.value.id) in storage ==>
          storage[FavoritesKey(user.value.id)].IdList?)
  }

  /** `ps.map(p => p.id === id ? f(p) : p)`. */
  function MapWhere(ps: seq<Podcast>, id: string, f: Podcast -> Podcast): (r: seq<Podcast>)
    ensures |r| == |ps|
    ensures forall i :: 0 <= i < |ps| && ps[i].id == id ==> r[i] == f(ps[i])
    ensures forall i :: 0 <= i < |ps| && ps[i].id != id ==> r[i] == ps[i]
  {
    if ps == [] then []
    else [if ps[0].id == id then f(ps[0]) else ps[0]] + MapWhere(ps[1..], id, f)
  }

  /** A map over records none of which has the id is the identity. */
  lemma MapWhereAbsent(ps: seq<Podcast>, id: string, f: Podcast -> Podcast)
    requires forall i :: 0 <= i < |ps| ==> ps[i].id != id
    ensures MapWhere(ps, id, f) == ps
  {
  }

  function Like(p: Podcast): Podcast { p.(likes := p.likes + 1) }

  function Listen(p: Podcast): Podcast { p.(listens := p.listens + 1) }

  /** The list after liking `id`: one more like on each matching record, nothing else. */
  function Liked(ps: seq<Podcast>, id: string): (r: seq<Podcast>)
    ensures |r| == |ps|
    ensures forall i :: 0 <= i < |ps| && ps[i].id == id ==>
              r[i] == ps[i].(likes := ps[i].likes + 1)
    ensures forall i :: 0 <= i < |ps| && ps[i].id != id ==> r[i] == ps[i]
  {
    MapWhere(ps, id, Like)
  }

  /** The list after a listen of `id`: one more listen on each matching record, nothing else. */
  function Listened(ps: seq<Podcast>, id: string): (r: seq<Podcast>)
    ensures |r| == |ps|
    ensures forall i :: 0 <= i < |ps| && ps[i].id == id ==>
              r[i] == ps[i].(listens := ps[i].listens + 1)
    ensures forall i :: 0 <= i < |ps| && ps[i].id != id ==> r[i] == ps[i]
  {
    MapWhere(ps, id, Listen)
  }

  /** How many records carry `id`. */
  function Matching(ps: seq<Podcast>, id: string): nat {
    Count(ps, (p: Podcast) => p.id == id)
  }

  function TotalLikes(ps: seq<Podcast>): nat {
    if ps == [] then 0 else ps[0].likes + TotalLikes(ps[1..])
  }

  function TotalListens(ps: seq<Podcast>): nat {
    if ps == [] then 0 else ps[0].listens + TotalListens(ps[1..])
  }

  /** A like adds exactly one like per record with that id to the catalog. */
  lemma {:induction false} LikedTotal(ps: seq<Podcast>, id: string)
    ensures TotalLikes(Liked(ps, id)) == TotalLikes(ps) + Matching(ps, id)
  {
    if ps != [] {
      LikedTotal(ps[1..], id);
      assert Liked(ps, id)[1..] == Liked(ps[1..], id);
    }
  }

  /** A listen adds exactly one listen per record with that id to the catalog. */
  lemma {:induction false} ListenedTotal(ps: seq<Podcast>, id: string)
    ensures TotalListens(Listened(ps, id)) == TotalListens(ps) + Matching(ps, id)
  {
    if ps != [] {
      ListenedTotal(ps[1..], id);
      assert Listened(ps, id)[1..] == Listened(ps[1..], id);
    }
  }

  /** The list after deleting `id`: every other record, in order. */
  function Without(ps: seq<Podcast>, id: string): (r: seq<Podcast>)
    ensures forall i :: 0 <= i < |r| ==> r[i].id != id && r[i] in ps
    ensures forall i :: 0 <= i < |ps| && ps[i].id != id ==> ps[i] in r
    ensures IsSubsequence(r, ps)
    ensures |r| == |ps| - Matching(ps, id)
  {
    var keep := (p: Podcast) => p.id != id;
    CountSplit(ps, keep, (p: Podcast) => p.id == id);
    Keep(ps, keep)
  }

  /** Deleting an id no record has changes nothing. */
  lemma WithoutAbsent(ps: seq<Podcast>, id: string)
    requires forall i :: 0 <= i < |ps| ==> ps[i].id != id
    ensures Without(ps, id) == ps
  {
    KeepAll(ps, (p: Podcast) => p.id != id);
  }

  /** The favourites after toggling `id`: membership of `id` flips, and only that. */
  function Toggled(favorites: seq<string>, id: string): (r: seq<string>)
    ensures forall x :: x in r <==> (x in favorites) != (x == id)
    ensures id !in favorites ==> r == favorites + [id]
    ensures id in favorites ==> IsSubsequence(r, favorites)
    ensures id in favorites ==> |r| == |favorites| - Count(favorites, x => x == id)
  {
    if id in favorites then
      var r := Keep(favorites, x => x != id);
      CountSplit(favorites, x => x != id, x => x == id);
      assert forall x :: x in r ==> x in favorites && x != id by {
        forall x | x in r ensures x in favorites && x != id {
          var i :| 0 <= i < |r| && r[i] == x;
        }
      }
      assert forall x :: x in favorites && x != id ==> x in r by {
        forall x | x in favorites && x != id ensures x in r {
          var i :| 0 <= i < |favorites| && favorites[i] == x;
        }
      }
      r
    else
      favorites + [id]
  }

  /** Toggling an absent id twice gives back the very same list. */
  lemma ToggleTwiceAbsent(favorites: seq<string>, id: string)
    requires id !in favorites
    ensures Toggled(Toggled(favorites, id), id) == favorites
  {
    var keep := (x: string) => x != id;
    KeepAppend(favorites, [id], keep);
    KeepAll(favorites, keep);
    assert Keep([id], keep) == [];
  }

  /** Toggling twice restores every membership. */
  lemma ToggleTwiceMembership(favorites: seq<string>, id: string, x: string)
    ensures x in Toggled(Toggled(favorites, id), id) <==> x in favorites
  {
  }

  /** A duplicate-free favourites list stays duplicate-free. */
  lemma ToggledNoDuplicates(favorites: seq<string>, id: string)
    requires NoDuplicates(favorites)
    ensures NoDuplicates(Toggled(favorites, id))
  {
    if id in favorites {
      KeepNoDuplicates(favorites, x => x != id);
    } else {
      var r := favorites + [id];
      forall i, j | 0 <= i < j < |r| ensures r[i] != r[j] {
        if j == |favorites| {
          assert r[i] == favorites[i];
        } else {
          assert r[i] == favorites[i] && r[j] == favorites[j];
        }
      }
    }
  }

  /** `{ ...p, ...u, updatedAt: now }`: every key present in `u` replaces
      `p`'s, and the update time is stamped last. */
  function Merge(p: Podcast, u: Patch, now: string): (r: Podcast)
    ensures r.updatedAt == now
    ensures (u.id.Some? ==> r.id == u.id.value) && (u.id.None? ==> r.id == p.id)
    ensures (u.title.Some? ==> r.title == u.title.value) && (u.title.None? ==> r.title == p.title)
    ensures (u.description.Some? ==> r.description == u.description.value) &&
            (u.description.None? ==> r.description == p.description)
    ensures (u.audioUrl.Some? ==> r.audioUrl == u.audioUrl.value) &&
            (u.audioUrl.None? ==> r.audioUrl == p.audioUrl)
    ensures (u.imageUrl.Some? ==> r.imageUrl == u.imageUrl.value) &&
            (u.imageUrl.None? ==> r.imageUrl == p.imageUrl)
    ensures (u.duration.Some? ==> r.duration == u.duration.value) &&
            (u.duration.None? ==> r.duration == p.duration)
    ensures (u.category.Some? ==> r.category == u.category.value) &&
            (u.category.None? ==> r.category == p.category)
    ensures (u.author.Some? ==> r.author == u.author.value) && (u.author.None? ==> r.author == p.author)
    ensures (u.authorId.Some? ==> r.authorId == u.authorId.value) &&
            (u.authorId.None? ==> r.authorId == p.authorId)
    ensures (u.likes.Some? ==> r.likes == u.likes.value) && (u.likes.None? ==> r.likes == p.likes)
    ensures (u.listens.Some? ==> r.listens == u.listens.value) &&
            (u.listens.None? ==> r.listens == p.listens)
    ensures (u.createdAt.Some? ==> r.createdAt == u.createdAt.value) &&
            (u.createdAt.None? ==> r.createdAt == p.createdAt)
  {
    Podcast(
      u.id.GetOr(p.id),
      u.title.GetOr(p.title),
      u.description.GetOr(p.description),
      u.audioUrl.GetOr(p.audioUrl),
      u.imageUrl.GetOr(p.imageUrl),
      u.duration.GetOr(p.duration),
      u.category.GetOr(p.category),
      u.author.GetOr(p.author),
      u.authorId.GetOr(p.authorId),
      u.likes.GetOr(p.likes),
      u.listens.GetOr(p.listens),
      u.createdAt.GetOr(p.createdAt),
      now)
  }

  /** An empty patch only stamps the update time. */
  lemma MergeNoChanges(p: Podcast, now: string)
    ensures Merge(p, NoChanges, now) == p.(updatedAt := now)
  {
  }

  /** Applying the same update twice is applying it once. */
  lemma MergeIdempotent(p: Podcast, u: Patch, now: string)
    ensures Merge(Merge(p, u, now), u, now) == Merge(p, u, now)
  {
  }

  /** The list after updating `id`: matching records merged, the rest untouched. */
  function Updated(ps: seq<Podcast>, id: string, u: Patch, now: string): (r: seq<Podcast>)
    ensures |r| == |ps|
    ensures forall i :: 0 <= i < |ps| && ps[i].id == id ==> r[i] == Merge(ps[i], u, now)
    ensures forall i :: 0 <= i < |ps| && ps[i].id != id ==> r[i] == ps[i]
  {
    MapWhere(ps, id, p => Merge(p, u, now))
  }

  /** Updating an unknown id leaves the list equal. */
  lemma UpdatedAbsent(ps: seq<Podcast>, id: string, u: Patch, now: string)
    requires forall i :: 0 <= i < |ps| ==> ps[i].id != id
    ensures Updated(ps, id, u, now) == ps
  {
  }

  /** The record `addPodcast` builds: the draft plus an id from the clock and
      both time stamps set to now. */
  function NewPodcast(d: Draft, nowMs: nat, nowIso: string): (r: Podcast)
    ensures DraftOf(r) == d
    ensures r.id == Decimal(nowMs)
    ensures r.createdAt == nowIso && r.updatedAt == nowIso
  {
    Podcast(Decimal(nowMs), d.title, d.description, d.audioUrl, d.imageUrl, d.duration,
            d.category, d.author, d.authorId, d.likes, d.listens, nowIso, nowIso)
  }

  /** Two records added at different clock readings get different ids. */
  lemma NewPodcastIdsDiffer(d1: Draft, d2: Draft, t1: nat, t2: nat, iso1: string, iso2: string)
    requires t1 != t2
    ensures NewPodcast(d1, t1, iso1).id != NewPodcast(d2, t2, iso2).id
  {
    if Decimal(t1) == Decimal(t2) {
      DecimalInjective(t1, t2);
    }
  }

  /** The provider's state. `user` is the session user it was created for. */
  class PodcastStore {
    var podcasts: seq<Podcast>
    var current: Option<Podcast>
    var isPlaying: bool
    var favorites: seq<string>
    const user: Option<User>
    var storage: map<string, Stored>

    predicate Valid()
      reads this
    {
      StorageTyped(user, storage)
    }

    /** The storage holds exactly the in-memory list under "podcasts". */
    predicate Mirrored()
      reads this
    {
      PodcastsKey in storage && storage[PodcastsKey] == PodcastList(podcasts)
    }

    /** The provider's initial state, before its load effect runs. */
    constructor (user: Option<User>, storage: map<string, Stored>)
      requires StorageTyped(user, storage)
      ensures Valid()
      ensures podcasts == [] && current == None && !isPlaying && favorites == []
      ensures this.user == user && this.storage == storage
    {
      this.podcasts := [];
      this.current := None;
      this.isPlaying := false;
      this.favorites := [];
      this.user := user;
      this.storage := storage;
    }

    /** The load effect: seed missing storage with `defaults`, otherwise load
        the stored list verbatim; then load the user's stored favourites. */
    method Load(defaults: seq<Podcast>)
      requires Valid()
      modifies this
      ensures Valid() && Mirrored()
      ensures PodcastsKey in old(storage) ==>
                podcasts == old(storage)[PodcastsKey].podcasts && storage == old(storage)
      ensures PodcastsKey !in old(storage) ==>
                podcasts == defaults && storage == old(storage)[PodcastsKey := PodcastList(defaults)]
      ensures favorites ==
                if user.Some? && FavoritesKey(user.value.id) in old(storage)
                then old(storage)[FavoritesKey(user.value.id)].ids
                else old(favorites)
      ensures current == old(current) && isPlaying == old(isPlaying)
    {
      if PodcastsKey in storage {
        podcasts := storage[PodcastsKey].podcasts;
      } else {
        podcasts := defaults;
        storage := storage[PodcastsKey := PodcastList(defaults)];
      }
      if user.Some? {
        var key := FavoritesKey(user.value.id);
        if key in storage {
          favorites := storage[key].ids;
        }
      }
    }

    /** Replace the list and write it through to storage. */
    method SetPodcasts(ps: seq<Podcast>)
      requires Valid()
      modifies this
      ensures Valid() && Mirrored()
      ensures podcasts == ps && storage == old(storage)[PodcastsKey := PodcastList(ps)]
      ensures current == old(current) && isPlaying == old(isPlaying) && favorites == old(favorites)
    {
      podcasts := ps;
      storage := storage[PodcastsKey := PodcastList(ps)];
    }

    /** Make `p` the playback target, start playing and count a listen. */
    method PlayPodcast(p: Podcast)
      requires Valid()
      modifies this
      ensures Valid() && Mirrored()
      ensures current == Some(p) && isPlaying
      ensures podcasts == Listened(old(podcasts), p.id)
      ensures storage == old(storage)[PodcastsKey := PodcastList(podcasts)]
      ensures favorites == old(favorites)
    {
      current := Some(p);
      isPlaying := true;
      IncrementListens(p.id);
    }

    method PausePodcast()
      modifies this
      ensures !isPlaying
      ensures podcasts == old(podcasts) && current == old(current)
      ensures favorites == old(favorites) && storage == old(storage)
    {
      isPlaying := false;
    }

    method TogglePlay()
      modifies this
      ensures isPlaying == !old(isPlaying)
      ensures podcasts == old(podcasts) && current == old(current)
      ensures favorites == old(favorites) && storage == old(storage)
    {
      isPlaying := !isPlaying;
    }

    /** Add a like to `id`; without a signed-in user nothing happens. */
    method LikePodcast(id: string)
      requires Valid()
      modifies this
      ensures Valid()
      ensures user.None? ==>
                podcasts == old(podcasts) && storage == old(storage)
      ensures user.Some? ==>
                Mirrored() && podcasts == Liked(old(podcasts), id) &&
                storage == old(storage)[PodcastsKey := PodcastList(podcasts)]
      ensures current == old(current) && isPlaying == old(isPlaying) && favorites == old(favorites)
    {
      if user.None? {
        return;
      }
      SetPodcasts(Liked(podcasts, id));
    }

    /** Flip `id` in the user's favourites and store them under the user's
        key; without a signed-in user nothing happens. */
    method ToggleFavorite(id: string)
      requires Valid()
      modifies this
      ensures Valid()
      ensures user.None? ==> favorites == old(favorites) && storage == old(storage)
      ensures user.Some? ==>
                favorites == Toggled(old(favorites), id) &&
                storage == old(storage)[FavoritesKey(user.value.id) := IdList(favorites)]
      ensures podcasts == old(podcasts) && current == old(current) && isPlaying == old(isPlaying)
    {
      if user.None? {
        return;
      }
      favorites := Toggled(favorites, id);
      storage := storage[FavoritesKey(user.value.id) := IdList(favorites)];
    }

    /** Count a listen of `id`; no user is needed. */
    method IncrementListens(id: string)
      requires Valid()
      modifies this
      ensures Valid() && Mirrored()
      ensures podcasts == Listened(old(podcasts), id)
      ensures storage == old(storage)[PodcastsKey := PodcastList(podcasts)]
      ensures current == old(current) && isPlaying == old(isPlaying) && favorites == old(favorites)
    {
      SetPodcasts(Listened(podcasts, id));
    }

    /** Append a new record built from `d` and the clock. */
    method AddPodcast(d: Draft, nowMs: nat, nowIso: string)
      requires Valid()
      modifies this
      ensures Valid() && Mirrored()
      ensures podcasts == old(podcasts) + [NewPodcast(d, nowMs, nowIso)]
      ensures storage == old(storage)[PodcastsKey := PodcastList(podcasts)]
      ensures current == old(current) && isPlaying == old(isPlaying) && favorites == old(favorites)
    {
      var p := NewPodcast(d, nowMs, nowIso);
      SetPodcasts(podcasts + [p]);
    }

    /** Remove every record with `id`; if it was the playback target, stop
        playback and drop the target. */
    method DeletePodcast(id: string)
      requires Valid()
      modifies this
      ensures Valid() && Mirrored()
      ensures podcasts == Without(old(podcasts), id)
      ensures storage == old(storage)[PodcastsKey := PodcastList(podcasts)]
      ensures old(current).Some? && old(current).value.id == id ==>
                current == None && !isPlaying
      ensures !(old(current).Some? && old(current).value.id == id) ==>
                current == old(current) && isPlaying == old(isPlaying)
      ensures favorites == old(favorites)
    {
      SetPodcasts(Without(podcasts, id));
      if current.Some? && current.value.id == id {
        current := None;
        isPlaying := false;
      }
    }

    /** Merge `u` into every record with `id` and stamp its update time. */
    method UpdatePodcast(id: string, u: Patch, nowIso: string)
      requires Valid()
      modifies this
      ensures Valid() && Mirrored()
      ensures podcasts == Updated(old(podcasts), id, u, nowIso)
      ensures storage == old(storage)[PodcastsKey := PodcastList(podcasts)]
      ensures current == old(current) && isPlaying == old(isPlaying) && favorites == old(favorites)
    {
      SetPodcasts(Updated(podcasts, id, u, nowIso));
    }
  }
}
