/** The values a podcast card derives and the actions it dispatches
    (src/components/Podcast/PodcastCard.tsx). */
module Card {
  import opened Types
  import opened Lists
  import opened Text
  import opened Catalog

  /** The card shows "Now Playing": its podcast is the target and playback is on. */
  predicate IsCurrentlyPlaying(current: Option<Podcast>, isPlaying: bool, p: Podcast) {
    current.Some? && current.value.id == p.id && isPlaying
  }

  /** The card's heart is filled: the podcast's id is among the favourites. */
  predicate IsFavorited(favorites: seq<string>, p: Podcast) {
    p.id in favorites
  }

  /** The card offers edit and delete: the signed-in user is the podcast's author. */
  predicate CanEdit(user: Option<User>, p: Podcast) {
    user.Some? && user.value.id == p.authorId
  }

  /** At most one podcast id shows "Now Playing" at a time. */
  lemma PlayingIsUnique(current: Option<Podcast>, isPlaying: bool, p: Podcast, q: Podcast)
    requires IsCurrentlyPlaying(current, isPlaying, p) && IsCurrentlyPlaying(current, isPlaying, q)
    ensures p.id == q.id
  {
  }

  /** Toggling a card's favourite flips its heart and no other card's. */
  lemma ToggledFlipsFavorited(favorites: seq<string>, p: Podcast, q: Podcast)
    ensures IsFavorited(Toggled(favorites, p.id), p) == !IsFavorited(favorites, p)
    ensures q.id != p.id ==> IsFavorited(Toggled(favorites, p.id), q) == IsFavorited(favorites, q)
  {
  }

  /** Without a signed-in user no card can be edited. */
  lemma NoUserNoEdit(p: Podcast)
    ensures !CanEdit(None, p)
  {
  }

  /** `formatDuration`: whole minutes, a colon, then the remaining seconds as two digits. */
  function FormatDuration(seconds: nat): (r: string)
    ensures |r| >= 4 && r[|r| - 3] == ':'
    ensures Canonical(r[..|r| - 3]) && DigitsValue(r[..|r| - 3]) == seconds / 60
    ensures AllDigits(r[|r| - 2..]) && DigitsValue(r[|r| - 2..]) == seconds % 60
  {
    var minutes := Decimal(seconds / 60);
    var rest := Decimal(seconds % 60);
    TwoDigitsAtMost(seconds % 60);
    PaddedValue(rest);
    SplitAtColon(minutes, PadTwo(rest));
    minutes + ":" + PadTwo(rest)
  }

  /** The parts around the colon of `a:b` when `b` has two characters. */
  lemma SplitAtColon(a: string, b: string)
    requires |b| == 2
    ensures var r := a + ":" + b;
            |r| == |a| + 3 && r[|r| - 3] == ':' && r[..|r| - 3] == a && r[|r| - 2..] == b
  {
    var r := a + ":" + b;
    assert r[..|a|] == a;
    assert r[|a| + 1..] == b;
  }

  /** A number below 60 prints as one or two digits. */
  lemma TwoDigitsAtMost(n: nat)
    requires n < 60
    ensures |Decimal(n)| <= 2
  {
    if n >= 10 {
      assert Decimal(n) == Decimal(n / 10) + [DigitChar(n % 10)];
    }
  }

  /** Padding one or two digits to two leaves their value. */
  lemma PaddedValue(t: string)
    requires 1 <= |t| <= 2 && AllDigits(t)
    ensures |PadTwo(t)| == 2 && AllDigits(PadTwo(t))
    ensures DigitsValue(PadTwo(t)) == DigitsValue(t)
  {
    if |t| == 1 {
      var r := PadTwo(t);
      assert r == ['0'] + t;
      assert r[..1] == ['0'] && r[..1][..0] == [] && t[..0] == [];
    } else {
      assert PadTwo(t) == t;
    }
  }

  /** Reads an `m:ss` text back as a number of seconds. */
  function ParseDuration(t: string): Option<nat> {
    if |t| >= 4 && t[|t| - 3] == ':' && AllDigits(t[..|t| - 3]) && AllDigits(t[|t| - 2..])
    then Some(DigitsValue(t[..|t| - 3]) * 60 + DigitsValue(t[|t| - 2..]))
    else None
  }

  /** A numeral holding `seconds / 60`, a colon and two digits holding
      `seconds % 60` read back as `seconds`. */
  lemma ParseJoined(minutes: string, rest: string, seconds: nat)
    requires |minutes| >= 1 && AllDigits(minutes) && DigitsValue(minutes) == seconds / 60
    requires |rest| == 2 && AllDigits(rest) && DigitsValue(rest) == seconds % 60
    ensures ParseDuration(minutes + ":" + rest) == Some(seconds)
  {
    SplitAtColon(minutes, rest);
  }

  /** Reading a formatted duration back as `m * 60 + ss` gives the seconds. */
  lemma ParseFormatDuration(seconds: nat)
    ensures ParseDuration(FormatDuration(seconds)) == Some(seconds)
  {
    var minutes, rest := Decimal(seconds / 60), Decimal(seconds % 60);
    TwoDigitsAtMost(seconds % 60);
    PaddedValue(rest);
    assert FormatDuration(seconds) == minutes + ":" + PadTwo(rest);
    ParseJoined(minutes, PadTwo(rest), seconds);
  }

  /** Playing from a card: the store plays the card's podcast, so this card
      and no card of another id shows "Now Playing". */
  method HandlePlay(store: PodcastStore, p: Podcast)
    requires store.Valid()
    modifies store
    ensures store.Valid() && store.Mirrored()
    ensures store.current == Some(p) && store.isPlaying
    ensures store.podcasts == Listened(old(store.podcasts), p.id)
    ensures store.storage == old(store.storage)[PodcastsKey := PodcastList(store.podcasts)]
    ensures store.favorites == old(store.favorites)
    ensures forall q :: IsCurrentlyPlaying(store.current, store.isPlaying, q) <==> q.id == p.id
  {
    store.PlayPodcast(p);
  }

  /** The heart button: with a signed-in user it flips this card's heart. */
  method HandleFavorite(store: PodcastStore, p: Podcast)
    requires store.Valid()
    modifies store
    ensures store.Valid()
    ensures store.user.Some? ==>
              IsFavorited(store.favorites, p) == !old(IsFavorited(store.favorites, p))
    ensures store.user.Some? ==> store.favorites == Toggled(old(store.favorites), p.id)
    ensures store.user.None? ==> store.favorites == old(store.favorites)
    ensures store.user.Some? ==>
              store.storage == old(store.storage)[FavoritesKey(store.user.value.id) := IdList(store.favorites)]
    ensures store.user.None? ==> store.storage == old(store.storage)
    ensures store.podcasts == old(store.podcasts)
    ensures store.current == old(store.current) && store.isPlaying == old(store.isPlaying)
  {
    store.ToggleFavorite(p.id);
  }

  /** The delete button: only a confirmed delete reaches the store. */
  method HandleDelete(store: PodcastStore, p: Podcast, confirmed: bool)
    requires store.Valid()
    modifies store
    ensures store.Valid()
    ensures !confirmed ==>
              store.podcasts == old(store.podcasts) && store.storage == old(store.storage) &&
              store.current == old(store.current) && store.isPlaying == old(store.isPlaying)
    ensures confirmed ==>
              store.Mirrored() && store.podcasts == Without(old(store.podcasts), p.id) &&
              store.storage == old(store.storage)[PodcastsKey := PodcastList(store.podcasts)] &&
              !IsCurrentlyPlaying(store.current, store.isPlaying, p)
    ensures confirmed && old(store.current).Some? && old(store.current).value.id == p.id ==>
              store.current == None && !store.isPlaying
    ensures confirmed && !(old(store.current).Some? && old(store.current).value.id == p.id) ==>
              store.current == old(store.current) && store.isPlaying == old(store.isPlaying)
    ensures store.favorites == old(store.favorites)
  {
    if confirmed {
      store.DeletePodcast(p.id);
    }
  }
}
