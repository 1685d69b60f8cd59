# Podcast catalog store — a Dafny model

This project models the client-side core of a browser podcast catalog: the
provider that holds the podcast list, the playback target, the play flag and
the signed-in user's favourite ids, and writes them through to a key/value
storage; the dashboard's search and category filter; the values a podcast
card derives (duration text, "now playing", favourite heart, edit rights)
and the actions it dispatches; the sign-up form's submit checks; and the
create/edit form's payload, dispatch and simulated upload.

Modules, one per source file (plus three helpers):

- `Types` — the `Podcast`, `User`, draft (`Omit<Podcast, …>`) and patch
  (`Partial<Podcast>`) records.
- `Lists` — `Array.prototype.filter` (`Keep`) with its order facts.
- `Text` — `toLowerCase`, `includes`, `Number.prototype.toString` on whole
  numbers and `padStart(2, '0')`.
- `Catalog` — the provider as class `PodcastStore`, with the list updates as
  functions (`Liked`, `Listened`, `Without`, `Toggled`, `Updated`,
  `NewPodcast`) that its methods call and that the lemmas are about.
- `Search`, `Card`, `Signup`, `CreateModal` — the dashboard filter, the card,
  the sign-up form and the create/edit form.

The clock (`Date.now()` and the ISO time), the confirmation dialog, the
random draw of the simulated upload and the account service's `signup` are
parameters. Storage holds already-decoded values (`Stored`); `Valid()` says
that the keys the store reads hold values of the shape it decodes them to.
Every operation that changes the list leaves `Mirrored()`: the storage's
`"podcasts"` entry equals the in-memory list.

Three things the code does that a reader might not expect, and that the
model keeps: the code does not make ids unique — a new podcast's id is the
clock reading in decimal, so two podcasts added in the same millisecond share
an id (`NewPodcastIdsDiffer` proves only that different readings give
different ids); updating or deleting an unknown id is a silent no-op that
leaves the list equal (`UpdatedAbsent`, `WithoutAbsent`) and reports nothing;
and no store operation checks ownership — edit and delete are gated only by
the card (`CanEdit`).

The create/edit modal is mounted once by the dashboard, hidden and editing
nothing, and its form state is initialised only then; opening it later for
an edit does not refill the form (see "## Findings").

## Model

| member | source | states |
|---|---|---|
| Lists.Keep | src/App.tsx:21-29 | filter keeps exactly the elements that satisfy the predicate, counts them, and the result is an order-preserving subsequence |
| Lists.KeepAppend | src/App.tsx:21 | filtering a concatenation is concatenating the filtered parts, so filtering never reorders |
| Lists.KeepAll | src/App.tsx:21 | a filter that rejects nothing returns the list unchanged |
| Lists.KeepAgree | src/App.tsx:21 | filters that agree on every element give the same list |
| Lists.KeepNoDuplicates | src/contexts/PodcastContext.tsx:97 | filtering a duplicate-free list keeps it duplicate-free |
| Text.Lower | src/App.tsx:22-24 | lower-casing keeps the length, turns each letter A-Z into its lower-case counterpart and leaves every other character |
| Text.LowerIdempotent | src/App.tsx:22-24 | lower-casing twice equals lower-casing once |
| Text.Includes | src/App.tsx:22-24 | `includes` holds exactly when the substring occurs at some index |
| Text.IncludesEmpty | src/App.tsx:22-24 | every string includes the empty string |
| Text.Decimal | src/contexts/PodcastContext.tsx:117 | `toString` of a whole number is a canonical numeral (digits, no leading zero) that denotes the number |
| Text.DecimalOfValue | src/contexts/PodcastContext.tsx:117 | every canonical numeral is the `toString` of its value (the inverse direction) |
| Text.DecimalInjective | src/contexts/PodcastContext.tsx:117 | different numbers print differently |
| Text.PadTwo | src/components/Podcast/PodcastCard.tsx:50 | `padStart(2, '0')` ends with the text, pads with zeros only, and reaches length two |
| Catalog.FavoritesKey | src/contexts/PodcastContext.tsx:101 | the favourites key never collides with `"podcasts"` and carries the user id after the `favorites_` prefix |
| Catalog.FavoritesKeyInjective | src/contexts/PodcastContext.tsx:101 | different users have different favourites keys |
| Catalog.MapWhere | src/contexts/PodcastContext.tsx:84-89 | the id-matching map keeps the length and changes exactly the records with that id |
| Catalog.MapWhereAbsent | src/contexts/PodcastContext.tsx:135-141 | when no record has the id the map returns the same list |
| Catalog.Liked | src/contexts/PodcastContext.tsx:84-89 | liking raises `likes` by exactly one on each matching record, changes no other field, and leaves other records and the order as they were |
| Catalog.LikedTotal | src/contexts/PodcastContext.tsx:84-90 | the catalog's total likes grow by the number of records with that id |
| Catalog.Listened | src/contexts/PodcastContext.tsx:105-110 | a listen raises `listens` by exactly one on each matching record and changes nothing else |
| Catalog.ListenedTotal | src/contexts/PodcastContext.tsx:104-112 | the catalog's total listens grow by the number of records with that id |
| Catalog.Without | src/contexts/PodcastContext.tsx:126 | deleting keeps every record with another id, no record with that id, in order, and shrinks the list by the number removed |
| Catalog.WithoutAbsent | src/contexts/PodcastContext.tsx:126 | deleting an id no record has leaves the list equal |
| Catalog.Toggled | src/contexts/PodcastContext.tsx:96-98 | toggling flips the id's membership and no other; an absent id is appended at the end, a present one is removed (every copy, and nothing else) with the order kept |
| Catalog.ToggleTwiceAbsent | src/contexts/PodcastContext.tsx:96-98 | toggling an absent id twice gives back the very same list |
| Catalog.ToggleTwiceMembership | src/contexts/PodcastContext.tsx:96-98 | toggling twice restores every membership |
| Catalog.ToggledNoDuplicates | src/contexts/PodcastContext.tsx:96-98 | a duplicate-free favourites list stays duplicate-free |
| Catalog.Merge | src/contexts/PodcastContext.tsx:137 | field by field, a key present in the update replaces the record's value and an absent key keeps it; the update time is then stamped with now |
| Catalog.MergeNoChanges | src/contexts/PodcastContext.tsx:137 | an empty update only stamps the update time |
| Catalog.MergeIdempotent | src/contexts/PodcastContext.tsx:137 | applying the same update twice equals applying it once |
| Catalog.Updated | src/contexts/PodcastContext.tsx:134-142 | updating merges into exactly the matching records and keeps length and order |
| Catalog.UpdatedAbsent | src/contexts/PodcastContext.tsx:134-142 | updating an unknown id leaves the list equal |
| Catalog.NewPodcast | src/contexts/PodcastContext.tsx:114-120 | the added record carries the draft unchanged, the clock in decimal as id, and now as both time stamps |
| Catalog.NewPodcastIdsDiffer | src/contexts/PodcastContext.tsx:117 | records added at different clock readings get different ids |
| Catalog.PodcastStore.constructor | src/contexts/PodcastContext.tsx:37-43 | the provider starts with an empty list, no target, not playing and no favourites |
| Catalog.PodcastStore.Load | src/contexts/PodcastContext.tsx:45-60 | missing storage is seeded with the defaults and written back; otherwise the stored list is loaded verbatim; the user's stored favourites are loaded; storage mirrors the list |
| Catalog.PodcastStore.SetPodcasts | src/contexts/PodcastContext.tsx:62-65 | the list is replaced and written through under `"podcasts"`, nothing else changes |
| Catalog.PodcastStore.PlayPodcast | src/contexts/PodcastContext.tsx:67-71 | the target becomes the given podcast, playing is on, and the list is the one with its listen counted |
| Catalog.PodcastStore.PausePodcast | src/contexts/PodcastContext.tsx:73-75 | playing is off and nothing else changes |
| Catalog.PodcastStore.TogglePlay | src/contexts/PodcastContext.tsx:77-79 | playing is negated and the target and everything else stay |
| Catalog.PodcastStore.LikePodcast | src/contexts/PodcastContext.tsx:81-91 | without a user nothing changes; otherwise the list is the liked list and storage mirrors it |
| Catalog.PodcastStore.ToggleFavorite | src/contexts/PodcastContext.tsx:93-102 | without a user nothing changes; otherwise favourites are toggled and written only under the user's key, list and playback untouched |
| Catalog.PodcastStore.IncrementListens | src/contexts/PodcastContext.tsx:104-112 | with or without a user the list is the listened list and storage mirrors it |
| Catalog.PodcastStore.AddPodcast | src/contexts/PodcastContext.tsx:114-123 | exactly one new record is appended after the unchanged earlier ones |
| Catalog.PodcastStore.DeletePodcast | src/contexts/PodcastContext.tsx:125-132 | the list loses that id's records; target and playing are cleared exactly when the target had that id, else both unchanged |
| Catalog.PodcastStore.UpdatePodcast | src/contexts/PodcastContext.tsx:134-142 | the list is the updated list and storage mirrors it; playback and favourites stay |
| Search.Filtered | src/App.tsx:21-29 | a podcast is in the result iff it is in the list, its lower-cased title, description or author includes the lower-cased query, and the category is empty or equal; the result is an order-preserving subsequence holding as many entries as the list has matching ones |
| Search.FilteredCategoryExact | src/App.tsx:26 | with a category selected every result has exactly that category |
| Search.FilteredEverything | src/App.tsx:21-28 | an empty query with no category returns the whole list |
| Search.FilteredIgnoresCase | src/App.tsx:22-24 | queries that lower-case alike give the same result |
| Search.FilteredLowerQuery | src/App.tsx:22-24 | a query and its lower-cased form give the same result |
| Search.FilteredTechExample | src/App.tsx:21-29 | "tech" finds "Tech Talk" by Alice and not "Cooking Basics" by Bob |
| Card.IsCurrentlyPlaying | src/components/Podcast/PodcastCard.tsx:25 | a card shows "now playing" when a target is set, has the card's id, and playback is on |
| Card.IsFavorited | src/components/Podcast/PodcastCard.tsx:26 | a card's heart is filled when its id is among the favourites |
| Card.CanEdit | src/components/Podcast/PodcastCard.tsx:27 | a card offers edit and delete when the signed-in user is the podcast's author |
| Card.PlayingIsUnique | src/components/Podcast/PodcastCard.tsx:25 | at most one podcast id shows as currently playing |
| Card.ToggledFlipsFavorited | src/components/Podcast/PodcastCard.tsx:26 | a toggle flips that card's heart and no other id's |
| Card.NoUserNoEdit | src/components/Podcast/PodcastCard.tsx:27 | without a user no card can be edited |
| Card.FormatDuration | src/components/Podcast/PodcastCard.tsx:47-51 | the text is the whole minutes as a numeral, a colon, then two digits whose value is the remaining seconds |
| Card.ParseFormatDuration | src/components/Podcast/PodcastCard.tsx:47-51 | reading the text back as minutes × 60 + seconds gives the original duration |
| Card.HandlePlay | src/components/Podcast/PodcastCard.tsx:29-31 | after play exactly the cards with this podcast's id show as currently playing; the listen is counted and written under `"podcasts"` only; favourites stay |
| Card.HandleFavorite | src/components/Podcast/PodcastCard.tsx:37-39 | with a user the card's heart flips and only the user's favourites key is written; without one favourites and storage stay; list and playback stay |
| Card.HandleDelete | src/components/Podcast/PodcastCard.tsx:41-45 | an unconfirmed delete changes nothing; a confirmed one removes the podcast, writes only `"podcasts"`, and clears target and playing exactly when the target had that id, else keeps both |
| Signup.Validate | src/components/Auth/SignupForm.tsx:24-32 | the mismatch check comes first, then length below six; six characters pass |
| Signup.Submit | src/components/Auth/SignupForm.tsx:20-38 | `signup` is asked iff both checks pass; each failing stage yields its own message; the error is empty iff `signup` accepted |
| Signup.MismatchReportedFirst | src/components/Auth/SignupForm.tsx:24-32 | a mismatched short password gets the mismatch message and `signup` is not asked |
| Signup.SixCharactersPass | src/components/Auth/SignupForm.tsx:29-32 | a matching six-character password passes and a five-character one is too short |
| Signup.SignupForm.constructor | src/components/Auth/SignupForm.tsx:11-18 | the form starts with empty fields and no error |
| Signup.SignupForm.Fill | src/components/Auth/SignupForm.tsx:72-147 | the inputs set the four fields and leave the error |
| Signup.SignupForm.HandleSubmit | src/components/Auth/SignupForm.tsx:20-38 | the submit clears the error, stops at the first failing check, and ends with the error and the call that `Submit` gives |
| CreateModal.InitialForm | src/components/Podcast/CreatePodcastModal.tsx:20-27 | the form state's initial value: the given podcast's fields, or empty with duration 0 when there is none |
| CreateModal.Payload | src/components/Podcast/CreatePodcastModal.tsx:37-43 | the payload has the form's fields, the user as author, and the edited podcast's counters or 0 |
| CreateModal.DraftPatch | src/components/Podcast/CreatePodcastModal.tsx:45-46 | the payload as an update has no id or time stamps, and merging it makes the record carry exactly the payload |
| CreateModal.EditKeepsIdentity | src/components/Podcast/CreatePodcastModal.tsx:37-46 | saving an edit keeps the id, creation time and counters and makes the saver the author |
| CreateModal.CreatorCanEdit | src/components/Podcast/CreatePodcastModal.tsx:37-48 | the user who creates a podcast can edit it |
| CreateModal.Uploaded | src/components/Podcast/CreatePodcastModal.tsx:67-87 | an image upload sets one of the four listed images; an audio upload sets the fixed sound and a duration in 600..4199; nothing else changes |
| CreateModal.UploadCoversRange | src/components/Podcast/CreatePodcastModal.tsx:71-84 | every listed image and every duration in 600..4199 is some draw's result |
| CreateModal.UnsyncedEditBlanksPodcast | src/components/Podcast/CreatePodcastModal.tsx:20-27 | saving an edit from the form initialised with no podcast, with only title, description and category typed in, sets those three and blanks the image and sound and zeroes the duration, keeping id and counters |
| CreateModal.SyncedEditKeepsContent | src/components/Podcast/CreatePodcastModal.tsx:37-46 | saving an edit from a form filled with the podcast changes only its author and update time |
| CreateModal.CreatePodcastModal.constructor | src/App.tsx:80-84 | the dashboard mounts the modal hidden and editing nothing, so the form state starts as the empty form, not submitting |
| CreateModal.CreatePodcastModal.OpenCreate | src/App.tsx:53 | the create button shows the modal and leaves the form as it is |
| CreateModal.CreatePodcastModal.OpenEdit | src/App.tsx:31-34 | the edit button shows the modal editing the podcast and leaves the form as it is |
| CreateModal.CreatePodcastModal.OpenEditSynced | src/components/Podcast/CreatePodcastModal.tsx:20-27 | the corrected edit: shows the modal editing the podcast with the form filled from it |
| CreateModal.CreatePodcastModal.Close | src/App.tsx:36-39 | closing hides the modal and forgets the edited podcast, leaving the form |
| CreateModal.CreatePodcastModal.Fill | src/components/Podcast/CreatePodcastModal.tsx:113-146 | typing sets title, description and category and leaves image, sound and duration |
| CreateModal.CreatePodcastModal.HandleFileUpload | src/components/Podcast/CreatePodcastModal.tsx:67-87 | the form becomes the uploaded form for the given draw |
| CreateModal.CreatePodcastModal.HandleSubmit | src/components/Podcast/CreatePodcastModal.tsx:30-65 | without a user nothing changes; otherwise exactly one store call (update when editing, add when creating) that writes only `"podcasts"`, then the modal is closed, the form empty and submitting over; playback and favourites stay |
| CreateModal.MountThenEdit | src/App.tsx:19 | mounting, clicking Edit on a podcast, typing the three required fields and saving gives every record with its id the typed title and blanks its image, sound and duration |
| CreateModal.MountThenEditSynced | src/components/Podcast/CreatePodcastModal.tsx:20-27 | with the form filled on opening, the same steps leave the edited record as it was except for author and update time |

## Left out

- The audio player (src/components/Player/AudioPlayer.tsx): it drives a DOM audio element and works on floating-point times and volume.
- The header, sidebar and grid components and all markup, styling and icons: they render and pass callbacks only.
- `currentTime` and `duration` of the provider: the provider never changes them.
- `getUserInteractions`: it reads a storage key that nothing writes.
- JSON encoding and decoding: storage holds decoded values, and what a malformed stored text does is not modelled; `Valid()` takes the stored values to have the shape the store reads.
- The session store (sign-up, login and logout internals) is not part of this model; `signup` is a parameter and the store's user is fixed when it is created, so the load effect re-running on a user change is not modelled.
- The login form is not part of this model.
- The default podcast list and the category list are not part of this model; `Load` takes the defaults as a parameter.
- React's batching and closures: each operation is a sequential method call, so `PlayPodcast` counts its listen on the current list.
- The modal's `catch` branch: nothing in the model throws.
- The browser's own form validation (`required` inputs and `type="email"` in the sign-up and create/edit forms): `Signup.SignupForm.HandleSubmit` and `CreateModal.CreatePodcastModal.HandleSubmit` also accept forms the browser would refuse to submit.
- The modal's early `return null` when hidden: it only decides whether markup is shown; the form state lives on while hidden, as modelled.
- A patch key that is present with the value `undefined`: a patch key is either absent or carries a value.
- Catalog.PodcastStore.AddPodcast: takes one ISO reading for both time stamps, where the source reads the time twice and the two readings could straddle a millisecond.
- Catalog.Updated: one ISO reading stamps every record with the id, where the source reads the time once per matching record inside the `map` callback, so two records sharing an id could get different `updatedAt` values there.
- Catalog.PodcastStore.UpdatePodcast: takes that one ISO reading for all matching records (as `Catalog.Updated`), and so does `CreateModal.CreatePodcastModal.HandleSubmit`, which passes it through when saving an edit.
- Text.Lower: lower-cases the ASCII letters only, where `toLowerCase` also maps other scripts.
- Signup.Validate: counts characters, where the source's `length` counts UTF-16 code units (different for characters outside the basic plane).
- Card.FormatDuration: takes a whole non-negative number of seconds; the source's output for negative or fractional durations is not modelled, nor JavaScript's exponent notation for minutes of 10^21 or more and its loss of integer precision beyond 2^53.
- Catalog.LikedTotal: counters are unbounded, where JavaScript numbers lose precision beyond 2^53.

## Findings

| source | as written | input that shows it | evidently intended | confidence | as-written member | corrected member |
|---|---|---|---|---|---|---|
| src/components/Podcast/CreatePodcastModal.tsx:20-27 | the form state is initialised from `editingPodcast` once, when the dashboard mounts the modal with no edited podcast (src/App.tsx:19, 80-84); opening an edit later (src/App.tsx:31-34) leaves the form as it is | sign in, click Edit on a podcast P; the form shows empty, so type a title, description and category and press Update: the update carries an empty image and sound and duration 0, so P loses them | opening an edit fills the form with the edited podcast's fields | not executed | CreateModal.MountThenEdit | CreateModal.MountThenEditSynced |
