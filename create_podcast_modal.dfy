/** The create/edit podcast form (src/components/Podcast/CreatePodcastModal.tsx). */
module CreateModal {
  import opened Types
  import opened Text
  import opened Catalog
  import opened Card

  /** The form's fields. */
  datatype FormData = FormData(
    title: string,
    description: string,
    category: string,
    imageUrl: string,
    audioUrl: string,
    duration: nat)

  const EmptyForm := FormData("", "", "", "", "", 0)

  /** The placeholder images an image upload picks from. */
  const ImageUrls := [
    "https://images.pexels.com/photos/3184292/pexels-photo-3184292.jpeg",
    "https://images.pexels.com/photos/3817543/pexels-photo-3817543.jpeg",
    "https://images.pexels.com/photos/256417/pexels-photo-256417.jpeg",
    "https://images.pexels.com/photos/1117132/pexels-photo-1117132.jpeg"
  ]

  /** The placeholder sound an audio upload sets. */
  const AudioUrl := "https://www.soundjay.com/misc/sounds/bell-ringing-05.wav"

  /** An audio upload lasts at least this many seconds ... */
  const MinUploadSeconds := 600
  /** ... plus a random whole number of seconds below this bound. */
  const UploadSpread := 3600

  /** The form a modal opens with: the edited podcast's fields, or all empty.
      (The source's `|| ''` and `|| 0` fallbacks give back the same value for
      an empty text or a zero duration, so they copy the field.) */
  function InitialForm(editing: Option<Podcast>): (f: FormData)
    ensures editing.None? ==> f == EmptyForm
    ensures editing.Some? ==>
              var p := editing.value;
              f.title == p.title && f.description == p.description && f.category == p.category &&
              f.imageUrl == p.imageUrl && f.audioUrl == p.audioUrl && f.duration == p.duration
  {
    match editing
    case None => EmptyForm
    case Some(p) => FormData(p.title, p.description, p.category, p.imageUrl, p.audioUrl, p.duration)
  }

  /** The record handed to the store: the form's fields, the signed-in user as
      author, and the counters of the edited podcast (zero for a new one). */
  function Payload(form: FormData, user: User, editing: Option<Podcast>): (d: Draft)
    ensures d.author == user.username && d.authorId == user.id
    ensures d.likes == (if editing.Some? then editing.value.likes else 0)
    ensures d.listens == (if editing.Some? then editing.value.listens else 0)
    ensures d.title == form.title && d.description == form.description
    ensures d.category == form.category && d.duration == form.duration
    ensures d.imageUrl == form.imageUrl && d.audioUrl == form.audioUrl
  {
    Draft(form.title, form.description, form.audioUrl, form.imageUrl, form.duration, form.category,
          user.username, user.id,
          if editing.Some? then editing.value.likes else 0,
          if editing.Some? then editing.value.listens else 0)
  }

  /** A draft as an update: the ten keys it has are present, the rest absent. */
  function DraftPatch(d: Draft): (u: Patch)
    ensures u.id.None? && u.createdAt.None? && u.updatedAt.None?
    ensures forall p: Podcast, now: string :: DraftOf(Merge(p, u, now)) == d
  {
    Patch(None, Some(d.title), Some(d.description), Some(d.audioUrl), Some(d.imageUrl),
          Some(d.duration), Some(d.category), Some(d.author), Some(d.authorId),
          Some(d.likes), Some(d.listens), None, None)
  }

  /** Saving an edit keeps the podcast's id, creation time and counters, and
      makes the saving user its author. */
  lemma EditKeepsIdentity(p: Podcast, form: FormData, user: User, now: string)
    ensures var r := Merge(p, DraftPatch(Payload(form, user, Some(p))), now);
            r.id == p.id && r.createdAt == p.createdAt && r.updatedAt == now &&
            r.likes == p.likes && r.listens == p.listens &&
            r.authorId == user.id && r.author == user.username
  {
    var d := Payload(form, user, Some(p));
    assert DraftOf(Merge(p, DraftPatch(d), now)) == d;
  }

  /** Whoever creates a podcast may then edit it. */
  lemma CreatorCanEdit(form: FormData, user: User, nowMs: nat, nowIso: string)
    ensures CanEdit(Some(user), NewPodcast(Payload(form, user, None), nowMs, nowIso))
  {
    var d := Payload(form, user, None);
    assert DraftOf(NewPodcast(d, nowMs, nowIso)) == d;
  }

  datatype UploadKind = Image | Audio

  /** The form after a simulated upload whose random draw is `draw`: an index
      into the images, or the extra seconds of the audio. */
  function Uploaded(form: FormData, kind: UploadKind, draw: nat): (f: FormData)
    requires kind == Image ==> draw < |ImageUrls|
    requires kind == Audio ==> draw < UploadSpread
    ensures kind == Image ==> f == form.(imageUrl := f.imageUrl) && f.imageUrl in ImageUrls
    ensures kind == Audio ==> f == form.(audioUrl := AudioUrl, duration := f.duration)
    ensures kind == Audio ==> MinUploadSeconds <= f.duration < MinUploadSeconds + UploadSpread
  {
    match kind
    case Image => form.(imageUrl := ImageUrls[draw])
    case Audio => form.(audioUrl := AudioUrl, duration := draw + MinUploadSeconds)
  }

  /** Every image and every duration in range is some draw's result. */
  lemma UploadCoversRange(form: FormData, url: string, seconds: nat)
    ensures url in ImageUrls ==> exists k :: 0 <= k < |ImageUrls| && Uploaded(form, Image, k).imageUrl == url
    ensures MinUploadSeconds <= seconds < MinUploadSeconds + UploadSpread ==>
              Uploaded(form, Audio, seconds - MinUploadSeconds).duration == seconds
  {
    if url in ImageUrls {
      var k :| 0 <= k < |ImageUrls| && ImageUrls[k] == url;
      assert Uploaded(form, Image, k).imageUrl == url;
    }
  }

  /** Saving an edit whose form started empty and had only its title,
      description and category typed in blanks the podcast's image and sound
      and zeroes its duration. */
  lemma UnsyncedEditBlanksPodcast(p: Podcast, user: User, title: string, description: string,
                                  category: string, now: string)
    ensures var form := InitialForm(None).(title := title, description := description, category := category);
            var r := Merge(p, DraftPatch(Payload(form, user, Some(p))), now);
            r.title == title && r.description == description && r.category == category &&
            r.imageUrl == "" && r.audioUrl == "" && r.duration == 0 &&
            r.id == p.id && r.likes == p.likes && r.listens == p.listens
  {
  }

  /** Saving an edit whose form was filled from the podcast itself changes
      only its author and its update time. */
  lemma SyncedEditKeepsContent(p: Podcast, user: User, now: string)
    ensures Merge(p, DraftPatch(Payload(InitialForm(Some(p)), user, Some(p))), now)
            == p.(author := user.username, authorId := user.id, updatedAt := now)
  {
  }

  /** The modal together with the two dashboard states that drive it: whether
      it is shown and which podcast it edits (src/App.tsx:18-19, 31-39). */
  class CreatePodcastModal {
    var isOpen: bool
    var editing: Option<Podcast>
    var form: FormData
    var isSubmitting: bool

    /** The dashboard mounts the modal once, hidden and editing nothing; the
        form's initialiser reads the (absent) edited podcast at that point only. */
    constructor ()
      ensures !isOpen && editing == None
      ensures form == InitialForm(None) && form == EmptyForm && !isSubmitting
    {
      isOpen := false;
      editing := None;
      form := InitialForm(None);
      isSubmitting := false;
    }

    /** The header's create button: shows the modal; the form stays as it is. */
    method OpenCreate()
      modifies this`isOpen
      ensures isOpen
    {
      isOpen := true;
    }

    /** `handleEditPodcast`: shows the modal editing `p`; the form stays as it is. */
    method OpenEdit(p: Podcast)
      modifies this`isOpen, this`editing
      ensures isOpen && editing == Some(p)
    {
      editing := Some(p);
      isOpen := true;
    }

    /** An edit that re-initialises the form from the edited podcast. */
    method OpenEditSynced(p: Podcast)
      modifies this`isOpen, this`editing, this`form
      ensures isOpen && editing == Some(p) && form == InitialForm(Some(p))
    {
      editing := Some(p);
      isOpen := true;
      form := InitialForm(Some(p));
    }

    /** `handleCloseModal`: hides the modal and forgets the edited podcast. */
    method Close()
      modifies this`isOpen, this`editing
      ensures !isOpen && editing == None
    {
      isOpen := false;
      editing := None;
    }

    /** The title, description and category inputs' change handlers. */
    method Fill(title: string, description: string, category: string)
      modifies this`form
      ensures form == old(form).(title := title, description := description, category := category)
    {
      form := form.(title := title, description := description, category := category);
    }

    /** `handleFileUpload`, with the random draw passed in. */
    method HandleFileUpload(kind: UploadKind, draw: nat)
      requires kind == Image ==> draw < |ImageUrls|
      requires kind == Audio ==> draw < UploadSpread
      modifies this`form
      ensures form == Uploaded(old(form), kind, draw)
    {
      if kind == Image {
        form := form.(imageUrl := ImageUrls[draw]);
      } else {
        form := form.(audioUrl := AudioUrl, duration := draw + MinUploadSeconds);
      }
    }

    /** `handleSubmit`: without a user nothing happens; otherwise exactly one
        store call (update when editing, add when creating), then the modal
        closes, the form is cleared and submitting ends. */
    method HandleSubmit(store: PodcastStore, nowMs: nat, nowIso: string)
      requires store.Valid()
      modifies this, store
      ensures store.Valid()
      ensures store.user.None? ==>
                form == old(form) && isSubmitting == old(isSubmitting) &&
                isOpen == old(isOpen) && editing == old(editing) &&
                store.podcasts == old(store.podcasts) && store.storage == old(store.storage)
      ensures store.user.Some? && old(editing).Some? ==>
                store.podcasts == Updated(old(store.podcasts), old(editing).value.id,
                                          DraftPatch(Payload(old(form), store.user.value, old(editing))), nowIso)
      ensures store.user.Some? && old(editing).None? ==>
                store.podcasts ==
                  old(store.podcasts) + [NewPodcast(Payload(old(form), store.user.value, None), nowMs, nowIso)]
      ensures store.user.Some? ==>
                store.Mirrored() &&
                store.storage == old(store.storage)[PodcastsKey := PodcastList(store.podcasts)]
      ensures store.user.Some? ==> !isOpen && editing == None && form == EmptyForm && !isSubmitting
      ensures store.current == old(store.current) && store.isPlaying == old(store.isPlaying)
      ensures store.favorites == old(store.favorites)
    {
      if store.user.None? {
        return;
      }
      isSubmitting := true;
      var payload := Payload(form, store.user.value, editing);
      if editing.Some? {
        store.UpdatePodcast(editing.value.id, DraftPatch(payload), nowIso);
      } else {
        store.AddPodcast(payload, nowMs, nowIso);
      }
      Close();
      form := EmptyForm;
      isSubmitting := false;
    }
  }

  /** The dashboard as written: mount the modal, click Edit on `p`, type the
      three required fields (the form shows them empty) and press Update.
      Every record with `p`'s id loses its image, sound and duration. */
  method MountThenEdit(store: PodcastStore, p: Podcast, title: string, description: string,
                       category: string, nowMs: nat, nowIso: string)
    requires store.Valid() && store.user.Some?
    requires title != "" && description != "" && category != ""
    modifies store
    ensures |store.podcasts| == |old(store.podcasts)|
    ensures forall i :: 0 <= i < |store.podcasts| && old(store.podcasts)[i].id == p.id ==>
              store.podcasts[i].title == title && store.podcasts[i].imageUrl == "" &&
              store.podcasts[i].audioUrl == "" && store.podcasts[i].duration == 0
  {
    var modal := new CreatePodcastModal();
    modal.OpenEdit(p);
    modal.Fill(title, description, category);
    modal.HandleSubmit(store, nowMs, nowIso);
  }

  /** The same steps with the form filled on opening: the edited record
      keeps `p`'s content and only takes the saving user as author. */
  method MountThenEditSynced(store: PodcastStore, p: Podcast, nowMs: nat, nowIso: string)
    requires store.Valid() && store.user.Some?
    modifies store
    ensures |store.podcasts| == |old(store.podcasts)|
    ensures forall i :: 0 <= i < |store.podcasts| && old(store.podcasts)[i] == p ==>
              store.podcasts[i] ==
                p.(author := store.user.value.username, authorId := store.user.value.id, updatedAt := nowIso)
  {
    var modal := new CreatePodcastModal();
    modal.OpenEditSynced(p);
    modal.HandleSubmit(store, nowMs, nowIso);
    SyncedEditKeepsContent(p, store.user.value, nowIso);
  }
}
