/** The records the catalog works on (src/types/index.ts). */
module Types {

  datatype Option<+T> = None | Some(value: T) {
    function GetOr(default: T): T {
      match this
      case Some(v) => v
      case None => default
    }
  }

  /** A signed-in user. */
  datatype User = User(
    id: string,
    email: string,
    username: string,
    avatar: Option<string>,
    createdAt: string)

  /** One catalog entry; `duration` is in whole seconds. */
  datatype Podcast = Podcast(
    id: string,
    title: string,
    description: string,
    audioUrl: string,
    imageUrl: string,
    duration: nat,
    category: string,
    author: string,
    authorId: string,
    likes: nat,
    listens: nat,
    createdAt: string,
    updatedAt: string)

  /** A podcast without the fields the store assigns (`id`, `createdAt`, `updatedAt`). */
  datatype Draft = Draft(
    title: string,
    description: string,
    audioUrl: string,
    imageUrl: string,
    duration: nat,
    category: string,
    author: string,
    authorId: string,
    likes: nat,
    listens: nat)

  /** A partial podcast: every key may be absent. */
  datatype Patch = Patch(
    id: Option<string>,
    title: Option<string>,
    description: Option<string>,
    audioUrl: Option<string>,
    imageUrl: Option<string>,
    duration: Option<nat>,
    category: Option<string>,
    author: Option<string>,
    authorId: Option<string>,
    likes: Option<nat>,
    listens: Option<nat>,
    createdAt: Option<string>,
    updatedAt: Option<string>)

  const NoChanges := Patch(None, None, None, None, None, None, None, None, None, None, None, None, None)

  /** The fields of `p` a draft carries. */
  function DraftOf(p: Podcast): Draft {
    Draft(p.title, p.description, p.audioUrl, p.imageUrl, p.duration,
          p.category, p.author, p.authorId, p.likes, p.listens)
  }
}
