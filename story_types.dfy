/**
 The records of the storybook document: a scene (one page: image and text,
 identified by a number) and the story document (background audio plus the
 ordered list of scenes). Order in `scenes` is the reading order.
 */
module StoryTypes {

  datatype Option<+T> = None | Some(value: T) {
    function GetOr(default: T): T {
      match this
      case Some(v) => v
      case None => default
    }
  }

  /** One page of the story. `imageUrl` is an inline data URI or a path. */
  datatype Scene = Scene(id: int, imageUrl: string, text: string)

  /** The whole persisted document. An empty `audioUrl` means no music. */
  datatype StoryData = StoryData(audioUrl: string, scenes: seq<Scene>)

  /**
   The fields an edit may replace on a scene; `None` leaves that field as it
   is. The identifier is deliberately not one of them.
   */
  datatype SceneUpdate = SceneUpdate(imageUrl: Option<string>, text: Option<string>)

  /** The document the store starts from: no audio, no scenes. */
  const DefaultStory := StoryData("", [])

  /** No two positions of the list carry the same scene id. */
  predicate UniqueIds(s: seq<Scene>) {
    forall i, j :: 0 <= i < |s| && 0 <= j < |s| && i != j ==> s[i].id != s[j].id
  }

  /** Some scene of the list carries `id`. */
  predicate HasId(s: seq<Scene>, id: int) {
    exists i :: 0 <= i < |s| && s[i].id == id
  }
}
