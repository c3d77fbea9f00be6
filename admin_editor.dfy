/**
 The editor page: its own state (the image and text typed for a new scene,
 the unsaved-changes flag, the delete-confirmation dialog) and the event
 handlers that decide when the store is called. Rendering, notifications
 and file reading are not modelled: a handler that reads a file takes the
 resulting data URL as a parameter.
 */
module AdminEditor {
  import opened StoryTypes
  import opened SceneOps
  import opened StoryStore

  // ---------------------------------------------------------------------------
  // Trimming text
  // ---------------------------------------------------------------------------

  /** The characters JavaScript's `trim` removes: white space and line terminators. */
  predicate IsJsWhitespace(c: char) {
    c == '\t' || c == '\n' || c == '\U{000B}' || c == '\U{000C}' || c == '\r' || c == ' ' ||
    c == '\U{00A0}' || c == '\U{1680}' || ('\U{2000}' <= c <= '\U{200A}') ||
    c == '\U{2028}' || c == '\U{2029}' || c == '\U{202F}' || c == '\U{205F}' ||
    c == '\U{3000}' || c == '\U{FEFF}'
  }

  /** `s` without its leading white space. */
  function TrimStart(s: string): (r: string)
    ensures |r| <= |s| && r == s[|s| - |r|..]
    ensures forall i :: 0 <= i < |s| - |r| ==> IsJsWhitespace(s[i])
    ensures r != [] ==> !IsJsWhitespace(r[0])
  {
    if s != [] && IsJsWhitespace(s[0]) then TrimStart(s[1..]) else s
  }

  /** `s` without its trailing white space. */
  function TrimEnd(s: string): (r: string)
    ensures |r| <= |s| && r == s[..|r|]
    ensures forall i :: |r| <= i < |s| ==> IsJsWhitespace(s[i])
    ensures r != [] ==> !IsJsWhitespace(r[|r| - 1])
  {
    if s != [] && IsJsWhitespace(s[|s| - 1]) then TrimEnd(s[..|s| - 1]) else s
  }

  /**
   `r` is the part of `s` that starts at position `a`, and everything of `s`
   before and after that part is white space.
   */
  predicate TrimmedAt(s: string, r: string, a: int) {
    && 0 <= a && a + |r| <= |s| && r == s[a..a + |r|]
    && (forall i :: 0 <= i < a ==> IsJsWhitespace(s[i]))
    && (forall i :: a + |r| <= i < |s| ==> IsJsWhitespace(s[i]))
  }

  /** A part of a part is a part: trimming twice composes. */
  lemma TrimmedAtCompose(s: string, t: string, a: int, r: string, b: int)
    requires TrimmedAt(s, t, a) && TrimmedAt(t, r, b)
    ensures TrimmedAt(s, r, a + b)
  {
    forall k | 0 <= k < |r| ensures r[k] == s[a + b + k] {
      assert r[k] == t[b + k];
      assert t[b + k] == s[a + b + k];
    }
    assert r == s[a + b..a + b + |r|];
    forall i | 0 <= i < a + b ensures IsJsWhitespace(s[i]) {
      if i >= a { assert s[i] == t[i - a]; }
    }
    forall i | a + b + |r| <= i < |s| ensures IsJsWhitespace(s[i]) {
      if i < a + |t| { assert s[i] == t[i - a]; }
    }
  }

  /** `s` without white space at either end; empty exactly when `s` is all white space. */
  function Trim(s: string): (r: string)
    ensures r != [] ==> !IsJsWhitespace(r[0]) && !IsJsWhitespace(r[|r| - 1])
    ensures r == [] <==> forall i :: 0 <= i < |s| ==> IsJsWhitespace(s[i])
    ensures exists a :: TrimmedAt(s, r, a)
  {
    var t := TrimStart(s);
    var r := TrimEnd(t);
    var a := |s| - |t|;
    assert TrimmedAt(s, t, a);
    assert TrimmedAt(t, r, 0);
    TrimmedAtCompose(s, t, a, r, 0);
    assert t != [] ==> !IsJsWhitespace(s[a]);
    r
  }

  // ---------------------------------------------------------------------------
  // Editor state
  // ---------------------------------------------------------------------------

  datatype Direction = Up | Down

  /** The position a move button aims at: one above or one below. */
  function TargetIndex(index: int, direction: Direction): (t: int)
    ensures direction == Up ==> t + 1 == index
    ensures direction == Down ==> t == index + 1
  {
    match direction
    case Up => index - 1
    case Down => index + 1
  }

  /** The delete-confirmation dialog: open or not, which scene, and its 1-based number. */
  datatype DeleteModal = DeleteModal(isOpen: bool, sceneId: int, sceneNumber: int)

  const ClosedModal := DeleteModal(false, 0, 0)

  class Editor {
    const store: Store
    var newImageUrl: string
    var newText: string
    var hasChanges: bool
    var deleteModal: DeleteModal

    constructor (store: Store)
      ensures this.store == store
      ensures newImageUrl == "" && newText == "" && !hasChanges && deleteModal == ClosedModal
    {
      this.store := store;
      newImageUrl, newText := "", "";
      hasChanges := false;
      deleteModal := ClosedModal;
    }

    /** Marks the page as having unsaved changes. */
    method TrackChange()
      modifies this
      ensures hasChanges
      ensures newImageUrl == old(newImageUrl) && newText == old(newText) && deleteModal == old(deleteModal)
    {
      hasChanges := true;
    }

    /** The save button: writes the document to the cache and clears the flag. */
    method HandleManualSave()
      modifies this, store
      ensures store.data == old(store.data) && store.cached == Some(store.data)
      ensures !hasChanges
      ensures newImageUrl == old(newImageUrl) && newText == old(newText) && deleteModal == old(deleteModal)
    {
      store.SaveToLocalStorage();
      hasChanges := false;
    }

    /** The text box for a new scene. */
    method SetNewText(text: string)
      modifies this
      ensures newText == text
      ensures newImageUrl == old(newImageUrl) && hasChanges == old(hasChanges) && deleteModal == old(deleteModal)
    {
      newText := text;
    }

    /** An image chosen for the new scene, already read as a data URL. */
    method ChooseNewImage(dataUrl: string)
      modifies this
      ensures newImageUrl == dataUrl
      ensures newText == old(newText) && hasChanges == old(hasChanges) && deleteModal == old(deleteModal)
    {
      newImageUrl := dataUrl;
    }

    /** An image chosen to replace the picture of scene `sceneId`. */
    method ReplaceSceneImage(sceneId: int, dataUrl: string)
      modifies this, store
      ensures store.data.audioUrl == old(store.data.audioUrl)
      ensures store.data.scenes == UpdateScenes(old(store.data.scenes), sceneId, SceneUpdate(Some(dataUrl), None))
      ensures store.cached == Autosave(old(store.cached), store.data)
      ensures hasChanges
      ensures newImageUrl == old(newImageUrl) && newText == old(newText) && deleteModal == old(deleteModal)
    {
      store.UpdateScene(sceneId, SceneUpdate(Some(dataUrl), None));
      TrackChange();
    }

    /** An edit in the text box of scene `sceneId`. */
    method EditSceneText(sceneId: int, text: string)
      modifies this, store
      ensures store.data.audioUrl == old(store.data.audioUrl)
      ensures store.data.scenes == UpdateScenes(old(store.data.scenes), sceneId, SceneUpdate(None, Some(text)))
      ensures store.cached == Autosave(old(store.cached), store.data)
      ensures hasChanges
      ensures newImageUrl == old(newImageUrl) && newText == old(newText) && deleteModal == old(deleteModal)
    {
      store.UpdateScene(sceneId, SceneUpdate(None, Some(text)));
      TrackChange();
    }

    /** An audio file chosen as background music, already read as a data URL. */
    method HandleAudioUpload(dataUrl: string)
      modifies this, store
      ensures store.data == StoryData(dataUrl, old(store.data.scenes))
      ensures store.cached == Autosave(old(store.cached), store.data)
      ensures hasChanges
      ensures newImageUrl == old(newImageUrl) && newText == old(newText) && deleteModal == old(deleteModal)
    {
      store.SetAudioUrl(dataUrl);
      TrackChange();
    }

    /**
     The add button. Refused (`added` false, nothing changes) when no image is
     chosen or the text is blank; otherwise adds the image with the trimmed
     text and clears both inputs.
     */
    method HandleAddScene() returns (added: bool)
      modifies this, store
      ensures added <==> old(newImageUrl) != "" && Trim(old(newText)) != ""
      ensures added ==>
                && store.data.audioUrl == old(store.data.audioUrl)
                && store.data.scenes == AppendScene(old(store.data.scenes), old(newImageUrl), Trim(old(newText)))
                && store.cached == Autosave(old(store.cached), store.data)
                && newImageUrl == "" && newText == ""
      ensures !added ==>
                && store.data == old(store.data) && store.cached == old(store.cached)
                && newImageUrl == old(newImageUrl) && newText == old(newText)
      ensures hasChanges == old(hasChanges) && deleteModal == old(deleteModal)
    {
      var text := Trim(newText);
      if newImageUrl == "" || text == "" {
        return false;
      }
      store.AddScene(newImageUrl, text);
      newImageUrl, newText := "", "";
      added := true;
    }

    /**
     A move button on the scene at `index`. The store is called only when the
     target position exists; the scene then trades places with its neighbour.
     */
    method MoveScene(index: nat, direction: Direction) returns (moved: bool)
      requires index < |store.data.scenes|
      modifies this, store
      ensures moved <==> 0 <= TargetIndex(index, direction) < |old(store.data.scenes)|
      ensures moved ==>
                && store.data.audioUrl == old(store.data.audioUrl)
                && store.data.scenes == Reorder(old(store.data.scenes), index, TargetIndex(index, direction))
                && store.cached == Autosave(old(store.cached), store.data)
                && hasChanges
      ensures moved ==>
                var t := TargetIndex(index, direction);
                && store.data.scenes[index] == old(store.data.scenes)[t]
                && store.data.scenes[t] == old(store.data.scenes)[index]
                && forall k :: 0 <= k < |store.data.scenes| && k != index && k != t ==>
                     store.data.scenes[k] == old(store.data.scenes)[k]
      ensures !moved ==>
                && store.data == old(store.data) && store.cached == old(store.cached)
                && hasChanges == old(hasChanges)
      ensures newImageUrl == old(newImageUrl) && newText == old(newText) && deleteModal == old(deleteModal)
    {
      var newIndex := TargetIndex(index, direction);
      if 0 <= newIndex < |store.data.scenes| {
        ReorderAdjacentSwaps(store.data.scenes, index, newIndex);
        store.ReorderScenes(index, newIndex);
        TrackChange();
        moved := true;
      } else {
        moved := false;
      }
    }

    /** The delete button of a scene: opens the dialog, remembering which scene. */
    method OpenDeleteModal(sceneId: int, sceneNumber: int)
      modifies this
      ensures deleteModal == DeleteModal(true, sceneId, sceneNumber)
      ensures newImageUrl == old(newImageUrl) && newText == old(newText) && hasChanges == old(hasChanges)
    {
      deleteModal := DeleteModal(true, sceneId, sceneNumber);
    }

    /** Confirming the dialog deletes the remembered scene and closes it. */
    method HandleConfirmDelete()
      modifies this, store
      ensures store.data.audioUrl == old(store.data.audioUrl)
      ensures store.data.scenes == DeleteScenes(old(store.data.scenes), old(deleteModal.sceneId))
      ensures store.cached == Autosave(old(store.cached), store.data)
      ensures deleteModal == ClosedModal
      ensures newImageUrl == old(newImageUrl) && newText == old(newText) && hasChanges == old(hasChanges)
    {
      store.DeleteScene(deleteModal.sceneId);
      deleteModal := ClosedModal;
    }

    /** Cancelling the dialog closes it and deletes nothing. */
    method HandleCancelDelete()
      modifies this
      ensures deleteModal == ClosedModal
      ensures newImageUrl == old(newImageUrl) && newText == old(newText) && hasChanges == old(hasChanges)
    {
      deleteModal := ClosedModal;
    }
  }
}
