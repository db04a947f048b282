/** The author tools panel: its own copy of the story being edited, taken when
    the panel opens, and its own author/reader toggle. Every edit replaces the
    copy with the story SceneStore computes from it. */
module AuthorTools {
  import opened Scenes
  import SceneStore

  class Editor {
    var isAuthorMode: bool
    var editingStory: Story

    /** Opening the panel: reader side shown, editing a copy of the current story. */
    constructor (currentStory: Story)
      ensures !isAuthorMode && editingStory == currentStory
    {
      isAuthorMode := false;
      editingStory := currentStory;
    }

    /** The "Author Mode" / "Reader Mode" buttons: set the panel's own flag and
        report the new mode to the application (`onModeChange`). */
    method SetAuthorMode(on: bool) returns (modeChange: bool)
      modifies this
      ensures isAuthorMode == on && modeChange == on
      ensures editingStory == old(editingStory)
    {
      isAuthorMode := on;
      modeChange := on;
    }

    /** "Add Scene": `id` stands for Date.now(), `u` and `v` for two Math.random() draws. */
    method AddScene(id: int, u: real, v: real)
      requires 0.0 <= u < 1.0 && 0.0 <= v < 1.0
      modifies this
      ensures editingStory == SceneStore.AddScene(old(editingStory), id, u, v)
      ensures isAuthorMode == old(isAuthorMode)
    {
      editingStory := SceneStore.AddScene(editingStory, id, u, v);
    }

    method DeleteScene(id: int)
      modifies this
      ensures editingStory == SceneStore.DeleteScene(old(editingStory), id)
      ensures isAuthorMode == old(isAuthorMode)
    {
      editingStory := SceneStore.DeleteScene(editingStory, id);
    }

    /** The title and description inputs of one scene. */
    method UpdateScene(id: int, field: SceneStore.SceneField, value: string)
      modifies this
      ensures editingStory == SceneStore.UpdateSceneField(old(editingStory), id, field, value)
      ensures isAuthorMode == old(isAuthorMode)
    {
      editingStory := SceneStore.UpdateSceneField(editingStory, id, field, value);
    }

    /** The latitude and longitude inputs of one scene. */
    method UpdatePosition(id: int, lat: real, lng: real)
      modifies this
      ensures editingStory == SceneStore.UpdatePosition(old(editingStory), id, lat, lng)
      ensures isAuthorMode == old(isAuthorMode)
    {
      editingStory := SceneStore.UpdatePosition(editingStory, id, lat, lng);
    }

    /** The story-title input. */
    method EditTitle(title: string)
      modifies this
      ensures editingStory == SceneStore.SetTitle(old(editingStory), title)
      ensures isAuthorMode == old(isAuthorMode)
    {
      editingStory := SceneStore.SetTitle(editingStory, title);
    }

    /** "Save Story": hands the edited copy to the application (`onStoryUpdate`). */
    method Save() returns (saved: Story)
      ensures saved == editingStory
    {
      saved := editingStory;
    }

    /** "Export JSON": the suggested download name for the edited story. */
    method ExportName() returns (name: string)
      ensures |name| >= 5 && name[|name| - 5..] == ".json"
      ensures name[..|name| - 5] == SceneStore.ScanReplace(editingStory.title, false)
    {
      name := SceneStore.ExportFilename(editingStory.title);
    }

    /** "Import JSON" once the file is read: `parsed` is the parse result, None
        when parsing threw. `ok` tells which message is shown. */
    method Import(parsed: Option<Story>) returns (ok: bool)
      modifies this
      ensures ok <==> parsed.Some?
      ensures editingStory == SceneStore.ImportStory(old(editingStory), parsed)
      ensures !ok ==> editingStory == old(editingStory)
      ensures isAuthorMode == old(isAuthorMode)
    {
      editingStory := SceneStore.ImportStory(editingStory, parsed);
      ok := parsed.Some?;
    }
  }
}
