/**
 * The browser's local storage as the settings hook sees it through `localStorage.getItem`
 * and `JSON.parse`: one slot per key, each either empty, unreadable, or a parsed value.
 */
module Storage {
  import opened Models

  /** What reading one key yields: nothing stored, a value `JSON.parse` rejects, or a parsed value. */
  datatype Stored<T> = Absent | Malformed | Parsed(value: T)

  /** The two keys the settings hook uses, `activeModel` and `availableModels`. */
  class LocalStorage {
    var activeModel: Stored<ModelConfig>
    var availableModels: Stored<seq<ModelConfig>>

    constructor (activeModel: Stored<ModelConfig>, availableModels: Stored<seq<ModelConfig>>)
      ensures this.activeModel == activeModel && this.availableModels == availableModels
    {
      this.activeModel := activeModel;
      this.availableModels := availableModels;
    }
  }
}
