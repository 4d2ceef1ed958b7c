/** The puzzle game's list of completed levels, mirrored in `localStorage`. */
module GameProgress {
  import opened Wrappers
  import opened Storage
  import opened Json
  import opened JsArray

  const PROGRESS_KEY: string := "single-line-draw-progress"

  /**
   * `getSavedProgress`: the parsed list, or `[]` when the entry is missing or
   * empty or does not parse.
   */
  function GetSavedProgress(store: LocalStorage, json: JsonCodec<seq<int>>): (levels: seq<int>)
    reads store
    ensures PROGRESS_KEY !in store.items ==> levels == []
    ensures store.GetItem(PROGRESS_KEY) == Some("") ==> levels == []
    ensures PROGRESS_KEY in store.items && json.parse(store.items[PROGRESS_KEY]).None? ==> levels == []
    ensures PROGRESS_KEY in store.items && store.items[PROGRESS_KEY] != "" && json.parse(store.items[PROGRESS_KEY]).Some? ==>
              levels == json.parse(store.items[PROGRESS_KEY]).value
  {
    match store.GetItem(PROGRESS_KEY)
    case None => []
    case Some(saved) =>
      if saved == "" then []
      else
        match json.parse(saved)
        case None => []
        case Some(parsed) => parsed
  }

  /** `[...new Set([...prev, levelId])]`. */
  function MarkCompleted(prev: seq<int>, levelId: int): (r: seq<int>)
    ensures NoDuplicates(r)
    ensures levelId in r && forall x :: x in prev ==> x in r
    ensures forall x :: x in r ==> x in prev || x == levelId
  {
    Dedupe(prev + [levelId])
  }

  /** On a list without duplicates, marking appends the level unless it is already there. */
  lemma MarkOnDistinct(prev: seq<int>, levelId: int)
    requires NoDuplicates(prev)
    ensures MarkCompleted(prev, levelId) == if levelId in prev then prev else prev + [levelId]
    ensures |MarkCompleted(prev, levelId)| <= |prev| + 1
  {
    DedupeAppend(prev, levelId);
    DedupeOfDistinct(prev);
  }

  /** Marking a level a second time changes nothing. */
  lemma MarkIdempotent(prev: seq<int>, levelId: int)
    ensures MarkCompleted(MarkCompleted(prev, levelId), levelId) == MarkCompleted(prev, levelId)
  {
    var once := MarkCompleted(prev, levelId);
    MarkOnDistinct(once, levelId);
  }

  class GameProgress {
    const store: LocalStorage
    const json: JsonCodec<seq<int>>
    var completedLevels: seq<int>

    constructor (store: LocalStorage, json: JsonCodec<seq<int>>)
      ensures this.store == store && this.json == json && completedLevels == []
    {
      this.store := store;
      this.json := json;
      completedLevels := [];
    }

    /** The mount effect: `setCompletedLevels(getSavedProgress())`. */
    method Load()
      modifies this
      ensures completedLevels == GetSavedProgress(store, json)
    {
      completedLevels := GetSavedProgress(store, json);
    }

    /** `markLevelAsCompleted`: add the level through the `Set` and write the list. */
    method MarkLevelAsCompleted(levelId: int)
      modifies this, store
      ensures completedLevels == MarkCompleted(old(completedLevels), levelId)
      ensures store.items == old(store.items)[PROGRESS_KEY := json.stringify(completedLevels)]
      ensures RoundTrips(json) ==> GetSavedProgress(store, json) == completedLevels
      ensures IsLevelCompleted(levelId)
      ensures forall id :: old(IsLevelCompleted(id)) ==> IsLevelCompleted(id)
    {
      var newProgress := Dedupe(completedLevels + [levelId]);
      store.SetItem(PROGRESS_KEY, json.stringify(newProgress));
      completedLevels := newProgress;
    }

    /**
     * `isLevelCompleted`: `includes` on the list. What it promises across
     * calls is stated by `MarkLevelAsCompleted` and `ResetProgress`.
     */
    function IsLevelCompleted(levelId: int): (completed: bool)
      reads this
      ensures completed <==> exists i :: 0 <= i < |completedLevels| && completedLevels[i] == levelId
    {
      levelId in completedLevels
    }

    /** `resetProgress`: drop the entry and forget every level. */
    method ResetProgress()
      modifies this, store
      ensures store.items == old(store.items) - {PROGRESS_KEY}
      ensures completedLevels == []
      ensures forall levelId :: !IsLevelCompleted(levelId)
      ensures GetSavedProgress(store, json) == []
    {
      store.RemoveItem(PROGRESS_KEY);
      completedLevels := [];
    }
  }
}
