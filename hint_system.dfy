/** The puzzle game's hint counter, mirrored in `localStorage`. */
module HintSystem {
  import opened Wrappers
  import opened Storage
  import opened JsNumber

  const HINT_KEY: string := "single-line-draw-hints"
  const INITIAL_HINTS: int := 500

  /**
   * `getSavedHints`: a missing entry is initialised to 500; a present one is
   * read with `parseInt`. `storageFails` stands for `localStorage` throwing,
   * in which case 500 is returned and nothing is written.
   */
  method GetSavedHints(store: LocalStorage, storageFails: bool) returns (hints: Number)
    modifies store
    ensures storageFails ==> hints == Finite(INITIAL_HINTS) && store.items == old(store.items)
    ensures !storageFails && HINT_KEY !in old(store.items) ==>
              hints == Finite(INITIAL_HINTS) && store.items == old(store.items)[HINT_KEY := ToString(Finite(INITIAL_HINTS))]
    ensures !storageFails && HINT_KEY in old(store.items) ==>
              hints == ParseInt(old(store.items)[HINT_KEY]) && store.items == old(store.items)
  {
    if storageFails {
      return Finite(INITIAL_HINTS);
    }
    var saved := store.GetItem(HINT_KEY);
    if saved == None {
      store.SetItem(HINT_KEY, ToString(Finite(INITIAL_HINTS)));
      return Finite(INITIAL_HINTS);
    }
    return ParseInt(saved.value);
  }

  class HintSystem {
    const store: LocalStorage
    var hintCount: Number

    /** The stored text reads back as the in-memory count. */
    ghost predicate Persisted()
      reads this, store
    {
      store.GetItem(HINT_KEY) == Some(ToString(hintCount))
    }

    constructor (store: LocalStorage)
      ensures this.store == store && hintCount == Finite(0)
    {
      this.store := store;
      hintCount := Finite(0);
    }

    /** The mount effect: `setHintCount(getSavedHints())`. */
    method Load(storageFails: bool)
      modifies this, store
      ensures storageFails ==> hintCount == Finite(INITIAL_HINTS) && store.items == old(store.items)
      ensures !storageFails && HINT_KEY !in old(store.items) ==>
                hintCount == Finite(INITIAL_HINTS) && Persisted()
                && store.items == old(store.items)[HINT_KEY := ToString(hintCount)]
      ensures !storageFails && HINT_KEY in old(store.items) ==>
                hintCount == ParseInt(old(store.items)[HINT_KEY]) && store.items == old(store.items)
    {
      hintCount := GetSavedHints(store, storageFails);
    }

    /** `useHint`: spend one hint when there is one; otherwise change and write nothing. */
    method UseHint()
      modifies this, store
      ensures IsPositive(old(hintCount)) ==>
                hintCount == Finite(old(hintCount).value - 1) && Persisted()
                && store.items == old(store.items)[HINT_KEY := ToString(hintCount)]
      ensures !IsPositive(old(hintCount)) ==> hintCount == old(hintCount) && store.items == old(store.items)
      ensures old(hintCount).Finite? && old(hintCount).value >= 0 ==> hintCount.Finite? && hintCount.value >= 0
    {
      if IsPositive(hintCount) {
        var newCount := Finite(hintCount.value - 1);
        store.SetItem(HINT_KEY, ToString(newCount));
        hintCount := newCount;
      }
    }

    /** `addHints`: add `amount` and write the new count. */
    method AddHints(amount: int)
      modifies this, store
      ensures hintCount == Plus(old(hintCount), amount)
      ensures store.items == old(store.items)[HINT_KEY := ToString(hintCount)]
      ensures Persisted()
    {
      var newCount := Plus(hintCount, amount);
      store.SetItem(HINT_KEY, ToString(newCount));
      hintCount := newCount;
    }

    /** `resetHints`: back to 500, in the store and in memory. */
    method ResetHints()
      modifies this, store
      ensures hintCount == Finite(INITIAL_HINTS)
      ensures store.items == old(store.items)[HINT_KEY := ToString(Finite(INITIAL_HINTS))]
      ensures Persisted()
    {
      store.SetItem(HINT_KEY, ToString(Finite(INITIAL_HINTS)));
      hintCount := Finite(INITIAL_HINTS);
    }

    /** Whenever the count is persisted, a reload reads the same count back. */
    lemma ReloadReadsCount()
      requires Persisted()
      ensures HINT_KEY in store.items && ParseInt(store.items[HINT_KEY]) == hintCount
    {
      ParseIntToString(hintCount);
    }
  }
}
