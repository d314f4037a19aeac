/**
 * The two state holders of the editor: the original/current text pair and
 * the selected tone, the latter persisted under `last_selected_tone`.
 */
module AppState {
  import opened Wrappers
  import opened Constants
  import opened Storage

  /** The original text and the working copy; `HasChanges` is derived, never stored. */
  class TextState {
    var originalText: string
    var currentText: string

    /** `originalText !== currentText`. */
    predicate HasChanges()
      reads this
    {
      originalText != currentText
    }

    /** Both copies start as `initialText`, so there is nothing to reset. */
    constructor (initialText: string)
      ensures originalText == initialText && currentText == initialText
      ensures !HasChanges()
    {
      originalText := initialText;
      currentText := initialText;
    }

    /** Replaces both copies. */
    method SetOriginalText(text: string)
      modifies this
      ensures originalText == text && currentText == text
      ensures !HasChanges()
    {
      originalText := text;
      currentText := text;
    }

    /** Replaces the working copy only. */
    method SetCurrentText(text: string)
      modifies this`currentText
      ensures currentText == text && originalText == old(originalText)
      ensures HasChanges() <==> text != originalText
    {
      currentText := text;
    }

    /** Puts the working copy back to the original; on a state without
        changes it changes nothing, so resetting twice is resetting once. */
    method ResetText()
      modifies this`currentText
      ensures currentText == originalText && originalText == old(originalText)
      ensures !HasChanges()
      ensures !old(HasChanges()) ==> currentText == old(currentText)
    {
      currentText := originalText;
    }
  }

  /** `saved || initialTone`: a stored non-empty tone wins over the argument. */
  function InitialTone(saved: Option<string>, initialTone: string): (tone: string)
    ensures saved.Some? && saved.value != [] ==> tone == saved.value
    ensures saved.None? || saved.value == [] ==> tone == initialTone
  {
    if saved.Some? && saved.value != [] then saved.value else initialTone
  }

  /** After storing `tone`, a reload starts from `tone`, unless `tone` was
      empty, in which case it starts from the reload's argument. */
  lemma ReloadRestoresTone(items: map<string, string>, tone: string, initialTone: string)
    ensures InitialTone(Lookup(items[STORAGE_LAST_TONE := tone], STORAGE_LAST_TONE), initialTone)
            == (if tone != [] then tone else initialTone)
  {
  }

  /** After a reset, a reload starts from the default tone whatever its argument. */
  lemma ReloadAfterResetIsDefault(items: map<string, string>, initialTone: string)
    ensures InitialTone(Lookup(items[STORAGE_LAST_TONE := DEFAULT_TONE], STORAGE_LAST_TONE), initialTone) == DEFAULT_TONE
  {
  }

  /** With the default argument and nothing stored yet, the first visit starts
      at "casual", a tone of the catalog. */
  lemma FirstVisitStartsCasual(items: map<string, string>)
    requires STORAGE_LAST_TONE !in items
    ensures InitialTone(Lookup(items, STORAGE_LAST_TONE), DEFAULT_TONE) == "casual"
    ensures IsCatalogTone(InitialTone(Lookup(items, STORAGE_LAST_TONE), DEFAULT_TONE))
  {
    DefaultToneInCatalog();
  }

  /** The selected tone, persisted on every change. */
  class ToneState {
    var selectedTone: string
    const store: LocalStorage

    /** Starts from the stored tone if there is a non-empty one, else from
        `initialTone`; reading the store changes nothing. */
    constructor (initialTone: string, store: LocalStorage)
      ensures this.store == store
      ensures selectedTone == InitialTone(store.GetItem(STORAGE_LAST_TONE), initialTone)
    {
      this.store := store;
      selectedTone := InitialTone(store.GetItem(STORAGE_LAST_TONE), initialTone);
    }

    /** Selects `tone` and stores it. */
    method SetSelectedTone(tone: string)
      modifies this, store
      ensures selectedTone == tone
      ensures store.items == old(store.items)[STORAGE_LAST_TONE := tone]
    {
      selectedTone := tone;
      store.SetItem(STORAGE_LAST_TONE, tone);
    }

    /** Selects and stores the default tone, whatever tone the holder started from. */
    method ResetTone()
      modifies this, store
      ensures selectedTone == DEFAULT_TONE
      ensures store.items == old(store.items)[STORAGE_LAST_TONE := DEFAULT_TONE]
    {
      selectedTone := DEFAULT_TONE;
      store.SetItem(STORAGE_LAST_TONE, DEFAULT_TONE);
    }
  }
}
