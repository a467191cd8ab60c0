/** The application shell (App.tsx): the list of generated memes, kept newest
    first in memory and mirrored as one serialized entry of the browser's
    local storage. */
module History {
  import opened MemeTypes
  import opened TextOps

  /** The local-storage key holding the serialized history. */
  const HistoryKey := "cat_meme_history"

  /** What `saveToHistory` throws when the storage write ran out of quota. */
  const StorageFullError := Failure("Error", StorageFullMessage)

  /** "STORAGE_FULL: Your history is full. Please clear some memes.", written
      in pieces so that facts about its characters can be read off each. */
  const StorageFullMessage := "STORAGE_FULL: " + "Your history " + "is full. " + "Please clear " + "some memes."

  /** Characters the storage-full message does not contain. */
  lemma StorageFullMessageLacks(c: char)
    requires c == 'q' || c == 'Q' || c == 'X' || c == '4'
    ensures c !in StorageFullMessage
  {
    assert c !in "STORAGE_FULL: " && c !in "Your history " && c !in "is full. ";
    assert c !in "Please clear " && c !in "some memes.";
  }

  /** A storage failure counts as running out of quota when its name says so
      or its message mentions "quota" in any letter case. */
  predicate IsQuotaFailure(e: Failure)
  {
    e.name == "QuotaExceededError" || Contains(ToLower(e.message), "quota")
  }

  /** The exception `saveToHistory` passes on for a failed storage write. */
  function SaveFailure(e: Failure): Failure
  {
    if IsQuotaFailure(e) then StorageFullError else e
  }

  /** The history found at start-up: the parsed stored entry when there is a
      non-empty one that parses, and the empty list otherwise. */
  function LoadedHistory(storage: map<string, string>, parse: string -> Option<seq<MemeItem>>): seq<MemeItem>
  {
    if HistoryKey in storage && storage[HistoryKey] != "" && parse(storage[HistoryKey]).Some?
    then parse(storage[HistoryKey]).value
    else []
  }

  /** The application's state: the meme history and the local storage it is
      mirrored in. `serialize` and `parse` stand for `JSON.stringify` and
      `JSON.parse` on the history. */
  class App {
    const serialize: seq<MemeItem> -> string
    const parse: string -> Option<seq<MemeItem>>
    var history: seq<MemeItem>
    var storage: map<string, string>

    /** Mounting the application loads the history from storage. */
    constructor (storage0: map<string, string>,
                 serialize: seq<MemeItem> -> string,
                 parse: string -> Option<seq<MemeItem>>)
      ensures this.serialize == serialize && this.parse == parse
      ensures storage == storage0
      ensures history == LoadedHistory(storage0, parse)
    {
      this.serialize := serialize;
      this.parse := parse;
      storage := storage0;
      history := LoadedHistory(storage0, parse);
    }

    /** Puts `item` at the front of the history and writes the new history
        to storage. `writeError` is the storage's refusal of that write, if
        it refuses. The in-memory history is updated either way; a refused
        write leaves storage as it was and is reported, a quota refusal as
        `StorageFullError`. */
    method SaveToHistory(item: MemeItem, writeError: Option<Failure>) returns (r: Result<()>)
      modifies this`history, this`storage
      ensures history == [item] + old(history)
      ensures writeError.None? ==> r == Ok(()) && storage == old(storage)[HistoryKey := serialize(history)]
      ensures writeError.Some? ==> storage == old(storage)
      ensures writeError.Some? && IsQuotaFailure(writeError.value) ==> r == Err(StorageFullError)
      ensures writeError.Some? && !IsQuotaFailure(writeError.value) ==> r == Err(writeError.value)
    {
      var newHistory := [item] + history;
      history := newHistory;
      match writeError {
        case None =>
          storage := storage[HistoryKey := serialize(newHistory)];
          r := Ok(());
        case Some(e) =>
          r := Err(SaveFailure(e));
      }
    }

    /** Empties the history and removes its storage entry when the user
        confirms; does nothing otherwise. */
    method ClearHistory(confirmed: bool)
      modifies this`history, this`storage
      ensures confirmed ==> history == [] && storage == old(storage) - {HistoryKey}
      ensures !confirmed ==> history == old(history) && storage == old(storage)
    {
      if confirmed {
        history := [];
        storage := storage - {HistoryKey};
      }
    }
  }

  /** A history written by a successful save is the history found by the
      next load, whenever parsing undoes serializing on it. */
  lemma SavedHistoryReloads(storage: map<string, string>, h: seq<MemeItem>,
                            serialize: seq<MemeItem> -> string,
                            parse: string -> Option<seq<MemeItem>>)
    requires serialize(h) != "" && parse(serialize(h)) == Some(h)
    ensures LoadedHistory(storage[HistoryKey := serialize(h)], parse) == h
  {
  }

  /** After clearing, a reload finds an empty history. */
  lemma ClearedHistoryReloadsEmpty(storage: map<string, string>,
                                   parse: string -> Option<seq<MemeItem>>)
    ensures LoadedHistory(storage - {HistoryKey}, parse) == []
  {
  }

  /** Quota detection ignores the letter case of the message. */
  lemma QuotaDetectionIgnoresCase(name: string, message: string)
    ensures IsQuotaFailure(Failure(name, ToUpper(message))) == IsQuotaFailure(Failure(name, message))
  {
    LowerOfUpper(message);
  }

  /** The translated failure is not itself a quota failure, so it is passed
      on unchanged by a second translation. */
  lemma StorageFullIsFinal()
    ensures !IsQuotaFailure(StorageFullError)
    ensures SaveFailure(StorageFullError) == StorageFullError
  {
    var lower := ToLower(StorageFullMessage);
    StorageFullMessageLacks('q');
    StorageFullMessageLacks('Q');
    forall i | 0 <= i < |lower| ensures lower[i] != 'q' {
      assert StorageFullMessage[i] != 'q' && StorageFullMessage[i] != 'Q';
    }
    assert 'q' in "quota";
    MissingCharNotContained(lower, "quota", 'q');
  }
}
