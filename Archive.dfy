/**
  The archive store: the list of archived blessing messages, newest first,
  mirrored to one storage key. Every mutation builds the new list, writes it,
  and only replaces the in-memory list once the write has succeeded.
 */
module Archive {
  import opened Wrappers

  const LoadError := "Failed to load archived messages"
  const ArchiveError := "Failed to archive message"
  const FavoriteError := "Failed to update favorite status"

  /** An archived message; `isFavorite` is an optional field (None when absent). */
  datatype Message = Message(id: string, text: string, category: string, date: string, isFavorite: Option<bool>)

  /** JavaScript truthiness of the optional flag: an absent value reads as false. */
  predicate IsFavorite(m: Message)
  {
    m.isFavorite == Some(true)
  }

  /** A copy of the message whose flag is the negation of its old truthiness. */
  function WithFavoriteFlipped(m: Message): (r: Message)
  {
    m.(isFavorite := Some(!IsFavorite(m)))
  }

  /** The list built by `archiveMessage`: the new message in front of the old list. */
  function Prepend(m: Message, msgs: seq<Message>): (r: seq<Message>)
    ensures |r| == |msgs| + 1
    ensures r[0] == m && r[1..] == msgs
    ensures multiset(r) == multiset(msgs) + multiset{m}
  {
    [m] + msgs
  }

  /** The list built by `toggleFavorite(id)`: every entry with a matching id is flipped. */
  function ToggleFavoriteIn(msgs: seq<Message>, id: string): (r: seq<Message>)
    ensures |r| == |msgs|
    ensures forall k :: 0 <= k < |msgs| && msgs[k].id != id ==> r[k] == msgs[k]
    ensures forall k :: 0 <= k < |msgs| && msgs[k].id == id ==>
              r[k].isFavorite == Some(!IsFavorite(msgs[k])) &&
              r[k] == msgs[k].(isFavorite := r[k].isFavorite)
  {
    if msgs == [] then []
    else
      var head := if msgs[0].id == id then WithFavoriteFlipped(msgs[0]) else msgs[0];
      [head] + ToggleFavoriteIn(msgs[1..], id)
  }

  /** An id that matches no entry leaves the list element-wise identical. */
  lemma ToggleFavoriteUnknownId(msgs: seq<Message>, id: string)
    requires forall k :: 0 <= k < |msgs| ==> msgs[k].id != id
    ensures ToggleFavoriteIn(msgs, id) == msgs
  {
  }

  /**
    Entry k after toggling the same id twice: a matching entry has its
    truthiness restored, an absent flag coming back as `false`; any other entry
    is untouched.
   */
  lemma ToggleFavoriteTwiceAt(msgs: seq<Message>, id: string, k: nat)
    requires k < |msgs|
    ensures |ToggleFavoriteIn(ToggleFavoriteIn(msgs, id), id)| == |msgs|
    ensures msgs[k].id != id ==> ToggleFavoriteIn(ToggleFavoriteIn(msgs, id), id)[k] == msgs[k]
    ensures msgs[k].id == id ==>
              ToggleFavoriteIn(ToggleFavoriteIn(msgs, id), id)[k] == msgs[k].(isFavorite := Some(IsFavorite(msgs[k])))
  {
    var once := ToggleFavoriteIn(msgs, id);
    assert once[k].id == msgs[k].id;
  }

  /** Toggling the same id twice restores the list exactly when every matching entry had its flag set. */
  lemma ToggleFavoriteTwiceRestores(msgs: seq<Message>, id: string)
    ensures (forall k :: 0 <= k < |msgs| && msgs[k].id == id ==> msgs[k].isFavorite.Some?) <==>
            ToggleFavoriteIn(ToggleFavoriteIn(msgs, id), id) == msgs
  {
    var r := ToggleFavoriteIn(ToggleFavoriteIn(msgs, id), id);
    if forall k :: 0 <= k < |msgs| && msgs[k].id == id ==> msgs[k].isFavorite.Some? {
      forall k | 0 <= k < |msgs| ensures r[k] == msgs[k] {
        ToggleFavoriteTwiceAt(msgs, id, k);
        if msgs[k].id == id {
          var flag := msgs[k].isFavorite.value;
          assert IsFavorite(msgs[k]) == flag;
        }
      }
    }
    if r == msgs {
      forall k | 0 <= k < |msgs| && msgs[k].id == id ensures msgs[k].isFavorite.Some? {
        ToggleFavoriteTwiceAt(msgs, id, k);
        assert r[k].isFavorite.Some?;
      }
    }
  }

  /** The reverse of a sequence, defined by recursion on its head. */
  function Reversed(s: seq<Message>): (r: seq<Message>)
    ensures |r| == |s|
    ensures forall k :: 0 <= k < |s| ==> r[k] == s[|s| - 1 - k]
  {
    if s == [] then [] else Reversed(s[1..]) + [s[0]]
  }

  /** The list after archiving each message of `batch` in turn, starting from `msgs`. */
  function ArchiveAll(msgs: seq<Message>, batch: seq<Message>): seq<Message>
    decreases batch
  {
    if batch == [] then msgs else ArchiveAll(Prepend(batch[0], msgs), batch[1..])
  }

  /** Archiving m1, ..., mn in turn leaves [mn, ..., m1] in front of the old list. */
  lemma {:induction false} ArchiveAllNewestFirst(msgs: seq<Message>, batch: seq<Message>)
    ensures ArchiveAll(msgs, batch) == Reversed(batch) + msgs
    decreases batch
  {
    if batch != [] {
      ArchiveAllNewestFirst(Prepend(batch[0], msgs), batch[1..]);
      calc {
        ArchiveAll(msgs, batch);
        Reversed(batch[1..]) + ([batch[0]] + msgs);
        { assert Reversed(batch) == Reversed(batch[1..]) + [batch[0]]; }
        Reversed(batch) + msgs;
      }
    }
  }

  /** The state of one `useArchive` hook together with the value under its storage key. */
  class ArchiveStore {
    var messages: seq<Message>
    var loading: bool
    var error: Option<string>
    /** The stored list under the archive key; None when the key is absent. */
    var persisted: Option<seq<Message>>

    /** The hook's initial state over whatever storage already holds. */
    constructor (stored: Option<seq<Message>>)
      ensures messages == [] && loading && error == None && persisted == stored
    {
      messages := [];
      loading := true;
      error := None;
      persisted := stored;
    }

    /**
      `loadMessages`: a stored list replaces the in-memory one, an absent key
      keeps it; a failed read (or parse) sets the load error; loading ends on
      both paths.
     */
    method LoadMessages(readOk: bool)
      modifies this
      ensures !loading && persisted == old(persisted)
      ensures messages == if readOk && persisted.Some? then persisted.value else old(messages)
      ensures error == if readOk then old(error) else Some(LoadError)
    {
      if readOk {
        if persisted.Some? {
          messages := persisted.value;
        }
        loading := false;
      } else {
        error := Some(LoadError);
        loading := false;
      }
    }

    /** `archiveMessage`: on a successful write the message goes to the front of the list. */
    method ArchiveMessage(m: Message, writeOk: bool)
      modifies this
      ensures loading == old(loading)
      ensures writeOk ==> messages == Prepend(m, old(messages)) && persisted == Some(messages) && error == old(error)
      ensures !writeOk ==> messages == old(messages) && persisted == old(persisted) && error == Some(ArchiveError)
    {
      var newMessages := Prepend(m, messages);
      if writeOk {
        persisted := Some(newMessages);
        messages := newMessages;
      } else {
        error := Some(ArchiveError);
      }
    }

    /** `toggleFavorite`: on a successful write every entry with the id has its flag flipped. */
    method ToggleFavorite(id: string, writeOk: bool)
      modifies this
      ensures loading == old(loading)
      ensures writeOk ==> messages == ToggleFavoriteIn(old(messages), id) && persisted == Some(messages) && error == old(error)
      ensures !writeOk ==> messages == old(messages) && persisted == old(persisted) && error == Some(FavoriteError)
    {
      var updatedMessages := ToggleFavoriteIn(messages, id);
      if writeOk {
        persisted := Some(updatedMessages);
        messages := updatedMessages;
      } else {
        error := Some(FavoriteError);
      }
    }
  }

  /** The end-to-end archive scenario: archive A, favorite A, archive B gives [B, A] with A a favorite. */
  method ArchiveScenario(a: Message, b: Message)
    requires a.isFavorite == None && b.id != a.id
  {
    var store := new ArchiveStore(None);
    store.LoadMessages(true);
    assert store.messages == [];
    store.ArchiveMessage(a, true);
    assert store.messages == [a];
    store.ToggleFavorite(a.id, true);
    assert store.messages[0].isFavorite == Some(true);
    store.ArchiveMessage(b, true);
    assert store.messages == [b, a.(isFavorite := Some(true))];
    assert store.error == None;
  }
}
