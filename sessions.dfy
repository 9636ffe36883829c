/**
 * The saved-session store (internal/session/session.go). `Add`, `Update`
 * and `Delete` each load the list, change it, and write it back. The file
 * is abstracted to a value: missing, unreadable, not a JSON list, or a
 * stored list; whether the write-back fails is a parameter.
 */
module Sessions {
  import opened Wrappers

  datatype Session = Session(
    id: string,
    name: string,
    host: string,
    port: int,
    user: string,
    authType: string,   // "" when omitted
    keyPath: string)    // "" when omitted

  datatype SessionFile =
    | NoFile                          // os.IsNotExist
    | Unreadable                      // any other read error
    | Malformed                       // not a JSON list of sessions
    | Stored(sessions: seq<Session>)

  datatype StoreError = ReadFailed | DecodeFailed | WriteFailed | NotFound(id: string)

  /** `Load` and `loadUnsafe`: no file reads as the empty list. */
  function LoadFile(file: SessionFile): (r: Result<seq<Session>, StoreError>)
    ensures file.NoFile? ==> r == Ok([])
    ensures file.Stored? ==> r == Ok(file.sessions)
    ensures r.Err? <==> file.Unreadable? || file.Malformed?
  {
    match file
    case NoFile => Ok([])
    case Unreadable => Err(ReadFailed)
    case Malformed => Err(DecodeFailed)
    case Stored(s) => Ok(s)
  }

  // ---------------------------------------------------------------------
  // The list operations, as functions
  // ---------------------------------------------------------------------

  /** The index of the first session whose ID is `id`, scanning from the front. */
  function FirstMatch(sessions: seq<Session>, id: string): (r: Option<nat>)
    ensures r.Some? ==> r.value < |sessions| && sessions[r.value].id == id
    ensures r.Some? ==> forall j :: 0 <= j < r.value ==> sessions[j].id != id
    ensures r.None? <==> forall j :: 0 <= j < |sessions| ==> sessions[j].id != id
  {
    if sessions == [] then None
    else if sessions[0].id == id then Some(0)
    else match FirstMatch(sessions[1..], id)
      case None => None
      case Some(k) => Some(k + 1)
  }

  /** The list `Update` writes back: the first session with `sess`'s ID replaced by `sess`. */
  function Replaced(sessions: seq<Session>, sess: Session): (r: Option<seq<Session>>)
    ensures r.None? <==> forall j :: 0 <= j < |sessions| ==> sessions[j].id != sess.id
    ensures r.Some? ==> |r.value| == |sessions|
    ensures r.Some? ==> exists i :: (
      && 0 <= i < |sessions| && sessions[i].id == sess.id && r.value[i] == sess
      && (forall j :: 0 <= j < i ==> sessions[j].id != sess.id)
      && (forall j :: 0 <= j < |sessions| && j != i ==> r.value[j] == sessions[j]))
  {
    match FirstMatch(sessions, sess.id)
    case None => None
    case Some(i) => Some(sessions[i := sess])
  }

  /** The list `Delete` writes back: the first session with ID `id` cut out. */
  function Removed(sessions: seq<Session>, id: string): (r: Option<seq<Session>>)
    ensures r.None? <==> forall j :: 0 <= j < |sessions| ==> sessions[j].id != id
    ensures r.Some? ==> |r.value| == |sessions| - 1
    ensures r.Some? ==> exists i :: (
      && 0 <= i < |sessions| && sessions[i].id == id
      && (forall j :: 0 <= j < i ==> sessions[j].id != id)
      && r.value == sessions[..i] + sessions[i + 1..])
  {
    match FirstMatch(sessions, id)
    case None => None
    case Some(i) => Some(sessions[..i] + sessions[i + 1..])
  }

  /** Deleting keeps every other session, each as often as before. */
  lemma RemovedKeepsOthers(sessions: seq<Session>, id: string, i: nat)
    requires FirstMatch(sessions, id) == Some(i)
    ensures Removed(sessions, id).Some?
    ensures multiset(Removed(sessions, id).value) + multiset{sessions[i]} == multiset(sessions)
  {
    assert Removed(sessions, id) == Some(sessions[..i] + sessions[i + 1..]);
    CutKeepsRest(sessions, i);
  }

  /** Cutting element `i` out of a sequence leaves the other elements. */
  lemma CutKeepsRest<T>(s: seq<T>, i: nat)
    requires i < |s|
    ensures multiset(s[..i] + s[i + 1..]) + multiset{s[i]} == multiset(s)
  {
    calc {
      multiset(s);
      { assert s == s[..i] + ([s[i]] + s[i + 1..]); }
      multiset(s[..i]) + multiset([s[i]] + s[i + 1..]);
      multiset(s[..i]) + multiset{s[i]} + multiset(s[i + 1..]);
      multiset(s[..i] + s[i + 1..]) + multiset{s[i]};
    }
  }

  /** Deleting keeps the other sessions in the same relative order. */
  lemma RemovedKeepsOrder(sessions: seq<Session>, id: string, i: nat)
    requires FirstMatch(sessions, id) == Some(i)
    ensures Removed(sessions, id).Some?
    ensures forall j :: 0 <= j < i ==> Removed(sessions, id).value[j] == sessions[j]
    ensures forall j :: i < j < |sessions| ==> Removed(sessions, id).value[j - 1] == sessions[j]
  {
    assert Removed(sessions, id) == Some(sessions[..i] + sessions[i + 1..]);
    CutKeepsOrder(sessions, i);
  }

  /** Cutting element `i` out of a sequence shifts the later elements down by one. */
  lemma CutKeepsOrder<T>(s: seq<T>, i: nat)
    requires i < |s|
    ensures forall j :: 0 <= j < i ==> (s[..i] + s[i + 1..])[j] == s[j]
    ensures forall j :: i < j < |s| ==> (s[..i] + s[i + 1..])[j - 1] == s[j]
  {
    var front, back := s[..i], s[i + 1..];
    forall j | i < j < |s|
      ensures (front + back)[j - 1] == s[j]
    {
      assert (front + back)[j - 1] == back[j - 1 - i];
    }
  }

  /**
   * `Add` does not check IDs. A session appended under an ID that is
   * already stored is shadowed: `Update` and `Delete` reach the older one.
   */
  lemma {:induction false} AppendedDuplicateIsShadowed(sessions: seq<Session>, sess: Session)
    requires exists j :: 0 <= j < |sessions| && sessions[j].id == sess.id
    ensures FirstMatch(sessions + [sess], sess.id) == FirstMatch(sessions, sess.id)
  {
    if sessions[0].id != sess.id {
      assert (sessions + [sess])[1..] == sessions[1..] + [sess];
      var j :| 0 <= j < |sessions| && sessions[j].id == sess.id;
      assert sessions[1..][j - 1].id == sess.id;
      AppendedDuplicateIsShadowed(sessions[1..], sess);
    }
  }

  // ---------------------------------------------------------------------
  // What each store operation does to the file
  // ---------------------------------------------------------------------

  /** The file after an operation, and the error the operation returned (`None` for nil). */
  datatype Effect = Effect(file: SessionFile, err: Option<StoreError>)

  /** `save`: the new list is written unless the write fails. */
  function Write(file: SessionFile, sessions: seq<Session>, writeFails: bool): (e: Effect)
    ensures e.err.None? <==> !writeFails
    ensures e.err.None? ==> LoadFile(e.file) == Ok(sessions)
    ensures e.err.Some? ==> e == Effect(file, Some(WriteFailed))
  {
    if writeFails then Effect(file, Some(WriteFailed)) else Effect(Stored(sessions), None)
  }

  /** `Add`: a load error aborts before anything is written; otherwise the session goes last. */
  function AddEffect(file: SessionFile, sess: Session, writeFails: bool): (e: Effect)
    ensures LoadFile(file).Err? ==> e == Effect(file, Some(LoadFile(file).error))
    ensures e.err.None? <==> LoadFile(file).Ok? && !writeFails
    ensures e.err.None? ==> LoadFile(e.file) == Ok(LoadFile(file).value + [sess])
    ensures e.err.Some? ==> e.file == file
  {
    match LoadFile(file)
    case Err(error) => Effect(file, Some(error))
    case Ok(sessions) => Write(file, sessions + [sess], writeFails)
  }

  /** `Update`: replaces the first session with `sess`'s ID, or fails with `NotFound`. */
  function UpdateEffect(file: SessionFile, sess: Session, writeFails: bool): (e: Effect)
    ensures LoadFile(file).Err? ==> e == Effect(file, Some(LoadFile(file).error))
    ensures LoadFile(file).Ok? && Replaced(LoadFile(file).value, sess).None? ==>
      e == Effect(file, Some(NotFound(sess.id)))
    ensures e.err.None? <==> LoadFile(file).Ok? && Replaced(LoadFile(file).value, sess).Some? && !writeFails
    ensures e.err.None? ==> LoadFile(e.file) == Ok(Replaced(LoadFile(file).value, sess).value)
    ensures e.err.Some? ==> e.file == file
  {
    match LoadFile(file)
    case Err(error) => Effect(file, Some(error))
    case Ok(sessions) =>
      match Replaced(sessions, sess)
      case None => Effect(file, Some(NotFound(sess.id)))
      case Some(updated) => Write(file, updated, writeFails)
  }

  /** `Delete`: cuts out the first session with ID `id`, or fails with `NotFound`. */
  function DeleteEffect(file: SessionFile, id: string, writeFails: bool): (e: Effect)
    ensures LoadFile(file).Err? ==> e == Effect(file, Some(LoadFile(file).error))
    ensures LoadFile(file).Ok? && Removed(LoadFile(file).value, id).None? ==>
      e == Effect(file, Some(NotFound(id)))
    ensures e.err.None? <==> LoadFile(file).Ok? && Removed(LoadFile(file).value, id).Some? && !writeFails
    ensures e.err.None? ==> LoadFile(e.file) == Ok(Removed(LoadFile(file).value, id).value)
    ensures e.err.Some? ==> e.file == file
  {
    match LoadFile(file)
    case Err(error) => Effect(file, Some(error))
    case Ok(sessions) =>
      match Removed(sessions, id)
      case None => Effect(file, Some(NotFound(id)))
      case Some(rest) => Write(file, rest, writeFails)
  }

  // ---------------------------------------------------------------------
  // The store
  // ---------------------------------------------------------------------

  /** `Store`: the file it reads and rewrites. A failed write leaves the file as it was. */
  class Store {
    var file: SessionFile

    constructor(file: SessionFile)
      ensures this.file == file
    {
      this.file := file;
    }

    /** `Load`: the stored list, the empty list when there is no file. */
    method Load() returns (r: Result<seq<Session>, StoreError>)
      ensures file.NoFile? ==> r == Ok([])
      ensures file.Stored? ==> r == Ok(file.sessions)
      ensures file.Unreadable? ==> r == Err(ReadFailed)
      ensures file.Malformed? ==> r == Err(DecodeFailed)
    {
      r := LoadFile(file);
    }

    /** `save`. */
    method Save(sessions: seq<Session>, writeFails: bool) returns (err: Option<StoreError>)
      modifies this
      ensures Effect(file, err) == Write(old(file), sessions, writeFails)
    {
      if writeFails {
        err := Some(WriteFailed);
      } else {
        file := Stored(sessions);
        err := None;
      }
    }

    /** `Add`: append at the end, whatever the ID. */
    method Add(sess: Session, writeFails: bool) returns (err: Option<StoreError>)
      modifies this
      ensures Effect(file, err) == AddEffect(old(file), sess, writeFails)
    {
      var loaded := Load();
      if loaded.Err? {
        return Some(loaded.error);
      }
      var sessions := loaded.value;
      sessions := sessions + [sess];
      err := Save(sessions, writeFails);
    }

    /** `Update`: replace the first session with the same ID, or report it missing. */
    method Update(sess: Session, writeFails: bool) returns (err: Option<StoreError>)
      modifies this
      ensures Effect(file, err) == UpdateEffect(old(file), sess, writeFails)
    {
      var loaded := Load();
      if loaded.Err? {
        return Some(loaded.error);
      }
      var sessions := loaded.value;
      var i := 0;
      while i < |sessions|
        invariant 0 <= i <= |sessions|
        invariant forall j :: 0 <= j < i ==> sessions[j].id != sess.id
      {
        if sessions[i].id == sess.id {
          assert FirstMatch(sessions, sess.id) == Some(i);
          sessions := sessions[i := sess];
          err := Save(sessions, writeFails);
          return;
        }
        i := i + 1;
      }
      err := Some(NotFound(sess.id));
    }

    /** `Delete`: cut out the first session with ID `id`, or report it missing. */
    method Delete(id: string, writeFails: bool) returns (err: Option<StoreError>)
      modifies this
      ensures Effect(file, err) == DeleteEffect(old(file), id, writeFails)
    {
      var loaded := Load();
      if loaded.Err? {
        return Some(loaded.error);
      }
      var sessions := loaded.value;
      var i := 0;
      while i < |sessions|
        invariant 0 <= i <= |sessions|
        invariant forall j :: 0 <= j < i ==> sessions[j].id != id
      {
        if sessions[i].id == id {
          assert FirstMatch(sessions, id) == Some(i);
          sessions := sessions[..i] + sessions[i + 1..];
          err := Save(sessions, writeFails);
          return;
        }
        i := i + 1;
      }
      err := Some(NotFound(id));
    }
  }
}
