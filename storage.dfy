/** The first generation's file-backed store (src/Services/SoundBoardStorageService.cs).

    The backing file is the store's only state. Each public operation runs under one
    semaphore for its whole load-modify-write, so in this sequential model each method
    is one atomic step and two operations never interleave.

    The file is abstracted to what the deserializer makes of it. The pure functions
    `ListOutcome`, `AddOutcome` and `RemoveOutcome` give each operation's result and
    the file it leaves; the class's methods are proved to do exactly that, and the
    lemmas relate the functions to each other (round trips, no lost update). */
module Storage {
  import opened Common
  import opened Text
  import opened Models

  /** soundboards.json as the deserializer sees it. */
  datatype FileState =
    | Missing                          // no file at the path
    | Unparseable                      // content the deserializer rejects with a JsonException
    | JsonNull                         // the JSON literal `null`
    | Stored(boards: seq<BoardValue>)  // a JSON array of boards; a board whose title is absent or blank carries a blank title

  /** The diagnostics the store logs on its recovery paths. */
  datatype LogEvent =
    | CorruptFileReset                 // error: the file did not parse and was reseeded
    | RemoveTargetMissing(title: string)  // warning: no board matched a removal

  predicate AllTitled(bs: seq<BoardValue>) {
    forall i | 0 <= i < |bs| :: Titled(bs[i])
  }

  /** The three boards of `CreateDefaultSoundBoards`, in order. */
  function DefaultBoards(): (r: seq<BoardValue>)
    ensures |r| == 3 && AllTitled(r)
    ensures r[0].title == "Arcade Classics" && r[1].title == "Sci-Fi Toolkit" && r[2].title == "Fantasy Adventure"
  {
    var r := [
      BoardValue("Arcade Classics", "Relive the nostalgia of arcade cabinets with iconic sounds."),
      BoardValue("Sci-Fi Toolkit", "Spaceship bleeps, portal swirls, and synthetic ambiences."),
      BoardValue("Fantasy Adventure", "Quests, creatures, and spellcasting soundscapes for your campaign.")
    ];
    assert !IsWhiteSpace(r[0].title[0]) && !IsWhiteSpace(r[1].title[0]) && !IsWhiteSpace(r[2].title[0]);
    r
  }

  // ---------------------------------------------------------------------------
  // Loading

  /** What `LoadInternalAsync` returns: the defaults for a missing file, nothing for
      JSON null, and otherwise a copy of every stored board, where copying fails on
      a board with a blank title. An unparseable file is an error here. */
  function LoadedBoards(f: FileState): (r: Result<seq<BoardValue>>)
    ensures r.Success? ==> AllTitled(r.value)
    ensures r.Failure? <==> f.Unparseable? || (f.Stored? && !AllTitled(f.boards))
    ensures r.Failure? ==> r.error == (if f.Unparseable? then JsonParse else ArgumentBlank)
    ensures f.Stored? && r.Success? ==> r.value == f.boards
  {
    match f
    case Missing => Success(DefaultBoards())
    case Unparseable => Failure(JsonParse)
    case JsonNull => Success([])
    case Stored(bs) => if AllTitled(bs) then Success(bs) else Failure(ArgumentBlank)
  }

  /** The file after `LoadInternalAsync`: a missing file has been seeded with the
      defaults; every other file is untouched. */
  function AfterLoad(f: FileState): FileState {
    if f.Missing? then Stored(DefaultBoards()) else f
  }

  /** `GetSoundBoardsAsync`: the boards returned and the file afterwards. */
  function ListOutcome(f: FileState): (r: (Result<seq<BoardValue>>, FileState))
    ensures f.Missing? || f.Unparseable? ==> r == (Success(DefaultBoards()), Stored(DefaultBoards()))
    ensures f.JsonNull? ==> r == (Success([]), JsonNull)
    ensures f.Stored? ==> r.1 == f && (r.0.Success? <==> AllTitled(f.boards))
    ensures r.0.Success? ==> AllTitled(r.0.value) && (r.1 == Stored(r.0.value) || r.1 == JsonNull)
    ensures r.0.Failure? ==> r.0.error == ArgumentBlank && r.1 == f
  {
    var loaded := LoadedBoards(f);
    if loaded == Failure(JsonParse) then (Success(DefaultBoards()), Stored(DefaultBoards()))
    else (loaded, AfterLoad(f))
  }

  // ---------------------------------------------------------------------------
  // Removal by title

  /** `string.Equals(board.Title, title, StringComparison.OrdinalIgnoreCase)`. */
  predicate Matches(b: BoardValue, title: string) {
    EqualsIgnoreCase(b.title, title)
  }

  /** `List.RemoveAll` with that predicate: the boards that do not match, in their
      original order. */
  function RemoveMatching(bs: seq<BoardValue>, title: string): (r: seq<BoardValue>)
    ensures |r| <= |bs|
    ensures forall i | 0 <= i < |r| :: r[i] in bs && !Matches(r[i], title)
  {
    if bs == [] then []
    else if Matches(bs[0], title) then RemoveMatching(bs[1..], title)
    else [bs[0]] + RemoveMatching(bs[1..], title)
  }

  /** The number of boards that match: what `RemoveAll` reports. */
  function CountMatching(bs: seq<BoardValue>, title: string): nat {
    if bs == [] then 0
    else (if Matches(bs[0], title) then 1 else 0) + CountMatching(bs[1..], title)
  }

  /** RemoveAll works board by board: on a concatenation it is the concatenation
      of its results, so the kept boards keep their relative order. */
  lemma {:induction false} RemoveMatchingAppend(a: seq<BoardValue>, b: seq<BoardValue>, title: string)
    ensures RemoveMatching(a + b, title) == RemoveMatching(a, title) + RemoveMatching(b, title)
  {
    if a == [] {
      assert a + b == b;
    } else {
      assert (a + b)[0] == a[0];
      assert (a + b)[1..] == a[1..] + b;
      RemoveMatchingAppend(a[1..], b, title);
    }
  }

  /** Every board that does not match is kept; every board that matches is gone. */
  lemma {:induction false} RemoveMatchingKeeps(bs: seq<BoardValue>, title: string)
    ensures forall b | b in bs :: (b in RemoveMatching(bs, title) <==> !Matches(b, title))
  {
    if bs != [] {
      RemoveMatchingKeeps(bs[1..], title);
      forall b | b in bs
        ensures b in RemoveMatching(bs, title) <==> !Matches(b, title)
      {
        if b != bs[0] {
          assert b in bs[1..];
        }
      }
    }
  }

  /** The removed count is the number of matches, and it is zero exactly when no
      board matches, which is exactly when nothing changes. */
  lemma {:induction false} RemoveMatchingCount(bs: seq<BoardValue>, title: string)
    ensures |RemoveMatching(bs, title)| + CountMatching(bs, title) == |bs|
    ensures CountMatching(bs, title) == 0 <==> forall i | 0 <= i < |bs| :: !Matches(bs[i], title)
    ensures CountMatching(bs, title) == 0 <==> RemoveMatching(bs, title) == bs
  {
    if bs != [] {
      RemoveMatchingCount(bs[1..], title);
      if CountMatching(bs, title) == 0 {
        assert bs == [bs[0]] + bs[1..];
      } else {
        assert |RemoveMatching(bs, title)| < |bs|;
      }
      assert forall i | 1 <= i < |bs| :: bs[i] == bs[1..][i - 1];
    }
  }

  /** Removing the same title twice removes nothing the second time. */
  lemma {:induction false} RemoveMatchingIdempotent(bs: seq<BoardValue>, title: string)
    ensures RemoveMatching(RemoveMatching(bs, title), title) == RemoveMatching(bs, title)
  {
    var r := RemoveMatching(bs, title);
    RemoveMatchingCount(r, title);
  }

  /** Removal never brings back a board with a blank title. */
  lemma RemoveMatchingTitled(bs: seq<BoardValue>, title: string)
    requires AllTitled(bs)
    ensures AllTitled(RemoveMatching(bs, title))
  {
    var r := RemoveMatching(bs, title);
    forall i | 0 <= i < |r| ensures Titled(r[i]) {
      assert r[i] in bs;
    }
  }

  // ---------------------------------------------------------------------------
  // Add and remove as load-modify-write

  /** `AddSoundBoardAsync` on a non-null board with content `v`: load (seeding a
      missing file), copy the board (failing on a blank title), append, write. */
  function AddOutcome(f: FileState, v: BoardValue): (r: (Outcome, FileState))
    ensures r.0.Pass? <==> LoadedBoards(f).Success? && Titled(v)
    ensures r.0.Pass? ==> r.1 == Stored(LoadedBoards(f).value + [v])
    ensures r.0.Fail? ==> r.1 == AfterLoad(f)
    ensures r.0.Fail? ==> r.0.error == (if f.Unparseable? then JsonParse else ArgumentBlank)
  {
    var loaded := LoadedBoards(f);
    if loaded.Failure? then (Fail(loaded.error), f)
    else if !Titled(v) then (Fail(ArgumentBlank), AfterLoad(f))
    else (Pass, Stored(loaded.value + [v]))
  }

  /** `RemoveSoundBoardAsync` on a non-blank `title`: load (seeding a missing file),
      remove every board whose title matches it, and write only if the count of
      removed boards is not zero; otherwise warn. The third component says whether
      the warning was logged. */
  function RemoveOutcome(f: FileState, title: string): (r: (Outcome, FileState, bool))
    ensures r.0.Pass? <==> LoadedBoards(f).Success?
    ensures r.0.Fail? ==> r.1 == f && !r.2 && r.0.error == LoadedBoards(f).error
    ensures r.0.Pass? ==>
      var bs := LoadedBoards(f).value;
      && (r.2 <==> forall i | 0 <= i < |bs| :: !Matches(bs[i], title))
      && r.1 == (if r.2 then AfterLoad(f) else Stored(RemoveMatching(bs, title)))
  {
    var loaded := LoadedBoards(f);
    if loaded.Failure? then (Fail(loaded.error), f, false)
    else
      var kept := RemoveMatching(loaded.value, title);
      var removedCount := |loaded.value| - |kept|;
      RemoveMatchingCount(loaded.value, title);
      if removedCount == 0 then (Pass, AfterLoad(f), true) else (Pass, Stored(kept), false)
  }

  // ---------------------------------------------------------------------------
  // Properties that relate the operations

  /** Listing a missing file returns the three defaults and writes them; listing
      again reads the same three boards back from the file. */
  lemma ListSeedsDefaults()
    ensures ListOutcome(Missing) == (Success(DefaultBoards()), Stored(DefaultBoards()))
    ensures ListOutcome(ListOutcome(Missing).1) == ListOutcome(Missing)
  {
  }

  /** Whatever the store writes holds only boards with a non-blank title. */
  lemma WritesAreTitled(f: FileState, v: BoardValue, title: string)
    ensures ListOutcome(f).1 != f ==> ListOutcome(f).1.Stored? && AllTitled(ListOutcome(f).1.boards)
    ensures AddOutcome(f, v).1 != f ==> AddOutcome(f, v).1.Stored? && AllTitled(AddOutcome(f, v).1.boards)
    ensures RemoveOutcome(f, title).1 != f ==>
              RemoveOutcome(f, title).1.Stored? && AllTitled(RemoveOutcome(f, title).1.boards)
  {
    var loaded := LoadedBoards(f);
    if loaded.Success? {
      RemoveMatchingTitled(loaded.value, title);
    }
  }

  /** Save then list: listing a file that holds the boards just saved returns those
      boards, in order, and leaves the file as it is. */
  lemma SaveThenList(bs: seq<BoardValue>)
    requires AllTitled(bs)
    ensures ListOutcome(Stored(bs)) == (Success(bs), Stored(bs))
  {
  }

  /** Add then list: the listed boards are the previous ones with the new board at
      the end. */
  lemma AddThenList(f: FileState, v: BoardValue)
    requires AddOutcome(f, v).0.Pass?
    ensures ListOutcome(AddOutcome(f, v).1).0 == Success(LoadedBoards(f).value + [v])
  {
    var bs := LoadedBoards(f).value + [v];
    assert forall i | 0 <= i < |bs| :: Titled(bs[i]);
  }

  /** Two adds in sequence keep both boards, in the order they were added: the
      second add loads the state the first one wrote, so no update is lost. */
  lemma TwoAddsKeepBoth(f: FileState, a: BoardValue, b: BoardValue)
    requires LoadedBoards(f).Success? && Titled(a) && Titled(b)
    ensures AddOutcome(AddOutcome(f, a).1, b) == (Pass, Stored(LoadedBoards(f).value + [a, b]))
  {
    var bs := LoadedBoards(f).value + [a];
    assert forall i | 0 <= i < |bs| :: Titled(bs[i]);
    assert bs + [b] == LoadedBoards(f).value + [a, b];
  }

  /** After a successful remove, listing returns exactly the boards that did not
      match, in their original order. */
  lemma RemoveThenListKept(f: FileState, title: string)
    requires RemoveOutcome(f, title).0.Pass?
    ensures ListOutcome(RemoveOutcome(f, title).1).0 == Success(RemoveMatching(LoadedBoards(f).value, title))
  {
    var bs := LoadedBoards(f).value;
    var kept := RemoveMatching(bs, title);
    var out := RemoveOutcome(f, title);
    RemoveMatchingCount(bs, title);
    if out.2 {
      ListAfterLoad(f);
    } else {
      RemoveMatchingTitled(bs, title);
      SaveThenList(kept);
    }
  }

  /** Listing right after a successful load shows what the load returned. */
  lemma ListAfterLoad(f: FileState)
    requires LoadedBoards(f).Success?
    ensures ListOutcome(AfterLoad(f)) == (LoadedBoards(f), AfterLoad(f))
  {
  }

  /** A remove that matches nothing leaves a present file exactly as it was. */
  lemma RemoveNothingIsNoOp(bs: seq<BoardValue>, title: string)
    requires AllTitled(bs)
    requires forall i | 0 <= i < |bs| :: !Matches(bs[i], title)
    ensures RemoveOutcome(Stored(bs), title) == (Pass, Stored(bs), true)
  {
  }

  // ---------------------------------------------------------------------------
  // Boards as objects at the store's boundary

  /** `objs` holds exactly the contents `vs`, position by position. */
  ghost predicate Holds(objs: seq<SoundBoard>, vs: seq<BoardValue>)
    reads objs
  {
    |objs| == |vs| && forall i | 0 <= i < |objs| :: objs[i].Value() == vs[i]
  }

  /** No object appears twice. */
  ghost predicate Distinct(objs: seq<SoundBoard>) {
    forall i, j | 0 <= i < j < |objs| :: objs[i] != objs[j]
  }

  /** New objects with the given contents (the copies `CreateDefaultSoundBoards`
      and `Select(board => board.Clone())` produce). */
  method Materialize(vs: seq<BoardValue>) returns (objs: seq<SoundBoard>)
    requires AllTitled(vs)
    ensures Holds(objs, vs) && Distinct(objs)
    ensures forall i | 0 <= i < |objs| :: fresh(objs[i])
  {
    objs := [];
    var k := 0;
    while k < |vs|
      invariant 0 <= k <= |vs|
      invariant Holds(objs, vs[..k]) && Distinct(objs)
      invariant forall i | 0 <= i < |objs| :: fresh(objs[i])
    {
      var b := SoundBoard.New(Some(vs[k].title), Some(vs[k].description));
      objs := objs + [b.value];
      k := k + 1;
    }
  }

  /** `soundBoards.Select(board => board.Clone()).ToList()` in `SaveSoundBoardsAsync`:
      the content of a copy of every given board. The first element that cannot
      be copied decides the failure: a null element is a NullReferenceException, a
      board with a blank title fails in Clone. */
  method Snapshot(boards: seq<SoundBoard?>) returns (r: Result<seq<BoardValue>>)
    ensures r.Success? <==> forall i | 0 <= i < |boards| :: boards[i] != null && Titled(boards[i].Value())
    ensures r.Success? ==>
              && |r.value| == |boards|
              && forall i | 0 <= i < |boards| :: boards[i] != null && r.value[i] == boards[i].Value()
    ensures r.Failure? ==>
              exists i | 0 <= i < |boards| ::
                && (forall j | 0 <= j < i :: boards[j] != null && Titled(boards[j].Value()))
                && (boards[i] == null || !Titled(boards[i].Value()))
                && r.error == (if boards[i] == null then NullReference else ArgumentBlank)
  {
    var values := [];
    var k := 0;
    while k < |boards|
      invariant 0 <= k <= |boards|
      invariant |values| == k
      invariant forall i | 0 <= i < k :: boards[i] != null && Titled(boards[i].Value()) && values[i] == boards[i].Value()
    {
      var b := boards[k];
      if b == null {
        return Failure(NullReference);
      }
      var copy := b.Clone();
      if copy.Failure? {
        return Failure(copy.error);
      }
      values := values + [copy.value.Value()];
      k := k + 1;
    }
    return Success(values);
  }

  class SoundBoardStorageService {
    var file: FileState
    ghost var log: seq<LogEvent>

    constructor (initial: FileState)
      ensures file == initial && log == []
    {
      file := initial;
      log := [];
    }

    /** `SaveInternalAsync`: truncate the file and write the given boards. */
    method SaveInternal(vs: seq<BoardValue>)
      modifies this`file
      ensures file == Stored(vs)
    {
      file := Stored(vs);
    }

    /** `LoadInternalAsync`. */
    method LoadInternal() returns (r: Result<seq<BoardValue>>)
      modifies this`file
      ensures r == LoadedBoards(old(file)) && file == AfterLoad(old(file))
    {
      match file
      case Missing =>
        SaveInternal(DefaultBoards());
        r := Success(DefaultBoards());
      case Unparseable =>
        r := Failure(JsonParse);
      case JsonNull =>
        r := Success([]);
      case Stored(bs) =>
        r := if AllTitled(bs) then Success(bs) else Failure(ArgumentBlank);
    }

    /** `GetSoundBoardsAsync`: new board objects holding what `ListOutcome` says,
        with a parse error absorbed by reseeding the defaults. */
    method GetSoundBoards() returns (r: Result<seq<SoundBoard>>)
      modifies this
      ensures r.Success? <==> ListOutcome(old(file)).0.Success?
      ensures r.Failure? ==> r.error == ListOutcome(old(file)).0.error
      ensures r.Success? ==> Holds(r.value, ListOutcome(old(file)).0.value) && Distinct(r.value)
      ensures r.Success? ==> forall i | 0 <= i < |r.value| :: fresh(r.value[i])
      ensures file == ListOutcome(old(file)).1
      ensures log == old(log) + (if old(file).Unparseable? then [CorruptFileReset] else [])
    {
      var loaded := LoadInternal();
      if loaded.Failure? && loaded.error == JsonParse {
        log := log + [CorruptFileReset];
        SaveInternal(DefaultBoards());
        loaded := Success(DefaultBoards());
      }
      if loaded.Failure? {
        return Failure(loaded.error);
      }
      var boards := Materialize(loaded.value);
      return Success(boards);
    }

    /** `SaveSoundBoardsAsync`: replace the whole file with copies of exactly the
        given boards, in the given order; null is rejected before the file is
        touched, and a snapshot that fails leaves the file as it was. */
    method SaveSoundBoards(boards: Option<seq<SoundBoard?>>) returns (r: Outcome)
      modifies this`file
      ensures boards.None? ==> r == Fail(ArgumentNull) && file == old(file)
      ensures boards.Some? ==>
        && (r.Pass? <==> forall i | 0 <= i < |boards.value| :: boards.value[i] != null && Titled(boards.value[i].Value()))
        && (r.Pass? ==>
              && file.Stored? && |file.boards| == |boards.value|
              && forall i | 0 <= i < |boards.value| :: boards.value[i] != null && file.boards[i] == boards.value[i].Value())
        && (r.Fail? ==> file == old(file))
    {
      if boards.None? {
        return Fail(ArgumentNull);
      }
      var snapshot := Snapshot(boards.value);
      if snapshot.Failure? {
        return Fail(snapshot.error);
      }
      SaveInternal(snapshot.value);
      return Pass;
    }

    /** `AddSoundBoardAsync`: null is rejected before the file is touched;
        otherwise the file ends as `AddOutcome` says. */
    method AddSoundBoard(board: SoundBoard?) returns (r: Outcome)
      modifies this`file
      ensures board == null ==> r == Fail(ArgumentNull) && file == old(file)
      ensures board != null ==> (r, file) == AddOutcome(old(file), board.Value())
    {
      if board == null {
        return Fail(ArgumentNull);
      }
      var loaded := LoadInternal();
      if loaded.Failure? {
        return Fail(loaded.error);
      }
      var copy := board.Clone();
      if copy.Failure? {
        return Fail(copy.error);
      }
      SaveInternal(loaded.value + [copy.value.Value()]);
      return Pass;
    }

    /** `RemoveSoundBoardAsync`: a null or blank title is rejected before the file
        is touched; otherwise the file ends as `RemoveOutcome` says, and the
        warning is logged when nothing matched. */
    method RemoveSoundBoard(title: Option<string>) returns (r: Outcome)
      modifies this
      ensures CheckNotBlank(title).Fail? ==> r == CheckNotBlank(title) && file == old(file) && log == old(log)
      ensures CheckNotBlank(title).Pass? ==>
        var outcome := RemoveOutcome(old(file), title.value);
        && r == outcome.0 && file == outcome.1
        && log == old(log) + (if outcome.2 then [RemoveTargetMissing(title.value)] else [])
    {
      r := CheckNotBlank(title);
      if r.Fail? {
        return;
      }
      var loaded := LoadInternal();
      if loaded.Failure? {
        return Fail(loaded.error);
      }
      var kept := RemoveMatching(loaded.value, title.value);
      var removedCount := |loaded.value| - |kept|;
      if removedCount == 0 {
        log := log + [RemoveTargetMissing(title.value)];
        return Pass;
      }
      SaveInternal(kept);
    }
  }

  /** Save followed by list, on the objects: the listed boards are new objects
      equal by value to the saved ones, in the same order. */
  method SaveThenListBoards(store: SoundBoardStorageService, boards: seq<SoundBoard>)
    returns (listed: Result<seq<SoundBoard>>)
    requires forall i | 0 <= i < |boards| :: Titled(boards[i].Value())
    modifies store
    ensures listed.Success? && |listed.value| == |boards|
    ensures forall i | 0 <= i < |boards| :: listed.value[i].Value() == boards[i].Value() && fresh(listed.value[i])
  {
    var saved := store.SaveSoundBoards(Some(boards));
    ghost var vs := store.file.boards;
    assert AllTitled(vs);
    listed := store.GetSoundBoards();
  }

  /** Mutating a board after adding it does not change what was stored. */
  method AddThenRetitle(store: SoundBoardStorageService, board: SoundBoard, newTitle: string)
    requires LoadedBoards(store.file).Success? && Titled(board.Value())
    modifies store, board
    ensures store.file == Stored(LoadedBoards(old(store.file)).value + [old(board.Value())])
  {
    var added := store.AddSoundBoard(board);
    var _ := board.SetTitle(Some(newTitle));
  }
}
