/**
 * Forgetting a finished iteration: the journal is filtered in place, and diagnostics are moved to
 * the repeat's own level by a loop that deletes from and inserts into the map it ranges over. The
 * order of such a range is unspecified, and entries created meanwhile may be reached or not ("For
 * statements with range clause" in the Go specification).
 */
module Compaction {
  import opened Options
  import opened Decimal
  import opened Definition
  import opened State
  import opened Executor

  // ---------- merging ----------

  datatype Diagnostics = Diagnostics(
    attempts: int,
    firstStartedAt: Option<int>,
    lastStartedAt: Option<int>,
    completedAt: Option<int>,
    lastError: string,
    nextRunAt: Option<int>)

  const NOTHING := Diagnostics(0, None, None, None, "", None)

  function EarlierTime(left: Option<int>, right: Option<int>): (t: Option<int>)
    ensures t == left || t == right
    ensures left.Some? ==> t.Some? && t.value <= left.value
    ensures right.Some? ==> t.Some? && t.value <= right.value
  {
    if left.None? then right
    else if right.None? || left.value < right.value then left
    else right
  }

  /** Whether left is known and not before right. */
  predicate LaterTime(left: Option<int>, right: Option<int>) {
    left.Some? && (right.None? || left.value >= right.value)
  }

  predicate Latest(t: Option<int>, left: Option<int>, right: Option<int>) {
    && (t == left || t == right)
    && (left.Some? ==> t.Some? && left.value <= t.value)
    && (right.Some? ==> t.Some? && right.value <= t.value)
  }

  predicate Earliest(t: Option<int>, left: Option<int>, right: Option<int>) {
    && (t == left || t == right)
    && (left.Some? ==> t.Some? && t.value <= left.value)
    && (right.Some? ==> t.Some? && t.value <= right.value)
  }

  /** Attempts add up, the first start is the earliest, the last start and completion the latest. */
  function MergeDiagnostics(aggregate: Diagnostics, current: Diagnostics): (merged: Diagnostics)
    ensures merged.attempts == aggregate.attempts + current.attempts
    ensures Earliest(merged.firstStartedAt, aggregate.firstStartedAt, current.firstStartedAt)
    ensures Latest(merged.lastStartedAt, aggregate.lastStartedAt, current.lastStartedAt)
    ensures Latest(merged.completedAt, aggregate.completedAt, current.completedAt)
    ensures merged.nextRunAt
         == if LaterTime(current.lastStartedAt, aggregate.lastStartedAt) then current.nextRunAt else aggregate.nextRunAt
    ensures merged.lastError
         == if LaterTime(current.lastStartedAt, aggregate.lastStartedAt) && current.lastError != "" then current.lastError
            else aggregate.lastError
  {
    var counted := aggregate.(attempts := aggregate.attempts + current.attempts,
                              firstStartedAt := EarlierTime(aggregate.firstStartedAt, current.firstStartedAt));
    var started :=
      if LaterTime(current.lastStartedAt, counted.lastStartedAt) then
        counted.(lastStartedAt := current.lastStartedAt, nextRunAt := current.nextRunAt,
                 lastError := if current.lastError != "" then current.lastError else counted.lastError)
      else counted;
    if LaterTime(current.completedAt, started.completedAt) then started.(completedAt := current.completedAt)
    else started
  }

  // ---------- one turn of the range ----------

  type Book = map<Path, Diagnostics>

  /** The iteration being forgotten. */
  datatype Finished = Finished(path: Path, iteration: nat)
  {
    function Prefix(): Path {
      path + [Itoa(iteration)]
    }

    predicate Has(key: Path) {
      IsPrefix(Prefix(), key)
    }

    /** Where the entry of a finished iteration is added up: the same path without the iteration. */
    function Target(key: Path): Path
      requires Has(key)
    {
      path + key[|path| + 1..]
    }

    /** The only entry that is added up at key. */
    function Source(key: Path): Path
      requires IsPrefix(path, key)
    {
      Prefix() + key[|path|..]
    }
  }

  function At(book: Book, key: Path): Diagnostics {
    if key in book then book[key] else NOTHING
  }

  function Turn(f: Finished, book: Book, key: Path): Book {
    if key !in book || !f.Has(key) then book
    else
      var rest := book - {key};
      rest[f.Target(key) := MergeDiagnostics(At(rest, f.Target(key)), book[key])]
  }

  lemma SourceOfTarget(f: Finished, key: Path)
    requires f.Has(key)
    ensures IsPrefix(f.path, f.Target(key)) && f.Source(f.Target(key)) == key && f.Target(key) != key
  {
    assert key[..|f.Prefix()|] == f.Prefix();
    assert f.Target(key)[|f.path|..] == key[|f.path| + 1..];
    assert key == f.Prefix() + key[|f.path| + 1..];
    assert |f.Target(key)| == |key| - 1;
  }

  lemma TargetOfSource(f: Finished, key: Path)
    requires IsPrefix(f.path, key)
    ensures f.Has(f.Source(key)) && f.Target(f.Source(key)) == key
  {
    var source := f.Source(key);
    assert source[..|f.path| + 1] == f.Prefix();
    assert source[|f.path| + 1..] == key[|f.path|..];
    assert key == f.path + key[|f.path|..];
  }

  // ---------- the declared result ----------

  /** An entry whose target would again belong to the iteration: a child named like its number. */
  predicate Nested(f: Finished, key: Path) {
    IsPrefix(f.Prefix() + [Itoa(f.iteration)], key)
  }

  predicate NoNested(f: Finished, book: Book) {
    forall key :: key in book ==> !Nested(f, key)
  }

  predicate Fed(f: Finished, book: Book, key: Path) {
    IsPrefix(f.path, key) && f.Source(key) in book
  }

  function Feed(f: Finished, book: Book, key: Path): Diagnostics {
    if Fed(f, book, key) then MergeDiagnostics(At(book, key), book[f.Source(key)]) else At(book, key)
  }

  /** No entry of the iteration remains, each was merged into its target, all others are as before. */
  ghost predicate IsCompacted(f: Finished, book: Book, result: Book) {
    && (forall key :: key in result <==> !f.Has(key) && (key in book || Fed(f, book, key)))
    && (forall key :: key in result ==> result[key] == Feed(f, book, key))
  }

  /** Midway: the entries still to be reached are as they were, the others have been handled. */
  ghost predicate Midway(f: Finished, start: Book, book: Book, todo: set<Path>) {
    && (forall key :: key in todo ==> key in start)
    && (forall key :: f.Has(key) ==>
          && (key in book <==> key in todo)
          && (key in book ==> book[key] == start[key]))
    && (forall key :: !f.Has(key) ==>
          && (key in book <==> key in start || Reached(f, start, todo, key))
          && (key in book ==> book[key] == if Reached(f, start, todo, key) then Feed(f, start, key) else At(start, key)))
  }

  predicate Reached(f: Finished, start: Book, todo: set<Path>, key: Path) {
    Fed(f, start, key) && f.Source(key) !in todo
  }

  /** An entry is merged back into the iteration exactly when it is nested. */
  lemma NestedTarget(f: Finished, key: Path)
    requires f.Has(key)
    ensures Nested(f, key) <==> f.Has(f.Target(key))
  {
    var target := f.Target(key);
    assert key == f.Prefix() + key[|f.path| + 1..];
    if f.Has(target) {
      assert target == f.Prefix() + target[|f.path| + 1..];
      assert key[|f.path| + 1] == target[|f.path|] == Itoa(f.iteration);
      assert key[..|f.path| + 2] == f.Prefix() + [Itoa(f.iteration)];
    }
    if Nested(f, key) {
      assert key[..|f.path| + 2] == f.Prefix() + [Itoa(f.iteration)];
      assert key[|f.path| + 1] == (f.Prefix() + [Itoa(f.iteration)])[|f.path| + 1];
      assert target[..|f.path| + 1] == f.Prefix();
    }
  }

  /** Reaching an entry keeps the loop midway, whichever entry it is. */
  lemma TurnMidway(f: Finished, start: Book, book: Book, todo: set<Path>, key: Path)
    requires NoNested(f, start) && Midway(f, start, book, todo)
    ensures key in todo ==> Midway(f, start, Turn(f, book, key), todo - {key})
    ensures key !in todo ==> Turn(f, book, key) == book
  {
    if key in todo && f.Has(key) {
      var target, now, left := f.Target(key), Turn(f, book, key), todo - {key};
      NestedTarget(f, key);
      SourceOfTarget(f, key);
      forall k | !f.Has(k)
        ensures k in now <==> k in start || Reached(f, start, left, k)
        ensures k in now ==> now[k] == if Reached(f, start, left, k) then Feed(f, start, k) else At(start, k)
      {
        if k != target && IsPrefix(f.path, k) {
          TargetOfSource(f, k);
          assert f.Source(k) != key;
        }
      }
    } else if key in todo {
      forall k | !f.Has(k) && Fed(f, start, k) ensures f.Source(k) != key {
        TargetOfSource(f, k);
      }
    }
  }

  lemma MidwayStart(f: Finished, start: Book)
    ensures Midway(f, start, start, start.Keys)
  {
  }

  lemma StillThere(f: Finished, start: Book, book: Book, todo: set<Path>)
    requires Midway(f, start, book, todo)
    ensures todo <= book.Keys
  {
  }

  lemma MidwayEnd(f: Finished, start: Book, book: Book)
    requires Midway(f, start, book, {})
    ensures IsCompacted(f, start, book)
  {
  }

  lemma CompactedUnique(f: Finished, book: Book, a: Book, b: Book)
    requires IsCompacted(f, book, a) && IsCompacted(f, book, b)
    ensures a == b
  {
  }

  // ---------- the loops ----------

  /** The body of the range: one entry is deleted and merged into its target, which may be new. */
  method Move(f: Finished, book: Book, key: Path) returns (now: Book, created: set<Path>)
    ensures now == Turn(f, book, key)
    ensures created == now.Keys - book.Keys && |created| <= 1
  {
    now, created := book, {};
    if key in book && f.Has(key) {
      SourceOfTarget(f, key);
      now := now - {key};
      var target := f.Target(key);
      if target !in now {
        created := {target};
      }
      now := now[target := MergeDiagnostics(At(now, target), book[key])];
    }
  }

  /** The range over the diagnostics, visiting entries in any order and created ones perhaps. */
  method CompactDiagnostics(f: Finished, start: Book) returns (book: Book)
    requires NoNested(f, start)
    ensures IsCompacted(f, start, book)
  {
    hide Midway, IsCompacted, NoNested, Turn;
    book := start;
    var todo: set<Path>, created: set<Path> := start.Keys, {};
    MidwayStart(f, start);
    while todo != {}
      invariant Midway(f, start, book, todo)
      decreases 2 * |todo| + |created|
    {
      var key: Path;
      var again: bool := *;
      if again && created != {} {
        key :| key in created;
      } else {
        key :| key in todo;
      }
      TurnMidway(f, start, book, todo, key);
      if key !in todo {
        assert todo - {key} == todo;
      }
      var added: set<Path>;
      book, added := Move(f, book, key);
      Fewer(created, key, added);
      todo := todo - {key};
      created := created - {key} + added;
    }
    MidwayEnd(f, start, book);
  }

  lemma Fewer(created: set<Path>, key: Path, added: set<Path>)
    requires |added| <= 1
    ensures |created - {key} + added| <= |created| + 1
    ensures key in created && added == {} ==> |created - {key} + added| < |created|
  {
    assert |created - {key}| <= |created|;
    assert |created - {key} + added| <= |created - {key}| + |added|;
  }

  // ---------- any order at all ----------

  /**
   * The sequences of keys a range may produce: every original entry that is still there, once, and
   * any of the entries created on the way.
   */
  ghost predicate MayProduce(f: Finished, book: Book, todo: set<Path>, created: set<Path>, order: seq<Path>)
    decreases |order|
  {
    if order == [] then todo == {}
    else
      var key, now := order[0], Turn(f, book, order[0]);
      && (key in todo || key in created) && key in book
      && MayProduce(f, now, (todo - {key}) * now.Keys, (created - {key}) + (now.Keys - book.Keys), order[1..])
  }

  function Produced(f: Finished, book: Book, order: seq<Path>): Book
    decreases |order|
  {
    if order == [] then book else Produced(f, Turn(f, book, order[0]), order[1..])
  }

  lemma {:induction false} ProducesCompacted(f: Finished, start: Book, book: Book, todo: set<Path>, created: set<Path>, order: seq<Path>)
    requires NoNested(f, start) && Midway(f, start, book, todo)
    requires MayProduce(f, book, todo, created, order)
    ensures IsCompacted(f, start, Produced(f, book, order))
    decreases |order|
  {
    hide Midway, IsCompacted, NoNested, Turn;
    if order == [] {
      MidwayEnd(f, start, book);
    } else {
      var key, now := order[0], Turn(f, book, order[0]);
      TurnMidway(f, start, book, todo, key);
      if key !in todo {
        assert todo - {key} == todo;
      }
      StillThere(f, start, now, todo - {key});
      assert (todo - {key}) * now.Keys == todo - {key};
      ProducesCompacted(f, start, now, todo - {key}, (created - {key}) + (now.Keys - book.Keys), order[1..]);
    }
  }

  lemma TurnTotal(f: Finished, book: Book, key: Path)
    ensures Total(Turn(f, book, key)) == Total(book)
  {
    if key in book && f.Has(key) {
      var rest, target := book - {key}, f.Target(key);
      TotalOne(book, key);
      var merged := MergeDiagnostics(At(rest, target), book[key]);
      var now := rest[target := merged];
      TotalOne(now, target);
      assert now - {target} == rest - {target};
      if target in rest {
        TotalOne(rest, target);
      } else {
        assert rest - {target} == rest;
      }
    }
  }

  /** All attempts recorded anywhere. */
  ghost function Total(book: Book): int
    decreases |book|
  {
    if book == map[] then 0
    else
      var key :| key in book;
      TotalSmaller(book, key);
      book[key].attempts + Total(book - {key})
  }

  lemma TotalSmaller(book: Book, key: Path)
    requires key in book
    ensures |book - {key}| < |book|
  {
    assert (book - {key}).Keys == book.Keys - {key};
    assert |book.Keys - {key}| == |book.Keys| - 1;
  }

  lemma {:induction false} TotalOne(book: Book, key: Path)
    requires key in book
    ensures Total(book) == book[key].attempts + Total(book - {key})
    decreases |book|
  {
    var first :| first in book && Total(book) == book[first].attempts + Total(book - {first});
    if first != key {
      TotalSmaller(book, first);
      TotalSmaller(book, key);
      TotalOne(book - {first}, key);
      TotalOne(book - {key}, first);
      assert book - {first} - {key} == book - {key} - {first};
    }
  }

  /** No attempt is lost or counted twice - in any order, even where the order matters. */
  lemma {:induction false} AttemptsConserved(f: Finished, book: Book, order: seq<Path>)
    ensures Total(Produced(f, book, order)) == Total(book)
    decreases |order|
  {
    if order != [] {
      TurnTotal(f, book, order[0]);
      AttemptsConserved(f, Turn(f, book, order[0]), order[1..]);
    }
  }

  // ---------- exactly when the order does not matter ----------

  ghost predicate OneResult(f: Finished, book: Book) {
    forall a, b :: MayProduce(f, book, book.Keys, {}, a) && MayProduce(f, book, book.Keys, {}, b)
      ==> Produced(f, book, a) == Produced(f, book, b)
  }

  /** Every entry of the iteration is still to be reached, or was created on the way. */
  ghost predicate Accounted(f: Finished, book: Book, todo: set<Path>, created: set<Path>) {
    todo <= book.Keys && forall key :: key in book && f.Has(key) ==> key in todo || key in created
  }

  lemma TurnAccounted(f: Finished, book: Book, todo: set<Path>, created: set<Path>, key: Path)
    requires Accounted(f, book, todo, created) && key in todo
    ensures var now := Turn(f, book, key);
      && todo - {key} <= now.Keys
      && Accounted(f, now, todo - {key}, (created - {key}) + (now.Keys - book.Keys))
  {
    if f.Has(key) {
      SourceOfTarget(f, key);
    }
  }

  /** A nested entry can be reached last; the entry it creates is then reached, or not. */
  lemma {:induction false} TwoResults(f: Finished, book: Book, todo: set<Path>, created: set<Path>, nested: Path)
    returns (a: seq<Path>, b: seq<Path>)
    requires Accounted(f, book, todo, created)
    requires nested in todo && f.Has(nested) && f.Has(f.Target(nested))
    ensures MayProduce(f, book, todo, created, a) && MayProduce(f, book, todo, created, b)
    ensures Produced(f, book, a) != Produced(f, book, b)
    decreases |todo|
  {
    if exists key :: key in todo && key != nested {
      var key :| key in todo && key != nested;
      var now := Turn(f, book, key);
      var left := (created - {key}) + (now.Keys - book.Keys);
      TurnAccounted(f, book, todo, created, key);
      assert (todo - {key}) * now.Keys == todo - {key};
      var a', b' := TwoResults(f, now, todo - {key}, left, nested);
      a, b := [key] + a', [key] + b';
      assert a[1..] == a' && b[1..] == b';
    } else {
      var target := f.Target(nested);
      var now := Turn(f, book, nested);
      assert todo - {nested} == {};
      SourceOfTarget(f, nested);
      SourceOfTarget(f, target);
      var left := (created - {nested}) + (now.Keys - book.Keys);
      assert target in left && target in now && target !in Turn(f, now, target);
      a, b := [nested], [nested, target];
      assert a[1..] == [] && b[1..] == [target] && [target][1..] == [];
      assert Produced(f, now, [target]) == Turn(f, now, target);
    }
  }

  /**
   * Compaction gives one result whatever the range does, exactly when no child of the repeat is
   * named like the number of the iteration that is forgotten.
   */
  lemma OrderImmaterial(f: Finished, book: Book)
    ensures OneResult(f, book) <==> NoNested(f, book)
  {
    if NoNested(f, book) {
      forall a, b | MayProduce(f, book, book.Keys, {}, a) && MayProduce(f, book, book.Keys, {}, b)
        ensures Produced(f, book, a) == Produced(f, book, b)
      {
        MidwayStart(f, book);
        ProducesCompacted(f, book, book, book.Keys, {}, a);
        ProducesCompacted(f, book, book, book.Keys, {}, b);
        CompactedUnique(f, book, Produced(f, book, a), Produced(f, book, b));
      }
    } else {
      var nested :| nested in book && Nested(f, nested);
      PrefixOfNested(f, nested);
      NestedTarget(f, nested);
      var a, b := TwoResults(f, book, book.Keys, {}, nested);
    }
  }

  lemma PrefixOfNested(f: Finished, key: Path)
    requires Nested(f, key)
    ensures f.Has(key)
  {
    assert key[..|f.path| + 1] == key[..|f.path| + 2][..|f.path| + 1] == f.Prefix();
  }

  // ---------- journal and positions ----------

  /** Filters the journal in place: kept entries move to the front, in order. */
  method FilterCompleted(completed: array<CompletedStep>, prefix: Path) returns (kept: nat)
    modifies completed
    ensures kept <= completed.Length
    ensures completed[..kept] == Outside(old(completed[..]), prefix)
  {
    kept := 0;
    ghost var before := completed[..];
    for i := 0 to completed.Length
      invariant kept <= i
      invariant completed[..kept] == Outside(before[..i], prefix)
      invariant forall j :: i <= j < completed.Length ==> completed[j] == before[j]
    {
      assert before[..i + 1][..i] == before[..i];
      assert completed[i] == before[i];
      if !IsPrefix(prefix, completed[i].path) {
        completed[kept] := completed[i];
        kept := kept + 1;
      }
    }
    assert before[..completed.Length] == before;
  }

  /** Deletes the positions below a prefix while ranging over them, in any order. */
  method DeletePositions(positions: map<Path, RepeatState>, prefix: Path) returns (left: map<Path, RepeatState>)
    ensures left == map p | p in positions && !IsPrefix(prefix, p) :: positions[p]
  {
    left := positions;
    var todo: set<Path> := positions.Keys;
    while todo != {}
      invariant forall p :: p in left <==> p in positions && (p in todo || !IsPrefix(prefix, p))
      invariant forall p :: p in left ==> left[p] == positions[p]
      decreases |todo|
    {
      var key :| key in todo;
      if IsPrefix(prefix, key) {
        left := left - {key};
      }
      todo := todo - {key};
    }
  }

  /** What of a run state a compact repeat drops after one iteration. */
  method CompactRepeatIteration(state: RunState, path: Path, iteration: nat) returns (s: RunState)
    ensures s == CompactState(state, path, iteration)
  {
    var prefix := path + [Itoa(iteration)];
    var completed := new CompletedStep[|state.completedSteps|](i requires 0 <= i < |state.completedSteps| => state.completedSteps[i]);
    assert completed[..] == state.completedSteps;
    var kept := FilterCompleted(completed, prefix);
    var positions := DeletePositions(state.repeatStates, prefix);
    s := state.(completedSteps := completed[..kept], repeatStates := positions);
  }
}
