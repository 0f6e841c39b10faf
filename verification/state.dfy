/**
 * The game's single state record and the in-memory operations on it:
 * the shallow-merge `SetState`, the play reset and the full reset.
 */
module GameState {
  import opened Wrappers
  import opened Questions

  /** The session and progress state. `tables`, `score` and `level` are the
      progress that is persisted; the rest belongs to the current play. */
  datatype State = State(
    tables: seq<seq<Question>>,
    currentIndex: int,
    currentTable: int,
    currentQuestions: seq<Question>,
    life: int,
    clearTime: int,
    remainingTime: int,
    score: int,
    level: int,
    isMenuOpen: bool)

  /** The names of the state's properties. */
  datatype Field =
    | Tables | CurrentIndex | CurrentTable | CurrentQuestions | Life
    | ClearTime | RemainingTime | Score | Level | IsMenuOpen

  /** A property value as a JSON value: a number, a boolean, an array of
      questions or an array of such arrays. */
  datatype Value =
    | Number(n: int)
    | Flag(b: bool)
    | QuestionList(questions: seq<Question>)
    | TableList(rows: seq<seq<Question>>)

  /** The value of property `f` of `s`. */
  function Get(s: State, f: Field): Value
  {
    match f
    case Tables => TableList(s.tables)
    case CurrentIndex => Number(s.currentIndex)
    case CurrentTable => Number(s.currentTable)
    case CurrentQuestions => QuestionList(s.currentQuestions)
    case Life => Number(s.life)
    case ClearTime => Number(s.clearTime)
    case RemainingTime => Number(s.remainingTime)
    case Score => Number(s.score)
    case Level => Number(s.level)
    case IsMenuOpen => Flag(s.isMenuOpen)
  }

  /** `v` has the shape property `f` holds. */
  ghost predicate Fits(f: Field, v: Value)
  {
    match f
    case Tables => v.TableList?
    case CurrentQuestions => v.QuestionList?
    case IsMenuOpen => v.Flag?
    case _ => v.Number?
  }

  /** A partial state object: `None` where the patch has no such property. */
  datatype Patch = Patch(
    tables: Option<seq<seq<Question>>>,
    currentIndex: Option<int>,
    currentTable: Option<int>,
    currentQuestions: Option<seq<Question>>,
    life: Option<int>,
    clearTime: Option<int>,
    remainingTime: Option<int>,
    score: Option<int>,
    level: Option<int>,
    isMenuOpen: Option<bool>)

  /** The patch with no properties. */
  const Empty: Patch := Patch(None, None, None, None, None, None, None, None, None, None)

  /** The value the patch gives property `f`, if it has that property. */
  function Entry(p: Patch, f: Field): Option<Value>
  {
    match f
    case Tables => if p.tables.Some? then Some(TableList(p.tables.value)) else None
    case CurrentIndex => if p.currentIndex.Some? then Some(Number(p.currentIndex.value)) else None
    case CurrentTable => if p.currentTable.Some? then Some(Number(p.currentTable.value)) else None
    case CurrentQuestions => if p.currentQuestions.Some? then Some(QuestionList(p.currentQuestions.value)) else None
    case Life => if p.life.Some? then Some(Number(p.life.value)) else None
    case ClearTime => if p.clearTime.Some? then Some(Number(p.clearTime.value)) else None
    case RemainingTime => if p.remainingTime.Some? then Some(Number(p.remainingTime.value)) else None
    case Score => if p.score.Some? then Some(Number(p.score.value)) else None
    case Level => if p.level.Some? then Some(Number(p.level.value)) else None
    case IsMenuOpen => if p.isMenuOpen.Some? then Some(Flag(p.isMenuOpen.value)) else None
  }

  /** The shallow merge: every property the patch has takes the patch's value,
      every other property keeps its value. */
  function SetState(s: State, p: Patch): (r: State)
    ensures forall f :: Entry(p, f).Some? ==> Get(r, f) == Entry(p, f).value
    ensures forall f :: Entry(p, f).None? ==> Get(r, f) == Get(s, f)
  {
    State(
      p.tables.GetOr(s.tables),
      p.currentIndex.GetOr(s.currentIndex),
      p.currentTable.GetOr(s.currentTable),
      p.currentQuestions.GetOr(s.currentQuestions),
      p.life.GetOr(s.life),
      p.clearTime.GetOr(s.clearTime),
      p.remainingTime.GetOr(s.remainingTime),
      p.score.GetOr(s.score),
      p.level.GetOr(s.level),
      p.isMenuOpen.GetOr(s.isMenuOpen))
  }

  /** The patch that has only property `f`, set to `v`; none when `v` has the
      wrong shape for `f`. */
  function Single(f: Field, v: Value): (r: Option<Patch>)
    ensures r.Some? <==> Fits(f, v)
    ensures r.Some? ==> forall g :: Entry(r.value, g) == if g == f then Some(v) else None
  {
    match (f, v)
    case (Tables, TableList(ts)) => Some(Empty.(tables := Some(ts)))
    case (CurrentIndex, Number(n)) => Some(Empty.(currentIndex := Some(n)))
    case (CurrentTable, Number(n)) => Some(Empty.(currentTable := Some(n)))
    case (CurrentQuestions, QuestionList(qs)) => Some(Empty.(currentQuestions := Some(qs)))
    case (Life, Number(n)) => Some(Empty.(life := Some(n)))
    case (ClearTime, Number(n)) => Some(Empty.(clearTime := Some(n)))
    case (RemainingTime, Number(n)) => Some(Empty.(remainingTime := Some(n)))
    case (Score, Number(n)) => Some(Empty.(score := Some(n)))
    case (Level, Number(n)) => Some(Empty.(level := Some(n)))
    case (IsMenuOpen, Flag(b)) => Some(Empty.(isMenuOpen := Some(b)))
    case _ => None
  }

  /** Merging the empty patch changes nothing. */
  lemma SetStateEmpty(s: State)
    ensures SetState(s, Empty) == s
  {
  }

  /** Merging the same patch twice is merging it once. */
  lemma SetStateIdempotent(s: State, p: Patch)
    ensures SetState(SetState(s, p), p) == SetState(s, p)
  {
  }

  /** `b` where it has a value, `a` otherwise: one property of a combined patch. */
  function Pick<T>(a: Option<T>, b: Option<T>): Option<T>
  {
    if b.Some? then b else a
  }

  /** The merge of `q` into the merge of `p`: `q` wins where it has a property. */
  function Then(p: Patch, q: Patch): (r: Patch)
    ensures forall f :: Entry(r, f) == if Entry(q, f).Some? then Entry(q, f) else Entry(p, f)
  {
    Patch(
      Pick(p.tables, q.tables), Pick(p.currentIndex, q.currentIndex),
      Pick(p.currentTable, q.currentTable), Pick(p.currentQuestions, q.currentQuestions),
      Pick(p.life, q.life), Pick(p.clearTime, q.clearTime),
      Pick(p.remainingTime, q.remainingTime), Pick(p.score, q.score),
      Pick(p.level, q.level), Pick(p.isMenuOpen, q.isMenuOpen))
  }

  /** Two successive merges are one merge of the combined patch. */
  lemma SetStateThen(s: State, p: Patch, q: Patch)
    ensures SetState(SetState(s, p), q) == SetState(s, Then(p, q))
  {
  }

  /** The patch `resetPlayState` merges: the transient play properties. */
  const PlayDefaults: Patch :=
    Empty.(life := Some(5), clearTime := Some(0), currentIndex := Some(0),
           remainingTime := Some(9), isMenuOpen := Some(false))

  /** The properties of the current play, the ones `ResetPlayState` resets. */
  ghost predicate IsPlayField(f: Field)
  {
    f == Life || f == ClearTime || f == CurrentIndex || f == RemainingTime || f == IsMenuOpen
  }

  /** Starts a new play: full life, cleared timers, first question, menu closed;
      progress and the chosen table are kept. */
  function ResetPlayState(s: State): (r: State)
    ensures r.life == 5 && r.clearTime == 0 && r.currentIndex == 0
    ensures r.remainingTime == 9 && !r.isMenuOpen
    ensures r.tables == s.tables && r.score == s.score && r.level == s.level
    ensures r.currentTable == s.currentTable && r.currentQuestions == s.currentQuestions
  {
    SetState(s, PlayDefaults)
  }

  /** `ResetPlayState` changes exactly the play properties. */
  lemma ResetPlayStateFrame(s: State)
    ensures forall f :: !IsPlayField(f) ==> Get(ResetPlayState(s), f) == Get(s, f)
    ensures forall f :: IsPlayField(f) ==> Get(ResetPlayState(s), f) == Entry(PlayDefaults, f).value
  {
  }

  /** Resetting the play twice is resetting it once. */
  lemma ResetPlayStateIdempotent(s: State)
    ensures ResetPlayState(ResetPlayState(s)) == ResetPlayState(s)
  {
  }

  /** The default question set, built once from the authored matrix. */
  function DefaultTables(): (ts: seq<seq<Question>>)
    ensures Covers(DifficultyArrays, DefaultMaxTable) && ts == GetTables(DifficultyArrays, DefaultMaxTable)
    ensures |ts| == 8
    ensures forall i :: 0 <= i < 8 ==> |ts[i]| == 8
    ensures forall j :: 0 <= j < 8 ==> ts[0][j].table == 2
  {
    DefaultCovers();
    GetTables(DifficultyArrays, DefaultMaxTable)
  }

  /** The state at start-up: all tables, the first table's questions, full life,
      no score, level 1. */
  function InitialState(): (r: State)
    ensures r.tables == GetTables(DifficultyArrays, DefaultMaxTable) && |r.tables| == 8
    ensures r.currentTable == 2 && r.currentQuestions == r.tables[0]
    ensures forall j :: 0 <= j < |r.currentQuestions| ==> r.currentQuestions[j].table == 2
    ensures r.currentIndex == 0 && r.life == 5 && r.clearTime == 0 && r.remainingTime == 9
    ensures r.score == 0 && r.level == 1 && !r.isMenuOpen
  {
    var ts := DefaultTables();
    assert |ts[0]| == 8;
    State(ts, 0, 2, ts[0], 5, 0, 9, 0, 1, false)
  }

  /** The patch that has every property, set to `t`'s value. */
  function Snapshot(t: State): (p: Patch)
    ensures forall f :: Entry(p, f) == Some(Get(t, f))
  {
    Patch(Some(t.tables), Some(t.currentIndex), Some(t.currentTable), Some(t.currentQuestions),
          Some(t.life), Some(t.clearTime), Some(t.remainingTime), Some(t.score), Some(t.level),
          Some(t.isMenuOpen))
  }

  /** Merging a full snapshot replaces the whole state. */
  lemma SetStateSnapshot(s: State, t: State)
    ensures SetState(s, Snapshot(t)) == t
  {
  }

  /** Restores every property to its start-up value, progress included. */
  function ResetState(s: State): (r: State)
    ensures r == InitialState()
    ensures r.life == 5 && r.score == 0 && r.level == 1
  {
    SetState(s, Snapshot(InitialState()))
  }
}
