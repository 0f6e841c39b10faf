/**
 * Persisting the progress part of the state to the browser's key-value store.
 * The store maps a key to a JSON value; the JSON encoding is taken to be the
 * identity, so a stored value is the property value itself.
 */
module Persistence {
  import opened Wrappers
  import opened GameState

  /** The key-value store: at most one value per key, other keys possibly present. */
  type Storage = map<string, Value>

  /** The storage key of a property: its name. */
  function Key(f: Field): string
  {
    match f
    case Tables => "tables"
    case CurrentIndex => "currentIndex"
    case CurrentTable => "currentTable"
    case CurrentQuestions => "currentQuestions"
    case Life => "life"
    case ClearTime => "clearTime"
    case RemainingTime => "remainingTime"
    case Score => "score"
    case Level => "level"
    case IsMenuOpen => "isMenuOpen"
  }

  /** Distinct properties are stored under distinct keys. */
  lemma KeyInjective(f: Field, g: Field)
    ensures Key(f) == Key(g) ==> f == g
  {
  }

  /** The persisted properties, in the order they are saved and loaded. */
  const Saved: seq<Field> := [Tables, Score, Level]

  /** The keys of a list of properties. */
  function Keys(fs: seq<Field>): set<string>
  {
    set f | f in fs :: Key(f)
  }

  /** Writes each property of `fs` of `s` under its key, in order. */
  function SaveFields(s: State, store: Storage, fs: seq<Field>): (r: Storage)
    ensures r.Keys == store.Keys + Keys(fs)
    ensures forall f :: f in fs ==> r[Key(f)] == Get(s, f)
    ensures forall k :: k in store && k !in Keys(fs) ==> r[k] == store[k]
    decreases |fs|
  {
    if |fs| == 0 then store
    else
      var rest := SaveFields(s, store[Key(fs[0]) := Get(s, fs[0])], fs[1..]);
      assert forall f :: f in fs ==> f == fs[0] || f in fs[1..];
      forall f | f in fs[1..] ensures Key(f) != Key(fs[0]) || f == fs[0] {
        KeyInjective(f, fs[0]);
      }
      forall f | Key(f) in Keys(fs[1..]) ensures f in fs[1..] {
        var g :| g in fs[1..] && Key(g) == Key(f);
        KeyInjective(f, g);
      }
      rest
  }

  /** `saveState`: stores `tables`, `score` and `level`; other keys keep their values. */
  function Save(s: State, store: Storage): (r: Storage)
    ensures r.Keys == store.Keys + {"tables", "score", "level"}
    ensures r["tables"] == TableList(s.tables)
    ensures r["score"] == Number(s.score)
    ensures r["level"] == Number(s.level)
    ensures forall k :: k in store && k !in {"tables", "score", "level"} ==> r[k] == store[k]
  {
    assert Keys(Saved) == {"tables", "score", "level"} by {
      assert Key(Tables) in Keys(Saved) && Key(Score) in Keys(Saved) && Key(Level) in Keys(Saved);
    }
    assert Tables in Saved && Score in Saved && Level in Saved;
    SaveFields(s, store, Saved)
  }

  /** One step of `loadState`: merges the stored value of `f`, if there is one
      of the right shape. */
  function LoadField(s: State, store: Storage, f: Field): (r: State)
    ensures Key(f) in store && Fits(f, store[Key(f)]) ==> Get(r, f) == store[Key(f)]
    ensures !(Key(f) in store && Fits(f, store[Key(f)])) ==> r == s
    ensures forall g :: g != f ==> Get(r, g) == Get(s, g)
  {
    if Key(f) in store then
      match Single(f, store[Key(f)])
      case Some(p) => SetState(s, p)
      case None => s
    else s
  }

  /** `loadState`: each of `tables`, `score`, `level` present in the store is
      merged into the state, in that order; absent keys and every other property
      are left alone. */
  function Load(s: State, store: Storage): (r: State)
    ensures "tables" in store && store["tables"].TableList? ==> r.tables == store["tables"].rows
    ensures !("tables" in store && store["tables"].TableList?) ==> r.tables == s.tables
    ensures "score" in store && store["score"].Number? ==> r.score == store["score"].n
    ensures !("score" in store && store["score"].Number?) ==> r.score == s.score
    ensures "level" in store && store["level"].Number? ==> r.level == store["level"].n
    ensures !("level" in store && store["level"].Number?) ==> r.level == s.level
    ensures r.currentIndex == s.currentIndex && r.currentTable == s.currentTable
    ensures r.currentQuestions == s.currentQuestions && r.life == s.life
    ensures r.clearTime == s.clearTime && r.remainingTime == s.remainingTime
    ensures r.isMenuOpen == s.isMenuOpen
  {
    var r1 := LoadField(s, store, Tables);
    var r2 := LoadField(r1, store, Score);
    LoadField(r2, store, Level)
  }

  /** Removes the key of each property of `fs`. */
  function ClearFields(store: Storage, fs: seq<Field>): (r: Storage)
    ensures r == store - Keys(fs)
    decreases |fs|
  {
    if |fs| == 0 then store
    else
      var rest := ClearFields(store - {Key(fs[0])}, fs[1..]);
      assert Keys(fs) == {Key(fs[0])} + Keys(fs[1..]) by {
        assert forall f :: f in fs <==> f == fs[0] || f in fs[1..];
      }
      rest
  }

  /** `clearSavedState`: removes `tables`, `score` and `level`; other keys stay. */
  function Clear(store: Storage): (r: Storage)
    ensures r.Keys == store.Keys - {"tables", "score", "level"}
    ensures forall k :: k in r ==> r[k] == store[k]
  {
    assert Keys(Saved) == {"tables", "score", "level"} by {
      assert Key(Tables) in Keys(Saved) && Key(Score) in Keys(Saved) && Key(Level) in Keys(Saved);
    }
    ClearFields(store, Saved)
  }

  /** Loading what was just saved from `s` gives any state `t` the progress of
      `s` and keeps the play properties of `t`. */
  lemma SaveLoad(s: State, t: State, store: Storage)
    ensures Load(t, Save(s, store)) == t.(tables := s.tables, score := s.score, level := s.level)
  {
  }

  /** Saving a state and loading it back into the same state changes nothing. */
  lemma SaveThenLoadIdentity(s: State, store: Storage)
    ensures Load(s, Save(s, store)) == s
  {
  }

  /** After the saved keys are removed, loading leaves the state unchanged. */
  lemma LoadAfterClear(s: State, store: Storage)
    ensures Load(s, Clear(store)) == s
  {
  }

  /** Save, then clear, then load: the load finds nothing and the state stays as it was. */
  lemma SaveClearLoad(s: State, t: State, store: Storage)
    ensures Load(t, Clear(Save(s, store))) == t
  {
  }

  /** What is saved depends only on the saved properties. */
  lemma SaveFieldsDepends(a: State, b: State, store: Storage, fs: seq<Field>)
    requires forall f :: f in fs ==> Get(a, f) == Get(b, f)
    ensures SaveFields(a, store, fs) == SaveFields(b, store, fs)
    decreases |fs|
  {
  }

  /** Saving after a play reset stores exactly what saving before it would. */
  lemma SaveIgnoresPlayReset(s: State, store: Storage)
    ensures Save(ResetPlayState(s), store) == Save(s, store)
  {
    var r := ResetPlayState(s);
    assert Get(r, Tables) == Get(s, Tables) && Get(r, Score) == Get(s, Score)
      && Get(r, Level) == Get(s, Level);
    SaveFieldsDepends(r, s, store, Saved);
  }

  /** Progress survives a full reset: after saving, resetting and loading, the
      state is the start-up state with the saved tables, score and level. Every
      other property, `currentQuestions` included, keeps its start-up value, so
      `currentQuestions` stays the first default table and does not follow the
      loaded tables. */
  lemma ProgressSurvivesReset(s: State, store: Storage)
    ensures Load(ResetState(s), Save(s, store))
         == InitialState().(tables := s.tables, score := s.score, level := s.level)
  {
  }

  /** The score scenario: set a score, save, reset (the score drops to 0), load,
      and the score set before the save is back. */
  lemma ScoreSurvivesReset(s: State, score: int, store: Storage)
    ensures ResetState(SetState(s, Empty.(score := Some(score)))).score == 0
    ensures
      var s1 := SetState(s, Empty.(score := Some(score)));
      Load(ResetState(s1), Save(s1, store)).score == score
  {
  }
}
