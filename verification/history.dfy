/**
 * The undo/redo history of the poster editor, as values.
 *
 * The editor's whole document is an `AppState` (global configuration, the
 * default field values and the card list).  A `Timeline` is that present state
 * together with the two history stacks: `past` (oldest first, most recent
 * last) and `future` (the states undone, most recently undone last).  Every
 * editing action commits a new present state; undo and redo move one state
 * between the stacks and the present.
 */
module History {
  import opened Wrappers
  import opened Cards

  /** The global configuration record of the poster. */
  datatype Config = Config(
    theme: string,
    paper: string,
    orientation: string,
    layout: nat,                    // number of cards on the page
    backgroundImage: Option<string> // a data URL, or null
  )

  /** One `updateConfig(key, value)` call: which key is written, and with what. */
  datatype ConfigChange =
    | SetTheme(theme: string)
    | SetPaper(paper: string)
    | SetOrientation(orientation: string)
    | SetLayout(layout: nat)
    | SetBackgroundImage(image: Option<string>)

  /** `config[key] = value`: the named field takes the value, every other field keeps its own. */
  function Applied(c: Config, change: ConfigChange): (r: Config)
    ensures r.theme == (if change.SetTheme? then change.theme else c.theme)
    ensures r.paper == (if change.SetPaper? then change.paper else c.paper)
    ensures r.orientation == (if change.SetOrientation? then change.orientation else c.orientation)
    ensures r.layout == (if change.SetLayout? then change.layout else c.layout)
    ensures r.backgroundImage == (if change.SetBackgroundImage? then change.image else c.backgroundImage)
  {
    match change
    case SetTheme(t) => c.(theme := t)
    case SetPaper(p) => c.(paper := p)
    case SetOrientation(o) => c.(orientation := o)
    case SetLayout(n) => c.(layout := n)
    case SetBackgroundImage(i) => c.(backgroundImage := i)
  }

  /** The whole document: what a history snapshot holds. */
  datatype AppState = AppState(config: Config, defaults: Card, cards: seq<Card>)

  /** The state after `resizeCardsArray`: the card list brought to `config.layout` cards. */
  function LayoutApplied(s: AppState): (r: AppState)
    ensures r.config == s.config && r.defaults == s.defaults
    ensures |r.cards| == r.config.layout
  {
    s.(cards := Resized(s.cards, s.config.layout, s.defaults))
  }

  /** The most snapshots `past` keeps. */
  const MaxHistory: nat := 50

  /** `past.push(snapshot)` followed by one `shift()` when that overflows the cap. */
  function Pushed(past: seq<AppState>, snapshot: AppState): (r: seq<AppState>)
    ensures |r| > 0 && r[|r| - 1] == snapshot
    ensures |past| < MaxHistory ==> r == past + [snapshot]
    ensures |past| >= MaxHistory ==> r == past[1..] + [snapshot]
    ensures |past| <= MaxHistory ==> |r| <= MaxHistory
  {
    var p := past + [snapshot];
    if |p| > MaxHistory then p[1..] else p
  }

  /** The present state with both history stacks. */
  datatype Timeline = Timeline(present: AppState, past: seq<AppState>, future: seq<AppState>)

  /** The history bound: undo and redo together never hold more than `MaxHistory` snapshots. */
  predicate Bounded(t: Timeline) {
    |t.past| + |t.future| <= MaxHistory
  }

  /** An editing action: snapshot the present onto `past`, clear `future`, install `next`. */
  function Commit(t: Timeline, next: AppState): (r: Timeline)
    ensures r.present == next && r.future == []
    ensures r.past != [] && r.past[|r.past| - 1] == t.present
    ensures r.past == Pushed(t.past, t.present)
    ensures Bounded(t) ==> Bounded(r)
  {
    Timeline(next, Pushed(t.past, t.present), [])
  }

  /** `undo()`: nothing when `past` is empty; otherwise the top of `past` becomes the present. */
  function Undo(t: Timeline): (r: Timeline)
    ensures t.past == [] ==> r == t
    ensures t.past != [] ==> r.present == t.past[|t.past| - 1] && r.past == t.past[..|t.past| - 1]
    ensures t.past != [] ==> r.future == t.future + [t.present]
    ensures Bounded(t) ==> Bounded(r)
  {
    if t.past == [] then t
    else Timeline(t.past[|t.past| - 1], t.past[..|t.past| - 1], t.future + [t.present])
  }

  /** `redo()`: nothing when `future` is empty; otherwise the top of `future` becomes the present. */
  function Redo(t: Timeline): (r: Timeline)
    ensures t.future == [] ==> r == t
    ensures t.future != [] ==> r.present == t.future[|t.future| - 1] && r.future == t.future[..|t.future| - 1]
    ensures t.future != [] ==> r.past == t.past + [t.present]
    ensures Bounded(t) ==> Bounded(r)
  {
    if t.future == [] then t
    else Timeline(t.future[|t.future| - 1], t.past + [t.present], t.future[..|t.future| - 1])
  }

  /** Redo right after an effective undo gives back the timeline as it was before the undo. */
  lemma RedoUndoes(t: Timeline)
    requires t.past != []
    ensures Redo(Undo(t)) == t
  {
    var u := Undo(t);
    assert u.past + [u.present] == t.past;
  }

  /** Undo right after an effective redo gives back the timeline as it was before the redo. */
  lemma UndoRedoes(t: Timeline)
    requires t.future != []
    ensures Undo(Redo(t)) == t
  {
    var r := Redo(t);
    assert r.future + [r.present] == t.future;
  }

  /** Undo right after an action below the cap restores the state before the action. */
  lemma UndoCommit(t: Timeline, next: AppState)
    requires |t.past| < MaxHistory
    ensures Undo(Commit(t, next)) == Timeline(t.present, t.past, [next])
  {
    var c := Commit(t, next);
    assert c.past[..|c.past| - 1] == t.past;
  }

  /** The actions `nexts`, committed one after the other. */
  function CommitAll(t: Timeline, nexts: seq<AppState>): (r: Timeline)
    decreases |nexts|
  {
    if nexts == [] then t else CommitAll(Commit(t, nexts[0]), nexts[1..])
  }

  /** `undo()` called `n` times. */
  function UndoTimes(t: Timeline, n: nat): (r: Timeline)
  {
    if n == 0 then t else Undo(UndoTimes(t, n - 1))
  }

  /**
   * N actions followed by N undos restore the state before the first action,
   * and the past as it was, as long as no snapshot was evicted on the way.
   */
  lemma {:induction false} UndoAllRestores(t: Timeline, nexts: seq<AppState>)
    requires |t.past| + |nexts| <= MaxHistory
    ensures UndoTimes(CommitAll(t, nexts), |nexts|).present == t.present
    ensures UndoTimes(CommitAll(t, nexts), |nexts|).past == t.past
    decreases |nexts|
  {
    if nexts != [] {
      var t' := Commit(t, nexts[0]);
      var rest := nexts[1..];
      UndoAllRestores(t', rest);
      var mid := UndoTimes(CommitAll(t', rest), |rest|);
      assert CommitAll(t, nexts) == CommitAll(t', rest);
      assert UndoTimes(CommitAll(t, nexts), |nexts|) == Undo(mid);
      assert mid.past == t.past + [t.present];
      assert mid.past[..|mid.past| - 1] == t.past;
    }
  }

  /**
   * After N actions `past` holds the most recent snapshots in order: the last
   * `min(|t.past| + N, MaxHistory)` entries of the old past, the old present
   * and every installed state but the newest.
   */
  lemma {:induction false} CommitAllKeepsRecent(t: Timeline, nexts: seq<AppState>)
    requires |t.past| <= MaxHistory
    ensures var full := t.past + [t.present] + nexts;
            var n := if |t.past| + |nexts| < MaxHistory then |t.past| + |nexts| else MaxHistory;
            CommitAll(t, nexts).past == full[|full| - 1 - n .. |full| - 1]
    decreases |nexts|
  {
    var full := t.past + [t.present] + nexts;
    if nexts == [] {
      assert full[..|full| - 1] == t.past;
    } else {
      var t' := Commit(t, nexts[0]);
      var rest := nexts[1..];
      CommitAllKeepsRecent(t', rest);
      var full' := t'.past + [t'.present] + rest;
      CommitSlidesWindow(t, nexts[0], rest);
      assert nexts == [nexts[0]] + rest;
      var n := if |t.past| + |nexts| < MaxHistory then |t.past| + |nexts| else MaxHistory;
      var d := |full| - |full'|;
      SliceOfSuffix(full, d, |full'| - 1 - n, |full'| - 1);
    }
  }

  /** One action moves the window of kept snapshots one step along the states. */
  lemma CommitSlidesWindow(t: Timeline, next: AppState, rest: seq<AppState>)
    requires |t.past| <= MaxHistory
    ensures var full := t.past + [t.present] + ([next] + rest);
            var full' := Commit(t, next).past + [next] + rest;
            |full'| <= |full| && full' == full[|full| - |full'|..]
    ensures |Commit(t, next).past| == if |t.past| < MaxHistory then |t.past| + 1 else MaxHistory
  {
    var full := t.past + [t.present] + ([next] + rest);
    var full' := Commit(t, next).past + [next] + rest;
    if |t.past| < MaxHistory {
      assert full' == full;
    } else {
      assert full' == full[1..];
    }
  }

  /** A slice of a suffix is a slice of the whole sequence, shifted. */
  lemma SliceOfSuffix<T>(s: seq<T>, d: nat, i: nat, j: nat)
    requires d <= |s| && i <= j <= |s| - d
    ensures s[d..][i..j] == s[d + i .. d + j]
  {
  }

  /**
   * N actions followed by N undos bring back the state before the first
   * action for every N up to the cap, even when `past` is already full and
   * old snapshots are evicted on the way.
   */
  lemma {:induction false} UndoAllRestoresPresent(t: Timeline, nexts: seq<AppState>)
    requires |t.past| <= MaxHistory && |nexts| <= MaxHistory
    ensures UndoTimes(CommitAll(t, nexts), |nexts|).present == t.present
  {
    if nexts != [] {
      var r := CommitAll(t, nexts);
      CommitAllKeepsRecent(t, nexts);
      UndoTimesPops(r, |nexts|);
      var full := t.past + [t.present] + nexts;
      assert full[|t.past|] == t.present;
    }
  }

  /**
   * The eviction is observable: after an action at the cap, `MaxHistory`
   * undos reach the second-oldest snapshot, and one more undo does nothing.
   */
  lemma {:induction false} UndoAtCapStopsShort(t: Timeline, next: AppState)
    requires |t.past| == MaxHistory
    ensures UndoTimes(Commit(t, next), MaxHistory).past == []
    ensures UndoTimes(Commit(t, next), MaxHistory).present == t.past[1]
    ensures UndoTimes(Commit(t, next), MaxHistory + 1) == UndoTimes(Commit(t, next), MaxHistory)
  {
    var c := Commit(t, next);
    UndoTimesPops(c, MaxHistory);
  }

  /** `k` effective undos pop the top `k` snapshots of `past`. */
  lemma {:induction false} UndoTimesPops(t: Timeline, k: nat)
    requires k <= |t.past|
    ensures UndoTimes(t, k).past == t.past[..|t.past| - k]
    ensures k > 0 ==> UndoTimes(t, k).present == t.past[|t.past| - k]
  {
    if k > 0 {
      UndoTimesPops(t, k - 1);
    }
  }

  /**
   * A layout change is two actions (`updateConfig('layout', m)` and then
   * `resizeCardsArray()`), so a single undo lands on a state whose card count
   * no longer matches its layout: the card-count/layout equality holds after
   * `resizeCardsArray`, not for every state in the history.
   */
  lemma UndoSplitsLayoutChange(t: Timeline, m: nat)
    requires |t.present.cards| == t.present.config.layout != m
    ensures var changed := Commit(t, t.present.(config := Applied(t.present.config, SetLayout(m))));
            var u := Undo(Commit(changed, LayoutApplied(changed.present)));
            u.present.config.layout == m && |u.present.cards| != m
  {
  }
}
