/** Whose data the fleet console's two panes show: only answers for the call now focused,
    received since the focus settled on it, however stale or reordered the answers are. */
module ConsolePanes {
  import opened Sequences
  import opened Console
  import opened Keymap
  import opened ConsoleRuns

  function FocusOf(s: State): Option<Key> { Focus(s.nodes, s.sel) }

  /** The number of events after which the focus has been what it now is. */
  function Settled(l: Launch, xs: seq<Happening>): (c: nat)
    ensures c <= |xs|
  {
    if xs == [] then 0
    else
      var before := xs[..|xs| - 1];
      if FocusOf(After(l, xs)) == FocusOf(After(l, before)) then Settled(l, before) else |xs|
  }

  lemma {:induction false} SettledMeans(l: Launch, xs: seq<Happening>, i: nat)
    requires Settled(l, xs) <= i <= |xs|
    ensures FocusOf(After(l, xs[..i])) == FocusOf(After(l, xs))
  {
    if i < |xs| {
      SettledMeans(l, xs[..|xs| - 1], i);
      assert xs[..|xs| - 1][..i] == xs[..i];
    } else {
      assert xs[..i] == xs;
    }
  }

  predicate IsStatsFor(x: Happening, key: Option<Key>) {
    x.Received? && x.msg.StatsMsg? && key == Some(x.msg.key)
  }

  predicate IsLadderFor(x: Happening, key: Option<Key>) {
    x.Received? && x.msg.LadderMsg? && key == Some(x.msg.key)
  }

  /** The stats answers for a call, in order of arrival. */
  function StatsAnswers(xs: seq<Happening>, key: Option<Key>): seq<Stats> {
    if xs == [] then []
    else
      var x := xs[|xs| - 1];
      StatsAnswers(xs[..|xs| - 1], key) + if IsStatsFor(x, key) then [x.msg.stats] else []
  }

  /** The measured values among the answers, in order. */
  function Measured(answers: seq<Stats>, of: Stats -> Option<nat>): seq<nat> {
    if answers == [] then []
    else
      var v := of(answers[|answers| - 1]);
      Measured(answers[..|answers| - 1], of) + if v.Some? then [v.value] else []
  }

  function MosOf(s: Stats): Option<nat> { s.mos }
  function JitterOf(s: Stats): Option<nat> { s.jitter }

  function Newest<T>(s: seq<T>, n: nat): seq<T> { if |s| <= n then s else s[|s| - n..] }

  /** A pane that has shown these answers and nothing else. */
  function Shows(key: Option<Key>, answers: seq<Stats>): StatsPane {
    StatsPane(key, if answers == [] then None else Some(answers[|answers| - 1]),
              Newest(Measured(answers, MosOf), 120), Newest(Measured(answers, JitterOf), 120))
  }

  lemma PushIsNewest(all: seq<nat>, v: Option<nat>)
    ensures PushCapped(Newest(all, 120), v)
            == Newest(all + (if v.Some? then [v.value] else []), 120)
  {
  }

  lemma ShowsOneMore(key: Key, answers: seq<Stats>, stats: Stats)
    ensures StatsTaken(Shows(Some(key), answers), key, stats) == Shows(Some(key), answers + [stats])
  {
    assert (answers + [stats])[..|answers|] == answers;
    PushIsNewest(Measured(answers, MosOf), stats.mos);
    PushIsNewest(Measured(answers, JitterOf), stats.jitter);
  }

  /** What one event does to the stats pane: emptied when the focus moves, added to by an
      answer for the focus, otherwise untouched. */
  predicate StatsMoves(s: State, x: Happening, t: State) {
    if FocusOf(t) != FocusOf(s) then t.stats == Shows(FocusOf(t), [])
    else if IsStatsFor(x, FocusOf(s)) then t.stats == StatsTaken(s.stats, x.msg.key, x.msg.stats)
    else t.stats == s.stats
  }

  /** The same for the ladder; opening it again also forgets what it showed. */
  predicate LadderMoves(s: State, x: Happening, t: State) {
    if FocusOf(t) != FocusOf(s) then t.ladder.state == Loading
    else if IsLadderFor(x, FocusOf(s)) then t.ladder.state == Answered(x.msg)
    else t.ladder.state == s.ladder.state || t.ladder.state == Loading
  }

  function Answered(msg: Msg): LadderState
    requires msg.LadderMsg?
  {
    if msg.problem.Some? then Failed(msg.problem.value) else Ready(msg.messages)
  }

  lemma SelectMoves(s: State, e: Event, move: Move)
    requires Selected(s.nodes, s.sel) && Synced(s)
    ensures StatsMoves(s, Typed(e), Select(s, move)) && LadderMoves(s, Typed(e), Select(s, move))
  {
    MoveSelects(s, move);
    SyncMoves(s, e, MoveSelection(s, move));
  }

  /** A change of selection and then a sync empties the panes exactly when the focus moved. */
  lemma SyncMoves(s: State, e: Event, sel: Selection)
    requires Synced(s)
    ensures var t := SyncFocus(s.(sel := sel));
            StatsMoves(s, Typed(e), t) && LadderMoves(s, Typed(e), t)
  {
  }

  lemma PressMoves(s: State, e: Event, t: State, effect: Effect)
    requires Selected(s.nodes, s.sel) && Synced(s) && Does(s, t, effect)
    ensures StatsMoves(s, Typed(e), t) && LadderMoves(s, Typed(e), t)
  {
    if effect.Selects? { SelectMoves(s, e, effect.move); }
  }

  lemma RoleMoves(s: State, x: Happening)
    requires Synced(s) && x.Received? && (x.msg.RoleLearned? || x.msg.ActionOutcome?)
    ensures StatsMoves(s, x, Reduce(s, x.msg)) && LadderMoves(s, x, Reduce(s, x.msg))
  {
    RolesAreNotListed(s.nodes, Reduce(s, x.msg).nodes, s.sel.filter);
  }

  lemma ReduceMoves(s: State, x: Happening)
    requires Synced(s) && x.Received?
    ensures StatsMoves(s, x, Reduce(s, x.msg)) && LadderMoves(s, x, Reduce(s, x.msg))
  {
    if x.msg.RoleLearned? || x.msg.ActionOutcome? { RoleMoves(s, x); }
  }

  lemma OneStepMoves(s: State, x: Happening)
    requires FormReady(s.modal) && !s.shouldQuit && Selected(s.nodes, s.sel) && Synced(s)
    ensures StatsMoves(s, x, Step(s, x).app) && LadderMoves(s, x, Step(s, x).app)
  {
    if x.Received? {
      ReduceMoves(s, x);
    } else {
      var effect := PressDoes(s, x.event);
      PressMoves(s, x.event, Press(s, x.event).app, effect);
    }
  }

  lemma StepMoves(l: Launch, xs: seq<Happening>)
    requires l.names != [] && xs != [] && !After(l, xs[..|xs| - 1]).shouldQuit
    ensures var s, x := After(l, xs[..|xs| - 1]), xs[|xs| - 1];
            StatsMoves(s, x, After(l, xs)) && LadderMoves(s, x, After(l, xs))
  {
    AlwaysConsistent(l, xs[..|xs| - 1]);
    OneStepMoves(After(l, xs[..|xs| - 1]), xs[|xs| - 1]);
  }

  /** The answers shown after one more event. */
  function Onward(focus: Option<Key>, answers: seq<Stats>, x: Happening): seq<Stats> {
    answers + if IsStatsFor(x, focus) then [x.msg.stats] else []
  }

  lemma ShowsOnward(s: State, x: Happening, t: State, answers: seq<Stats>)
    requires StatsMoves(s, x, t) && s.stats == Shows(FocusOf(s), answers)
    ensures t.stats == Shows(FocusOf(t), if FocusOf(t) != FocusOf(s) then [] else Onward(FocusOf(s), answers, x))
  {
    if IsStatsFor(x, FocusOf(s)) { ShowsOneMore(x.msg.key, answers, x.msg.stats); }
    else { assert answers + [] == answers; }
  }

  lemma AnswersOnward(xs: seq<Happening>, c: nat, focus: Option<Key>)
    requires c < |xs|
    ensures StatsAnswers(xs[c..], focus) == Onward(focus, StatsAnswers(xs[..|xs| - 1][c..], focus), xs[|xs| - 1])
  {
    assert xs[c..][..|xs[c..]| - 1] == xs[..|xs| - 1][c..];
  }

  /** Main result: until it quits, the stats pane shows exactly the answers received for the
      focused call since the focus settled on it. */
  lemma {:induction false} StatsShowFocus(l: Launch, xs: seq<Happening>)
    requires l.names != [] && !After(l, xs).shouldQuit
    ensures After(l, xs).stats
            == Shows(FocusOf(After(l, xs)), StatsAnswers(xs[Settled(l, xs)..], FocusOf(After(l, xs))))
  {
    if xs == [] {
      FreshShowsNothing(l.names);
    } else {
      var ys, x := xs[..|xs| - 1], xs[|xs| - 1];
      StatsShowFocus(l, ys);
      StepMoves(l, xs);
      var s, t := After(l, ys), After(l, xs);
      ShowsOnward(s, x, t, StatsAnswers(ys[Settled(l, ys)..], FocusOf(s)));
      if FocusOf(t) == FocusOf(s) {
        AnswersOnward(xs, Settled(l, ys), FocusOf(s));
      } else {
        assert xs[|xs|..] == [];
      }
    }
  }

  /** Event `i` is the newest answer since event `c` for the focus, and gave this state. */
  ghost predicate LadderFrom(focus: Option<Key>, state: LadderState, xs: seq<Happening>, c: nat, i: nat) {
    && c <= i < |xs| && IsLadderFor(xs[i], focus) && state == Answered(xs[i].msg)
    && forall j :: i < j < |xs| ==> !IsLadderFor(xs[j], focus)
  }

  /** The ladder shows nothing, or the newest answer for the focus since event `c`. */
  ghost predicate LadderTrue(focus: Option<Key>, state: LadderState, xs: seq<Happening>, c: nat) {
    state.Loading? || exists i :: LadderFrom(focus, state, xs, c, i)
  }

  lemma LadderOnward(s: State, xs: seq<Happening>, t: State, c: nat)
    requires xs != [] && c < |xs|
    requires LadderMoves(s, xs[|xs| - 1], t) && FocusOf(s) == FocusOf(t)
    requires LadderTrue(FocusOf(s), s.ladder.state, xs[..|xs| - 1], c)
    ensures LadderTrue(FocusOf(t), t.ladder.state, xs, c)
  {
    if IsLadderFor(xs[|xs| - 1], FocusOf(s)) {
      assert LadderFrom(FocusOf(t), t.ladder.state, xs, c, |xs| - 1);
    } else if !t.ladder.state.Loading? {
      var i :| LadderFrom(FocusOf(s), s.ladder.state, xs[..|xs| - 1], c, i);
      assert LadderFrom(FocusOf(t), t.ladder.state, xs, c, i);
    }
  }

  /** Main result: until it quits, the ladder shows nothing or the newest answer for the
      focused call since the focus settled on it. */
  lemma {:induction false} LadderShowsFocus(l: Launch, xs: seq<Happening>)
    requires l.names != [] && !After(l, xs).shouldQuit
    ensures LadderTrue(FocusOf(After(l, xs)), After(l, xs).ladder.state, xs, Settled(l, xs))
  {
    if xs != [] {
      var ys := xs[..|xs| - 1];
      LadderShowsFocus(l, ys);
      StepMoves(l, xs);
      var s, t := After(l, ys), After(l, xs);
      if FocusOf(t) == FocusOf(s) { LadderOnward(s, xs, t, Settled(l, ys)); }
    }
  }
}
