/** The notifier's debounce map, pruned as it goes, against one that never forgets.

Times and windows are in nanoseconds. */
module Notifier {
  import opened Domain

  const OOB_WINDOW := 120_000_000_000

  datatype Event = Event(category: string, text: string, debounce: int)

  /** An event as it reaches the notifier: whether its category is switched on, and when. */
  datatype Input = Input(event: Event, enabled: bool, now: int)

  datatype State = State(lastSent: map<string, int>, lastRollback: Option<int>, longest: int)

  const FRESH := State(map[], None, 0)

  function Key(e: Event): string { e.category + "|" + e.text }

  function RollbackAfter(st: State, x: Input): Option<int> {
    if x.event.category == "rollback" then Some(x.now) else st.lastRollback
  }

  /** The notice of a revision changing behind one's back, which a rollback has just explained. */
  predicate Explained(st: State, x: Input) {
    x.event.category == "oob" && RollbackAfter(st, x).Some? && x.now - RollbackAfter(st, x).value < OOB_WINDOW
  }

  predicate TooSoon(st: State, x: Input) {
    x.event.debounce > 0 && Key(x.event) in st.lastSent && x.now - st.lastSent[Key(x.event)] < x.event.debounce
  }

  predicate Delivers(st: State, x: Input) { x.enabled && !Explained(st, x) && !TooSoon(st, x) }

  function Longest(st: State, x: Input): int { if x.event.debounce > st.longest then x.event.debounce else st.longest }

  function Younger(sent: map<string, int>, now: int, longest: int): map<string, int> {
    map key | key in sent && (longest == 0 || now - sent[key] < longest) :: sent[key]
  }

  /** The state after an input, with or without forgetting. */
  function Next(st: State, x: Input, forgets: bool): State {
    var rolled := st.(lastRollback := RollbackAfter(st, x));
    if !Delivers(st, x) || x.event.debounce <= 0 then rolled
    else
      var longest := Longest(st, x);
      var kept := if forgets then Younger(st.lastSent, x.now, longest) else st.lastSent;
      rolled.(lastSent := kept[Key(x.event) := x.now], longest := longest)
  }

  class NotifierState {
    var lastSent: map<string, int>
    var lastRollback: Option<int>
    var longestDebounce: int

    ghost function Now(): State reads this { State(lastSent, lastRollback, longestDebounce) }

    constructor ()
      ensures Now() == FRESH
    {
      lastSent, lastRollback, longestDebounce := map[], None, 0;
    }

    /** Drops the entries too old to hold anything back. */
    method Forget(now: int)
      modifies `lastSent
      ensures lastSent == Younger(old(lastSent), now, longestDebounce)
    {
      if longestDebounce == 0 { return; }
      var before := lastSent;
      var left := before.Keys;
      while left != {}
        invariant left <= before.Keys
        invariant lastSent == map key | key in before && (key in left || now - before[key] < longestDebounce) ::
          before[key]
      {
        var key :| key in left;
        left := left - {key};
        if now - before[key] >= longestDebounce {
          lastSent := lastSent - {key};
        }
      }
    }

    method ShouldDeliver(x: Input) returns (deliver: bool)
      modifies this
      ensures deliver == Delivers(old(Now()), x)
      ensures Now() == Next(old(Now()), x, true)
    {
      if x.event.category == "rollback" { lastRollback := Some(x.now); }
      if !x.enabled { return false; }
      if x.event.category == "oob" && lastRollback.Some? && x.now - lastRollback.value < OOB_WINDOW { return false; }
      if x.event.debounce > 0 {
        var key := Key(x.event);
        if key in lastSent && x.now - lastSent[key] < x.event.debounce { return false; }
        if x.event.debounce > longestDebounce { longestDebounce := x.event.debounce; }
        Forget(x.now);
        lastSent := lastSent[key := x.now];
      }
      return true;
    }
  }

  /** After a debounced event went out, every entry left is younger than the longest window seen. */
  lemma EntriesStayYoung(st: State, x: Input)
    requires Delivers(st, x) && x.event.debounce > 0
    ensures var after := Next(st, x, true);
      forall key :: key in after.lastSent ==> x.now - after.lastSent[key] < after.longest
  {
  }

  // ------------------------------------------------------------------
  // Against the notifier that never forgets
  // ------------------------------------------------------------------

  function Decisions(st: State, inputs: seq<Input>, forgets: bool): seq<bool>
    decreases inputs
  {
    if inputs == [] then []
    else [Delivers(st, inputs[0])] + Decisions(Next(st, inputs[0], forgets), inputs[1..], forgets)
  }

  ghost predicate Timed(inputs: seq<Input>) {
    forall i, j :: 0 <= i < j < |inputs| ==> inputs[i].now <= inputs[j].now
  }

  ghost predicate Drawn(inputs: seq<Input>, vocabulary: iset<Event>) {
    forall i :: 0 <= i < |inputs| ==> inputs[i].event in vocabulary
  }

  function Larger(a: int, b: int): int { if a < b then b else a }

  /** A key whose window varies can be forgotten too early by another key with a window shorter than
  the longest of its own. A rollback's own notice keeps an out-of-band one back for a while, so there
  the window has to outlast that too, whichever of the two comes first. */
  ghost predicate Clash(small: Event, large: Event, other: Event) {
    && Key(small) == Key(large) && Key(other) != Key(large)
    && 0 < small.debounce < large.debounce && 0 < other.debounce < large.debounce
    && (large.category == "oob" && other.category == "rollback" ==>
          Larger(small.debounce, other.debounce) + OOB_WINDOW < large.debounce)
    && (other.category == "oob" && small.category == "rollback" ==> OOB_WINDOW < large.debounce)
  }

  ghost predicate Harmless(vocabulary: iset<Event>) {
    forall small, large, other :: small in vocabulary && large in vocabulary && other in vocabulary ==>
      !Clash(small, large, other)
  }

  /** Every window fixed by its key is harmless; the shipped notifier holds back one category, by one
  window. */
  lemma FixedIsHarmless(vocabulary: iset<Event>)
    requires forall d, e :: d in vocabulary && e in vocabulary && Key(d) == Key(e) ==>
      d.debounce <= 0 || e.debounce <= 0 || d.debounce == e.debounce
    ensures Harmless(vocabulary)
  {
  }

  /** An entry made then cannot hold the event back any more: it is too old, or the last rollback
  does so until it is. */
  ghost predicate Spent(sent: int, lastRollback: Option<int>, e: Event, now: int) {
    || now - sent >= e.debounce
    || (e.category == "oob" && lastRollback.Some? && lastRollback.value - sent + OOB_WINDOW >= e.debounce)
  }

  /** What the pruned map has forgotten could no longer hold anything back. */
  ghost predicate Refines(pruned: State, full: State, vocabulary: iset<Event>, now: int) {
    && pruned.lastRollback == full.lastRollback && pruned.longest == full.longest
    && (forall key :: key in pruned.lastSent ==> key in full.lastSent && full.lastSent[key] == pruned.lastSent[key])
    && (forall key, e :: key in full.lastSent && key !in pruned.lastSent && e in vocabulary && Key(e) == key ==>
          Spent(full.lastSent[key], full.lastRollback, e, now))
    && (forall key :: key in full.lastSent ==> Recorded(full, vocabulary, key) && full.lastSent[key] <= now)
    && (full.lastRollback.Some? ==> full.lastRollback.value <= now)
  }

  /** An entry was made by an event of the vocabulary, whose window is not above the longest; if that
  was a rollback, the last one is no older. */
  ghost predicate Recorded(full: State, vocabulary: iset<Event>, key: string)
    requires key in full.lastSent
  {
    exists e :: e in vocabulary && Key(e) == key && Recorder(full, e)
  }

  ghost predicate Recorder(full: State, e: Event)
    requires Key(e) in full.lastSent
  {
    && 0 < e.debounce <= full.longest
    && (e.category == "rollback" ==> full.lastRollback.Some? && full.lastRollback.value >= full.lastSent[Key(e)])
  }

  lemma StepRefines(pruned: State, full: State, vocabulary: iset<Event>, before: int, x: Input)
    requires Refines(pruned, full, vocabulary, before) && Harmless(vocabulary) && x.event in vocabulary
      && before <= x.now
    ensures Delivers(pruned, x) == Delivers(full, x)
    ensures Refines(Next(pruned, x, true), Next(full, x, false), vocabulary, x.now)
  {
    hide Clash, Harmless, Recorded, Key;
    SameDecision(pruned, full, vocabulary, before, x);
    var p, f := Next(pruned, x, true), Next(full, x, false);
    RecordedStays(full, f, vocabulary, x);
    if Delivers(full, x) && x.event.debounce > 0 {
      forall key, e | key in f.lastSent && key !in p.lastSent && e in vocabulary && Key(e) == key
        ensures Spent(f.lastSent[key], f.lastRollback, e, x.now)
      {
        if key in pruned.lastSent { ForgottenInTime(full, vocabulary, x, e); }
      }
    }
  }

  lemma SameDecision(pruned: State, full: State, vocabulary: iset<Event>, before: int, x: Input)
    requires Refines(pruned, full, vocabulary, before) && x.event in vocabulary && before <= x.now
    ensures Delivers(pruned, x) == Delivers(full, x)
  {
    hide Recorded, Key;
  }

  lemma RecordedStays(full: State, after: State, vocabulary: iset<Event>, x: Input)
    requires after == Next(full, x, false) && x.event in vocabulary
    requires full.lastRollback.Some? ==> full.lastRollback.value <= x.now
    requires forall key :: key in full.lastSent ==> Recorded(full, vocabulary, key)
    ensures forall key :: key in after.lastSent ==> Recorded(after, vocabulary, key)
  {
    hide Key;
    forall key | key in after.lastSent ensures Recorded(after, vocabulary, key) {
      if after.lastSent != full.lastSent && key == Key(x.event) {
        assert Recorder(after, x.event);
      } else {
        var e :| e in vocabulary && Key(e) == key && Recorder(full, e);
        assert Recorder(after, e);
      }
    }
  }

  /** An entry is dropped only once no event of its key can be held back by it. */
  lemma ForgottenInTime(full: State, vocabulary: iset<Event>, x: Input, e: Event)
    requires Harmless(vocabulary) && x.event in vocabulary && e in vocabulary
    requires Key(e) in full.lastSent && Key(e) != Key(x.event) && Recorded(full, vocabulary, Key(e))
      && x.event.debounce > 0
    requires Delivers(full, x) && x.now - full.lastSent[Key(e)] >= Longest(full, x)
    ensures Spent(full.lastSent[Key(e)], RollbackAfter(full, x), e, x.now)
  {
    hide Key;
    var r :| r in vocabulary && Key(r) == Key(e) && Recorder(full, r);
    if e.debounce > r.debounce { assert !Clash(r, e, x.event); }
  }

  lemma {:induction false} DecisionsAgree(pruned: State, full: State, vocabulary: iset<Event>, before: int,
      inputs: seq<Input>)
    requires Refines(pruned, full, vocabulary, before) && Harmless(vocabulary)
    requires Timed(inputs) && Drawn(inputs, vocabulary) && (inputs != [] ==> before <= inputs[0].now)
    ensures Decisions(pruned, inputs, true) == Decisions(full, inputs, false)
    decreases inputs
  {
    hide Refines, Harmless, Delivers, Next;
    if inputs != [] {
      StepRefines(pruned, full, vocabulary, before, inputs[0]);
      DecisionsAgree(Next(pruned, inputs[0], true), Next(full, inputs[0], false), vocabulary, inputs[0].now,
        inputs[1..]);
    }
  }

  /** Forgetting changes no decision, for any timed sequence of events from a harmless vocabulary;
  in particular when every key has one fixed window. */
  lemma ForgettingIsInvisible(vocabulary: iset<Event>, inputs: seq<Input>)
    requires Harmless(vocabulary) && Timed(inputs) && Drawn(inputs, vocabulary)
    ensures Decisions(FRESH, inputs, true) == Decisions(FRESH, inputs, false)
  {
    hide Harmless, Delivers;
    if inputs != [] {
      assert Refines(FRESH, FRESH, vocabulary, inputs[0].now);
      DecisionsAgree(FRESH, FRESH, vocabulary, inputs[0].now, inputs);
    }
  }

  /** And a vocabulary with a clash has a run on which it shows: the key is sent with its small
  window, forgotten when the other event goes out, and sent again inside its large one. */
  lemma ClashShows(small: Event, large: Event, other: Event) returns (inputs: seq<Input>)
    requires Clash(small, large, other)
    ensures Timed(inputs) && Drawn(inputs, iset{small, large, other})
    ensures Decisions(FRESH, inputs, true) != Decisions(FRESH, inputs, false)
  {
    hide Key;
    if small.category == "rollback" { OtherCategory(small, large); }
    var later := Larger(small.debounce, other.debounce);
    if other.category == "oob" && small.category == "rollback" { later := Larger(later, OOB_WINDOW); }
    var last := if large.category == "oob" && other.category == "rollback" then later + OOB_WINDOW else later;
    var a, b, c := Input(small, true, 0), Input(other, true, later), Input(large, true, last);
    inputs := [a, b, c];
    var first := Next(FRESH, a, true);
    assert first == Next(FRESH, a, false) == State(map[Key(small) := 0], RollbackAfter(FRESH, a), small.debounce);
    var pruned, full := Next(first, b, true), Next(first, b, false);
    assert Key(small) !in pruned.lastSent && full.lastSent[Key(small)] == 0;
    assert Delivers(pruned, c) && !Delivers(full, c);
    ThirdDecision(FRESH, inputs, true);
    ThirdDecision(FRESH, inputs, false);
  }

  /** A rollback notice and an out-of-band one never share a key. */
  lemma OtherCategory(d: Event, e: Event)
    requires Key(d) == Key(e) && d.category == "rollback"
    ensures e.category != "oob"
  {
    assert Key(d)[0] == 'r';
  }

  lemma ThirdDecision(st: State, inputs: seq<Input>, forgets: bool)
    requires |inputs| == 3
    ensures |Decisions(st, inputs, forgets)| == 3
    ensures Decisions(st, inputs, forgets)[2]
      == Delivers(Next(Next(st, inputs[0], forgets), inputs[1], forgets), inputs[2])
  {
    hide Delivers, Next;
    var one, two := Next(st, inputs[0], forgets), Next(Next(st, inputs[0], forgets), inputs[1], forgets);
    assert inputs[1..][1..] == [inputs[2]] && [inputs[2]][1..] == [];
    assert Decisions(two, [inputs[2]], forgets) == [Delivers(two, inputs[2])];
    assert Decisions(one, inputs[1..], forgets) == [Delivers(one, inputs[1])] + Decisions(two, [inputs[2]], forgets);
  }

  /** Forgetting is invisible on every run over a vocabulary exactly when no three of its events clash. */
  lemma InvisibleIffHarmless(vocabulary: iset<Event>)
    ensures Harmless(vocabulary) <==>
      forall inputs :: Timed(inputs) && Drawn(inputs, vocabulary) ==>
        Decisions(FRESH, inputs, true) == Decisions(FRESH, inputs, false)
  {
    hide Clash, Decisions, Timed;
    if Harmless(vocabulary) {
      forall inputs | Timed(inputs) && Drawn(inputs, vocabulary)
        ensures Decisions(FRESH, inputs, true) == Decisions(FRESH, inputs, false)
      {
        ForgettingIsInvisible(vocabulary, inputs);
      }
    } else {
      var small, large, other :|
        small in vocabulary && large in vocabulary && other in vocabulary && Clash(small, large, other);
      var inputs := ClashShows(small, large, other);
      assert Drawn(inputs, vocabulary);
    }
  }

  /** The running notifier decides as the one that never forgets would. */
  method Run(inputs: seq<Input>, ghost vocabulary: iset<Event>) returns (decisions: seq<bool>)
    requires Harmless(vocabulary) && Timed(inputs) && Drawn(inputs, vocabulary)
    ensures decisions == Decisions(FRESH, inputs, false)
  {
    hide Harmless, Delivers, Next, Timed, Drawn;
    var st := new NotifierState();
    decisions := [];
    for i := 0 to |inputs|
      invariant fresh(st)
      invariant decisions + Decisions(st.Now(), inputs[i..], true) == Decisions(FRESH, inputs, true)
    {
      assert inputs[i..][1..] == inputs[i + 1..];
      var deliver := st.ShouldDeliver(inputs[i]);
      decisions := decisions + [deliver];
    }
    ForgettingIsInvisible(vocabulary, inputs);
  }

  // ------------------------------------------------------------------
  // What is delivered, said of the past
  // ------------------------------------------------------------------

  function StateBefore(inputs: seq<Input>, i: nat): State
    requires i <= |inputs|
  {
    if i == 0 then FRESH else Next(StateBefore(inputs, i - 1), inputs[i - 1], false)
  }

  predicate Decided(inputs: seq<Input>, i: nat)
    requires i < |inputs|
  {
    Delivers(StateBefore(inputs, i), inputs[i])
  }

  lemma {:induction false} DecisionsFrom(inputs: seq<Input>, i: nat)
    requires i <= |inputs|
    ensures Decisions(StateBefore(inputs, i), inputs[i..], false)
      == seq(|inputs| - i, k requires 0 <= k < |inputs| - i => Decided(inputs, i + k))
    decreases |inputs| - i
  {
    hide Delivers, Next;
    if i < |inputs| {
      assert inputs[i..][1..] == inputs[i + 1..];
      DecisionsFrom(inputs, i + 1);
    }
  }

  /** A rollback, its own notice included, that was less than two minutes ago. */
  ghost predicate RecentRollback(inputs: seq<Input>, i: nat)
    requires i < |inputs|
  {
    exists j :: 0 <= j <= i && inputs[j].event.category == "rollback" && inputs[i].now - inputs[j].now < OOB_WINDOW
  }

  /** An earlier event that was delivered and is itself held to a window. */
  ghost predicate SentBefore(inputs: seq<Input>, i: nat, j: nat)
    requires i <= |inputs|
  {
    j < i && inputs[j].event.debounce > 0 && Decided(inputs, j)
  }

  /** The same text was delivered within the event's window. */
  ghost predicate Repeated(inputs: seq<Input>, i: nat)
    requires i < |inputs|
  {
    && inputs[i].event.debounce > 0
    && exists j: nat :: j < i && SentBefore(inputs, i, j) && Key(inputs[j].event) == Key(inputs[i].event)
         && inputs[i].now - inputs[j].now < inputs[i].event.debounce
  }

  /** The state holds the time of the last rollback and, for each key, of what was last sent. */
  ghost predicate Remembers(st: State, inputs: seq<Input>, i: nat)
    requires i <= |inputs|
  {
    RemembersRollback(st.lastRollback, inputs, i) && RemembersSent(st.lastSent, inputs, i)
  }

  ghost predicate RemembersRollback(last: Option<int>, inputs: seq<Input>, i: nat)
    requires i <= |inputs|
  {
    && (last.Some? ==> RolledBackAt(inputs, i, last.value))
    && (forall j :: 0 <= j < i && inputs[j].event.category == "rollback" ==> last.Some? && inputs[j].now <= last.value)
  }

  ghost predicate RemembersSent(sent: map<string, int>, inputs: seq<Input>, i: nat)
    requires i <= |inputs|
  {
    && (forall key :: key in sent ==> SentAt(inputs, i, key, sent[key]))
    && (forall j: nat :: SentBefore(inputs, i, j) ==> NotAfter(sent, inputs[j]))
  }

  predicate NotAfter(sent: map<string, int>, x: Input) { Key(x.event) in sent && x.now <= sent[Key(x.event)] }

  ghost predicate RolledBackAt(inputs: seq<Input>, i: nat, time: int)
    requires i <= |inputs|
  {
    exists j :: 0 <= j < i && inputs[j].event.category == "rollback" && inputs[j].now == time
  }

  ghost predicate SentAt(inputs: seq<Input>, i: nat, key: string, time: int)
    requires i <= |inputs|
  {
    exists j: nat :: j < i && SentBefore(inputs, i, j) && Key(inputs[j].event) == key && inputs[j].now == time
  }

  lemma RollbackStep(last: Option<int>, inputs: seq<Input>, i: nat)
    requires Timed(inputs) && i < |inputs| && RemembersRollback(last, inputs, i)
    ensures RemembersRollback(if inputs[i].event.category == "rollback" then Some(inputs[i].now)
      else last, inputs, i + 1)
  {
  }

  lemma SentStep(sent: map<string, int>, inputs: seq<Input>, i: nat)
    requires Timed(inputs) && i < |inputs| && RemembersSent(sent, inputs, i)
    ensures RemembersSent(
      if Decided(inputs, i) && inputs[i].event.debounce > 0 then sent[Key(inputs[i].event) := inputs[i].now] else sent,
      inputs, i + 1)
  {
    hide Key, Decided;
    var sends := Decided(inputs, i) && inputs[i].event.debounce > 0;
    var after := if sends then sent[Key(inputs[i].event) := inputs[i].now] else sent;
    forall key | key in after ensures SentAt(inputs, i + 1, key, after[key]) {
      if sends && key == Key(inputs[i].event) {
        assert SentBefore(inputs, i + 1, i);
      } else {
        var j: nat :| j < i && SentBefore(inputs, i, j) && Key(inputs[j].event) == key && inputs[j].now == sent[key];
        assert SentBefore(inputs, i + 1, j);
      }
    }
    forall j: nat | SentBefore(inputs, i + 1, j) ensures NotAfter(after, inputs[j]) {
      if j < i { assert SentBefore(inputs, i, j); }
    }
  }

  lemma {:induction false} StateRemembers(inputs: seq<Input>, i: nat)
    requires Timed(inputs) && i <= |inputs|
    ensures Remembers(StateBefore(inputs, i), inputs, i)
  {
    hide Key, RemembersRollback, RemembersSent, Timed;
    if i == 0 {
      NothingRemembered(inputs);
    } else {
      StateRemembers(inputs, i - 1);
      RollbackStep(StateBefore(inputs, i - 1).lastRollback, inputs, i - 1);
      SentStep(StateBefore(inputs, i - 1).lastSent, inputs, i - 1);
    }
  }

  lemma NothingRemembered(inputs: seq<Input>)
    ensures RemembersRollback(None, inputs, 0) && RemembersSent(map[], inputs, 0)
  {
  }

  /** What is delivered, without a state: an event whose category is on, unless it is the out-of-band notice
  of a revision a rollback has just explained, or its text was delivered within its window. */
  lemma DeliveredIff(inputs: seq<Input>, i: nat)
    requires Timed(inputs) && i < |inputs|
    ensures |Decisions(FRESH, inputs, false)| == |inputs|
    ensures Decisions(FRESH, inputs, false)[i] <==>
      && inputs[i].enabled && !(inputs[i].event.category == "oob" && RecentRollback(inputs, i))
      && !Repeated(inputs, i)
  {
    hide Key, SentBefore, Timed, Explained, TooSoon, RecentRollback, Repeated, RemembersRollback, RemembersSent;
    DecisionsFrom(inputs, 0);
    assert inputs[0..] == inputs;
    StateRemembers(inputs, i);
    ExplainedIff(StateBefore(inputs, i), inputs, i);
    TooSoonIff(StateBefore(inputs, i), inputs, i);
    assert StateBefore(inputs, 0) == FRESH;
    assert Decisions(FRESH, inputs, false)[i] == Decided(inputs, 0 + i);
  }

  lemma ExplainedIff(st: State, inputs: seq<Input>, i: nat)
    requires i < |inputs| && RemembersRollback(st.lastRollback, inputs, i)
    ensures Explained(st, inputs[i]) <==> inputs[i].event.category == "oob" && RecentRollback(inputs, i)
  {
    if st.lastRollback.Some? {
      var j :| 0 <= j < i && inputs[j].event.category == "rollback" && inputs[j].now == st.lastRollback.value;
    }
  }

  lemma TooSoonIff(st: State, inputs: seq<Input>, i: nat)
    requires i < |inputs| && RemembersSent(st.lastSent, inputs, i)
    ensures TooSoon(st, inputs[i]) <==> Repeated(inputs, i)
  {
    hide Key, SentBefore;
    var key := Key(inputs[i].event);
    if TooSoon(st, inputs[i]) {
      assert SentAt(inputs, i, key, st.lastSent[key]);
      var j: nat :| j < i && SentBefore(inputs, i, j) && Key(inputs[j].event) == key
        && inputs[j].now == st.lastSent[key];
    }
    if Repeated(inputs, i) {
      var j: nat :| j < i && SentBefore(inputs, i, j) && Key(inputs[j].event) == key
        && inputs[i].now - inputs[j].now < inputs[i].event.debounce;
      assert NotAfter(st.lastSent, inputs[j]);
    }
  }

  // ------------------------------------------------------------------
  // Health alerts
  // ------------------------------------------------------------------

  datatype Health = Healthy | Unhealthy | Unknown

  datatype Signal = Down | Up

  datatype Watch = Watch(fails: nat, alerted: bool)

  datatype Reading = Reading(id: string, status: Health)

  function WatchOf(board: map<string, Watch>, id: string): Watch { if id in board then board[id] else Watch(0, false) }

  /** One reading: the second failure in a row raises the alert, recovery withdraws it. */
  function Observed(w: Watch, status: Health): (Watch, Option<Signal>) {
    match status
    case Unhealthy =>
      if w.fails + 1 == 2 && !w.alerted then (Watch(2, true), Some(Down)) else (Watch(w.fails + 1, w.alerted), None)
    case Healthy => if w.alerted then (Watch(0, false), Some(Up)) else (Watch(0, false), None)
    case Unknown => (Watch(0, w.alerted), None)
  }

  class HealthBoard {
    var fails: map<string, nat>
    var alerted: map<string, bool>

    ghost predicate Shows(board: map<string, Watch>)
      reads this
    {
      forall id :: WatchOf(board, id) == Watch(if id in fails then fails[id] else 0, id in alerted && alerted[id])
    }

    constructor ()
      ensures Shows(map[])
    {
      fails, alerted := map[], map[];
    }

    method Observe(reading: Reading, ghost board: map<string, Watch>) returns (signal: Option<Signal>)
      requires Shows(board)
      modifies this
      ensures signal == Observed(WatchOf(board, reading.id), reading.status).1
      ensures Shows(board[reading.id := Observed(WatchOf(board, reading.id), reading.status).0])
    {
      var id := reading.id;
      var isAlerted := id in alerted && alerted[id];
      signal := None;
      assert WatchOf(board, id) == Watch(if id in fails then fails[id] else 0, isAlerted);
      match reading.status {
        case Unhealthy =>
          fails := fails[id := (if id in fails then fails[id] else 0) + 1];
          if fails[id] == 2 && !isAlerted {
            alerted := alerted[id := true];
            signal := Some(Down);
          }
        case Healthy =>
          fails := fails[id := 0];
          if isAlerted {
            alerted := alerted[id := false];
            signal := Some(Up);
          }
        case Unknown =>
          fails := fails[id := 0];
      }
    }
  }

  function BoardAfter(readings: seq<Reading>): map<string, Watch> {
    if readings == [] then map[]
    else
      var board, last := BoardAfter(readings[..|readings| - 1]), readings[|readings| - 1];
      board[last.id := Observed(WatchOf(board, last.id), last.status).0]
  }

  /** The signals one tunnel got, in order, out of everybody's readings. */
  function Signals(readings: seq<Reading>, id: string): seq<Signal> {
    if readings == [] then []
    else
      var last := readings[|readings| - 1];
      var signal := Observed(WatchOf(BoardAfter(readings[..|readings| - 1]), last.id), last.status).1;
      Signals(readings[..|readings| - 1], id) + (if last.id == id && signal.Some? then [signal.value] else [])
  }

  /** However the readings of the tunnels interleave, the signals of each alternate, beginning with
  Down: no tunnel is reported down twice, or up without having been down. */
  lemma {:induction false} SignalsAlternate(readings: seq<Reading>, id: string)
    ensures var signals := Signals(readings, id);
      && (WatchOf(BoardAfter(readings), id).alerted <==> |signals| % 2 == 1)
      && forall i :: 0 <= i < |signals| ==> signals[i] == if i % 2 == 0 then Down else Up
  {
    if readings != [] {
      SignalsAlternate(readings[..|readings| - 1], id);
    }
  }

  // ---- when a tunnel is reported down ----

  /** One tunnel's readings, out of everybody's. */
  function StatusesOf(readings: seq<Reading>, id: string): seq<Health> {
    if readings == [] then []
    else
      var last := readings[|readings| - 1];
      StatusesOf(readings[..|readings| - 1], id) + (if last.id == id then [last.status] else [])
  }

  /** A failure right after a failure, and no recovery since. */
  ghost predicate DownSince(statuses: seq<Health>, i: int) {
    && 0 < i < |statuses| && statuses[i - 1] == Unhealthy && statuses[i] == Unhealthy
    && forall j :: i < j < |statuses| ==> statuses[j] != Healthy
  }

  /** Two failures in a row, and no recovery since. */
  ghost predicate InTrouble(statuses: seq<Health>) { exists i: int :: DownSince(statuses, i) }

  /** How many failures in a row there have been. */
  function Streak(statuses: seq<Health>): nat {
    if statuses == [] || statuses[|statuses| - 1] != Unhealthy then 0
    else Streak(statuses[..|statuses| - 1]) + 1
  }

  lemma TroubleGrows(h: seq<Health>, x: Health)
    ensures InTrouble(h + [x]) <==>
      (x != Healthy && InTrouble(h)) || (x == Unhealthy && h != [] && h[|h| - 1] == Unhealthy)
  {
    var g := h + [x];
    if InTrouble(g) {
      var i: int :| DownSince(g, i);
      assert g[|h|] == x;
      if i < |h| {
        assert forall j :: i < j < |h| ==> h[j] == g[j];
        assert DownSince(h, i);
      }
    }
    if x != Healthy && InTrouble(h) {
      var i: int :| DownSince(h, i);
      assert DownSince(g, i);
    }
    if x == Unhealthy && h != [] && h[|h| - 1] == Unhealthy { assert DownSince(g, |h|); }
  }

  /** A tunnel stands reported down just when it has failed twice in a row and not recovered since; not
  knowing is neither. */
  lemma {:induction false} ReportedDownIff(readings: seq<Reading>, id: string)
    ensures var w, h := WatchOf(BoardAfter(readings), id), StatusesOf(readings, id);
      (w.alerted <==> InTrouble(h)) && w.fails == Streak(h)
  {
    hide InTrouble;
    if readings == [] {
      NoTrouble();
    } else {
      var front, last := readings[..|readings| - 1], readings[|readings| - 1];
      ReportedDownIff(front, id);
      var h := StatusesOf(front, id);
      if last.id == id {
        TroubleGrows(h, last.status);
        assert (h + [last.status])[..|h|] == h;
        if Streak(h) >= 2 { RunIsTrouble(h); }
      } else {
        assert h + [] == h;
      }
    }
  }

  lemma NoTrouble()
    ensures !InTrouble([])
  {
  }

  lemma RunIsTrouble(h: seq<Health>)
    requires Streak(h) >= 2
    ensures InTrouble(h)
  {
    var front := h[..|h| - 1];
    assert front != [] && front[|front| - 1] == Unhealthy;
    assert h == front + [Unhealthy];
    TroubleGrows(front, Unhealthy);
  }
}
